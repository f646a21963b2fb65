/**
 * Loading a call's configuration from App, with the last answer kept for outages, and
 * saving the call log with retries (apps/voice-agent/src/services.ts).
 */
module RuntimeConfig {
  import opened Options

  // ---- Errors ----

  datatype Failure = ServiceError(status: int) | OtherError

  /** Nothing was decided: App was not reached, or failed itself; status 0 stands for no response. */
  predicate IsOutage(f: Failure) {
    f.OtherError? || f.status == 0 || f.status >= 500
  }

  /** A deliberate no, which takes the number's kept answer away. */
  predicate IsRefusal(f: Failure) {
    f.ServiceError? && f.status in {403, 404, 409, 410}
  }

  // ---- Lookups ----

  const CONFIG_MAX_STALE_MS := 24 * 60 * 60_000

  datatype Lookup = ByNumber(calledNumber: string) | TestCall(orgId: string)

  datatype Answer<C> = Config(config: C) | Passthrough | Failed(failure: Failure)

  datatype Loaded<C> = Fresh(config: C) | Stale(config: C) | Through | Threw(failure: Failure)

  /** One lookup: when its answer came, and what App answered. */
  datatype Asked<C> = Asked(lookup: Lookup, at: int, answer: Answer<C>)

  datatype Entry<C> = Entry(fetchedAt: int, config: C)

  /** The key under which a lookup may be cached; an empty number has none. */
  function KeyOf(lookup: Lookup): Option<string> {
    if lookup.ByNumber? && lookup.calledNumber != "" then Some(lookup.calledNumber) else None
  }

  // ---- What App said ----

  /** App decided: it sent a config, passed the call through, or refused the number. */
  predicate Definitive<C>(answer: Answer<C>) {
    !answer.Failed? || IsRefusal(answer.failure)
  }

  predicate Decides<C>(a: Asked<C>, key: string) {
    KeyOf(a.lookup) == Some(key) && Definitive(a.answer)
  }

  /** The last lookup of this number that App decided. */
  function LastDefinitive<C>(history: seq<Asked<C>>, key: string): (r: Option<nat>)
    ensures r.Some? ==> r.value < |history| && Decides(history[r.value], key)
    ensures forall i :: 0 <= i < |history| && Decides(history[i], key) ==> r.Some? && i <= r.value
  {
    if history == [] then None
    else if Decides(history[|history| - 1], key) then Some(|history| - 1)
    else LastDefinitive(history[..|history| - 1], key)
  }

  /** What that decision leaves to fall back on. */
  function Fallback<C>(history: seq<Asked<C>>, key: string): Option<Entry<C>> {
    var last := LastDefinitive(history, key);
    if last.Some? && history[last.value].answer.Config?
    then Some(Entry(history[last.value].at, history[last.value].answer.config)) else None
  }

  predicate Usable<C>(entry: Option<Entry<C>>, at: int) {
    entry.Some? && 0 <= at - entry.value.fetchedAt < CONFIG_MAX_STALE_MS
  }

  /** The answer a call gets, given everything App said before. */
  function Expected<C>(history: seq<Asked<C>>, a: Asked<C>): Loaded<C> {
    match a.answer
    case Config(config) => Fresh(config)
    case Passthrough => Through
    case Failed(failure) =>
      var key := KeyOf(a.lookup);
      if key.None? || !IsOutage(failure) then Threw(failure)
      else
        var entry := Fallback(history, key.value);
        if Usable(entry, a.at) then Stale(entry.value.config) else Threw(failure)
  }

  /**
   * A stale config was really given by App for this number less than a day before, and
   * since then App has decided nothing else about it: it failed, and never refused.
   */
  lemma StaleWasGiven<C>(history: seq<Asked<C>>, a: Asked<C>)
    requires Expected(history, a).Stale?
    ensures
      exists i :: 0 <= i < |history| && history[i].answer == Config(Expected(history, a).config)
        && KeyOf(history[i].lookup) == KeyOf(a.lookup)
        && 0 <= a.at - history[i].at < CONFIG_MAX_STALE_MS
        && forall j :: i < j < |history| && KeyOf(history[j].lookup) == KeyOf(a.lookup) ==>
             history[j].answer.Failed? && !IsRefusal(history[j].answer.failure)
  {
    var key := KeyOf(a.lookup).value;
    var i := LastDefinitive(history, key).value;
    assert Decides(history[i], key);
    forall j | i < j < |history| && KeyOf(history[j].lookup) == KeyOf(a.lookup)
      ensures history[j].answer.Failed? && !IsRefusal(history[j].answer.failure)
    {
      assert !Decides(history[j], key);
    }
  }

  /** No response came, or a server's error. */
  ghost predicate Unanswered(f: Failure) {
    f == OtherError || f == ServiceError(0) || (f.ServiceError? && f.status >= 500)
  }

  /** App sent a config, passed the call through, or refused. */
  ghost predicate Decided<C>(answer: Answer<C>) {
    answer.Failed? ==> answer.failure in {ServiceError(403), ServiceError(404), ServiceError(409), ServiceError(410)}
  }

  /** The i-th lookup is the last of this number that App decided. */
  ghost predicate LastDecision<C>(history: seq<Asked<C>>, number: string, i: int) {
    && 0 <= i < |history| && history[i].lookup == ByNumber(number) && Decided(history[i].answer)
    && forall j :: i < j < |history| && history[j].lookup == ByNumber(number) ==> !Decided(history[j].answer)
  }

  /** App gave this number's config less than a day before, has decided nothing about it since, and fails now. */
  ghost predicate KeptFor<C>(history: seq<Asked<C>>, a: Asked<C>, i: int) {
    && a.answer.Failed? && Unanswered(a.answer.failure)
    && a.lookup.ByNumber? && a.lookup.calledNumber != ""
    && LastDecision(history, a.lookup.calledNumber, i) && history[i].answer.Config?
    && 0 <= a.at - history[i].at < 86_400_000
  }

  /** What a call gets: what App says now, or the config it gave last, while App fails; else the failure. */
  ghost predicate Answers<C>(history: seq<Asked<C>>, a: Asked<C>, loaded: Loaded<C>) {
    match a.answer
    case Config(config) => loaded == Fresh(config)
    case Passthrough => loaded == Through
    case Failed(failure) =>
      && (forall i :: KeptFor(history, a, i) ==> loaded == Stale(history[i].answer.config))
      && ((forall i :: !KeptFor(history, a, i)) ==> loaded == Threw(failure))
  }

  lemma DecisionIsFound<C>(history: seq<Asked<C>>, number: string)
    requires number != ""
    ensures forall i :: LastDecision(history, number, i) <==> LastDefinitive(history, number) == Some(i)
  {
    assert forall a: Asked<C> :: Decides(a, number) <==> a.lookup == ByNumber(number) && Decided(a.answer);
    var last := LastDefinitive(history, number);
    hide Decided, LastDefinitive;
    if last.Some? { assert LastDecision(history, number, last.value); }
    forall i | LastDecision(history, number, i) ensures last == Some(i) {
      assert Decides(history[i], number);
      assert Decides(history[last.value], number);
    }
  }

  /** A kept config answers exactly then. */
  lemma KeptAnswersExactlyWhen<C>(history: seq<Asked<C>>, a: Asked<C>)
    ensures Answers(history, a, Expected(history, a))
  {
    if a.lookup.ByNumber? && a.lookup.calledNumber != "" {
      DecisionIsFound(history, a.lookup.calledNumber);
      hide LastDefinitive, LastDecision;
      var last := LastDefinitive(history, a.lookup.calledNumber);
      if Expected(history, a).Stale? { assert KeptFor(history, a, last.value); }
    }
  }

  /** A refusal, or the agent being turned off, ends the fallback at once. */
  lemma DecisionsEndTheFallback<C>(history: seq<Asked<C>>, no: Asked<C>, more: seq<Asked<C>>, a: Asked<C>)
    requires Definitive(no.answer) && !no.answer.Config? && KeyOf(no.lookup) == KeyOf(a.lookup)
    requires forall k :: 0 <= k < |more| ==> KeyOf(more[k].lookup) == KeyOf(a.lookup) ==> more[k].answer.Failed?
    ensures !Expected(history + [no] + more, a).Stale?
  {
    var all := history + [no] + more;
    if KeyOf(a.lookup).Some? {
      var key := KeyOf(a.lookup).value;
      assert Decides(all[|history|], key);
      var i := LastDefinitive(all, key).value;
      assert i == |history| || all[i] == more[i - |history| - 1];
    }
  }

  // ---- The loader ----

  /** The in-memory store and the loader over it; `history` records the lookups so far. */
  class Loader<C(==)> {
    var entries: map<string, Entry<C>>
    ghost var history: seq<Asked<C>>

    function Read(key: string): Option<Entry<C>>
      reads this
    {
      if key in entries then Some(entries[key]) else None
    }

    /** The store holds, for every number, what App's last decision about it left. */
    ghost predicate Valid()
      reads this
    {
      forall key :: Read(key) == Fallback(history, key)
    }

    constructor ()
      ensures Valid() && history == []
    {
      entries := map[];
      history := [];
    }

    /** App is always asked first; what it answered, and when, are parameters. */
    method Load(lookup: Lookup, answer: Answer<C>, now: int) returns (loaded: Loaded<C>)
      requires Valid()
      modifies this
      ensures Valid() && history == old(history) + [Asked(lookup, now, answer)]
      ensures loaded == Expected(old(history), Asked(lookup, now, answer))
      ensures Answers(old(history), Asked(lookup, now, answer), loaded)
      ensures KeyOf(lookup).None? ==> entries == old(entries)
    {
      var key := KeyOf(lookup);
      ghost var a := Asked(lookup, now, answer);
      DecisionAdded(history, a);
      KeptAnswersExactlyWhen(history, a);
      hide Answers;
      history := history + [a];
      match answer
      case Config(config) =>
        if key.Some? { entries := entries[key.value := Entry(now, config)]; }
        return Fresh(config);
      case Passthrough =>
        if key.Some? { entries := entries - {key.value}; }
        return Through;
      case Failed(failure) =>
        if key.None? { return Threw(failure); }
        if IsRefusal(failure) {
          entries := entries - {key.value};
          return Threw(failure);
        }
        var cached := if IsOutage(failure) then Read(key.value) else None;
        if cached.Some? && 0 <= now - cached.value.fetchedAt < CONFIG_MAX_STALE_MS {
          return Stale(cached.value.config);
        }
        return Threw(failure);
    }
  }

  /** Only a decision about the number itself changes what can be fallen back on. */
  lemma DecisionAdded<C>(history: seq<Asked<C>>, a: Asked<C>)
    ensures forall key ::
      Fallback(history + [a], key) ==
      if !Decides(a, key) then Fallback(history, key)
      else if a.answer.Config? then Some(Entry(a.at, a.answer.config)) else None
  {
    assert (history + [a])[..|history|] == history;
  }

  // ---- Saving the call log ----

  const FINISH_RETRY_DELAYS_MS: seq<nat> := [1_000, 4_000]

  predicate Retryable(f: Failure) {
    IsOutage(f) || f == ServiceError(429)
  }

  /** No response, too many requests, or a server's error. */
  ghost predicate WorthAnother(f: Failure) {
    f == OtherError || f == ServiceError(0) || f == ServiceError(429) || (f.ServiceError? && f.status >= 500)
  }

  /**
   * Attempts until one succeeds, fails for good, or the delays run out; `outcomes` says how
   * each attempt ends, None for success.
   */
  method FinishCallWithRetry(outcomes: nat -> Option<Failure>, delays: seq<nat>)
    returns (saved: bool, attempts: nat, slept: seq<nat>)
    ensures 1 <= attempts <= |delays| + 1
    ensures slept == delays[..attempts - 1] && Total(slept) <= Total(delays)
    ensures saved <==> exists k: nat :: k < attempts && outcomes(k).None?
    ensures forall k: nat :: k < attempts - 1 ==> outcomes(k).Some? && WorthAnother(outcomes(k).value)
    ensures !saved ==> attempts == |delays| + 1 || !WorthAnother(outcomes(attempts - 1).value)
  {
    var attempt: nat := 0;
    slept := [];
    while true
      invariant attempt <= |delays| && slept == delays[..attempt]
      invariant forall k: nat :: k < attempt ==> outcomes(k).Some? && WorthAnother(outcomes(k).value)
      decreases |delays| - attempt
    {
      var outcome := outcomes(attempt);
      WaitsAreBounded(delays, attempt + 1);
      if outcome.None? { return true, attempt + 1, slept; }
      if !Retryable(outcome.value) || attempt == |delays| { return false, attempt + 1, slept; }
      slept := slept + [delays[attempt]];
      attempt := attempt + 1;
    }
  }

  function Total(delays: seq<nat>): nat {
    if delays == [] then 0 else delays[0] + Total(delays[1..])
  }

  /** However many attempts it takes, their waits add up to no more than all the delays: by default, five seconds. */
  lemma {:induction false} WaitsAreBounded(delays: seq<nat>, attempts: nat)
    requires 1 <= attempts <= |delays| + 1
    ensures Total(delays[..attempts - 1]) <= Total(delays)
    ensures delays == FINISH_RETRY_DELAYS_MS ==> Total(delays) == 5_000
  {
    if delays == FINISH_RETRY_DELAYS_MS { assert delays[1..] == [4_000] && delays[1..][1..] == []; }
    if attempts > 1 {
      assert delays[..attempts - 1][1..] == delays[1..][..attempts - 2];
      WaitsAreBounded(delays[1..], attempts - 1);
    }
  }
}
