/**
 * The recording of a call (apps/voice-agent/src/recording.ts): one start, raced against a
 * timeout, and a stop that may come at any moment. The steps are what runs between two
 * turns of the event loop; any order of them is a run.
 */
module CallRecording {
  import opened Options

  // ---- State ----

  /** How far the one start of the egress has come. */
  datatype Launch = NotLaunched | Launching | Requested | Settled(id: Option<string>)

  /** Which promise of the race settled first: the one with the key, or one with null. */
  datatype Race = Running | Key | Null

  /** What the outside world saw. `results` are the values start() resolved with: true is the key. */
  datatype Seen = Seen(requests: nat, lateRequests: nat, stopCalls: seq<string>, results: seq<bool>, lateReports: nat)

  datatype State = State(
    api: bool, egressId: Option<string>, startCalled: bool, stopped: bool, stopping: bool, timedOut: bool,
    launch: Launch, race: Race, returned: bool, seen: Seen)

  const FRESH := State(
    false, None, false, false, false, false, NotLaunched, Running, false, Seen(0, 0, [], [], 0))

  datatype LaunchResult = Asked | NoClient | StartThrew

  datatype Event =
    | Start(configured: bool)
    | Launches(result: LaunchResult)    // the microtask after start()
    | Settles(id: Option<string>)       // the egress service answers: an id, or a failure
    | TimesOut
    | Returns                           // start() wakes up from the race
    | Stop

  // ---- Steps ----

  /** An empty id counts as none: the source tests `!egressId`. */
  function EgressStopped(s: State): State {
    if !s.api || s.egressId.None? || s.egressId.value == "" || s.stopping then s
    else s.(stopping := true, seen := s.seen.(stopCalls := s.seen.stopCalls + [s.egressId.value]))
  }

  function Resolved(s: State, key: bool): State {
    s.(race := if s.race != Running then s.race else if key then Key else Null)
  }

  function StartStep(s: State, configured: bool): State {
    if s.startCalled || s.stopped then s.(seen := s.seen.(results := s.seen.results + [false]))
    else if !configured then s.(startCalled := true, seen := s.seen.(results := s.seen.results + [false]))
    else s.(startCalled := true, launch := Launching)
  }

  function LaunchStep(s: State, result: LaunchResult): State {
    if s.launch != Launching then s else
    match result
    case NoClient => Resolved(s.(launch := Settled(None)), false)
    case StartThrew => Resolved(s.(api := true, launch := Settled(None)), false).(seen := Asking(s))
    case Asked => s.(api := true, launch := Requested, seen := Asking(s))
  }

  function Asking(s: State): Seen {
    s.seen.(requests := s.seen.requests + 1, lateRequests := s.seen.lateRequests + if s.stopped then 1 else 0)
  }

  function SettleStep(s: State, id: Option<string>): State {
    if s.launch != Requested then s
    else if id.None? then Resolved(s.(launch := Settled(None)), false)
    else
      var s1 := s.(launch := Settled(id), egressId := id);
      var s2 := if s1.stopped then EgressStopped(s1) else s1;
      var s3 := if s2.timedOut then s2.(seen := s2.seen.(lateReports := s2.seen.lateReports + 1)) else s2;
      Resolved(s3, true)
  }

  /** The timer runs from start() until start() returns. */
  function TimeoutStep(s: State): State {
    if s.launch == NotLaunched || s.returned || s.timedOut then s else Resolved(s.(timedOut := true), false)
  }

  function ReturnStep(s: State): State {
    if s.race == Running || s.returned then s
    else s.(returned := true, seen := s.seen.(results := s.seen.results + [s.race == Key]))
  }

  function Step(s: State, e: Event): State {
    match e
    case Start(configured) => StartStep(s, configured)
    case Launches(result) => LaunchStep(s, result)
    case Settles(id) => SettleStep(s, id)
    case TimesOut => TimeoutStep(s)
    case Returns => ReturnStep(s)
    case Stop => EgressStopped(s.(stopped := true))
  }

  function Run(events: seq<Event>): State {
    if events == [] then FRESH else Step(Run(events[..|events| - 1]), events[|events| - 1])
  }

  // ---- What every run keeps ----

  function Keys(results: seq<bool>): nat {
    if results == [] then 0
    else Keys(results[..|results| - 1]) + if results[|results| - 1] then 1 else 0
  }

  lemma KeysAppend(results: seq<bool>, key: bool)
    ensures Keys(results + [key]) == Keys(results) + if key then 1 else 0
  {
    assert (results + [key])[..|results|] == results;
  }

  /** The egress that runs, or ran, for this call. */
  function Started(s: State): Option<string> {
    if s.launch.Settled? then s.launch.id else None
  }

  ghost predicate LaunchOk(s: State) {
    && s.egressId == Started(s)
    && (s.launch == NotLaunched || s.startCalled)
    && s.seen.requests == (if s.api then 1 else 0)
    && s.seen.lateRequests <= s.seen.requests
    && (s.api ==> s.launch == Requested || s.launch.Settled?)
    && (s.launch == Requested || s.egressId.Some? ==> s.api)
  }

  ghost predicate StopOk(s: State) {
    var due := s.stopped && s.egressId.Some? && s.egressId.value != "";
    && s.stopping == due
    && s.seen.stopCalls == if due then [s.egressId.value] else []
  }

  ghost predicate ReportOk(s: State) {
    && Keys(s.seen.results) == (if s.returned && s.race == Key then 1 else 0)
    && (s.returned ==> s.race != Running)
    && (s.launch.Settled? ==> s.race != Running)
    && (s.race == Key ==> s.egressId.Some?)
    && (s.race == Null ==> s.timedOut || (s.launch.Settled? && s.egressId.None?))
    && (s.timedOut ==> s.race != Running)
    && s.seen.lateReports == (if s.egressId.Some? && s.race == Null then 1 else 0)
  }

  ghost predicate Good(s: State) { LaunchOk(s) && StopOk(s) && ReportOk(s) }

  lemma StartKeeps(s: State, configured: bool)
    requires Good(s)
    ensures Good(StartStep(s, configured))
  {
    KeysAppend(s.seen.results, false);
  }

  lemma LaunchKeeps(s: State, result: LaunchResult)
    requires Good(s)
    ensures Good(LaunchStep(s, result))
  {
  }

  lemma SettleKeeps(s: State, id: Option<string>)
    requires Good(s) && s.launch == Requested
    ensures Good(SettleStep(s, id))
  {
    var s' := SettleStep(s, id);
    var due := s.stopped && id.Some? && id.value != "";
    assert s'.launch == Settled(id) && s'.egressId == id && s'.stopped == s.stopped;
    assert s'.stopping == due && s'.seen.stopCalls == if due then [id.value] else [];
    assert s'.seen.results == s.seen.results && s'.seen.requests == s.seen.requests;
    hide Keys;
  }

  lemma ReturnKeeps(s: State)
    requires Good(s)
    ensures Good(ReturnStep(s)) && Good(TimeoutStep(s)) && Good(EgressStopped(s.(stopped := true)))
  {
    KeysAppend(s.seen.results, false);
    KeysAppend(s.seen.results, true);
    hide Keys;
  }

  lemma StepKeeps(s: State, e: Event)
    requires Good(s)
    ensures Good(Step(s, e))
  {
    hide Good, StartStep, LaunchStep, EgressStopped, ReturnStep, TimeoutStep;
    match e
    case Start(configured) => StartKeeps(s, configured);
    case Launches(result) => LaunchKeeps(s, result);
    case Settles(id) => if s.launch == Requested { SettleKeeps(s, id); }
    case TimesOut => ReturnKeeps(s);
    case Returns => ReturnKeeps(s);
    case Stop => ReturnKeeps(s);
  }

  lemma {:induction false} RunKeeps(events: seq<Event>)
    ensures Good(Run(events))
  {
    if events != [] {
      RunKeeps(events[..|events| - 1]);
      StepKeeps(Run(events[..|events| - 1]), events[|events| - 1]);
    }
  }

  // ---- The promises ----

  /**
   * The egress service is asked at most once. Once stop has been called, an egress that has
   * started, before or after, has been stopped exactly once; before that none is stopped.
   */
  lemma EgressStopsOnce(events: seq<Event>)
    ensures
      var s := Run(events);
      && s.seen.requests <= 1
      && (Started(s).Some? && Started(s).value != "" && s.stopped ==> s.seen.stopCalls == [Started(s).value])
      && (Started(s).None? || !s.stopped ==> s.seen.stopCalls == [])
  {
    RunKeeps(events);
  }

  /** How often the call log was told the key: as a result of start(), or late. */
  function Reports(s: State): nat { Keys(s.seen.results) + s.seen.lateReports }

  /**
   * The key is reported once at most; never unless the egress started; and exactly once when
   * it did and start() has returned, as start's own result if that was in time, else late.
   */
  lemma KeyIsReportedOnce(events: seq<Event>)
    ensures
      var s := Run(events);
      && Reports(s) <= 1
      && (Started(s).None? ==> Reports(s) == 0)
      && (Started(s).Some? && s.returned ==> Reports(s) == 1)
      && (s.seen.lateReports == 1 ==> s.timedOut && Keys(s.seen.results) == 0)
  {
    RunKeeps(events);
    hide Run, Keys;
  }

  /** start() is held up no longer than the timeout or the egress service's answer. */
  lemma StartReturns(events: seq<Event>)
    ensures
      var s := Run(events);
      s.timedOut || s.launch.Settled? ==> Step(s, Returns).returned
  {
    RunKeeps(events);
  }

  // ---- Requests after stop ----

  /** Stop came between start() and the microtask that asks the egress service. */
  ghost predicate StoppedWhileLaunching(events: seq<Event>) {
    exists k :: 0 <= k < |events| && events[k] == Stop && Run(events[..k]).launch == Launching
  }

  lemma StopSeen(events: seq<Event>, e: Event)
    ensures
      StoppedWhileLaunching(events + [e]) <==>
      StoppedWhileLaunching(events) || (e == Stop && Run(events).launch == Launching)
  {
    var all := events + [e];
    assert all[..|events|] == events;
    if StoppedWhileLaunching(events) {
      var k :| 0 <= k < |events| && events[k] == Stop && Run(events[..k]).launch == Launching;
      assert all[..k] == events[..k] && all[k] == Stop;
    }
    if StoppedWhileLaunching(all) {
      var k :| 0 <= k < |all| && all[k] == Stop && Run(all[..k]).launch == Launching;
      if k < |events| { assert all[..k] == events[..k] && events[k] == Stop; }
    }
    if e == Stop && Run(events).launch == Launching { assert all[|events|] == Stop; }
  }

  ghost predicate LaunchGoesOn(s: State, e: Event, s': State) {
    && (s'.stopped <==> s.stopped || e == Stop)
    && (s'.launch == NotLaunched ==> s.launch == NotLaunched)
    && (s'.launch == Launching ==>
          s.launch == Launching || (s.launch == NotLaunched && !s.stopped && e != Stop && !s'.api))
    && (s.launch == NotLaunched ==> !s.api && s'.seen.lateRequests == s.seen.lateRequests && !s'.api)
    && (s.launch == Launching ==>
          !s.api && s'.seen.lateRequests == s.seen.lateRequests + if s'.api && s.stopped then 1 else 0)
    && (s.launch == Requested || s.launch.Settled? ==> s'.api == s.api && s'.seen.lateRequests == s.seen.lateRequests)
    && (s.launch == Launching && e == Stop ==> s'.launch == Launching)
  }

  lemma SettlesOnce(s: State, id: Option<string>)
    requires LaunchOk(s)
    ensures LaunchGoesOn(s, Settles(id), SettleStep(s, id))
  {
  }

  lemma LaunchesOnce(s: State, e: Event)
    requires LaunchOk(s)
    ensures LaunchGoesOn(s, e, Step(s, e))
  {
    if e.Settles? {
      hide SettleStep, LaunchOk, LaunchGoesOn;
      SettlesOnce(s, e.id);
    } else {
      hide SettleStep, Keys;
    }
  }

  lemma {:induction false} LaunchHistory(events: seq<Event>)
    ensures
      var s := Run(events);
      && (s.launch == NotLaunched ==> !StoppedWhileLaunching(events))
      && (s.launch == Launching ==> s.stopped == StoppedWhileLaunching(events))
      && (s.seen.lateRequests > 0 <==> s.api && StoppedWhileLaunching(events))
  {
    if events != [] {
      var most, e := events[..|events| - 1], events[|events| - 1];
      assert events == most + [e];
      LaunchHistory(most);
      RunKeeps(most);
      StopSeen(most, e);
      LaunchesOnce(Run(most), e);
      hide Step, StoppedWhileLaunching, StopOk, ReportOk;
    }
  }

  /**
   * The egress service is asked after stop() exactly when stop() fell between start() and
   * the microtask that asks; a start() that comes after stop() asks nothing.
   */
  lemma AskedAfterStopExactlyWhen(events: seq<Event>)
    ensures Run(events).seen.lateRequests > 0 <==> Run(events).api && StoppedWhileLaunching(events)
  {
    LaunchHistory(events);
  }

  /** Such a run: the recording is asked for although it was stopped before. */
  lemma StopDoesNotAlwaysPreventStart()
    ensures
      var s := Run([Start(true), Stop, Launches(Asked)]);
      s.seen.requests == 1 && s.seen.lateRequests == 1
  {
    var e := [Start(true), Stop, Launches(Asked)];
    assert e[..2] == [Start(true), Stop] && e[..2][..1] == [Start(true)] && e[..2][..1][..0] == [];
    assert Run(e[..2][..1]) == Step(FRESH, Start(true));
    assert Run(e[..2]) == Step(Run(e[..2][..1]), Stop);
  }

  // ---- What becomes of one recording ----

  /** None of these events starts or stops anything. */
  ghost predicate NotBegun(events: seq<Event>) {
    forall k :: 0 <= k < |events| ==> !events[k].Start? && !events[k].Stop?
  }

  ghost predicate NoLaunch(events: seq<Event>) {
    forall k :: 0 <= k < |events| ==> !events[k].Launches?
  }

  ghost predicate NoAnswer(events: seq<Event>) {
    forall k :: 0 <= k < |events| ==> !events[k].Settles?
  }

  lemma RunAppend(events: seq<Event>, e: Event)
    ensures Run(events + [e]) == Step(Run(events), e)
  {
    assert (events + [e])[..|events|] == events;
    hide Step;
  }

  lemma {:induction false} NothingBegins(before: seq<Event>)
    requires NotBegun(before)
    ensures Run(before) == FRESH
  {
    if before != [] {
      NothingBegins(before[..|before| - 1]);
      assert !before[|before| - 1].Start? && !before[|before| - 1].Stop?;
    }
  }

  /** Start was called with storage configured, and these events have followed. */
  ghost predicate Waiting(s: State, since: seq<Event>) {
    && s.startCalled && s.egressId.None? && !s.stopping
    && s.stopped == (Stop in since) && s.timedOut == (TimesOut in since)
    && s.race == (if TimesOut in since then Null else Running) && (s.returned ==> s.timedOut)
    && s.seen.stopCalls == [] && Keys(s.seen.results) == 0 && s.seen.lateReports == 0
  }

  lemma WaitsOn(s: State, since: seq<Event>, e: Event)
    requires Waiting(s, since) && (s.launch == Launching || s.launch == Requested)
    requires s.launch == Launching ==> !e.Launches?
    requires s.launch == Requested ==> !e.Settles?
    ensures Waiting(Step(s, e), since + [e]) && Step(s, e).launch == s.launch && Step(s, e).api == s.api
    ensures Step(s, e).seen == s.seen.(results := Step(s, e).seen.results)
  {
    KeysAppend(s.seen.results, false);
    hide Keys;
  }

  lemma {:induction false} LaunchIsAwaited(before: seq<Event>, launching: seq<Event>)
    requires NotBegun(before) && NoLaunch(launching)
    ensures
      var s := Run(before + [Start(true)] + launching);
      Waiting(s, launching) && s.launch == Launching && !s.api && s.seen.requests == 0 && s.seen.lateRequests == 0
  {
    if launching == [] {
      NothingBegins(before);
      RunAppend(before, Start(true));
      assert before + [Start(true)] + [] == before + [Start(true)];
    } else {
      var most, e := launching[..|launching| - 1], launching[|launching| - 1];
      LaunchIsAwaited(before, most);
      assert before + [Start(true)] + launching == before + [Start(true)] + most + [e] && launching == most + [e];
      RunAppend(before + [Start(true)] + most, e);
      hide Run, Step, Waiting;
      WaitsOn(Run(before + [Start(true)] + most), most, e);
    }
  }

  /** A run in which the egress service is asked. */
  ghost function Asks(before: seq<Event>, launching: seq<Event>, starting: seq<Event>): seq<Event> {
    before + [Start(true)] + launching + [Launches(Asked)] + starting
  }

  lemma {:induction false} AnswerIsAwaited(before: seq<Event>, launching: seq<Event>, starting: seq<Event>)
    requires NotBegun(before) && NoLaunch(launching) && NoAnswer(starting)
    ensures
      var s := Run(Asks(before, launching, starting));
      && Waiting(s, launching + [Launches(Asked)] + starting) && s.launch == Requested && s.api
      && s.seen.requests == 1 && s.seen.lateRequests == if Stop in launching then 1 else 0
  {
    var so := launching + [Launches(Asked)];
    if starting == [] {
      LaunchIsAwaited(before, launching);
      RunAppend(before + [Start(true)] + launching, Launches(Asked));
      assert Asks(before, launching, []) == before + [Start(true)] + launching + [Launches(Asked)] && so + [] == so;
      hide Run;
    } else {
      var most, e := starting[..|starting| - 1], starting[|starting| - 1];
      AnswerIsAwaited(before, launching, most);
      assert Asks(before, launching, starting) == Asks(before, launching, most) + [e];
      assert so + starting == so + most + [e];
      RunAppend(Asks(before, launching, most), e);
      hide Run, Step, Waiting, Asks;
      WaitsOn(Run(Asks(before, launching, most)), so + most, e);
    }
  }

  /** The egress service has answered; what has happened: a stop, a timeout before the answer, a return after it. */
  ghost predicate Answered(s: State, id: Option<string>, stops: bool, late: bool, back: bool) {
    && s.startCalled && s.launch == Settled(id) && s.egressId == id && s.api
    && s.stopped == stops && s.stopping == (stops && id.Some? && id.value != "")
    && s.seen.stopCalls == (if s.stopping then [id.value] else [])
    && s.race == (if late || id.None? then Null else Key)
    && (!late ==> s.returned == back)
    && Keys(s.seen.results) == (if s.race == Key && s.returned then 1 else 0)
    && s.seen.lateReports == if late && id.Some? then 1 else 0
  }

  lemma AnswerArrives(s: State, id: Option<string>, since: seq<Event>)
    requires Waiting(s, since) && s.launch == Requested && s.api
    ensures Answered(Step(s, Settles(id)), id, Stop in since, TimesOut in since, false)
    ensures Step(s, Settles(id)).seen.requests == s.seen.requests
    ensures Step(s, Settles(id)).seen.lateRequests == s.seen.lateRequests
  {
    hide Keys;
  }

  lemma AnswerStands(s: State, id: Option<string>, stops: bool, late: bool, back: bool, e: Event)
    requires Answered(s, id, stops, late, back)
    ensures Answered(Step(s, e), id, stops || e == Stop, late, back || e == Returns)
    ensures Step(s, e).seen.requests == s.seen.requests && Step(s, e).seen.lateRequests == s.seen.lateRequests
  {
    KeysAppend(s.seen.results, false);
    KeysAppend(s.seen.results, true);
    hide Keys;
    if e.Start? {
      assert Step(s, e) == s.(seen := s.seen.(results := s.seen.results + [false]));
    }
  }

  lemma {:induction false} AnswerIsKept(
    before: seq<Event>, launching: seq<Event>, starting: seq<Event>, id: Option<string>, after: seq<Event>)
    requires NotBegun(before) && NoLaunch(launching) && NoAnswer(starting)
    ensures
      var s := Run(Asks(before, launching, starting) + [Settles(id)] + after);
      && Answered(s, id, Stop in launching + starting + after, TimesOut in launching + starting, Returns in after)
      && s.seen.requests == 1 && s.seen.lateRequests == if Stop in launching then 1 else 0
  {
    var so, asked := launching + [Launches(Asked)] + starting, Asks(before, launching, starting);
    if after == [] {
      AnswerIsAwaited(before, launching, starting);
      RunAppend(asked, Settles(id));
      assert asked + [Settles(id)] + [] == asked + [Settles(id)];
      assert Stop in so <==> Stop in launching + starting + [];
      assert TimesOut in so <==> TimesOut in launching + starting;
      hide Run, Step, Waiting, Answered, Asks;
      AnswerArrives(Run(asked), id, so);
    } else {
      var most, e := after[..|after| - 1], after[|after| - 1];
      AnswerIsKept(before, launching, starting, id, most);
      assert asked + [Settles(id)] + after == asked + [Settles(id)] + most + [e] && after == most + [e];
      RunAppend(asked + [Settles(id)] + most, e);
      hide Run, Step, Waiting, Answered, Asks;
      var stops, late := Stop in launching + starting + most, TimesOut in launching + starting;
      assert Stop in launching + starting + after <==> stops || e == Stop;
      AnswerStands(Run(asked + [Settles(id)] + most), id, stops, late, Returns in most, e);
    }
  }

  /**
   * An egress that the service has started is stopped exactly when stop() is called, before the
   * answer or after it; and its key is reported: late exactly when the timeout came first, else
   * as the result of start() once that returns. Whatever else happens, in whatever order.
   */
  lemma StartedIsStoppedAndReported(
    before: seq<Event>, launching: seq<Event>, starting: seq<Event>, id: string, after: seq<Event>)
    requires NotBegun(before) && NoLaunch(launching) && NoAnswer(starting) && id != ""
    ensures
      var s := Run(Asks(before, launching, starting) + [Settles(Some(id))] + after);
      var stops, late := Stop in launching + starting + after, TimesOut in launching + starting;
      && s.seen.requests == 1 && (s.seen.lateRequests == 1 <==> Stop in launching)
      && s.seen.stopCalls == (if stops then [id] else [])
      && s.seen.lateReports == (if late then 1 else 0)
      && Keys(s.seen.results) == if !late && Returns in after then 1 else 0
  {
    AnswerIsKept(before, launching, starting, Some(id), after);
    hide Run, Keys, Asks;
  }

  /** A request that fails is answered with null: nothing is stopped, and no key reported. */
  lemma FailedIsNotReported(
    before: seq<Event>, launching: seq<Event>, starting: seq<Event>, after: seq<Event>)
    requires NotBegun(before) && NoLaunch(launching) && NoAnswer(starting)
    ensures
      var s := Run(Asks(before, launching, starting) + [Settles(None)] + after);
      && s.seen.stopCalls == [] && s.seen.lateReports == 0 && Keys(s.seen.results) == 0 && s.seen.requests == 1
      && (TimesOut !in launching + starting ==> s.returned == (Returns in after))
  {
    AnswerIsKept(before, launching, starting, None, after);
    hide Run, Keys, Asks;
  }

  /** No client, or a client that throws. */
  ghost predicate Unasked(s: State, requests: nat) {
    && s.startCalled && s.launch == Settled(None) && s.egressId.None? && s.race == Null && s.seen.requests == requests
    && s.seen.stopCalls == [] && s.seen.lateReports == 0 && Keys(s.seen.results) == 0
  }

  lemma StaysUnasked(s: State, requests: nat, e: Event)
    requires Unasked(s, requests)
    ensures Unasked(Step(s, e), requests)
  {
    KeysAppend(s.seen.results, false);
    hide Keys;
  }

  /** A request that cannot be made is answered with null as well. */
  lemma {:induction false} UnaskedIsNotReported(
    before: seq<Event>, launching: seq<Event>, result: LaunchResult, after: seq<Event>)
    requires NotBegun(before) && NoLaunch(launching) && result != Asked
    ensures
      var s := Run(before + [Start(true)] + launching + [Launches(result)] + after);
      && s.seen.requests == (if result == StartThrew then 1 else 0)
      && s.seen.stopCalls == [] && s.seen.lateReports == 0 && Keys(s.seen.results) == 0
  {
    UnaskedAfter(before, launching, result, after);
    hide Run, Keys;
  }

  lemma {:induction false} UnaskedAfter(
    before: seq<Event>, launching: seq<Event>, result: LaunchResult, after: seq<Event>)
    requires NotBegun(before) && NoLaunch(launching) && result != Asked
    ensures
      var requests := if result == StartThrew then 1 else 0;
      Unasked(Run(before + [Start(true)] + launching + [Launches(result)] + after), requests)
  {
    var begun := before + [Start(true)] + launching;
    if after == [] {
      LaunchIsAwaited(before, launching);
      RunAppend(begun, Launches(result));
      assert begun + [Launches(result)] + [] == begun + [Launches(result)];
      hide Run, Keys;
    } else {
      var most, e := after[..|after| - 1], after[|after| - 1];
      UnaskedAfter(before, launching, result, most);
      assert begun + [Launches(result)] + after == begun + [Launches(result)] + most + [e];
      RunAppend(begun + [Launches(result)] + most, e);
      hide Run, Step, Unasked;
      StaysUnasked(Run(begun + [Launches(result)] + most), if result == StartThrew then 1 else 0, e);
    }
  }

  /** Without a call of start() that finds storage configured, and nothing stopped before it, nothing is asked. */
  ghost predicate Off(s: State) {
    && s.launch == NotLaunched && !s.api && s.egressId.None? && s.race == Running && !s.returned
    && (s.startCalled || s.stopped) && s.seen.requests == 0 && s.seen.stopCalls == [] && s.seen.lateReports == 0
    && Keys(s.seen.results) == 0
  }

  lemma StaysOff(s: State, e: Event)
    requires Off(s)
    ensures Off(Step(s, e))
  {
    KeysAppend(s.seen.results, false);
    hide Keys;
  }

  lemma {:induction false} NothingIsRecorded(before: seq<Event>, first: Event, after: seq<Event>)
    requires NotBegun(before) && (first == Start(false) || first == Stop)
    ensures
      var seen := Run(before + [first] + after).seen;
      seen.requests == 0 && seen.stopCalls == [] && Keys(seen.results) == 0 && seen.lateReports == 0
  {
    OffAfter(before, first, after);
    hide Run, Keys;
  }

  lemma {:induction false} OffAfter(before: seq<Event>, first: Event, after: seq<Event>)
    requires NotBegun(before) && (first == Start(false) || first == Stop)
    ensures Off(Run(before + [first] + after))
  {
    if after == [] {
      NothingBegins(before);
      RunAppend(before, first);
      KeysAppend([], false);
      assert before + [first] + [] == before + [first] && Keys([]) == 0;
    } else {
      var most, e := after[..|after| - 1], after[|after| - 1];
      OffAfter(before, first, most);
      assert before + [first] + after == before + [first] + most + [e];
      RunAppend(before + [first] + most, e);
      hide Run, Step, Off;
      StaysOff(Run(before + [first] + most), e);
    }
  }

  // ---- The recording object ----

  class Recording {
    var api: bool
    var egressId: Option<string>
    var startCalled: bool
    var stopped: bool
    var stopping: bool
    var timedOut: bool
    var launch: Launch
    var race: Race
    var returned: bool
    var seen: Seen

    ghost function View(): State
      reads this
    {
      State(api, egressId, startCalled, stopped, stopping, timedOut, launch, race, returned, seen)
    }

    ghost predicate Valid()
      reads this
    {
      Good(View())
    }

    constructor ()
      ensures View() == FRESH && Valid()
    {
      api, egressId, startCalled, stopped, stopping, timedOut := false, None, false, false, false, false;
      launch, race, returned, seen := NotLaunched, Running, false, Seen(0, 0, [], [], 0);
    }

    /** Answers at once with false, or leaves the launch to the next microtask. */
    method Start(configured: bool)
      requires Valid()
      modifies this
      ensures View() == Step(old(View()), Event.Start(configured)) && Valid()
    {
      StepKeeps(View(), Event.Start(configured));
      if startCalled || stopped {
        seen := seen.(results := seen.results + [false]);
        return;
      }
      startCalled := true;
      if !configured {
        seen := seen.(results := seen.results + [false]);
        return;
      }
      launch := Launching;
    }

    method Launches(result: LaunchResult)
      requires Valid()
      modifies this
      ensures View() == Step(old(View()), Event.Launches(result)) && Valid()
    {
      StepKeeps(View(), Event.Launches(result));
      if launch != Launching { return; }
      if result == NoClient {
        launch := Settled(None);
        Resolve(false);
        return;
      }
      api := true;
      seen := seen.(requests := seen.requests + 1, lateRequests := seen.lateRequests + if stopped then 1 else 0);
      if result == StartThrew {
        launch := Settled(None);
        Resolve(false);
      } else {
        launch := Requested;
      }
    }

    method Settles(id: Option<string>)
      requires Valid()
      modifies this
      ensures View() == Step(old(View()), Event.Settles(id)) && Valid()
    {
      StepKeeps(View(), Event.Settles(id));
      if launch != Requested { return; }
      launch := Settled(id);
      if id.None? {
        Resolve(false);
        return;
      }
      egressId := id;
      if stopped { StopEgress(); }
      if timedOut { seen := seen.(lateReports := seen.lateReports + 1); }
      Resolve(true);
    }

    method TimesOut()
      requires Valid()
      modifies this
      ensures View() == Step(old(View()), Event.TimesOut) && Valid()
    {
      StepKeeps(View(), Event.TimesOut);
      if launch == NotLaunched || returned || timedOut { return; }
      timedOut := true;
      Resolve(false);
    }

    method Returns()
      requires Valid()
      modifies this
      ensures View() == Step(old(View()), Event.Returns) && Valid()
    {
      StepKeeps(View(), Event.Returns);
      if race == Running || returned { return; }
      returned := true;
      seen := seen.(results := seen.results + [race == Key]);
    }

    method Stop()
      requires Valid()
      modifies this
      ensures View() == Step(old(View()), Event.Stop) && Valid()
    {
      StepKeeps(View(), Event.Stop);
      stopped := true;
      StopEgress();
    }

    method Resolve(key: bool)
      modifies `race
      ensures View() == Resolved(old(View()), key)
    {
      if race == Running { race := if key then Key else Null; }
    }

    method StopEgress()
      modifies `stopping, `seen
      ensures View() == EgressStopped(old(View()))
    {
      if !api || egressId.None? || egressId.value == "" || stopping { return; }
      stopping := true;
      seen := seen.(stopCalls := seen.stopCalls + [egressId.value]);
    }
  }
}
