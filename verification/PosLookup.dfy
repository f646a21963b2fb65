/**
 * The router's organization lookup for POS terminals (apps/tenant-api/workers/org-router.ts):
 * a bounded cache, a fixed-window limiter on its misses, and a capped body reader.
 */
module PosLookup {
  import opened Options

  // ---- Answers and how long they count ----

  datatype Lookup<O> = Found(organization: O) | NotKnown | Unavailable

  const POS_ORG_CACHE_MS := 60_000
  const POS_ORG_NEGATIVE_CACHE_MS := 15_000
  const POS_ORG_CACHE_MAX := 500
  const POS_LOOKUPS_PER_IP_PER_MINUTE := 30
  const LOOKUP_WINDOW_MS := 60_000
  const LOOKUP_WINDOWS_MAX := 5_000

  function TtlOf<O>(lookup: Lookup<O>): int {
    match lookup
    case Found(_) => POS_ORG_CACHE_MS
    case NotKnown => POS_ORG_NEGATIVE_CACHE_MS
    case Unavailable => 0
  }

  /** A known organization is kept for a minute, an unknown one for a quarter of one. */
  ghost function Lifetime<O>(lookup: Lookup<O>): int {
    if lookup.Found? then 60_000 else 15_000
  }

  datatype Entry<O> = Entry(at: int, ttl: int, lookup: Lookup<O>)

  /** An answer of the control plane. */
  datatype Answer<O> = Answer(orgId: string, lookup: Lookup<O>, at: int)

  function LastAnswer<O>(answers: seq<Answer<O>>, orgId: string): (r: Option<Answer<O>>)
    ensures r.Some? ==> r.value in answers && r.value.orgId == orgId
  {
    if answers == [] then None
    else if answers[|answers| - 1].orgId == orgId then Some(answers[|answers| - 1])
    else LastAnswer(answers[..|answers| - 1], orgId)
  }

  // ---- The limiter's windows ----

  datatype Window = Window(start: int, count: nat)

  /** The window of an address after one more lookup. */
  function WindowAfter(window: Option<Window>, now: int): Window {
    if window.None? || now - window.value.start >= LOOKUP_WINDOW_MS then Window(now, 1)
    else Window(window.value.start, window.value.count + 1)
  }

  /** The window of an address after lookups at these times. */
  function Windowed(times: seq<int>): (r: Option<Window>)
    ensures r.Some? <==> times != []
  {
    if times == [] then None else Some(WindowAfter(Windowed(times[..|times| - 1]), times[|times| - 1]))
  }

  /** A lookup that was let through, with the start of the window it counted in. */
  datatype Grant = Grant(at: int, start: int)

  /** Those of the lookups that were let through. */
  function Grants(times: seq<int>): seq<Grant> {
    if times == [] then []
    else
      var before, now := times[..|times| - 1], times[|times| - 1];
      Grants(before) + GrantOf(WindowAfter(Windowed(before), now), now)
  }

  function GrantOf(window: Window, now: int): seq<Grant> {
    if window.count <= POS_LOOKUPS_PER_IP_PER_MINUTE then [Grant(now, window.start)] else []
  }

  /** The clock does not go back. */
  predicate InOrder(times: seq<int>) {
    forall k :: 0 < k < |times| ==> times[k - 1] <= times[k]
  }

  lemma OneMoreLookup(times: seq<int>, now: int)
    ensures Windowed(times + [now]) == Some(WindowAfter(Windowed(times), now))
    ensures Grants(times + [now]) == Grants(times) + GrantOf(WindowAfter(Windowed(times), now), now)
  {
    assert (times + [now])[..|times|] == times;
  }

  function InWindow(grants: seq<Grant>, start: int): nat {
    if grants == [] then 0
    else InWindow(grants[1..], start) + if grants[0].start == start then 1 else 0
  }

  /** Lookups let through in the minute from t on. */
  function InMinute(grants: seq<Grant>, t: int): nat {
    if grants == [] then 0
    else InMinute(grants[1..], t) + if t <= grants[0].at < t + 60_000 then 1 else 0
  }

  ghost predicate GrantsFit(window: Window, grants: seq<Grant>) {
    && (forall k :: 0 <= k < |grants| ==> grants[k].start <= grants[k].at < grants[k].start + LOOKUP_WINDOW_MS)
    && (forall j, k :: 0 <= j < k < |grants| ==> Apart(grants[j].start, grants[k].start))
    && (forall k :: 0 <= k < |grants| ==> Apart(grants[k].start, window.start))
    && (forall k :: 0 <= k < |grants| ==> Grant(grants[k].start, grants[k].start) in grants)
    && Grant(window.start, window.start) in grants
    && (forall start :: InWindow(grants, start) <= POS_LOOKUPS_PER_IP_PER_MINUTE)
    && InWindow(grants, window.start) ==
       if window.count <= POS_LOOKUPS_PER_IP_PER_MINUTE then window.count else POS_LOOKUPS_PER_IP_PER_MINUTE
  }

  /** The same window, or a later one that starts when the earlier is over. */
  predicate Apart(start: int, later: int) {
    start == later || start + LOOKUP_WINDOW_MS <= later
  }

  lemma {:induction false} InWindowAppend(grants: seq<Grant>, g: Grant, start: int)
    ensures InWindow(grants + [g], start) == InWindow(grants, start) + if g.start == start then 1 else 0
  {
    if grants != [] {
      assert (grants + [g])[1..] == grants[1..] + [g];
      InWindowAppend(grants[1..], g, start);
    } else {
      assert (grants + [g])[1..] == [];
    }
  }

  ghost predicate OnlyFrom(grants: seq<Grant>, t: int, a: int, b: int) {
    forall k :: 0 <= k < |grants| && t <= grants[k].at < t + LOOKUP_WINDOW_MS ==>
      grants[k].start == a || grants[k].start == b
  }

  lemma {:induction false} TwoWindows(grants: seq<Grant>, t: int, a: int, b: int)
    requires OnlyFrom(grants, t, a, b)
    ensures InMinute(grants, t) <= InWindow(grants, a) + if a == b then 0 else InWindow(grants, b)
  {
    if grants != [] {
      OnlyFromRest(grants, t, a, b);
      TwoWindows(grants[1..], t, a, b);
    }
  }

  lemma OnlyFromRest(grants: seq<Grant>, t: int, a: int, b: int)
    requires grants != [] && OnlyFrom(grants, t, a, b)
    ensures OnlyFrom(grants[1..], t, a, b)
  {
    var rest := grants[1..];
    assert forall k :: 0 <= k < |rest| ==> rest[k] == grants[k + 1];
  }

  /** A grant of one of the two windows outside the minute makes it one less. */
  lemma {:induction false} TwoWindowsButOne(grants: seq<Grant>, t: int, a: int, b: int, m: nat)
    requires OnlyFrom(grants, t, a, b) && a != b
    requires m < |grants| && grants[m].start == a && grants[m].at < t
    ensures InMinute(grants, t) < InWindow(grants, a) + InWindow(grants, b)
  {
    OnlyFromRest(grants, t, a, b);
    if m == 0 { TwoWindows(grants[1..], t, a, b); } else { TwoWindowsButOne(grants[1..], t, a, b, m - 1); }
  }

  lemma FewInMinute(window: Window, grants: seq<Grant>, t: int)
    requires GrantsFit(window, grants)
    ensures InMinute(grants, t) < 2 * POS_LOOKUPS_PER_IP_PER_MINUTE
  {
    hide InMinute, InWindow;
    if i: nat :| i < |grants| && t <= grants[i].at < t + LOOKUP_WINDOW_MS {
      if j: nat :| j < |grants| && t <= grants[j].at < t + LOOKUP_WINDOW_MS && grants[j].start != grants[i].start {
        var a, b := if i < j then i else j, if i < j then j else i;
        OnlyTwoWindows(window, grants, t, a, b);
        var m: nat :| m < |grants| && grants[m] == Grant(grants[a].start, grants[a].start);
        TwoWindowsButOne(grants, t, grants[a].start, grants[b].start, m);
      } else {
        TwoWindows(grants, t, grants[i].start, grants[i].start);
      }
    } else {
      TwoWindows(grants, t, 0, 0);
    }
  }

  /** A minute reaches into two windows at most, and the earlier of two began before it. */
  lemma OnlyTwoWindows(window: Window, grants: seq<Grant>, t: int, i: nat, j: nat)
    requires GrantsFit(window, grants) && i < j < |grants| && grants[i].start != grants[j].start
    requires t <= grants[i].at < t + LOOKUP_WINDOW_MS && t <= grants[j].at < t + LOOKUP_WINDOW_MS
    ensures OnlyFrom(grants, t, grants[i].start, grants[j].start) && grants[i].start < t
  {
    hide InWindow;
  }

  lemma {:induction false} GrantsAlwaysFit(times: seq<int>)
    requires times != [] && InOrder(times)
    ensures GrantsFit(Windowed(times).value, Grants(times)) && Windowed(times).value.start <= times[|times| - 1]
  {
    hide GrantsFit, Grants, Windowed;
    var before, now := times[..|times| - 1], times[|times| - 1];
    assert times == before + [now];
    OneMoreLookup(before, now);
    if before == [] {
      NoLookupYet();
      GrantedFirst(Window(now, 0), [], now);
      assert [] + [Grant(now, now)] == [Grant(now, now)];
    } else {
      GrantsAlwaysFit(before);
      GrantsFitAfter(Windowed(before).value, Grants(before), now);
    }
  }

  lemma NoLookupYet()
    ensures Windowed([]) == None && Grants([]) == []
  {
  }

  lemma GrantsFitAfter(window: Window, grants: seq<Grant>, now: int)
    requires GrantsFit(window, grants) && window.start <= now
    ensures
      var next := WindowAfter(Some(window), now);
      GrantsFit(next, grants + GrantOf(next, now)) && next.start <= now
  {
    hide GrantsFit;
    if now - window.start >= LOOKUP_WINDOW_MS {
      GrantedFirst(window, grants, now);
    } else if window.count < POS_LOOKUPS_PER_IP_PER_MINUTE {
      GrantedMore(window, grants, now);
    } else {
      RefusedMore(window, grants);
      assert grants + [] == grants;
    }
  }

  /** Whenever its lookups come: at most 30 are let through in one window, and at most 59 in any minute at all. */
  lemma LookupsPerMinute(times: seq<int>, t: int)
    requires InOrder(times)
    ensures forall start :: InWindow(Grants(times), start) <= 30
    ensures InMinute(Grants(times), t) <= 59
  {
    hide Grants, Windowed, InWindow, InMinute;
    if times == [] {
      NoLookupYet();
      NothingGranted(t);
    } else {
      GrantsAlwaysFit(times);
      FewInMinute(Windowed(times).value, Grants(times), t);
    }
  }

  lemma NothingGranted(t: int)
    ensures InMinute([], t) == 0 && forall start :: InWindow([], start) == 0
  {
  }

  /** A lookup is refused exactly when the running window has let 30 through. */
  lemma RefusedExactlyWhen(times: seq<int>, now: int)
    requires InOrder(times + [now])
    ensures
      GrantOf(WindowAfter(Windowed(times), now), now) == [] <==>
      && times != [] && now < Windowed(times).value.start + 60_000
      && InWindow(Grants(times), Windowed(times).value.start) == 30
  {
    if times == [] {
      NoLookupYet();
    } else {
      forall k | 0 < k < |times| ensures times[k - 1] <= times[k] {
        assert (times + [now])[k - 1] <= (times + [now])[k];
      }
      GrantsAlwaysFit(times);
    }
    hide Grants, InWindow;
  }

  lemma {:induction false} InMinuteAppend(grants: seq<Grant>, g: Grant, t: int)
    ensures InMinute(grants + [g], t) == InMinute(grants, t) + if t <= g.at < t + LOOKUP_WINDOW_MS then 1 else 0
  {
    if grants != [] {
      assert (grants + [g])[1..] == grants[1..] + [g];
      InMinuteAppend(grants[1..], g, t);
    } else {
      assert (grants + [g])[1..] == [];
    }
  }

  /** Several lookups at one moment, all let through. */
  function Burst(times: seq<int>, now: int, n: nat): seq<int> {
    if n == 0 then times else Burst(times, now, n - 1) + [now]
  }

  lemma {:induction false} BurstIsGranted(times: seq<int>, now: int, n: nat, t: int)
    requires times != [] && InOrder(times) && times[|times| - 1] <= now
    requires now < Windowed(times).value.start + LOOKUP_WINDOW_MS
    requires Windowed(times).value.count + n <= POS_LOOKUPS_PER_IP_PER_MINUTE
    ensures
      var all := Burst(times, now, n);
      && all != [] && InOrder(all) && all[|all| - 1] <= now
      && Windowed(all) == Some(Window(Windowed(times).value.start, Windowed(times).value.count + n))
      && InMinute(Grants(all), t) == InMinute(Grants(times), t) + if t <= now < t + LOOKUP_WINDOW_MS then n else 0
  {
    hide Windowed, Grants, InMinute;
    if n > 0 {
      BurstIsGranted(times, now, n - 1, t);
      var before := Burst(times, now, n - 1);
      OneMoreLookup(before, now);
      InMinuteAppend(Grants(before), Grant(now, Windowed(times).value.start), t);
    }
  }

  /** 59 can happen: one lookup opens a window, 29 come at its end, and 30 at the start of the next. */
  lemma FiftyNineAreReached()
    ensures
      var times := Burst(Burst([0], 59_999, 29) + [60_000], 60_000, 29);
      InOrder(times) && InMinute(Grants(times), 59_999) == 59
  {
    hide Windowed, Grants, InMinute, Burst;
    var first := [0];
    NoLookupYet();
    OneMoreLookup([], 0);
    assert [] + first == first;
    NothingGranted(59_999);
    InMinuteAppend([], Grant(0, 0), 59_999);
    BurstIsGranted(first, 59_999, 29, 59_999);
    var late := Burst(first, 59_999, 29);
    OneMoreLookup(late, 60_000);
    InMinuteAppend(Grants(late), Grant(60_000, 60_000), 59_999);
    BurstIsGranted(late + [60_000], 60_000, 29, 59_999);
  }

  // ---- The router's state ----

  datatype Begun<O> = Hit(lookup: Lookup<O>) | RateLimited | Asking

  /**
   * `keys` is the insertion order of the cache. The ghost fields record what has happened:
   * the control plane's answers, and when each address caused the lookups that were counted
   * since the windows were last cleared.
   */
  class Router<O(==)> {
    var keys: seq<string>
    var entries: map<string, Entry<O>>
    var windows: map<string, Window>
    ghost var answers: seq<Answer<O>>
    ghost var lookups: map<string, seq<int>>
    ghost var clock: int

    ghost predicate CacheOk()
      reads this
    {
      && CacheShape(keys, entries)
      && (forall k :: 0 <= k < |answers| ==> answers[k].at <= clock)
      && AllRemembered(entries, answers)
    }

    ghost predicate WindowsOk()
      reads this
    {
      |windows| <= LOOKUP_WINDOWS_MAX && Tracks(windows, lookups, clock)
    }

    ghost predicate Valid()
      reads this
    {
      CacheOk() && WindowsOk()
    }

    constructor ()
      ensures Valid() && answers == [] && keys == []
    {
      keys, entries, windows, answers, lookups, clock := [], map[], map[], [], map[], 0;
    }

    /** The windows are all forgotten when a new one would be too many. */
    ghost predicate Clears(clientIp: string, now: int)
      reads this
    {
      |windows| >= 5_000 && !Running(clientIp, now)
    }

    /** A minute has not gone by since the address' window started. */
    ghost predicate Running(clientIp: string, now: int)
      reads this
    {
      clientIp in windows && now - windows[clientIp].start < 60_000
    }

    ghost predicate Exhausted(clientIp: string, now: int)
      reads this
    {
      clientIp != "" && Running(clientIp, now) && windows[clientIp].count >= 30
    }

    /** The windows and the lookups after one more lookup of this address. */
    ghost predicate Counts(clientIp: string, now: int, windows': map<string, Window>, lookups': map<string, seq<int>>)
      reads this
    {
      if clientIp == "" then windows' == windows && lookups' == lookups
      else
        && windows' ==
           (if Clears(clientIp, now) then map[] else windows)[clientIp :=
             if Running(clientIp, now) then Window(windows[clientIp].start, windows[clientIp].count + 1)
             else Window(now, 1)]
        && var kept := if Clears(clientIp, now) then map[] else lookups;
           lookups' == kept[clientIp := Of(kept, clientIp) + [now]]
    }

    /** Refuses an address from its 31st lookup in a window on. */
    method LookupLimited(clientIp: string, now: int) returns (limited: bool)
      requires WindowsOk() && clock <= now
      modifies `windows, `lookups, `clock
      ensures WindowsOk() && clock == now
      ensures limited == old(Exhausted(clientIp, now))
      ensures var w, l := windows, lookups; old(Counts(clientIp, now, w, l))
    {
      hide Tracks;
      LaterClock(windows, lookups, clock, now);
      clock := now;
      if clientIp == "" { return false; }
      if clientIp !in windows || now - windows[clientIp].start >= LOOKUP_WINDOW_MS {
        if |windows| >= LOOKUP_WINDOWS_MAX { Clear(); }
        TracksMore(windows, lookups, now, clientIp, now);
        windows := windows[clientIp := Window(now, 1)];
        lookups := lookups[clientIp := Of(lookups, clientIp) + [now]];
        return false;
      }
      var window := windows[clientIp];
      TracksMore(windows, lookups, now, clientIp, now);
      SameSize(windows, clientIp, Window(window.start, window.count + 1));
      windows := windows[clientIp := Window(window.start, window.count + 1)];
      lookups := lookups[clientIp := Of(lookups, clientIp) + [now]];
      limited := window.count + 1 > POS_LOOKUPS_PER_IP_PER_MINUTE;
    }

    /** Forgets every window. */
    method Clear()
      modifies `windows, `lookups
      ensures windows == map[] && lookups == map[] && Tracks(windows, lookups, clock)
    {
      windows, lookups := map[], map[];
    }

    /** Of the lookups counted since the last clear, at most 59 in any minute were let through. */
    lemma LetThroughPerMinute(clientIp: string, t: int)
      requires Valid()
      ensures InMinute(Grants(Of(lookups, clientIp)), t) <= 59
      ensures forall start :: InWindow(Grants(Of(lookups, clientIp)), start) <= 30
    {
      LookupsPerMinute(Of(lookups, clientIp), t);
    }

    ghost predicate Hits(orgId: string, now: int)
      reads this
    {
      orgId in entries && now - entries[orgId].at < Lifetime(entries[orgId].lookup)
    }

    /**
     * The lookup up to its question to the control plane. A hit is never counted; any other
     * lookup is, and what may be asked is what was let through.
     */
    method Begin(orgId: string, clientIp: string, now: int) returns (begun: Begun<O>)
      requires Valid() && clock <= now
      modifies `windows, `lookups, `clock
      ensures Valid() && clock == now
      ensures begun.Hit? <==> Hits(orgId, now)
      ensures begun.Hit? ==> Fresh(begun.lookup, LastAnswer(answers, orgId), now)
      ensures begun.RateLimited? <==> !Hits(orgId, now) && old(Exhausted(clientIp, now))
      ensures begun.Hit? ==> windows == old(windows) && lookups == old(lookups)
      ensures !begun.Hit? ==> var w, l := windows, lookups; old(Counts(clientIp, now, w, l))
      ensures !begun.Hit? && clientIp != "" ==>
                Of(lookups, clientIp) != [] && Last(Of(lookups, clientIp)) == now
                && (begun.Asking? <==> GrantOf(windows[clientIp], now) != [])
                && Grants(Of(lookups, clientIp)) ==
                   Grants(Front(Of(lookups, clientIp))) + GrantOf(windows[clientIp], now)
    {
      hide Tracks, Grants, LastAnswer;
      assert orgId in entries ==> Remembered(entries[orgId], LastAnswer(answers, orgId));
      if orgId in entries {
        var hit := entries[orgId];
        if now - hit.at < hit.ttl {
          LaterClock(windows, lookups, clock, now);
          clock := now;
          return Hit(hit.lookup);
        }
      }
      var limited := LookupLimited(clientIp, now);
      if clientIp != "" { LastIsCounted(windows, lookups, clock, clientIp); }
      return if limited then RateLimited else Asking;
    }

    /** The control plane has answered. A full cache forgets the organization that was put in first. */
    method Answered(orgId: string, lookup: Lookup<O>, now: int)
      requires Valid() && clock <= now
      modifies `keys, `entries, `answers, `clock
      ensures Valid() && answers == old(answers) + [Answer(orgId, lookup, now)]
      ensures lookup.Unavailable? ==> entries == old(entries) - {orgId} && keys == Without(old(keys), orgId)
      ensures
        var full := |old(keys)| >= 500;
        !lookup.Unavailable? ==>
          && entries ==
             (if full then old(entries) - {old(keys)[0]} else old(entries))[
               orgId := Entry(now, Lifetime(lookup), lookup)]
          && var kept := if full then old(keys)[1..] else old(keys);
             keys == if orgId in kept then kept else kept + [orgId]
    {
      hide Tracks, CacheShape, AllRemembered, TtlOf, Lifetime, Without;
      LaterClock(windows, lookups, clock, now);
      RememberedAfter(entries, keys, answers, Answer(orgId, lookup, now));
      clock := now;
      answers := answers + [Answer(orgId, lookup, now)];
      if lookup.Unavailable? {
        Delete(orgId);
      } else {
        Remember(orgId, lookup, TtlOf(lookup), now);
      }
    }

    method Delete(orgId: string)
      requires CacheShape(keys, entries)
      modifies `keys, `entries
      ensures CacheShape(keys, entries) && entries == old(entries) - {orgId} && keys == Without(old(keys), orgId)
    {
      WithoutDistinct(keys, orgId);
      keys := Without(keys, orgId);
      entries := entries - {orgId};
    }

    method Remember(orgId: string, lookup: Lookup<O>, ttl: int, now: int)
      requires CacheShape(keys, entries)
      modifies `keys, `entries
      ensures CacheShape(keys, entries)
      ensures
        var full := |old(keys)| >= 500;
        && entries == (if full then old(entries) - {old(keys)[0]} else old(entries))[orgId := Entry(now, ttl, lookup)]
        && var kept := if full then old(keys)[1..] else old(keys);
           keys == if orgId in kept then kept else kept + [orgId]
    {
      if |keys| >= POS_ORG_CACHE_MAX {
        WithoutFirst(keys);
        Delete(keys[0]);
      }
      if orgId !in entries { keys := keys + [orgId]; }
      entries := entries[orgId := Entry(now, ttl, lookup)];
    }
  }

  lemma {:induction false} WithoutAbsent(keys: seq<string>, key: string)
    requires key !in keys
    ensures Without(keys, key) == keys
  {
    if keys != [] { WithoutAbsent(keys[1..], key); }
  }

  lemma WithoutFirst(keys: seq<string>)
    requires keys != [] && forall i, j :: 0 <= i < j < |keys| ==> keys[i] != keys[j]
    ensures Without(keys, keys[0]) == keys[1..]
  {
    WithoutAbsent(keys[1..], keys[0]);
  }

  ghost predicate CacheShape<O>(keys: seq<string>, entries: map<string, Entry<O>>) {
    && |keys| <= POS_ORG_CACHE_MAX
    && (forall j, k :: 0 <= j < k < |keys| ==> keys[j] != keys[k])
    && (forall orgId :: orgId in keys <==> orgId in entries)
  }

  /** An entry is the control plane's last word on an organization, and never "unavailable". */
  ghost predicate Remembered<O>(entry: Entry<O>, last: Option<Answer<O>>) {
    && last.Some? && last.value.lookup == entry.lookup && last.value.at == entry.at
    && !entry.lookup.Unavailable? && entry.ttl == TtlOf(entry.lookup)
  }

  ghost predicate AllRemembered<O>(entries: map<string, Entry<O>>, answers: seq<Answer<O>>) {
    forall orgId :: orgId in entries ==> Remembered(entries[orgId], LastAnswer(answers, orgId))
  }

  lemma RememberedMore<O>(entries: map<string, Entry<O>>, answers: seq<Answer<O>>, a: Answer<O>)
    requires AllRemembered(entries, answers)
    ensures AllRemembered(entries - {a.orgId}, answers + [a])
    ensures !a.lookup.Unavailable? ==>
              AllRemembered(entries[a.orgId := Entry(a.at, TtlOf(a.lookup), a.lookup)], answers + [a])
  {
    LastOfMore(answers, a);
    hide LastAnswer, TtlOf;
  }

  lemma RememberedLess<O>(entries: map<string, Entry<O>>, answers: seq<Answer<O>>, keys: seq<string>)
    requires AllRemembered(entries, answers)
    ensures keys != [] ==> AllRemembered(entries - {keys[0]}, answers)
  {
    hide LastAnswer, Remembered;
  }

  lemma RememberedAfter<O>(entries: map<string, Entry<O>>, keys: seq<string>, answers: seq<Answer<O>>, a: Answer<O>)
    requires AllRemembered(entries, answers)
    ensures AllRemembered(entries - {a.orgId}, answers + [a])
    ensures !a.lookup.Unavailable? ==>
              && TtlOf(a.lookup) == Lifetime(a.lookup)
              && var kept := if |keys| >= 500 then entries - {keys[0]} else entries;
                 AllRemembered(kept[a.orgId := Entry(a.at, TtlOf(a.lookup), a.lookup)], answers + [a])
  {
    assert !a.lookup.Unavailable? ==> TtlOf(a.lookup) == Lifetime(a.lookup);
    hide AllRemembered, TtlOf, Lifetime;
    RememberedMore(entries, answers, a);
    RememberedLess(entries, answers, keys);
    if |keys| >= 500 { RememberedMore(entries - {keys[0]}, answers, a); }
  }

  /** What is served is the last answer of all, given less than its time to live ago. */
  ghost predicate Fresh<O>(lookup: Lookup<O>, last: Option<Answer<O>>, now: int) {
    && last.Some? && last.value.lookup == lookup && !lookup.Unavailable?
    && 0 <= now - last.value.at < Lifetime(lookup)
  }

  function Get(windows: map<string, Window>, clientIp: string): Option<Window> {
    if clientIp in windows then Some(windows[clientIp]) else None
  }

  function Of(lookups: map<string, seq<int>>, clientIp: string): seq<int> {
    if clientIp in lookups then lookups[clientIp] else []
  }

  function Last(times: seq<int>): int
    requires times != []
  {
    times[|times| - 1]
  }

  function Front(times: seq<int>): seq<int>
    requires times != []
  {
    times[..|times| - 1]
  }

  /** Every window is that of the lookups counted for its address. */
  ghost predicate Tracks(windows: map<string, Window>, lookups: map<string, seq<int>>, clock: int) {
    && (forall ip :: ip in windows <==> ip in lookups)
    && forall ip :: ip in windows ==> Counted(windows[ip], lookups[ip], clock)
  }

  ghost predicate Counted(window: Window, times: seq<int>, clock: int) {
    times != [] && InOrder(times) && Last(times) <= clock && Windowed(times) == Some(window)
  }

  lemma LaterClock(windows: map<string, Window>, lookups: map<string, seq<int>>, clock: int, now: int)
    requires Tracks(windows, lookups, clock) && clock <= now
    ensures Tracks(windows, lookups, now)
  {
    hide Windowed, InOrder;
  }

  lemma CountedMore(windows: map<string, Window>, lookups: map<string, seq<int>>, clock: int, ip: string, now: int)
    requires Tracks(windows, lookups, clock) && clock <= now
    ensures Counted(WindowAfter(Get(windows, ip), now), Of(lookups, ip) + [now], now)
  {
    hide Windowed;
    OneMoreLookup(Of(lookups, ip), now);
    if ip in windows { assert Counted(windows[ip], lookups[ip], clock); } else { NoLookupYet(); }
  }

  lemma TracksMore(windows: map<string, Window>, lookups: map<string, seq<int>>, clock: int, ip: string, now: int)
    requires Tracks(windows, lookups, clock) && clock <= now
    ensures Tracks(windows[ip := WindowAfter(Get(windows, ip), now)], lookups[ip := Of(lookups, ip) + [now]], now)
  {
    CountedMore(windows, lookups, clock, ip, now);
    LaterClock(windows, lookups, clock, now);
    hide Counted, WindowAfter;
  }

  lemma SameSize(windows: map<string, Window>, ip: string, window: Window)
    requires ip in windows
    ensures |windows[ip := window]| == |windows|
  {
    assert windows[ip := window].Keys == windows.Keys;
    SizeIsKeys(windows);
    SizeIsKeys(windows[ip := window]);
  }

  lemma SizeIsKeys(windows: map<string, Window>)
    ensures |windows| == |windows.Keys|
  {
  }

  /** The last lookup counted for an address was let through exactly when its window is not used up. */
  lemma LastIsCounted(windows: map<string, Window>, lookups: map<string, seq<int>>, clock: int, ip: string)
    requires Tracks(windows, lookups, clock) && ip in lookups
    ensures
      var times := lookups[ip];
      && times != [] && ip in windows
      && Grants(times) == Grants(Front(times)) + GrantOf(windows[ip], Last(times))
  {
    var times := lookups[ip];
    assert Counted(windows[ip], times, clock);
    OneMoreLookup(Front(times), Last(times));
    assert times == Front(times) + [Last(times)];
    hide Grants, Windowed;
  }

  function Without(keys: seq<string>, key: string): (r: seq<string>)
    ensures forall k :: k in r <==> k in keys && k != key
    ensures |r| <= |keys| && (key in keys ==> |r| < |keys|)
  {
    if keys == [] then []
    else
      var rest := Without(keys[1..], key);
      assert keys == [keys[0]] + keys[1..];
      if keys[0] == key then rest else [keys[0]] + rest
  }

  lemma {:induction false} WithoutDistinct(keys: seq<string>, key: string)
    requires forall i, j :: 0 <= i < j < |keys| ==> keys[i] != keys[j]
    ensures forall i, j :: 0 <= i < j < |Without(keys, key)| ==> Without(keys, key)[i] != Without(keys, key)[j]
  {
    if keys != [] {
      var rest := Without(keys[1..], key);
      WithoutDistinct(keys[1..], key);
      forall k | k in rest ensures k != keys[0] {
        assert k in keys[1..];
      }
      if keys[0] != key {
        assert Without(keys, key) == [keys[0]] + rest;
        forall j | 0 <= j < |rest| ensures rest[j] != keys[0] { assert rest[j] in rest; }
      }
    }
  }

  lemma LastOfMore<O>(answers: seq<Answer<O>>, a: Answer<O>)
    ensures forall orgId ::
      LastAnswer(answers + [a], orgId) == if orgId == a.orgId then Some(a) else LastAnswer(answers, orgId)
  {
    assert (answers + [a])[..|answers|] == answers;
  }

  /** A new window starts when the one before is over. */
  lemma GrantedFirst(window: Window, grants: seq<Grant>, now: int)
    requires grants == [] || (GrantsFit(window, grants) && window.start + LOOKUP_WINDOW_MS <= now)
    ensures GrantsFit(Window(now, 1), grants + [Grant(now, now)])
  {
    var more := grants + [Grant(now, now)];
    NoneYet(grants, now);
    forall start ensures InWindow(more, start) == InWindow(grants, start) + if now == start then 1 else 0 {
      InWindowAppend(grants, Grant(now, now), start);
    }
    assert forall k :: 0 <= k < |grants| ==> Apart(grants[k].start, now);
  }

  lemma {:induction false} NoneYet(grants: seq<Grant>, start: int)
    ensures (forall k :: 0 <= k < |grants| ==> grants[k].start != start) ==> InWindow(grants, start) == 0
  {
    if grants != [] && forall k :: 0 <= k < |grants| ==> grants[k].start != start {
      forall k | 0 <= k < |grants[1..]| ensures grants[1..][k].start != start {
        assert grants[1..][k] == grants[k + 1];
      }
      NoneYet(grants[1..], start);
    }
  }

  lemma RefusedMore(window: Window, grants: seq<Grant>)
    requires GrantsFit(window, grants) && window.count >= POS_LOOKUPS_PER_IP_PER_MINUTE
    ensures GrantsFit(Window(window.start, window.count + 1), grants)
  {
  }

  lemma GrantedMore(window: Window, grants: seq<Grant>, now: int)
    requires GrantsFit(window, grants) && window.count < POS_LOOKUPS_PER_IP_PER_MINUTE
    requires window.start <= now < window.start + LOOKUP_WINDOW_MS
    ensures GrantsFit(Window(window.start, window.count + 1), grants + [Grant(now, window.start)])
  {
    forall start ensures InWindow(grants + [Grant(now, window.start)], start)
                         == InWindow(grants, start) + if window.start == start then 1 else 0 {
      InWindowAppend(grants, Grant(now, window.start), start);
    }
  }

  // ---- What a terminal is told ----

  datatype Organization = Organization(dataRegion: string, hasProvisionedDb: bool)

  predicate Served(o: Organization) { o.dataRegion == "us" && o.hasProvisionedDb }

  datatype Outcome = Looked(lookup: Lookup<Organization>) | Limited

  /** None lets the request through; otherwise the HTTP status. */
  function PosVerdict(outcome: Outcome): Option<int> {
    match outcome
    case Limited => Some(429)
    case Looked(Unavailable) => Some(503)
    case Looked(NotKnown) => Some(401)
    case Looked(Found(o)) => if Served(o) then None else Some(401)
  }

  /** The control plane's last word, still within its time to live, is that there is nothing to serve. */
  ghost predicate Removed(last: Option<Answer<Organization>>, now: int) {
    && last.Some? && 0 <= now - last.value.at < Lifetime(last.value.lookup)
    && (last.value.lookup.NotKnown? || (last.value.lookup.Found? && !OnUsNode(last.value.lookup.organization)))
  }

  ghost predicate OnUsNode(o: Organization) { o.dataRegion == "us" && o.hasProvisionedDb }

  /** The check of a terminal's request: decided at once, or once the control plane has answered. */
  datatype Check = Decided(status: Option<int>) | Waiting

  /**
   * A terminal signs itself out on 401, so it may be told so only when the organization is
   * gone. At once, that is when the cache still holds the control plane's last word that it is.
   */
  method BeginCheck(router: Router<Organization>, orgId: string, clientIp: string, now: int) returns (check: Check)
    requires router.Valid() && router.clock <= now
    modifies router`windows, router`lookups, router`clock
    ensures router.Valid() && router.clock == now
    ensures check == Decided(Some(401)) <==> router.Hits(orgId, now) && Removed(LastAnswer(router.answers, orgId), now)
    ensures check == Decided(Some(429)) <==> !router.Hits(orgId, now) && old(router.Exhausted(clientIp, now))
    ensures check.Decided? ==> check.status in {None, Some(401), Some(429)}
    ensures check.Waiting? ==> !router.Hits(orgId, now)
  {
    hide LastAnswer;
    var begun := router.Begin(orgId, clientIp, now);
    match begun
    case Hit(lookup) => check := Decided(PosVerdict(Looked(lookup)));
    case RateLimited => check := Decided(PosVerdict(Limited));
    case Asking => check := Waiting;
  }

  /** After the answer: 401 exactly when it says so, 503 exactly when the control plane could not be asked. */
  method FinishCheck(router: Router<Organization>, orgId: string, lookup: Lookup<Organization>, now: int)
    returns (status: Option<int>)
    requires router.Valid() && router.clock <= now
    modifies router`keys, router`entries, router`answers, router`clock
    ensures router.Valid()
    ensures LastAnswer(router.answers, orgId) == Some(Answer(orgId, lookup, now))
    ensures status == Some(401) <==> Removed(LastAnswer(router.answers, orgId), now)
    ensures status == Some(503) <==> lookup.Unavailable?
    ensures status == None <==> lookup.Found? && OnUsNode(lookup.organization)
  {
    LastOfMore(router.answers, Answer(orgId, lookup, now));
    hide LastAnswer;
    router.Answered(orgId, lookup, now);
    status := PosVerdict(Looked(lookup));
  }

  // ---- Reading a body with a cap ----

  datatype Declared = Absent | Bytes(n: int) | NotANumber

  datatype Read = Chunk(bytes: seq<bv8>) | ReadFails

  function TotalSize(chunks: seq<seq<bv8>>): nat {
    if chunks == [] then 0 else TotalSize(chunks[..|chunks| - 1]) + |chunks[|chunks| - 1]|
  }

  function Joined(chunks: seq<seq<bv8>>): (r: seq<bv8>)
    ensures |r| == TotalSize(chunks)
  {
    if chunks == [] then [] else Joined(chunks[..|chunks| - 1]) + chunks[|chunks| - 1]
  }

  /** The chunks of a stream up to its first failure. */
  function Chunks(pulls: seq<Read>): seq<seq<bv8>> {
    if pulls == [] then [] else
    var before := Chunks(pulls[..|pulls| - 1]);
    if pulls[|pulls| - 1].Chunk? then before + [pulls[|pulls| - 1].bytes] else before
  }

  predicate Readable(pulls: seq<Read>) {
    forall k :: 0 <= k < |pulls| ==> pulls[k].Chunk?
  }

  lemma {:induction false} SizeGrows(pulls: seq<Read>, n: nat)
    requires n <= |pulls|
    ensures TotalSize(Chunks(pulls[..n])) <= TotalSize(Chunks(pulls))
  {
    if n < |pulls| {
      assert pulls[..|pulls| - 1][..n] == pulls[..n];
      SizeGrows(pulls[..|pulls| - 1], n);
      var before := Chunks(pulls[..|pulls| - 1]);
      if pulls[|pulls| - 1].Chunk? { assert (before + [pulls[|pulls| - 1].bytes])[..|before|] == before; }
    } else {
      assert pulls[..n] == pulls;
    }
  }

  /** Copies the chunks one behind the other. */
  method Assemble(chunks: seq<seq<bv8>>, size: nat) returns (bytes: array<bv8>)
    requires size == TotalSize(chunks)
    ensures fresh(bytes) && bytes[..] == Joined(chunks)
  {
    bytes := new bv8[size];
    var offset := 0;
    var k := 0;
    while k < |chunks|
      invariant k <= |chunks| && offset == TotalSize(chunks[..k]) <= size
      invariant bytes[..offset] == Joined(chunks[..k])
    {
      var chunk := chunks[k];
      assert chunks[..k + 1][..k] == chunks[..k];
      PrefixSize(chunks, k + 1);
      forall i | 0 <= i < |chunk| { bytes[offset + i] := chunk[i]; }
      assert bytes[..offset + |chunk|] == bytes[..offset] + chunk;
      offset := offset + |chunk|;
      k := k + 1;
    }
    assert chunks[..k] == chunks;
  }

  lemma {:induction false} PrefixSize(chunks: seq<seq<bv8>>, n: nat)
    requires n <= |chunks|
    ensures TotalSize(chunks[..n]) <= TotalSize(chunks)
  {
    if n < |chunks| {
      assert chunks[..|chunks| - 1][..n] == chunks[..n];
      PrefixSize(chunks[..|chunks| - 1], n);
    } else {
      assert chunks[..n] == chunks;
    }
  }

  /**
   * The body, decoded from all its chunks in order, exactly when it neither declares itself
   * too large, nor fails, nor is too large. `kept` is all that was ever held of it.
   */
  method ReadCappedText(declared: Declared, body: Option<seq<Read>>, maxBytes: nat, decode: seq<bv8> -> string)
    returns (text: Option<string>, kept: seq<seq<bv8>>)
    ensures TotalSize(kept) <= maxBytes
    ensures text.Some? <==>
            && (declared.Absent? || (declared.Bytes? && declared.n <= maxBytes))
            && (body.Some? ==> Readable(body.value) && TotalSize(Chunks(body.value)) <= maxBytes)
    ensures text.Some? ==> text.value == if body.None? then "" else decode(Joined(Chunks(body.value)))
  {
    kept := [];
    if !declared.Absent? && !(declared.Bytes? && declared.n <= maxBytes) { return None, kept; }
    if body.None? { return Some(""), kept; }
    var pulls := body.value;
    var size := 0;
    var k := 0;
    while k < |pulls|
      invariant k <= |pulls| && Readable(pulls[..k])
      invariant kept == Chunks(pulls[..k]) && size == TotalSize(kept) <= maxBytes
    {
      assert pulls[..k + 1][..k] == pulls[..k];
      if pulls[k].ReadFails? { return None, kept; }
      var value := pulls[k].bytes;
      assert (kept + [value])[..|kept|] == kept;
      size := size + |value|;
      if size > maxBytes {
        SizeGrows(pulls, k + 1);
        return None, kept;
      }
      kept := kept + [value];
      k := k + 1;
    }
    assert pulls[..k] == pulls;
    var bytes := Assemble(kept, size);
    return Some(decode(bytes[..])), kept;
  }
}
