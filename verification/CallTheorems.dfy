/** What the call engine promises on every run: any events, in any order. */
module CallTheorems {
  import opened Options
  import opened CallFlow
  import opened CallEngine
  import opened CallInvariants
  import opened CallProgress
  import opened CallEvents
  import PhoneNumbers

  // ---- Who drives the flow ----

  datatype Holder = PendingStep(id: Id) | TheMenu | TheVoicemail | TheAssistant

  /** A pending step is a notice, a message, a voicemail being saved, or a transfer the menu waits for. */
  ghost predicate Holds(s: Call, h: Holder) {
    match h
    case PendingStep(id) => id in Pool(s) && Is(Driving, Pool(s)[id])
    case TheMenu => s.menu.Some?
    case TheVoicemail => s.voicemail.Some?
    case TheAssistant => s.aiActive
  }

  lemma OnlyMember<T>(ids: set<T>, i: T, j: T)
    requires |ids| <= 1 && i in ids && j in ids
    ensures i == j
  {
    if i != j {
      assert |{i, j}| == 2;
      assert {i, j} <= ids;
      Subsets({i, j}, ids);
    }
  }

  lemma {:induction false} Subsets<T>(a: set<T>, b: set<T>)
    requires a <= b
    ensures |a| <= |b|
  {
    assert b == a + (b - a);
  }

  lemma NonEmpty<T>(ids: set<T>, i: T)
    requires i in ids
    ensures |ids| >= 1
  {
  }

  lemma HoldersAgree(s: Call, h: Holder, h': Holder)
    requires Holders(s, None) <= 1 && Holds(s, h) && Holds(s, h')
    ensures h == h'
  {
    var ids := Those(Pool(s), Driving);
    if h.PendingStep? { NonEmpty(ids, h.id); }
    if h'.PendingStep? { NonEmpty(ids, h'.id); }
    if h.PendingStep? && h'.PendingStep? { OnlyMember(ids, h.id, h'.id); }
  }

  lemma SomeHolder(s: Call) returns (h: Holder)
    requires Holders(s, None) >= 1
    ensures Holds(s, h)
  {
    if s.menu.Some? { return TheMenu; }
    if s.voicemail.Some? { return TheVoicemail; }
    if s.aiActive { return TheAssistant; }
    var ids := Those(Pool(s), Driving);
    assert ids != {};
    var id :| id in ids;
    return PendingStep(id);
  }

  lemma OneHolderAtMost(env: Env, s: Call)
    requires Good(env, s)
    ensures Holders(s, None) <= 1
    ensures s.started && !s.ending ==> Holders(s, None) == 1
  {
    hide Kept, TransfersOk, EndingOk, StaffOk, Holders, Work;
  }

  /** Never two at once: no menu is open beside a voicemail, a pending step or the assistant. */
  lemma OneDriver(env: Env, events: seq<Event>, h: Holder, h': Holder)
    requires Holds(Run(env, events), h) && Holds(Run(env, events), h')
    ensures h == h'
  {
    RunKeeps(env, events);
    hide Good, Holds, Run;
    OneHolderAtMost(env, Run(env, events));
    HoldersAgree(Run(env, events), h, h');
  }

  /** And never nobody, from the start of the call until it ends. */
  lemma SomebodyDrives(env: Env, events: seq<Event>)
    requires Run(env, events).started && !Run(env, events).ending
    ensures exists h :: Holds(Run(env, events), h)
  {
    RunKeeps(env, events);
    hide Good, Holds, Run;
    OneHolderAtMost(env, Run(env, events));
    var h := SomeHolder(Run(env, events));
  }

  // ---- Timers and names ----

  /** A running timer is the current one of the menu, voicemail or question open now. */
  lemma TimersAreCurrent(env: Env, events: seq<Event>, id: Id)
    requires id in Run(env, events).timers
    ensures
      var s := Run(env, events);
      && OwnTimer(id, s.timers[id], s.menu, s.voicemail, s.answer)
      && (s.disposed ==> s.timers[id] == CallLimit)
  {
    RunKeeps(env, events);
    hide Led, Driven, IdsOk, PromptsOk, CountsOk, VoicemailsOk, Run;
  }

  lemma RunAppend(env: Env, events: seq<Event>, e: Event)
    ensures Run(env, events + [e]) == Step(env, Run(env, events), e)
  {
    assert (events + [e])[..|events|] == events;
    hide Step;
  }

  lemma {:induction false} RunMoves(env: Env, events: seq<Event>, more: seq<Event>)
    ensures Moves(Run(env, events), Run(env, events + more)) && HeardGrows(Run(env, events), Run(env, events + more))
  {
    if more == [] {
      assert events + more == events;
      StaysPut(Run(env, events));
    } else {
      var most, e := more[..|more| - 1], more[|more| - 1];
      assert events + more == (events + most) + [e];
      hide Step, Moves, HeardGrows, Run;
      RunMoves(env, events, most);
      RunAppend(env, events + most, e);
      RunKeeps(env, events + most);
      GoodKnowsHeard(env, Run(env, events + most));
      StepGrows(env, Run(env, events + most), e);
      MovesAgain(Run(env, events), Run(env, events + most), Run(env, events + more));
    }
  }

  lemma StaysPut(s: Call)
    ensures Moves(s, s) && HeardGrows(s, s)
  {
  }

  lemma MovesAgain(s: Call, s1: Call, s2: Call)
    requires Moves(s, s1) && HeardGrows(s, s1) && Moves(s1, s2) && HeardGrows(s1, s2)
    ensures Moves(s, s2) && HeardGrows(s, s2)
  {
    hide SameOrNewMenu;
    MenusAgain(s, s1, s2);
    forall id | id in s.log.heard && id < s.nextId
      ensures id in s2.log.heard && s.log.heard[id] <= s2.log.heard[id]
    {
      assert s.log.heard[id] <= s1.log.heard[id] && s1.log.heard[id] <= s2.log.heard[id];
    }
  }

  lemma MenusAgain(s: Call, s1: Call, s2: Call)
    requires SameOrNewMenu(s, s1) && SameOrNewMenu(s1, s2) && s.menuToken <= s1.menuToken
    ensures SameOrNewMenu(s, s2)
  {
  }

  /**
   * A menu's token names one visit of one menu: whatever still holds an old token, a prompt
   * that has just played or a timer, cannot mistake a later menu for its own.
   */
  lemma TokensNameMenus(env: Env, events: seq<Event>, more: seq<Event>)
    requires Run(env, events).menu.Some? && Run(env, events + more).menu.Some?
    requires Run(env, events + more).menu.value.token == Run(env, events).menu.value.token
    ensures MenuStays(Run(env, events), Run(env, events + more))
  {
    RunKeeps(env, events);
    RunMoves(env, events, more);
    assert IdsOk(Run(env, events)) by { hide Led, Driven, TimersOk, PromptsOk, CountsOk, VoicemailsOk, Run; }
    hide Good, Run, HeardGrows;
  }

  // ---- How a call ends ----

  /** One transfer at a time. */
  lemma OneTransfer(env: Env, events: seq<Event>, i: Id, j: Id)
    requires
      var pool := Pool(Run(env, events));
      i in pool && j in pool && InTransfer(pool[i]) && InTransfer(pool[j])
    ensures i == j && Run(env, events).transferring
  {
    RunKeeps(env, events);
    var ids := Those(Pool(Run(env, events)), Transferring);
    assert |ids| <= One(Run(env, events).transferring) by {
      hide Kept, FlowOk, EndingOk, StaffOk, Driven, Run;
    }
    hide Good, Run;
    NonEmpty(ids, i);
    OnlyMember(ids, i, j);
  }

  /** One goodbye or one hand-over to staff, never both. */
  lemma EndsOnce(env: Env, events: seq<Event>)
    ensures
      var log := Run(env, events).log;
      && log.goodbyes + log.connects <= 1 && log.goodbyes + log.leaves <= 1
      && log.hangUps <= log.goodbyes && log.leaves <= log.connects
      && (log.goodbyes + log.connects == 1 ==> Run(env, events).ending)
  {
    RunKeeps(env, events);
    hide Kept, FlowOk, StaffOk, Driven, Run, TransfersOk, Count, Graces;
  }

  // ---- The walk is finite ----

  /** At most 60 steps take effect and at most 60 * (1 + MAX_MENU_REPEATS) menu prompts play. */
  lemma WalkIsBounded(env: Env, events: seq<Event>)
    ensures
      var s := Run(env, events);
      && s.stepCount <= MAX_STEPS_PER_CALL + 1
      && (s.stepCount > MAX_STEPS_PER_CALL ==> s.ending)
      && s.log.prompts <= MAX_STEPS_PER_CALL * (1 + MAX_MENU_REPEATS)
  {
    RunKeeps(env, events);
    hide Led, IdsOk, TimersOk, PromptsOk, VoicemailsOk, Driven, Run;
  }

  // ---- Questions ----

  /** Every question asked is settled exactly once, or is the one still open. */
  lemma QuestionsAreSettledOnce(env: Env, events: seq<Event>)
    ensures
      var s := Run(env, events);
      && s.log.asked == s.log.replies + (if s.answer.Some? then 1 else 0)
      && (s.disposed ==> s.log.asked == s.log.replies)
      && (s.answer.Some? ==> s.answer.value.playing || s.answer.value.timer.Some?)
  {
    RunKeeps(env, events);
    assert Run(env, events).disposed ==> Run(env, events).answer.None? by {
      hide Kept, FlowOk, TransfersOk, StaffOk, Driven, Run, Count, Graces;
    }
    hide Led, IdsOk, TimersOk, VoicemailsOk, Driven, Run, Count;
  }

  // ---- What is dialed ----

  /** With the rule of PhoneNumbers.RefuseToDial, only safe numbers ever reach the dialer. */
  lemma DialedNumbersAreSafe(env: Env, events: seq<Event>, agentLines: seq<string>, k: nat)
    requires forall phone :: env.canDial(phone) == PhoneNumbers.RefuseToDial(phone, agentLines).None?
    requires k < |Run(env, events).log.dialed|
    ensures PhoneNumbers.SafeToDial(Run(env, events).log.dialed[k], agentLines)
  {
    RunKeeps(env, events);
    var s := Run(env, events);
    assert env.canDial(s.log.dialed[k]) by { hide Kept, FlowOk, EndingOk, StaffOk, Driven, Run, Count; }
    hide Good, Run;
    PhoneNumbers.DialedExactlyWhenSafe(s.log.dialed[k], agentLines);
  }
}
