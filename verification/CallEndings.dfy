/** A call never hangs, and what becomes of staff who answered it. */
module CallEndings {
  import opened Options
  import opened CallFlow
  import opened CallEngine
  import opened Dialing
  import opened CallInvariants
  import opened CallProgress
  import opened CallEvents
  import opened CallTheorems

  // ---- Something always comes next ----

  ghost predicate Pending(s: Call, k: Kind) {
    exists i :: i in Pool(s) && Is(k, Pool(s)[i])
  }

  lemma CountedIsPending(s: Call, k: Kind)
    requires Count(Pool(s), k) > 0
    ensures Pending(s, k)
  {
    var ids := Those(Pool(s), k);
    assert ids != {};
    var i :| i in ids;
    assert i in Pool(s) && Is(k, Pool(s)[i]);
  }

  /**
   * An open question, menu or voicemail is waited for: by its own timer or by its own prompt,
   * or, at a menu, by a caller who is still making a sound.
   */
  ghost predicate WaitedFor(s: Call) {
    && (s.answer.Some? ==>
          var q := s.answer.value;
          q.playing || (q.timer.Some? && q.timer.value in s.timers))
    && (s.menu.Some? ==>
          var m := s.menu.value;
          s.speaking || Pending(s, PromptFor(m.token)) || (m.timer.Some? && m.timer.value in s.timers))
    && (s.voicemail.Some? && !s.ending ==>
          var v := s.voicemail.value;
          Pending(s, GreetingFor(v.id)) || (v.maxTimer.Some? && v.maxTimer.value in s.timers))
  }

  /** What moves a call on, from its start to the moment the room is left or closed. */
  ghost predicate GoesOn(s: Call) {
    if !s.ending then Pending(s, Driving) || s.menu.Some? || s.voicemail.Some? || s.aiActive
    else if s.log.goodbyes > 0 then
      Pending(s, Parting) || (exists i :: i in s.timers && s.timers[i] == HangUpGrace) || s.log.hangUps > 0
    else
      s.log.connects > 0 && (s.log.answers == 0 || s.log.leaves > 0 || Pending(s, ConnectingStaff))
  }

  lemma GraceRuns(timers: map<Id, Timer>)
    requires Graces(timers) > 0
    ensures exists i :: i in timers && timers[i] == HangUpGrace
  {
    var ids := GraceTimers(timers);
    assert ids != {};
    var i :| i in ids;
  }

  lemma NobodyIsForgotten(env: Env, s: Call)
    requires Good(env, s)
    ensures WaitedFor(s)
  {
    if s.menu.Some? && Count(Pool(s), PromptFor(s.menu.value.token)) > 0 {
      CountedIsPending(s, PromptFor(s.menu.value.token));
    }
    if s.voicemail.Some? && Count(Pool(s), GreetingFor(s.voicemail.value.id)) > 0 {
      CountedIsPending(s, GreetingFor(s.voicemail.value.id));
    }
    hide Led, Driven, IdsOk, CountsOk, VoicemailsOk, Count, Pool, Pending;
  }

  lemma StillHeld(env: Env, s: Call)
    requires Good(env, s) && s.started && !s.ending
    ensures Pending(s, Driving) || s.menu.Some? || s.voicemail.Some? || s.aiActive
  {
    assert Count(Pool(s), Driving) + One(s.menu.Some?) + One(s.voicemail.Some?) + One(s.aiActive) == 1 by {
      hide Kept, Led, Count, Pool;
    }
    hide Good, Count, Pending;
    if Count(Pool(s), Driving) > 0 { CountedIsPending(s, Driving); }
  }

  lemma StillEnding(env: Env, s: Call)
    requires Good(env, s) && s.ending && !s.disposed
    ensures GoesOn(s)
  {
    assert s.log.goodbyes + s.log.connects == 1
           && Count(Pool(s), Parting) + Graces(s.timers) + s.log.hangUps == s.log.goodbyes
           && (s.log.connects == 1 ==>
                 s.log.answers == Count(Pool(s), ConnectingStaff) + s.log.leaves) by {
      hide Kept, FlowOk, TransfersOk, Driven, Count, Pool, Graces;
    }
    hide Good, Count, Pending, Graces;
    if Count(Pool(s), Parting) > 0 { CountedIsPending(s, Parting); }
    if Graces(s.timers) > 0 { GraceRuns(s.timers); }
    if Count(Pool(s), ConnectingStaff) > 0 { CountedIsPending(s, ConnectingStaff); }
  }

  /** From its start until its session closes, a call always has something that moves it on. */
  lemma CallsNeverHang(env: Env, events: seq<Event>)
    requires Run(env, events).started && !Run(env, events).disposed
    ensures GoesOn(Run(env, events)) && WaitedFor(Run(env, events))
  {
    var s := Run(env, events);
    RunKeeps(env, events);
    hide Good, Run, WaitedFor, Pending;
    NobodyIsForgotten(env, s);
    if s.ending {
      StillEnding(env, s);
    } else {
      StillHeld(env, s);
    }
  }

  // ---- Staff who answered ----

  /** Nothing is pending any more and the room will not be closed by itself. */
  ghost predicate AtRest(s: Call) {
    s.tasks == map[] && s.answer.None? && forall i :: i in s.timers ==> s.timers[i] != HangUpGrace
  }

  /** Staff answered, but the agent neither left them with the caller nor closed the room. */
  ghost predicate Abandoned(s: Call) {
    s.log.answers > 0 && s.log.leaves + s.log.clears + s.log.hangUps == 0
  }

  lemma RestCounts(s: Call)
    requires AtRest(s)
    ensures forall k :: Count(Pool(s), k) == 0
    ensures Graces(s.timers) == 0
  {
    forall k ensures Count(Pool(s), k) == 0 { assert Those(Pool(s), k) == {}; }
    assert GraceTimers(s.timers) == {};
  }

  /**
   * The recording stops as soon as staff answers, and staff answers once at most. At rest,
   * staff who answered were left with the caller, or met a closed room, or were dropped as
   * their hold ended in a goodbye; the room is then closed unless the session closed first.
   */
  lemma StaffIsLookedAfter(env: Env, events: seq<Event>)
    ensures
      var s := Run(env, events);
      && s.log.recordingStops == s.log.answers <= 1
      && (AtRest(s) ==> s.log.answers == s.log.leaves + s.log.clears + s.log.dropped && s.log.hangUps == s.log.graces)
      && (AtRest(s) && Abandoned(s) ==> s.disposed && s.log.goodbyes == 1)
  {
    RunKeeps(env, events);
    var s := Run(env, events);
    if AtRest(s) { RestCounts(s); }
    hide Kept, FlowOk, TransfersOk, Driven, Count, Pool, Graces, AtRest, Run;
  }

  lemma AbandonedInLedger(env: Env, events: seq<Event>)
    requires AtRest(Run(env, events))
    ensures
      var s := Run(env, events);
      && (Abandoned(s) <==> s.log.dropped > 0 && s.log.graces == 0)
      && (Abandoned(s) ==> s.disposed)
  {
    StaffIsLookedAfter(env, events);
    hide Run, AtRest;
  }

  // ---- The events that strand staff ----

  datatype Deed = HoldEnd | GraceEnd | Disposal

  ghost predicate Does(deed: Deed, s: Call, e: Event) {
    match deed
    case HoldEnd => HoldEndsInGoodbye(s, e)
    case GraceEnd => GraceEnds(s, e)
    case Disposal => e == Disposed
  }

  ghost predicate DoneAt(env: Env, events: seq<Event>, deed: Deed, k: int) {
    0 <= k < |events| && Does(deed, Run(env, events[..k]), events[k])
  }

  ghost predicate Done(env: Env, events: seq<Event>, deed: Deed) {
    exists k :: DoneAt(env, events, deed, k)
  }

  lemma DoneMore(env: Env, events: seq<Event>, e: Event, deed: Deed)
    ensures Done(env, events + [e], deed) <==> Done(env, events, deed) || Does(deed, Run(env, events), e)
  {
    var all := events + [e];
    hide Run, Does;
    assert all[..|events|] == events;
    forall k | 0 <= k < |events| ensures DoneAt(env, all, deed, k) == DoneAt(env, events, deed, k) {
      assert all[..k] == events[..k] && all[k] == events[k];
    }
    assert DoneAt(env, all, deed, |events|) == Does(deed, Run(env, events), e);
    if Done(env, events, deed) {
      var k :| DoneAt(env, events, deed, k);
      assert DoneAt(env, all, deed, k);
    }
    if Done(env, all, deed) {
      var k :| DoneAt(env, all, deed, k);
      if k < |events| { assert DoneAt(env, events, deed, k); }
    }
  }

  lemma DeedsOfStep(env: Env, s: Call, e: Event)
    requires Good(env, s)
    ensures Deeds(s, e, Step(env, s, e))
  {
    GoodKnowsHeard(env, s);
    StepGrows(env, s, e);
  }

  /** The ledger records exactly the deeds that were done. */
  lemma {:induction false} LedgerOfDeeds(env: Env, events: seq<Event>)
    ensures
      var s := Run(env, events);
      && (s.log.dropped > 0 <==> Done(env, events, HoldEnd))
      && (s.log.graces > 0 <==> Done(env, events, GraceEnd))
      && (s.disposed <==> Done(env, events, Disposal))
  {
    if events != [] {
      var most, e := events[..|events| - 1], events[|events| - 1];
      assert events == most + [e];
      LedgerOfDeeds(env, most);
      RunKeeps(env, most);
      DeedsOfStep(env, Run(env, most), e);
      DoneMore(env, most, e, HoldEnd);
      DoneMore(env, most, e, GraceEnd);
      DoneMore(env, most, e, Disposal);
      hide Good, Step, Done, HoldEndsInGoodbye, GraceEnds;
    }
  }

  /** The session closes, and by then no goodbye has come to the end of its grace. */
  ghost predicate ClosesFirst(env: Env, events: seq<Event>) {
    exists d :: DoneAt(env, events, Disposal, d) && forall k :: 0 <= k < d ==> !DoneAt(env, events, GraceEnd, k)
  }

  lemma NoGraceOnceClosed(env: Env, events: seq<Event>, d: nat, k: nat)
    requires DoneAt(env, events, Disposal, d) && d < k < |events|
    ensures !DoneAt(env, events, GraceEnd, k)
  {
    assert events[..k][..d] == events[..d];
    assert DoneAt(env, events[..k], Disposal, d);
    LedgerOfDeeds(env, events[..k]);
    hide Run;
  }

  /** Whatever ended the grace did so before the session closed. */
  lemma ClosesFirstMeansNoGrace(env: Env, events: seq<Event>)
    requires Done(env, events, Disposal)
    ensures ClosesFirst(env, events) <==> !Done(env, events, GraceEnd)
  {
    hide Run, Does;
    if ClosesFirst(env, events) {
      var d :| DoneAt(env, events, Disposal, d) && forall k :: 0 <= k < d ==> !DoneAt(env, events, GraceEnd, k);
      forall k ensures !DoneAt(env, events, GraceEnd, k) {
        if d < k < |events| { NoGraceOnceClosed(env, events, d, k); }
        if k == d { DisposalIsNoGrace(env, events, d); }
      }
    } else {
      var d :| DoneAt(env, events, Disposal, d);
    }
  }

  lemma DisposalIsNoGrace(env: Env, events: seq<Event>, d: int)
    requires DoneAt(env, events, Disposal, d)
    ensures !DoneAt(env, events, GraceEnd, d)
  {
    hide Run;
  }

  /**
   * Once nothing is pending, staff are abandoned exactly when they have answered, the hold
   * message ended while a goodbye was under way, and the session closed before that goodbye's
   * grace was over. They may have answered before the goodbye began or during it.
   */
  lemma StaffIsAbandonedExactlyWhen(env: Env, events: seq<Event>)
    requires AtRest(Run(env, events))
    ensures Abandoned(Run(env, events)) <==> Done(env, events, HoldEnd) && ClosesFirst(env, events)
  {
    LedgerOfDeeds(env, events);
    AbandonedInLedger(env, events);
    hide Run, AtRest, Abandoned, Done, DoneAt, ClosesFirst;
    if Done(env, events, Disposal) {
      ClosesFirstMeansNoGrace(env, events);
    } else {
      ClosingIsDisposal(env, events);
    }
  }

  lemma ClosingIsDisposal(env: Env, events: seq<Event>)
    ensures ClosesFirst(env, events) ==> Done(env, events, Disposal)
  {
    hide DoneAt;
  }

  const START_STEP := FlowNode("start", Start, [], None, "")
  const STAFF_STEP := FlowNode("staff", TransferCall, [], None, "")

  /** A call that rings the escalation phone at once. */
  const STRANDING_ENV := Env(
    FlowGraph([START_STEP, STAFF_STEP], [FlowEdge("start", "staff", None)]),
    true, phone => true, Some("+13055550100"), false, false, caseId => None, (options, text) => None, false, true,
    false, Some(true), false, reply => false, reply => None, true)

  const HAPPENS := Result(true, Answered)

  /** The limit ends the call while staff is ringing, staff answers, and the caller hangs up during the goodbye. */
  const STRANDING_RUN := [
    BeginCall, StartCallLimit, Resumes(0, HAPPENS), TimerFires(1), Resumes(2, HAPPENS), Resumes(4, HAPPENS),
    Resumes(5, HAPPENS), Disposed, Resumes(3, HAPPENS)]

  /** The same with staff who answer before the limit ends the call, during their hold message. */
  const ANSWERED_FIRST_RUN := [
    BeginCall, StartCallLimit, Resumes(0, HAPPENS), Resumes(2, HAPPENS), TimerFires(1), Resumes(3, HAPPENS),
    Resumes(5, HAPPENS), Disposed, Resumes(4, HAPPENS)]

  /** The fields the stranding run goes through; nothing is ever open and nobody leaves or hangs up. */
  ghost predicate At(s: Call, tasks: map<Id, Task>, timers: map<Id, Timer>, nextId: Id, ending: bool, answers: nat) {
    && s.tasks == tasks && s.timers == timers && s.nextId == nextId && s.ending == ending && s.log.answers == answers
    && s.menu.None? && s.voicemail.None? && s.answer.None? && !s.disposed
    && s.log.leaves == 0 && s.log.clears == 0 && s.log.hangUps == 0
  }

  lemma StrandingRings(s: Call)
    requires At(s, map[0 := Preamble], map[1 := CallLimit], 2, false, 0) && s.stepCount == 0 && !s.transferring
    ensures
      var x := Transfer(FromStep(STAFF_STEP), Target("+13055550100", 0));
      At(Step(STRANDING_ENV, s, Resumes(0, HAPPENS)), map[2 := Dialing(x, false, 0)], map[1 := CallLimit], 3, false, 0)
  {
    var env, nodes := STRANDING_ENV, [START_STEP, STAFF_STEP];
    assert FindStart(nodes) == Some(START_STEP);
    assert nodes[1..] == [STAFF_STEP];
    assert FindNode(nodes, "start") == Some(START_STEP) && FindNode(nodes, "staff") == Some(STAFF_STEP);
    assert NextNode(env.graph, "start", None) == Some("staff");
    assert StepTarget(env, STAFF_STEP) == Some(Target("+13055550100", 0));
    hide NextNode, FindNode, FindStart, StepTarget;
    var s1 := Retire(s, 0).(inPreamble := false);
    var s2 := Visit(s1, START_STEP);
    var s3 := Visit(s2, STAFF_STEP);
    assert Enter(env, s1, Some("start")) == Enter(env, s2, Some("staff"));
    assert Enter(env, s2, Some("staff")) ==
           BeginTransfer(env, s3, FromStep(STAFF_STEP), Some(Target("+13055550100", 0)));
    assert Resume(env, Retire(s, 0), Preamble, HAPPENS) == Enter(env, s1, Some("start"));
  }

  lemma StrandingAnswers(env: Env, s: Call, x: Transfer)
    requires At(s, map[2 := Dialing(x, false, 0)], map[1 := CallLimit], 3, false, 0)
    ensures
      var s1 := Step(env, s, TimerFires(1));
      var s2 := Step(env, s1, Resumes(2, HAPPENS));
      && At(s1, map[2 := Dialing(x, false, 0), 3 := Goodbye], map[], 4, true, 0)
      && At(s2, map[3 := Goodbye, 4 := HoldTail(x, false, Answered)], map[], 5, true, 1)
  {
  }

  lemma StrandingAnswersFirst(env: Env, s: Call, x: Transfer)
    requires At(s, map[2 := Dialing(x, false, 0)], map[1 := CallLimit], 3, false, 0) && !env.csatEnabled
    ensures
      var s1 := Step(env, s, Resumes(2, HAPPENS));
      var s2 := Step(env, s1, TimerFires(1));
      && At(s1, map[3 := HoldTail(x, false, Answered)], map[1 := CallLimit], 4, false, 1)
      && At(s2, map[4 := Goodbye, 3 := HoldTail(x, false, Answered)], map[], 5, true, 1)
  {
  }

  lemma StrandingDrops(env: Env, s: Call, x: Transfer, goodbye: Id, hold: Id)
    requires At(s, map[goodbye := Goodbye, hold := HoldTail(x, false, Answered)], map[], 5, true, 1)
    requires goodbye != hold && goodbye < 5
    ensures
      var s' := Step(env, s, Resumes(hold, HAPPENS));
      At(s', map[goodbye := Goodbye, 5 := TransferDone(x.origin, Ended)], map[], 6, true, 1)
  {
    assert Retire(s, hold).tasks == map[goodbye := Goodbye];
  }

  lemma StrandingFinishes(env: Env, s: Call, x: Transfer, goodbye: Id)
    requires At(s, map[goodbye := Goodbye, 5 := TransferDone(x.origin, Ended)], map[], 6, true, 1) && goodbye < 5
    ensures At(Step(env, s, Resumes(5, HAPPENS)), map[goodbye := Goodbye], map[], 6, true, 1)
  {
    hide Enter, EndCall;
    assert Retire(s, 5).tasks == map[goodbye := Goodbye];
  }

  lemma StrandingCloses(env: Env, s: Call, goodbye: Id)
    requires At(s, map[goodbye := Goodbye], map[], 6, true, 1)
    ensures
      var s' := Step(env, Step(env, s, Disposed), Resumes(goodbye, HAPPENS));
      AtRest(s') && Abandoned(s')
  {
  }

  /** From staff on hold in a goodbye to the end of either run. */
  lemma StrandingEnds(env: Env, s: Call, x: Transfer, goodbye: Id, hold: Id)
    requires At(s, map[goodbye := Goodbye, hold := HoldTail(x, false, Answered)], map[], 5, true, 1)
    requires goodbye != hold && goodbye < 5
    ensures
      var s2 := Step(env, Step(env, s, Resumes(hold, HAPPENS)), Resumes(5, HAPPENS));
      var s' := Step(env, Step(env, s2, Disposed), Resumes(goodbye, HAPPENS));
      AtRest(s') && Abandoned(s')
  {
    hide Step, At, AtRest, Abandoned;
    var s1 := Step(env, s, Resumes(hold, HAPPENS));
    StrandingDrops(env, s, x, goodbye, hold);
    StrandingFinishes(env, s1, x, goodbye);
    StrandingCloses(env, Step(env, s1, Resumes(5, HAPPENS)), goodbye);
  }

  lemma StrandingBegins()
    ensures
      var s := Step(STRANDING_ENV, Step(STRANDING_ENV, NEW_CALL, BeginCall), StartCallLimit);
      At(s, map[0 := Preamble], map[1 := CallLimit], 2, false, 0) && s.stepCount == 0 && !s.transferring
  {
  }

  /** Staff who answer during a goodbye can be left alone. */
  lemma StaffCanBeStranded()
    ensures AtRest(Run(STRANDING_ENV, STRANDING_RUN)) && Abandoned(Run(STRANDING_ENV, STRANDING_RUN))
  {
    hide Step, At, AtRest, Abandoned;
    var env, x := STRANDING_ENV, Transfer(FromStep(STAFF_STEP), Target("+13055550100", 0));
    var s2 := Step(env, Step(env, NEW_CALL, BeginCall), StartCallLimit);
    var s3 := Step(env, s2, Resumes(0, HAPPENS));
    StrandingBegins();
    StrandingRings(s2);
    StrandingAnswers(env, s3, x);
    StrandingEnds(env, Step(env, Step(env, s3, TimerFires(1)), Resumes(2, HAPPENS)), x, 3, 4);
    NineSteps(env, STRANDING_RUN);
  }

  /** And so can staff who answer before anything ends the call. */
  lemma StaffWhoAnsweredFirstCanBeStranded()
    ensures
      var s := Run(STRANDING_ENV, ANSWERED_FIRST_RUN[..4]);
      s.log.answers == 1 && !s.ending
    ensures AtRest(Run(STRANDING_ENV, ANSWERED_FIRST_RUN)) && Abandoned(Run(STRANDING_ENV, ANSWERED_FIRST_RUN))
  {
    hide Step, AtRest, Abandoned;
    var env, x := STRANDING_ENV, Transfer(FromStep(STAFF_STEP), Target("+13055550100", 0));
    var s2 := Step(env, Step(env, NEW_CALL, BeginCall), StartCallLimit);
    var s3 := Step(env, s2, Resumes(0, HAPPENS));
    StrandingBegins();
    StrandingRings(s2);
    StrandingAnswersFirst(env, s3, x);
    StrandingEnds(env, Step(env, Step(env, s3, Resumes(2, HAPPENS)), TimerFires(1)), x, 4, 3);
    FourSteps(env, ANSWERED_FIRST_RUN);
    hide At;
    NineSteps(env, ANSWERED_FIRST_RUN);
  }

  ghost function Steps(env: Env, s: Call, events: seq<Event>): Call
    decreases |events|
  {
    if events == [] then s else Steps(env, Step(env, s, events[0]), events[1..])
  }

  lemma {:induction false} StepsOfRun(env: Env, before: seq<Event>, events: seq<Event>)
    ensures Run(env, before + events) == Steps(env, Run(env, before), events)
    decreases |events|
  {
    hide Step;
    if events == [] {
      assert before + events == before;
    } else {
      assert before + events == (before + [events[0]]) + events[1..];
      RunAppend(env, before, events[0]);
      StepsOfRun(env, before + [events[0]], events[1..]);
    }
  }

  lemma NineSteps(env: Env, es: seq<Event>)
    requires |es| == 9
    ensures
      var s3 := Step(env, Step(env, Step(env, NEW_CALL, es[0]), es[1]), es[2]);
      var s6 := Step(env, Step(env, Step(env, s3, es[3]), es[4]), es[5]);
      Run(env, es) == Step(env, Step(env, Step(env, s6, es[6]), es[7]), es[8])
  {
    hide Step, NEW_CALL;
    StepsOfRun(env, [], es);
    assert [] + es == es;
    StepsUnfold(env, NEW_CALL, es);
  }

  lemma FourSteps(env: Env, es: seq<Event>)
    requires |es| >= 4
    ensures Run(env, es[..4]) == Step(env, Step(env, Step(env, Step(env, NEW_CALL, es[0]), es[1]), es[2]), es[3])
  {
    hide Step, NEW_CALL;
    var four := es[..4];
    StepsOfRun(env, [], four);
    assert [] + four == four && four[3..] == [es[3]];
    Three(env, NEW_CALL, four);
    assert [es[3]][1..] == [];
  }

  lemma StepsUnfold(env: Env, s: Call, es: seq<Event>)
    requires |es| == 9
    ensures
      var s3 := Step(env, Step(env, Step(env, s, es[0]), es[1]), es[2]);
      var s6 := Step(env, Step(env, Step(env, s3, es[3]), es[4]), es[5]);
      Steps(env, s, es) == Step(env, Step(env, Step(env, s6, es[6]), es[7]), es[8])
  {
    hide Step;
    Three(env, s, es);
    var s3 := Step(env, Step(env, Step(env, s, es[0]), es[1]), es[2]);
    Three(env, s3, es[3..]);
    assert es[3..][3..] == es[6..];
    var s6 := Step(env, Step(env, Step(env, s3, es[3]), es[4]), es[5]);
    Three(env, s6, es[6..]);
    assert es[6..][3..] == [];
  }

  lemma Three(env: Env, s: Call, es: seq<Event>)
    requires |es| >= 3
    ensures Steps(env, s, es) == Steps(env, Step(env, Step(env, Step(env, s, es[0]), es[1]), es[2]), es[3..])
  {
    hide Step;
    assert es[1..][1..] == es[2..] && es[2..][1..] == es[3..];
    var s1 := Step(env, s, es[0]);
    assert Steps(env, s, es) == Steps(env, s1, es[1..]);
    assert Steps(env, s1, es[1..]) == Steps(env, Step(env, s1, es[1]), es[2..]);
  }
}
