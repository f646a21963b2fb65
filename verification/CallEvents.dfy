/** Whatever happens to a call, the invariant holds afterwards. */
module CallEvents {
  import opened Options
  import opened CallFlow
  import opened CallEngine
  import opened Dialing
  import opened CallInvariants
  import opened CallFrames
  import opened CallSegments
  import opened CallWaiting
  import opened CallTransfers
  import opened CallSteps
  import opened CallProgress
  import Text

  /** The call goes on with as many holders as it had, or it is ending. */
  ghost predicate Moved(env: Env, holders: nat, s': Call) {
    Sound(env, s', None) && Holders(s', None) <= holders && (!s'.ending ==> Holders(s', None) == holders)
  }

  lemma HandedOnMoved(env: Env, s': Call)
    requires HandedOn(env, s')
    ensures Moved(env, 1, s')
  {
    hide Kept, TransfersOk, EndingOk, StaffOk, Count;
  }

  lemma SteadyMoved(env: Env, holders: nat, s': Call)
    requires Sound(env, s', None) && Holders(s', None) == holders
    ensures Moved(env, holders, s')
  {
  }

  // ---- The flow moves on ----

  lemma NoticeOver(env: Env, s: Call)
    requires Sound(env, s, Some(Preamble))
    ensures Sound(env, s.(inPreamble := false), None) && Holders(s.(inPreamble := false), None) == 0
    ensures Holders(s, Some(Preamble)) == 1
  {
    hide Kept, Led, Holders;
    SameKept(s, s.(inPreamble := false));
    NoticeOverLed(env, s);
  }

  lemma NoticeOverLed(env: Env, s: Call)
    requires Led(env, s, Some(Preamble))
    ensures Led(env, s.(inPreamble := false), None) && Holders(s.(inPreamble := false), None) == 0
    ensures Holders(s, Some(Preamble)) == 1
  {
    hide Count, Graces, TasksFit, DialedFit, PoolOf;
  }

  lemma OneHolder(env: Env, s: Call, t: Task)
    requires Sound(env, s, Some(t)) && Stepping(t)
    ensures Holders(s, Some(t)) == 1
  {
    hide Kept, TransfersOk, EndingOk, StaffOk, Count;
  }

  lemma PreambleResumed(env: Env, s: Call, r: Result)
    requires Sound(env, s, Some(Preamble))
    ensures Moved(env, Holders(s, Some(Preamble)), Resume(env, s, Preamble, r))
  {
    var s1 := s.(inPreamble := false);
    hide Sound, Holders, Enter, Fail, FindStart;
    NoticeOver(env, s);
    FailKeeps(env, s1);
    var start := FindStart(env.graph.nodes);
    if start.Some? { EnterKeeps(env, s1, Some(start.value.id)); }
    var s' := Resume(env, s, Preamble, r);
    assert HandedOn(env, s');
    HandedOnMoved(env, s');
  }

  lemma PauseResumed(env: Env, s: Call, t: Task, r: Result)
    requires Sound(env, s, Some(t)) && t.StepPause?
    ensures Moved(env, Holders(s, Some(t)), Resume(env, s, t, r))
  {
    OneHolder(env, s, t);
    assert Stepping(t);
    PauseState(env, s, t, r);
    hide Sound, Holders, Enter, NextNode, Stepping, Resume, Texted;
    HandPutDown(env, s, t);
    TextedKeeps(env, s, None, t.texting && r.ok);
    EnterKeeps(env, Texted(s, t.texting && r.ok), NextNode(env.graph, t.node.id, None));
    HandedOnMoved(env, Resume(env, s, t, r));
  }

  lemma PauseState(env: Env, s: Call, t: Task, r: Result)
    requires t.StepPause?
    ensures Resume(env, s, t, r) == Enter(env, Texted(s, t.texting && r.ok), NextNode(env.graph, t.node.id, None))
  {
    hide Enter, NextNode;
    assert s.(textsSent := s.textsSent) == s;
  }

  lemma TextedKeeps(env: Env, s: Call, hand: Option<Task>, ok: bool)
    requires Sound(env, s, hand)
    ensures Sound(env, Texted(s, ok), hand) && Holders(Texted(s, ok), hand) == Holders(s, hand)
    ensures Texted(s, ok).ending == s.ending
  {
    hide Sound, Holders;
    TextSentKeeps(env, s, hand, if ok then s.textsSent + 1 else s.textsSent);
  }

  lemma SavingResumed(env: Env, s: Call, t: Task, r: Result)
    requires Sound(env, s, Some(t)) && t.SavingVoicemail?
    ensures Moved(env, Holders(s, Some(t)), Resume(env, s, t, r))
  {
    var u := VoicemailNotice(t.node);
    assert Alike(t, u) && !u.MenuPrompt? && !u.VoicemailPrompt?;
    PlainTaskOk(env, u, s.aiActive, s.ending);
    hide Sound, Holders, Alike, TaskOk, Spawn;
    HandChanges(env, s, t, u);
    SpawnKeeps(env, s, u);
  }

  lemma VoicemailResumed(env: Env, s: Call, t: Task, r: Result)
    requires Sound(env, s, Some(t)) && (t.VoicemailNotice? || t.FlushSave?)
    ensures Moved(env, Holders(s, Some(t)), Resume(env, s, t, r))
  {
    if t.VoicemailNotice? {
      OneHolder(env, s, t);
      assert Stepping(t);
      hide Sound, Holders, FollowOrEnd, Stepping;
      HandPutDown(env, s, t);
      FollowKeeps(env, s, t.node.id, None);
      HandedOnMoved(env, Resume(env, s, t, r));
    } else {
      hide Sound, Holders;
      HandPutDown(env, s, t);
    }
  }

  /** A transfer is over: the flow goes on, the assistant does, or the call ends. */
  lemma TransferDoneResumed(env: Env, s: Call, t: Task, r: Result)
    requires Sound(env, s, Some(t)) && t.TransferDone?
    ensures Moved(env, Holders(s, Some(t)), Resume(env, s, t, r))
  {
    HandOk(env, s, t);
    assert t.outcome != Unavailable && OwnsFlow(t.origin) ==> s.ending;
    assert !OwnsFlow(t.origin) ==> s.aiActive;
    hide Sound, Holders, Enter, EndCall, NextNode, TaskOk;
    HandPutDown(env, s, t);
    if t.outcome == Unavailable && OwnsFlow(t.origin) {
      OneHolder(env, s, t);
      if t.origin.FromStep? {
        EnterKeeps(env, s, NextNode(env.graph, t.origin.node.id, Some("no_answer")));
        HandedOnMoved(env, Resume(env, s, t, r));
      } else {
        AssistantAbsent(env, s, t);
        EndCallKeeps(env, s, false);
      }
    }
  }

  lemma AssistantAbsent(env: Env, s: Call, t: Task)
    requires Sound(env, s, Some(t)) && Stepping(t)
    ensures !s.aiActive
  {
    hide Kept, TransfersOk, EndingOk, StaffOk, Count;
  }

  // ---- A transfer moves on ----

  lemma OfferResumed(env: Env, s: Call, t: Task, r: Result)
    requires Sound(env, s, Some(t)) && t.Replied? && t.waiter.TextOffer?
    ensures Moved(env, Holders(s, Some(t)), Resume(env, s, t, r))
  {
    var x := t.waiter.x;
    assert Unattended(t, x) && Ringing(t, x);
    hide Sound, Holders, Ringing, Unattended, Finish, StartDialing;
    if s.ending {
      FinishKeeps(env, s, t, x, Ended);
    } else {
      StartDialingKeeps(env, s, t, x, t.reply.Some? && env.parseYes(t.reply.value));
    }
  }

  lemma RingState(env: Env, s: Call, t: Task, r: Result)
    requires t.TestHold? || t.ColdHold? || t.Dialing? || t.HoldTail?
    ensures
      Resume(env, s, t, r) ==
      (match t
       case TestHold(x, optIn) => PostDial(s, x, optIn, NoAnswer)
       case ColdHold(x, optIn) => DialOrGiveUp(env, s, x, optIn, 0)
       case Dialing(x, optIn, attempt) =>
         if r.dial == NoAnswer then DialOrGiveUp(env, s, x, optIn, attempt + 1) else AfterDial(s, x, optIn, r.dial)
       case HoldTail(x, optIn, result) => PostDial(s, x, optIn, result)
       case _ => s)
  {
    hide PostDial, DialOrGiveUp, AfterDial;
  }

  lemma RingResumed(env: Env, s: Call, t: Task, r: Result)
    requires Sound(env, s, Some(t)) && (t.TestHold? || t.ColdHold? || t.Dialing? || t.HoldTail?)
    ensures Moved(env, Holders(s, Some(t)), Resume(env, s, t, r))
  {
    if !t.HoldTail? { assert Ringing(t, t.x); }
    RingState(env, s, t, r);
    hide Sound, Holders, Ringing, PostDial, DialOrGiveUp, AfterDial, Resume, InTransfer, TransferOf, Is, Moved;
    if t.Dialing? {
      DialKeeps(env, s, t, t.x, t.optIn, t.attempt + 1);
      AfterDialKeeps(env, s, t, t.x, t.optIn, r.dial);
    } else if t.ColdHold? {
      DialKeeps(env, s, t, t.x, t.optIn, 0);
    } else {
      PostDialKeeps(env, s, t, t.x, t.optIn, if t.HoldTail? then t.result else NoAnswer);
    }
    SteadyMoved(env, Holders(s, Some(t)), Resume(env, s, t, r));
  }

  lemma MissedResumed(env: Env, s: Call, t: Task, r: Result)
    requires Sound(env, s, Some(t)) && t.NoAnswerNotice?
    ensures Moved(env, Holders(s, Some(t)), Resume(env, s, t, r))
  {
    var x := t.x;
    assert Unattended(t, x) && Ringing(t, x) && Ringing(FollowUp(x), x);
    hide Sound, Holders, Ringing, Unattended, Finish, Spawn, InTransfer, TransferOf, Is;
    if t.optIn {
      RingOn(env, s, t, FollowUp(x), x);
    } else {
      FinishKeeps(env, s, t, x, if s.ending then Ended else Unavailable);
    }
  }

  lemma FollowedUp(env: Env, s: Call, t: Task, r: Result)
    requires Sound(env, s, Some(t)) && t.FollowUp?
    ensures Moved(env, Holders(s, Some(t)), Resume(env, s, t, r))
  {
    assert Unattended(t, t.x);
    FollowUpState(env, s, t.x, r);
    hide Sound, Holders, Unattended, Finish, InTransfer, TransferOf, Is, Resume, Texted;
    TextedKeeps(env, s, Some(t), r.ok);
    FinishKeeps(env, Texted(s, r.ok), t, t.x, if s.ending then Ended else Unavailable);
  }

  lemma LeavingState(env: Env, s: Call, t: Task, r: Result)
    requires t.Connecting? || t.Leaving? || t.ClearingRoom?
    ensures
      Resume(env, s, t, r) ==
      if t.Connecting? then Spawn(s, Leaving(t.x)).(log := s.log.(leaves := s.log.leaves + 1))
      else Finish(s, t.x, if t.Leaving? then Outcome.Connected else Ended)
  {
    hide Spawn, Finish;
  }

  lemma LeavingResumed(env: Env, s: Call, t: Task, r: Result)
    requires Sound(env, s, Some(t)) && (t.Connecting? || t.Leaving? || t.ClearingRoom?)
    ensures Moved(env, Holders(s, Some(t)), Resume(env, s, t, r))
  {
    HandOk(env, s, t);
    assert s.ending && (!t.Connecting? ==> Unattended(t, t.x));
    LeavingState(env, s, t, r);
    hide Sound, Holders, Unattended, Finish, Spawn, Resume, Moved, TaskOk;
    if t.Connecting? {
      LeaveKeeps(env, s, t.x);
    } else {
      FinishKeeps(env, s, t, t.x, if t.Leaving? then Outcome.Connected else Ended);
    }
    SteadyMoved(env, Holders(s, Some(t)), Resume(env, s, t, r));
  }

  // ---- The goodbye moves on ----

  lemma RatedKeeps(env: Env, s: Call, hand: Option<Task>, rating: Option<nat>)
    requires Sound(env, s, hand)
    ensures Sound(env, s.(rating := rating), hand) && Holders(s.(rating := rating), hand) == Holders(s, hand)
  {
    hide Kept, Led, Holders, DialedFit;
    DialedIsFit(env, s, hand);
    SameKept(s, s.(rating := rating));
    SameLed(env, s, s.(rating := rating), hand);
  }

  lemma RatingState(env: Env, s: Call, t: Task, r: Result)
    requires (t.Replied? && t.waiter.RatingQuestion?) || t.RatingThanks?
    ensures
      var rating := if t.Replied? && t.reply.Some? then env.parseRating(t.reply.value) else None;
      Resume(env, s, t, r) ==
      if rating.None? then Spawn(s, Goodbye) else Spawn(s.(rating := rating), RatingThanks)
  {
    hide Spawn;
  }

  lemma GoodbyeNext(env: Env, s: Call, t: Task)
    requires Sound(env, s, Some(t)) && Alike(t, Goodbye)
    ensures Moved(env, Holders(s, Some(t)), Spawn(s, Goodbye))
  {
    PlainTaskOk(env, Goodbye, s.aiActive, s.ending);
    hide Kept, Led, Holders, Alike, TaskOk;
    HandChanges(env, s, t, Goodbye);
    SpawnKeeps(env, s, Goodbye);
  }

  lemma ThanksNext(env: Env, s: Call, t: Task, rating: Option<nat>)
    requires Sound(env, s, Some(t)) && Alike(t, RatingThanks)
    ensures Moved(env, Holders(s, Some(t)), Spawn(s.(rating := rating), RatingThanks))
  {
    PlainTaskOk(env, RatingThanks, s.aiActive, s.ending);
    hide Kept, Led, Holders, Alike, TaskOk;
    HandChanges(env, s, t, RatingThanks);
    RatedKeeps(env, s, Some(RatingThanks), rating);
    SpawnKeeps(env, s.(rating := rating), RatingThanks);
  }

  lemma PartingAlike(t: Task)
    requires (t.Replied? && t.waiter.RatingQuestion?) || t.RatingThanks?
    ensures Alike(t, Goodbye) && Alike(t, RatingThanks)
  {
  }

  lemma RatingResumed(env: Env, s: Call, t: Task, r: Result)
    requires Sound(env, s, Some(t)) && ((t.Replied? && t.waiter.RatingQuestion?) || t.RatingThanks?)
    ensures Moved(env, Holders(s, Some(t)), Resume(env, s, t, r))
  {
    PartingAlike(t);
    RatingState(env, s, t, r);
    var rating := if t.Replied? && t.reply.Some? then env.parseRating(t.reply.value) else None;
    hide Sound, Holders, Alike, Spawn, Resume, Moved;
    GoodbyeNext(env, s, t);
    ThanksNext(env, s, t, rating);
  }

  lemma LooseTimerKept(s: Call, timer: Timer)
    requires Kept(s) && (timer == CallLimit || (timer == HangUpGrace && !s.disposed))
    ensures Kept(SetTimer(s, timer))
    ensures Graces(SetTimer(s, timer).timers) == Graces(s.timers) + One(timer == HangUpGrace)
  {
    hide Count, Graces, IdsFit, NumbersFit, TimersFit, HeardFit, PoolOf, CountsOk;
    var s' := SetTimer(s, timer);
    TimersBelow(s);
    IdsGrow(s, s'.timers, s.nextId + 1);
    assert TimersOk(s') by { LooseTimerSet(s, s.nextId, timer); }
    LooseTimerSet(s, s.nextId, timer);
    HeardGrow(s.voicemail, s.log.heard, s.log.offered, s.nextId, s.nextId + 1);
    SamePrompts(s, s');
    SameCounts(s, s');
  }

  lemma SaidLed(env: Env, s: Call)
    requires Led(env, s, Some(Goodbye)) && s.disposed
    ensures Led(env, s, None) && Holders(s, None) == Holders(s, Some(Goodbye))
  {
    hide Count, Graces, TasksFit, DialedFit, PoolOf;
  }

  lemma GraceBeginsLed(env: Env, s: Call)
    requires Led(env, s, Some(Goodbye)) && !s.disposed
    requires Graces(SetTimer(s, HangUpGrace).timers) == Graces(s.timers) + 1
    ensures
      var s' := SetTimer(s, HangUpGrace);
      Led(env, s', None) && Holders(s', None) == Holders(s, Some(Goodbye))
  {
    hide Count, Graces, TasksFit, DialedFit, PoolOf;
  }

  lemma GoodbyeSaid(env: Env, s: Call)
    requires Sound(env, s, Some(Goodbye))
    ensures s.disposed ==> Sound(env, s, None) && Holders(s, None) == Holders(s, Some(Goodbye))
    ensures !s.disposed ==>
              var s' := SetTimer(s, HangUpGrace);
              Sound(env, s', None) && Holders(s', None) == Holders(s, Some(Goodbye))
  {
    hide Kept, Led, Holders, Graces, SetTimer;
    if s.disposed {
      SaidLed(env, s);
    } else {
      LooseTimerKept(s, HangUpGrace);
      GraceBeginsLed(env, s);
    }
  }

  ghost function HangUpDone(s: Call): Call {
    s.(log := s.log.(hangUps := s.log.hangUps + 1))
  }

  lemma HungUpLed(env: Env, s: Call)
    requires Led(env, s, Some(HangUpNow))
    ensures Led(env, HangUpDone(s), None) && Holders(HangUpDone(s), None) == Holders(s, Some(HangUpNow))
  {
    hide Count, Graces, TasksFit, DialedFit, PoolOf;
  }

  lemma HungUp(env: Env, s: Call)
    requires Sound(env, s, Some(HangUpNow))
    ensures Sound(env, HangUpDone(s), None) && Holders(HangUpDone(s), None) == Holders(s, Some(HangUpNow))
  {
    hide Kept, Led, Holders;
    SameKept(s, HangUpDone(s));
    HungUpLed(env, s);
  }

  lemma GoodbyeResumed(env: Env, s: Call, t: Task, r: Result)
    requires Sound(env, s, Some(t)) && (t.Goodbye? || t.HangUpNow?)
    ensures Moved(env, Holders(s, Some(t)), Resume(env, s, t, r))
  {
    hide Sound, Holders, SetTimer;
    if t.Goodbye? { GoodbyeSaid(env, s); } else { HungUp(env, s); }
  }

  // ---- What an await was waiting for has happened ----

  lemma ResumeKeeps(env: Env, s: Call, i: Id, r: Result)
    requires Sound(env, s, None) && i in s.tasks
    ensures Moved(env, Holders(s, None), Resume(env, Retire(s, i), s.tasks[i], r))
  {
    var s1, t := Retire(s, i), s.tasks[i];
    if t.MenuPrompt? {
      hide Sound, Holders, Resume;
      MenuPromptKeeps(env, s, i, r);
    } else if t.VoicemailPrompt? {
      hide Sound, Holders, Resume;
      VoicemailPromptKeeps(env, s, i, r);
    } else {
      hide Sound, Holders, Resume, Retire, Moved;
      RetireKeeps(env, s, i);
      match t {
        case Preamble => PreambleResumed(env, s1, r);
        case StepPause(_, _) => PauseResumed(env, s1, t, r);
        case SavingVoicemail(_) => SavingResumed(env, s1, t, r);
        case VoicemailNotice(_) => VoicemailResumed(env, s1, t, r);
        case FlushSave => VoicemailResumed(env, s1, t, r);
        case Replied(waiter, _) =>
          if waiter.TextOffer? { OfferResumed(env, s1, t, r); } else { RatingResumed(env, s1, t, r); }
        case NoAnswerNotice(_, _) => MissedResumed(env, s1, t, r);
        case FollowUp(_) => FollowedUp(env, s1, t, r);
        case Connecting(_) => LeavingResumed(env, s1, t, r);
        case Leaving(_) => LeavingResumed(env, s1, t, r);
        case ClearingRoom(_) => LeavingResumed(env, s1, t, r);
        case TransferDone(_, _) => TransferDoneResumed(env, s1, t, r);
        case RatingThanks => RatingResumed(env, s1, t, r);
        case Goodbye => GoodbyeResumed(env, s1, t, r);
        case HangUpNow => GoodbyeResumed(env, s1, t, r);
        case _ => RingResumed(env, s1, t, r);
      }
    }
  }

  // ---- A timer fires ----

  /** What its own timer does to the menu, the voicemail or the question clears that timer anyway. */
  lemma OwnTimerFires(env: Env, s: Call, id: Id)
    requires TimersOk(s) && id in s.timers
    ensures
      var s1 := s.(timers := s.timers - {id});
      && (s.timers[id].MenuWait? ==> s.menu.Some? && LeaveMenu(s1) == LeaveMenu(s))
      && (s.timers[id].VoicemailSilence? || s.timers[id].VoicemailMax? ==>
            s.voicemail.Some? && TakeVoicemail(s1) == TakeVoicemail(s))
      && (s.timers[id].AnswerWait? ==>
            s.answer.Some? && s.answer.value.id == s.timers[id].id && Settle(s1, None) == Settle(s, None))
  {
    assert OwnTimer(id, s.timers[id], s.menu, s.voicemail, s.answer);
    hide TimersOk, TakeVoicemail, LeaveMenu, Settle;
    match s.timers[id] {
      case MenuWait(_) => MenuTimerGone(s, id);
      case VoicemailSilence(_) => VoicemailTimerGone(s, id);
      case VoicemailMax(_) => VoicemailTimerGone(s, id);
      case AnswerWait(_) => AnswerTimerGone(s, id);
      case _ =>
    }
  }

  lemma MenuTimerGone(s: Call, id: Id)
    requires s.menu.Some? && s.menu.value.timer == Some(id)
    ensures LeaveMenu(s.(timers := s.timers - {id})) == LeaveMenu(s)
  {
    assert Without(s.timers - {id}, Some(id)) == Without(s.timers, Some(id));
    hide Without;
  }

  lemma AnswerTimerGone(s: Call, id: Id)
    requires s.answer.Some? && s.answer.value.timer == Some(id)
    ensures Settle(s.(timers := s.timers - {id}), None) == Settle(s, None)
  {
    assert Without(s.timers - {id}, Some(id)) == Without(s.timers, Some(id));
    hide Without;
  }

  lemma VoicemailTimerGone(s: Call, id: Id)
    requires s.voicemail.Some? && (s.voicemail.value.timer == Some(id) || s.voicemail.value.maxTimer == Some(id))
    ensures TakeVoicemail(s.(timers := s.timers - {id})) == TakeVoicemail(s)
  {
    var v := s.voicemail.value;
    assert Without(Without(s.timers - {id}, v.timer), v.maxTimer) == Without(Without(s.timers, v.timer), v.maxTimer);
    hide Message, Without;
  }

  lemma RetryFires(env: Env, s: Call, s1: Call)
    requires s1.menu == s.menu && LeaveMenu(s1) == LeaveMenu(s) && s.menu.Some?
    ensures RetryMenu(env, s1) == RetryMenu(env, s)
  {
    hide LeaveMenu, FollowOrEnd, OpenMenu;
  }

  lemma FinishFires(env: Env, s: Call, s1: Call)
    requires s1.voicemail == s.voicemail && TakeVoicemail(s1) == TakeVoicemail(s) && s.voicemail.Some?
    ensures FinishVoicemail(s1) == FinishVoicemail(s)
  {
    hide TakeVoicemail, Message, Spawn;
  }

  lemma LooseTimerKeepsRest(s: Call, id: Id)
    requires Kept(s) && id in s.timers && (s.timers[id] == CallLimit || s.timers[id] == HangUpGrace)
    ensures
      var s1 := s.(timers := s.timers - {id});
      Kept(s1) && Graces(s1.timers) == Graces(s.timers) - One(s.timers[id] == HangUpGrace)
  {
    var s1 := s.(timers := s.timers - {id});
    hide Count, Graces, IdsFit, NumbersFit, TimersFit, HeardFit, PoolOf, CountsOk;
    LooseTimerGone(s, id);
    IdsShrink(s, s1.timers);
    SamePrompts(s, s1);
    SameCounts(s, s1);
  }

  lemma LimitLed(env: Env, s: Call, timers: map<Id, Timer>)
    requires Led(env, s, None) && Graces(timers) == Graces(s.timers)
    ensures Led(env, s.(timers := timers), None) && Holders(s.(timers := timers), None) == Holders(s, None)
  {
    hide Count, Graces, TasksFit, DialedFit, PoolOf, StaffOk;
    SameWorkKeeps(env, s, None, s.(timers := timers), None);
  }

  /** The grace is over: what was waited for becomes the hang-up in hand. */
  lemma GraceLed(env: Env, s: Call, timers: map<Id, Timer>)
    requires Led(env, s, None) && Graces(timers) == Graces(s.timers) - 1
    ensures
      var s1 := GraceOver(s.(timers := timers));
      Led(env, s1, Some(HangUpNow)) && Holders(s1, Some(HangUpNow)) == Holders(s, None)
  {
    hide Count, Graces, TasksFit, DialedFit, PoolOf;
  }

  lemma LimitFires(env: Env, s: Call, id: Id)
    requires Sound(env, s, None) && id in s.timers && s.timers[id] == CallLimit
    ensures
      var s1 := s.(timers := s.timers - {id});
      Sound(env, s1, None) && Holders(s1, None) == Holders(s, None)
  {
    hide Kept, Led, Holders, Graces;
    LooseTimerKeepsRest(s, id);
    LimitLed(env, s, s.timers - {id});
  }

  lemma GraceFires(env: Env, s: Call, id: Id)
    requires Sound(env, s, None) && id in s.timers && s.timers[id] == HangUpGrace
    ensures
      var s1 := GraceOver(s.(timers := s.timers - {id}));
      Sound(env, s1, Some(HangUpNow)) && Holders(s1, Some(HangUpNow)) == Holders(s, None)
  {
    var s0 := s.(timers := s.timers - {id});
    LooseTimerKeepsRest(s, id);
    assert Kept(GraceOver(s0)) by {
      hide Led, IdsOk, TimersOk, VoicemailsOk, CountsOk, PromptsOk, Count;
      SameKept(s0, GraceOver(s0));
    }
    hide Kept, Led, Holders, Graces;
    GraceLed(env, s, s.timers - {id});
  }

  lemma DisposedTimers(env: Env, s: Call, id: Id)
    requires Sound(env, s, None) && id in s.timers
    ensures s.disposed ==> s.timers[id] == CallLimit
  {
    hide Led, IdsOk, CountsOk, PromptsOk, VoicemailsOk;
  }

  lemma TimerKept(env: Env, s: Call, id: Id)
    requires Sound(env, s, None) && id in s.timers
    ensures TimersOk(s)
  {
    hide Led, IdsOk, CountsOk, PromptsOk, VoicemailsOk;
  }

  lemma LooseFireKeeps(env: Env, s: Call, id: Id)
    requires Sound(env, s, None) && id in s.timers && (s.timers[id] == CallLimit || s.timers[id] == HangUpGrace)
    ensures
      var s1 := s.(timers := s.timers - {id});
      Moved(env, Holders(s, None), Fire(env, s1, s.timers[id]))
  {
    var s1 := s.(timers := s.timers - {id});
    hide Sound, Holders, EndCall, RetryMenu, FinishVoicemail, Settle, GraceOver;
    if s.timers[id] == CallLimit {
      LimitFires(env, s, id);
      EndCallKeeps(env, s1, false);
    } else {
      GraceFires(env, s, id);
      SpawnKeeps(env, GraceOver(s1), HangUpNow);
    }
  }

  lemma OwnFireKeeps(env: Env, s: Call, id: Id)
    requires Sound(env, s, None) && id in s.timers && s.timers[id] != CallLimit && s.timers[id] != HangUpGrace
    ensures
      var s1 := s.(timers := s.timers - {id});
      Moved(env, Holders(s, None), Fire(env, s1, s.timers[id]))
  {
    var s1 := s.(timers := s.timers - {id});
    TimerKept(env, s, id);
    OwnTimerFires(env, s, id);
    hide Sound, Holders, TimersOk, LeaveMenu, TakeVoicemail, Settle, EndCall, RetryMenu, FinishVoicemail;
    match s.timers[id] {
      case MenuWait(_) =>
        RetryFires(env, s, s1);
        RetryKeeps(env, s);
        MenuHolds(env, s);
        HandedOnMoved(env, RetryMenu(env, s));
      case AnswerWait(_) => SettleKeeps(env, s, None, None);
      case _ =>
        FinishFires(env, s, s1);
        FinishVoicemailKeeps(env, s);
        VoicemailHolds(env, s);
    }
  }

  lemma FireKeeps(env: Env, s: Call, id: Id)
    requires Sound(env, s, None) && id in s.timers
    ensures
      var s1 := s.(timers := s.timers - {id});
      Moved(env, Holders(s, None), if s.disposed then s1 else Fire(env, s1, s.timers[id]))
  {
    DisposedTimers(env, s, id);
    Flags(env, s, None);
    hide Sound, Holders, Fire;
    if s.disposed {
      LimitFires(env, s, id);
    } else if s.timers[id] == CallLimit || s.timers[id] == HangUpGrace {
      LooseFireKeeps(env, s, id);
    } else {
      OwnFireKeeps(env, s, id);
    }
  }

  lemma VoicemailHolds(env: Env, s: Call)
    requires Sound(env, s, None) && s.voicemail.Some?
    ensures Holders(s, None) == 1
  {
    hide Kept, Count, TransfersOk, EndingOk, StaffOk;
  }

  // ---- The caller presses a key or speaks ----

  lemma KeypadKeeps(env: Env, s: Call, key: MenuKey)
    requires Sound(env, s, None)
    ensures Moved(env, Holders(s, None), OnKeypad(env, s, key))
  {
    hide Sound, Holders, Settle, FinishVoicemail, StartTransfer, Choose, PressZeroTarget;
    SettleKeeps(env, s, None, Some(KeyReply(key)));
    if s.voicemail.Some? {
      VoicemailHolds(env, s);
      FinishVoicemailKeeps(env, s);
    } else if s.aiActive {
      var staff := PressZeroTarget(env);
      if staff.Some? && !s.transferring && !s.ending { AssistantTransferKeeps(env, s, staff.value); }
    } else if s.menu.Some? {
      MenuHolds(env, s);
      ChooseKeeps(env, s, key);
      HandedOnMoved(env, Choose(env, s, key));
    } else {
      ChooseNothing(env, s, key);
    }
  }

  lemma ChooseNothing(env: Env, s: Call, key: MenuKey)
    requires s.menu.None?
    ensures Choose(env, s, key) == s
  {
  }

  lemma SpeechKeeps(env: Env, s: Call, text: string)
    requires Sound(env, s, None)
    ensures Moved(env, Holders(s, None), OnCallerSpeech(env, s, text))
  {
    var spoken := Text.Trim(text);
    hide Sound, Holders, Settle, Choose, RetryMenu, ArmVoicemailTimer, Text.Trim;
    SettleKeeps(env, s, None, Some(TextReply(spoken)));
    if spoken == "" || s.ending {
    } else if s.voicemail.Some? {
      HearKeeps(env, s, s.voicemail.value, spoken);
    } else if s.menu.Some? {
      MenuHolds(env, s);
      RetryKeeps(env, s);
      HandedOnMoved(env, RetryMenu(env, s));
      var key := env.matchMenuChoice(s.menu.value.node.options, spoken);
      if key.Some? {
        ChooseKeeps(env, s, key.value);
        HandedOnMoved(env, Choose(env, s, key.value));
      }
    }
  }

  lemma AssistantTurnKeeps(env: Env, s: Call, text: string)
    requires Sound(env, s, None)
    ensures Moved(env, Holders(s, None), OnAssistantTurn(s, text))
  {
    var spoken := Text.Trim(text);
    hide Sound, Holders, Settle, Text.Trim;
    SettleKeeps(env, s, None, Some(TextReply(spoken)));
  }

  // ---- The assistant's tools ----

  lemma ToolsKeep(env: Env, s: Call, caseId: Option<string>)
    requires Sound(env, s, None) && s.aiActive
    ensures Moved(env, Holders(s, None), ToolEndCall(env, s))
    ensures Moved(env, Holders(s, None), ToolTransfer(env, s, caseId))
  {
    hide Sound, Holders, EndCall, StartTransfer;
    EndCallKeeps(env, s, true);
    var target := env.resolveTransfer(caseId);
    if target.Some? && !s.ending && !s.transferring { AssistantTransferKeeps(env, s, target.value); }
  }

  // ---- The call begins, its limit is set, its session closes ----

  lemma LimitKeeps(env: Env, s: Call)
    requires Sound(env, s, None)
    ensures Sound(env, SetTimer(s, CallLimit), None) && Holders(SetTimer(s, CallLimit), None) == Holders(s, None)
  {
    LooseTimerKept(s, CallLimit);
    hide Kept, Count, Graces, TasksFit, PoolOf, StaffOk;
    SameWorkKeeps(env, s, None, SetTimer(s, CallLimit), None);
  }

  lemma NoNotice(env: Env, s: Call)
    requires Led(env, s, None) && Holders(s, None) == 0
    ensures !s.inPreamble
  {
    hide TransfersOk, EndingOk, StaffOk;
    assert Those(Pool(s), Driving) == {};
    assert Those(Pool(s), NoticePlaying) <= Those(Pool(s), Driving);
  }

  lemma BeginLed(env: Env, s: Call)
    requires Led(env, s, None) && Holders(s, None) == 0 && !s.inPreamble
    ensures Led(env, s.(started := true, inPreamble := true), Some(Preamble))
    ensures Holders(s.(started := true, inPreamble := true), Some(Preamble)) == 1
  {
    hide Count, Graces, TasksFit, DialedFit, PoolOf;
  }

  lemma BeginKeeps(env: Env, s: Call)
    requires Good(env, s)
    ensures Good(env, Begin(s))
  {
    if !s.started {
      var s1 := s.(started := true, inPreamble := true);
      assert Holders(s, None) == 0;
      assert Kept(s1) by {
        hide Led, IdsOk, TimersOk, VoicemailsOk, CountsOk, PromptsOk, Count;
        SameKept(s, s1);
      }
      hide Kept, Led, Holders;
      NoNotice(env, s);
      BeginLed(env, s);
      SpawnKeeps(env, s1, Preamble);
    }
  }

  lemma DisposedState(s: Call)
    requires s.answer.None? && !s.disposed
    ensures
      Dispose(s) ==
      s.(voicemail := Quiet(s.voicemail), disposed := true, ending := true, timers := map[], menu := None)
  {
  }

  lemma DisposeCounts(s: Call, s': Call)
    requires CountsOk(s) && s'.ending && s'.menu.None? && s'.answer == s.answer
    requires s'.stepCount == s.stepCount && s'.log == s.log
    ensures CountsOk(s')
  {
  }

  lemma DisposeKept(s: Call)
    requires Kept(s) && s.answer.None? && !s.disposed
    ensures Kept(Dispose(s)) && Graces(Dispose(s).timers) == 0
  {
    var s' := Dispose(s);
    DisposedState(s);
    hide Count, Graces, IdsFit, NumbersFit, TimersFit, HeardFit, PoolOf, CountsOk, Dispose;
    AllTimersGone(s'.voicemail);
    IdsGrow(s, map[], s.nextId);
    DisposeCounts(s, s');
    if s.voicemail.Some? { HeardSame(s.voicemail.value, s'.voicemail.value, s.log.heard, s.log.offered, s.nextId); }
  }

  lemma DisposeLed(env: Env, s: Call)
    requires Led(env, s, None) && s.answer.None? && !s.disposed
    requires TasksFit(env, Pool(s), s.aiActive, true) && Graces(Dispose(s).timers) == 0
    ensures Led(env, Dispose(s), None) && Holders(Dispose(s), None) <= Holders(s, None)
  {
    hide Count, Graces, TasksFit, DialedFit, PoolOf;
  }

  /** An open question is cancelled first. */
  lemma DisposeSettles(s: Call)
    requires !s.disposed
    ensures Dispose(Settle(s, None)) == Dispose(s) && !Settle(s, None).disposed && Settle(s, None).answer.None?
    ensures Settle(s, None).answer.None? && Dispose(s).ending && Dispose(s).disposed
  {
    var s1 := Settle(s, None);
    assert Settle(s1, None) == s1;
    hide QuietVoicemail;
  }

  lemma DisposeKeeps(env: Env, s: Call)
    requires Sound(env, s, None)
    ensures Moved(env, Holders(s, None), Dispose(s))
  {
    if !s.disposed {
      var s1 := Settle(s, None);
      hide Kept, Led, Holders, Settle, Dispose, TasksFit, Graces;
      SettleKeeps(env, s, None, None);
      DisposeSettles(s);
      EndedTasks(env, s1, None);
      DisposeKept(s1);
      DisposeLed(env, s1);
    }
  }

  // ---- Every event, every run ----

  lemma StepMoves(env: Env, s: Call, e: Event)
    requires Sound(env, s, None) && e != BeginCall
    ensures Moved(env, Holders(s, None), Step(env, s, e))
  {
    hide Kept, Led, Holders, OnKeypad, OnCallerSpeech, OnAssistantTurn, OnCallerStartedSpeaking,
      OnCallerStoppedSpeaking, Resume, Retire, Fire, QuestionPlayed, ToolEndCall, ToolTransfer, Dispose, FlushVoicemail,
      SetTimer, Begin;
    match e {
      case StartCallLimit => LimitKeeps(env, s);
      case Keypad(key) => KeypadKeeps(env, s, key);
      case CallerSpeech(text) => SpeechKeeps(env, s, text);
      case AssistantTurn(text) => AssistantTurnKeeps(env, s, text);
      case CallerStarted => StartedKeeps(env, s);
      case CallerStopped => StoppedKeeps(env, s);
      case TimerFires(id) => if id in s.timers { FireKeeps(env, s, id); }
      case Resumes(id, result) => if id in s.tasks { ResumeKeeps(env, s, id, result); }
      case Played(id, spoken) => QuestionPlayedKeeps(env, s, id, spoken);
      case EndCallTool => if s.aiActive { ToolsKeep(env, s, None); }
      case TransferTool(caseId) => if s.aiActive { ToolsKeep(env, s, caseId); }
      case Disposed => DisposeKeeps(env, s);
      case Flushed =>
        Flags(env, s, None);
        if s.disposed { FlushVoicemailKeeps(env, s); }
    }
  }

  lemma StepBegins(env: Env, s: Call)
    ensures Step(env, s, BeginCall) == Begin(s)
  {
    hide Begin;
  }

  lemma BeginMoves(s: Call)
    ensures Moves(s, Begin(s)) && HeardGrows(s, Begin(s)) && Begin(s).started && NoDeeds(s, Begin(s))
  {
  }

  lemma TimerDeeds(env: Env, s: Call, id: Id)
    ensures
      var e := TimerFires(id);
      var s' := Step(env, s, e);
      Moves(s, s') && HeardGrows(s, s') && Deeds(s, e, s') && s'.started == s.started
  {
    var e := TimerFires(id);
    if id !in s.timers {
      SameProgress(s, s);
      OnwardDeeds(s, e, s, s);
    } else {
      var s1 := s.(timers := s.timers - {id});
      var s0 := if GraceEnds(s, e) then GraceOver(s1) else s1;
      TimerOwed(s, id);
      SameProgress(s1, s1);
      StepFires(env, s, id);
      hide Fire, Onward, Deeds, Moves, HeardGrows, Step, GraceOver;
      FireOnward(env, s1, s.timers[id]);
      OnwardDeeds(s, e, s0, Step(env, s, e));
    }
  }

  lemma StepFires(env: Env, s: Call, id: Id)
    requires id in s.timers
    ensures
      var s1 := s.(timers := s.timers - {id});
      Step(env, s, TimerFires(id)) == if s.disposed then s1 else Fire(env, s1, s.timers[id])
  {
    hide Fire;
  }

  lemma StepResumes(env: Env, s: Call, id: Id, r: Result)
    requires id in s.tasks
    ensures Step(env, s, Resumes(id, r)) == Resume(env, Retire(s, id), s.tasks[id], r)
  {
    hide Resume, Retire;
  }

  /** The grace, if it is over, is noted first; otherwise only the timer is gone. */
  lemma TimerOwed(s: Call, id: Id)
    requires id in s.timers
    ensures
      var e, s1 := TimerFires(id), s.(timers := s.timers - {id});
      var s0 := if GraceEnds(s, e) then GraceOver(s1) else s1;
      && Deeds(s, e, s0) && s0.started == s.started && s0.ending == s.ending && s0.stepCount == s.stepCount
      && s0.menuToken == s.menuToken && s0.nextId == s.nextId && s0.menu == s.menu && s0.log.heard == s.log.heard
  {
  }

  lemma TaskOwed(s: Call, id: Id, r: Result)
    requires id in s.tasks
    ensures
      var e, s0 := Resumes(id, r), Owed(Retire(s, id), s.tasks[id]);
      && Deeds(s, e, s0) && s0.started == s.started && s0.ending == s.ending && s0.stepCount == s.stepCount
      && s0.menuToken == s.menuToken && s0.nextId == s.nextId && s0.menu == s.menu && s0.log.heard == s.log.heard
  {
  }

  lemma ResumeDeeds(env: Env, s: Call, id: Id, r: Result)
    ensures
      var e := Resumes(id, r);
      var s' := Step(env, s, e);
      Moves(s, s') && HeardGrows(s, s') && Deeds(s, e, s') && s'.started == s.started
  {
    var e := Resumes(id, r);
    if id !in s.tasks {
      SameProgress(s, s);
      OnwardDeeds(s, e, s, s);
    } else {
      var s1 := Retire(s, id);
      var s0 := Owed(s1, s.tasks[id]);
      TaskOwed(s, id, r);
      StepResumes(env, s, id, r);
      hide Resume, Onward, Deeds, Moves, HeardGrows, Step, Owed, Retire;
      ResumeOnward(env, s1, s.tasks[id], r);
      OnwardDeeds(s, e, s0, Step(env, s, e));
    }
  }

  lemma EventOnward(env: Env, s: Call, e: Event)
    requires e != BeginCall && e != Disposed && !e.CallerSpeech? && !e.TimerFires? && !e.Resumes?
    ensures Onward(s, Step(env, s, e))
  {
    SameProgress(s, s);
    SameProgress(s, SetTimer(s, CallLimit));
    hide OnKeypad, OnCallerSpeech, OnAssistantTurn, OnCallerStartedSpeaking, OnCallerStoppedSpeaking, Resume, Retire,
      Fire, QuestionPlayed, ToolEndCall, ToolTransfer, Dispose, FlushVoicemail, SetTimer, Onward;
    match e {
      case Keypad(key) => KeypadOnward(env, s, key);
      case AssistantTurn(text) => TurnOnward(s, text);
      case CallerStarted => SoundOnward(s);
      case CallerStopped => SoundOnward(s);
      case Played(id, spoken) => PlayedOnward(s, id, spoken);
      case EndCallTool => ToolsOnward(env, s, None);
      case TransferTool(caseId) => ToolsOnward(env, s, caseId);
      case Flushed => FinishVoicemailOnward(s);
      case _ =>
    }
  }

  lemma StepSpeaks(env: Env, s: Call, text: string)
    ensures Step(env, s, CallerSpeech(text)) == OnCallerSpeech(env, s, text)
  {
    hide OnCallerSpeech;
  }

  lemma StepDisposes(env: Env, s: Call)
    ensures Step(env, s, Disposed) == Dispose(s)
  {
    hide Dispose;
  }

  lemma StepGrows(env: Env, s: Call, e: Event)
    requires KnowsHeard(s)
    ensures Moves(s, Step(env, s, e)) && HeardGrows(s, Step(env, s, e)) && Deeds(s, e, Step(env, s, e))
    ensures Step(env, s, e).started == (s.started || e == BeginCall)
  {
    StepBegins(env, s);
    hide Step, Begin, OnCallerSpeech, Dispose, Moves, HeardGrows;
    if e == BeginCall {
      BeginMoves(s);
    } else if e.CallerSpeech? {
      StepSpeaks(env, s, e.text);
      SpeechGrows(env, s, e.text);
    } else if e.TimerFires? {
      TimerDeeds(env, s, e.id);
    } else if e.Resumes? {
      ResumeDeeds(env, s, e.id, e.result);
    } else if e == Disposed {
      StepDisposes(env, s);
      DisposeOnward(s);
      OnwardDeeds(s, e, s.(disposed := true), Dispose(s));
    } else {
      EventOnward(env, s, e);
      OnwardDeeds(s, e, s, Step(env, s, e));
    }
  }

  lemma GoodKnowsHeard(env: Env, s: Call)
    requires Good(env, s)
    ensures KnowsHeard(s)
  {
    hide Led, Driven, IdsOk, TimersOk, PromptsOk, CountsOk;
  }

  lemma StepKeeps(env: Env, s: Call, e: Event)
    requires Good(env, s)
    ensures Good(env, Step(env, s, e))
  {
    GoodKnowsHeard(env, s);
    StepBegins(env, s);
    hide Sound, Holders, Step;
    if e == BeginCall {
      BeginKeeps(env, s);
    } else {
      StepMoves(env, s, e);
      StepGrows(env, s, e);
    }
  }

  lemma NothingCounted(k: Kind)
    ensures Count(map[], k) == 0 && Graces(map[]) == 0
  {
    assert Those(map[], k) == {} && GraceTimers(map[]) == {};
  }

  ghost predicate Untouched(s: Call) {
    && !s.started && !s.ending && !s.disposed && !s.inPreamble && !s.transferring && !s.aiActive
    && s.stepCount == 0 && s.menu.None? && s.voicemail.None? && s.answer.None?
    && s.timers == map[] && s.tasks == map[] && s.log == NOTHING_YET
  }

  lemma UntouchedIsKept(s: Call)
    requires Untouched(s)
    ensures Kept(s)
  {
    hide Count;
    assert s.log.prompts == 0 && s.log.asked == 0 && s.log.replies == 0;
    assert s.log.heard == map[] && s.log.offered == [];
  }

  lemma UntouchedIsGood(env: Env, s: Call)
    requires Untouched(s)
    ensures Good(env, s)
  {
    UntouchedIsKept(s);
    assert Pool(s) == map[];
    hide Kept, Count, Graces, Pool;
    forall k ensures Count(map[], k) == 0 && Graces(map[]) == 0 { NothingCounted(k); }
  }

  lemma NewCallIsGood(env: Env)
    ensures Good(env, NEW_CALL)
  {
    hide Good;
    UntouchedIsGood(env, NEW_CALL);
  }

  /** Every reachable state satisfies the invariant. */
  lemma {:induction false} RunKeeps(env: Env, events: seq<Event>)
    ensures Good(env, Run(env, events))
  {
    hide Good, Step;
    if events == [] {
      NewCallIsGood(env);
    } else {
      RunKeeps(env, events[..|events| - 1]);
      StepKeeps(env, Run(env, events[..|events| - 1]), events[|events| - 1]);
    }
  }
}
