/** Segments of a transfer: the offer, the dial attempts, the connection and what follows a missed one. */
module CallTransfers {
  import opened Options
  import opened CallEngine
  import opened Dialing
  import opened CallInvariants
  import opened CallFrames
  import opened CallSegments

  /** A task of a transfer whose staff has not answered yet. */
  ghost predicate Ringing(t: Task, x: Transfer) {
    InTransfer(t) && TransferOf(t) == x && Is(StaffPossible, t)
  }

  /** A task of a transfer that has nobody waiting any more, or nobody yet. */
  ghost predicate Unattended(t: Task, x: Transfer) {
    InTransfer(t) && TransferOf(t) == x && !Is(StaffOnHold, t) && !t.Connecting?
  }

  ghost predicate Allowed(env: Env, s: Call, x: Transfer) {
    env.canDial(x.target.phone) && (x.origin.FromAssistant? ==> s.aiActive)
  }

  lemma RingingAlike(env: Env, s: Call, t: Task, u: Task, x: Transfer)
    requires Ringing(t, x) && Ringing(u, x) && TaskOk(env, t, s.aiActive, s.ending)
    ensures Alike(t, u) && TaskOk(env, u, s.aiActive, s.ending) && Allowed(env, s, x)
  {
    RingingKinds(t, x);
    RingingKinds(u, x);
    hide Is, OwnsFlow;
  }

  lemma RingingKinds(t: Task, x: Transfer)
    requires Ringing(t, x)
    ensures Is(Driving, t) == OwnsFlow(x.origin) && Is(Transferring, t) && Is(StaffPossible, t)
    ensures !Is(Parting, t) && !Is(StaffOnHold, t) && !Is(ConnectingStaff, t) && !Is(Departing, t)
    ensures !Is(HangingUp, t) && !Is(NoticePlaying, t)
    ensures !t.TransferDone? && !t.Connecting? && !t.Leaving? && !t.ClearingRoom?
  {
  }

  lemma HandOk(env: Env, s: Call, t: Task)
    requires Sound(env, s, Some(t))
    ensures TaskOk(env, t, s.aiActive, s.ending)
  {
    hide Kept, Count, TasksFit, FlowOk, EndingOk, StaffOk;
  }

  /** A transfer that is under way holds the flow, unless the assistant does. */
  lemma TransferringIsHeld(env: Env, s: Call)
    requires Led(env, s, None) && s.transferring
    ensures Holders(s, None) >= 1
  {
    var those := Those(Pool(s), Transferring);
    assert |those| == 1;
    var i :| i in those;
    assert TaskOk(env, Pool(s)[i], s.aiActive, s.ending);
    if !s.aiActive { assert i in Those(Pool(s), Driving); }
  }

  // ---- Beginning ----

  lemma TransferStarts(env: Env, s: Call, t: Task, x: Transfer)
    requires Sound(env, s, None) && !s.ending && !s.transferring
    requires Ringing(t, x) && Allowed(env, s, x)
    requires OwnsFlow(x.origin) ==> Holders(s, None) == 0
    ensures Sound(env, s.(transferring := true), Some(t))
    ensures Holders(s.(transferring := true), Some(t)) == Holders(s, None) + One(OwnsFlow(x.origin))
  {
    SameKept(s, s.(transferring := true));
    hide Kept, Count, Graces, TasksFit, DialedFit, PoolOf;
  }

  lemma NotTransferring(env: Env, s: Call, origin: Origin)
    requires Sound(env, s, None)
    requires OwnsFlow(origin) ==> Holders(s, None) == 0
    requires origin.FromAssistant? ==> !s.transferring
    ensures !s.transferring
  {
    hide Kept, FlowOk, TransfersOk, EndingOk, StaffOk, Holders;
    if s.transferring { TransferringIsHeld(env, s); }
  }

  lemma BeginTransferState(env: Env, s: Call, origin: Origin, target: Option<Target>)
    requires !s.ending && !s.transferring
    ensures
      BeginTransfer(env, s, origin, target) ==
      if target.None? || !env.canDial(target.value.phone) || (env.warmDialer.None? && !env.testCall)
      then Spawn(s, TransferDone(origin, Unavailable))
      else
        var x, s1 := Transfer(origin, target.value), s.(transferring := true);
        if CanOfferText(env, s1) then Ask(s1, TextOffer(x)) else StartDialing(env, s1, x, false)
  {
    hide Spawn, Ask, StartDialing, CanOfferText;
  }

  lemma TransferBegins(env: Env, s: Call, x: Transfer)
    requires Sound(env, s, None) && !s.ending && !s.transferring && Allowed(env, s, x)
    requires OwnsFlow(x.origin) ==> Holders(s, None) == 0
    ensures
      var s1 := s.(transferring := true);
      var s', s'' := Ask(s1, TextOffer(x)), StartDialing(env, s1, x, false);
      && Sound(env, s', None) && !s'.ending && Holders(s', None) == Holders(s, None) + One(OwnsFlow(x.origin))
      && Sound(env, s'', None) && !s''.ending && Holders(s'', None) == Holders(s, None) + One(OwnsFlow(x.origin))
  {
    var s1 := s.(transferring := true);
    var t := Replied(TextOffer(x), None);
    Flags(env, s, None);
    assert Ringing(t, x);
    hide Sound, Holders, Ringing, Allowed, StartDialing, Ask;
    TransferStarts(env, s, t, x);
    AskEnding(s1, TextOffer(x));
    AskKeeps(env, s1, TextOffer(x));
    StartDialingKeeps(env, s1, t, x, false);
  }

  lemma BeginTransferKeeps(env: Env, s: Call, origin: Origin, target: Option<Target>)
    requires Sound(env, s, None) && !s.ending
    requires OwnsFlow(origin) ==> Holders(s, None) == 0
    requires origin.FromAssistant? ==> s.aiActive && !s.transferring
    ensures
      var s' := BeginTransfer(env, s, origin, target);
      && Sound(env, s', None) && s'.ending == s.ending
      && Holders(s', None) == Holders(s, None) + One(OwnsFlow(origin))
  {
    NotTransferring(env, s, origin);
    BeginTransferState(env, s, origin, target);
    var t := TransferDone(origin, Unavailable);
    assert TaskOk(env, t, s.aiActive, s.ending);
    hide Sound, Holders, BeginTransfer, StartDialing, Ask, TaskOk;
    if target.None? || !env.canDial(target.value.phone) || (env.warmDialer.None? && !env.testCall) {
      if OwnsFlow(origin) { SpawnStep(env, s, t); } else { SpawnIdle(env, s, t); }
    } else {
      TransferBegins(env, s, Transfer(origin, target.value));
    }
  }

  // ---- Dialing ----

  /** The next task of the same transfer takes the place of the one in hand. */
  lemma RingOn(env: Env, s: Call, t: Task, u: Task, x: Transfer)
    requires Sound(env, s, Some(t)) && Ringing(t, x) && Ringing(u, x)
    ensures Sound(env, Spawn(s, u), None)
    ensures Holders(Spawn(s, u), None) == Holders(s, Some(t))
  {
    HandOk(env, s, t);
    RingingAlike(env, s, t, u, x);
    assert !u.MenuPrompt? && !u.VoicemailPrompt?;
    hide Kept, Led, Holders, Ringing, TaskOk, Alike;
    HandChanges(env, s, t, u);
    SpawnKeeps(env, s, u);
  }

  lemma StartDialingKeeps(env: Env, s: Call, t: Task, x: Transfer, optIn: bool)
    requires Sound(env, s, Some(t)) && Ringing(t, x)
    ensures
      var s' := StartDialing(env, s, x, optIn);
      Sound(env, s', None) && s'.ending == s.ending && Holders(s', None) == Holders(s, Some(t))
  {
    assert Ringing(TestHold(x, optIn), x) && Ringing(ColdHold(x, optIn), x);
    hide Sound, Holders, Ringing, DialOrGiveUp, Spawn;
    SpawnEnding(s, TestHold(x, optIn));
    SpawnEnding(s, ColdHold(x, optIn));
    if env.warmDialer == Some(true) {
      DialKeeps(env, s, t, x, optIn, 0);
    } else {
      RingOn(env, s, t, if env.warmDialer.None? then TestHold(x, optIn) else ColdHold(x, optIn), x);
    }
  }

  lemma SameWorkDialed(env: Env, s: Call, s': Call, hand: Option<Task>)
    requires Pool(s') == Pool(s)
    ensures forall k :: Work(s', hand, k) == Work(s, hand, k)
  {
  }

  lemma DialedMore(env: Env, s: Call, hand: Option<Task>, phone: string)
    requires Sound(env, s, hand) && env.canDial(phone)
    ensures
      var s' := s.(log := s.log.(dialed := s.log.dialed + [phone]));
      Sound(env, s', hand) && Holders(s', hand) == Holders(s, hand)
  {
    var s' := s.(log := s.log.(dialed := s.log.dialed + [phone]));
    hide Kept, Led, Holders;
    DialedIsFit(env, s, hand);
    SameKept(s, s');
    SameLed(env, s, s', hand);
  }

  /** The numbers dialed, the texts sent and the rating are no work. */
  lemma SameLed(env: Env, s: Call, s': Call, hand: Option<Task>)
    requires Led(env, s, hand) && DialedFit(env, s'.log.dialed)
    requires s' == s.(textsSent := s'.textsSent, rating := s'.rating, log := s.log.(dialed := s'.log.dialed))
    ensures Led(env, s', hand) && Holders(s', hand) == Holders(s, hand)
  {
    SameWorkDialed(env, s, s', hand);
    assert Pool(s') == Pool(s);
    hide Work, Graces, TasksFit, Pool, TaskOk, DialedFit;
  }

  lemma DialedIsFit(env: Env, s: Call, hand: Option<Task>)
    requires Led(env, s, hand)
    ensures DialedFit(env, s.log.dialed)
  {
    hide FlowOk, EndingOk, StaffOk, Work, TasksFit, DialedFit, TaskOk;
  }

  lemma DialState(env: Env, s: Call, x: Transfer, optIn: bool, attempt: nat)
    ensures
      DialOrGiveUp(env, s, x, optIn, attempt) ==
      if attempt < Attempts(env, x) && !s.ending then
        var s1 := Spawn(s, Dialing(x, optIn, attempt));
        s1.(log := s1.log.(dialed := s1.log.dialed + [x.target.phone]))
      else Spawn(s, HoldTail(x, optIn, NoAnswer))
  {
    hide Attempts;
  }

  lemma SpawnEnding(s: Call, t: Task)
    ensures Spawn(s, t).ending == s.ending
  {
  }

  lemma DialKeeps(env: Env, s: Call, t: Task, x: Transfer, optIn: bool, attempt: nat)
    requires Sound(env, s, Some(t)) && Ringing(t, x)
    ensures
      var s' := DialOrGiveUp(env, s, x, optIn, attempt);
      Sound(env, s', None) && s'.ending == s.ending && Holders(s', None) == Holders(s, Some(t))
  {
    var u := Dialing(x, optIn, attempt);
    HandOk(env, s, t);
    RingingAlike(env, s, t, u, x);
    assert env.canDial(x.target.phone) by { hide Sound, Ringing; }
    assert Ringing(u, x) && Ringing(HoldTail(x, optIn, NoAnswer), x);
    DialState(env, s, x, optIn, attempt);
    SpawnEnding(s, u);
    SpawnEnding(s, HoldTail(x, optIn, NoAnswer));
    hide Sound, Holders, Ringing, Alike, TaskOk, Attempts, Spawn, DialOrGiveUp;
    if attempt < Attempts(env, x) && !s.ending {
      RingOn(env, s, t, u, x);
      DialedMore(env, Spawn(s, u), None, x.target.phone);
    } else {
      RingOn(env, s, t, HoldTail(x, optIn, NoAnswer), x);
    }
  }

  ghost function StaffThere(s: Call): Call {
    s.(log := s.log.(recordingStops := s.log.recordingStops + 1, answers := s.log.answers + 1))
  }

  lemma StaffAnswersLed(env: Env, s: Call, t: Task, x: Transfer, u: Task)
    requires Led(env, s, Some(t)) && Ringing(t, x) && u.HoldTail? && u.x == x && u.result == Answered
    ensures Led(env, StaffThere(s), Some(u)) && Holders(StaffThere(s), Some(u)) == Holders(s, Some(t))
  {
    RingingKinds(t, x);
    hide Count, Graces, TasksFit, DialedFit, PoolOf;
  }

  /** Staff answers: from possible they become waiting, and the recording stops at once. */
  lemma StaffAnswers(env: Env, s: Call, t: Task, x: Transfer, optIn: bool)
    requires Sound(env, s, Some(t)) && Ringing(t, x)
    ensures
      var u := HoldTail(x, optIn, Answered);
      Sound(env, StaffThere(s), Some(u)) && Holders(StaffThere(s), Some(u)) == Holders(s, Some(t))
  {
    hide Kept, Led, Holders, Ringing;
    SameKept(s, StaffThere(s));
    StaffAnswersLed(env, s, t, x, HoldTail(x, optIn, Answered));
  }

  lemma AfterDialState(s: Call, x: Transfer, optIn: bool, result: DialResult)
    ensures AfterDial(s, x, optIn, result) ==
            Spawn(if result == Answered then StaffThere(s) else s, HoldTail(x, optIn, result))
  {
    hide Spawn;
  }

  lemma AfterDialKeeps(env: Env, s: Call, t: Task, x: Transfer, optIn: bool, result: DialResult)
    requires Sound(env, s, Some(t)) && Ringing(t, x)
    ensures
      var s' := AfterDial(s, x, optIn, result);
      Sound(env, s', None) && Holders(s', None) == Holders(s, Some(t))
  {
    var u := HoldTail(x, optIn, result);
    AfterDialState(s, x, optIn, result);
    assert result != Answered ==> Ringing(u, x);
    hide Sound, Holders, Ringing, AfterDial, StaffThere, Spawn;
    if result == Answered {
      StaffAnswers(env, s, t, x, optIn);
      SpawnKeeps(env, StaffThere(s), u);
    } else {
      RingOn(env, s, t, u, x);
    }
  }

  // ---- The end of a transfer ----

  lemma UnattendedKinds(t: Task, x: Transfer)
    requires Unattended(t, x)
    ensures Is(Driving, t) == OwnsFlow(x.origin) && Is(Transferring, t) && Is(StaffPossible, t) != Is(Departing, t)
    ensures !Is(Parting, t) && !Is(StaffOnHold, t) && !Is(ConnectingStaff, t)
    ensures !Is(HangingUp, t) && !Is(NoticePlaying, t)
  {
  }

  lemma DoneKinds(origin: Origin, outcome: Outcome)
    ensures
      var t := TransferDone(origin, outcome);
      && Is(Driving, t) == OwnsFlow(origin) && !Is(Transferring, t) && !Is(StaffPossible, t) && !Is(Departing, t)
      && !Is(Parting, t) && !Is(StaffOnHold, t) && !Is(ConnectingStaff, t) && !Is(HangingUp, t) && !Is(NoticePlaying, t)
  {
  }

  lemma TransferStopsLed(env: Env, s: Call, t: Task, x: Transfer, outcome: Outcome)
    requires Led(env, s, Some(t)) && Unattended(t, x)
    requires outcome != Unavailable && OwnsFlow(x.origin) ==> s.ending
    ensures
      var s1 := s.(transferring := false);
      var u := TransferDone(x.origin, outcome);
      Led(env, s1, Some(u)) && Holders(s1, Some(u)) == Holders(s, Some(t))
  {
    UnattendedKinds(t, x);
    DoneKinds(x.origin, outcome);
    hide Count, Graces, TasksFit, DialedFit, PoolOf, Is;
  }

  lemma TransferStops(env: Env, s: Call, t: Task, x: Transfer, outcome: Outcome)
    requires Sound(env, s, Some(t)) && Unattended(t, x)
    requires outcome != Unavailable && OwnsFlow(x.origin) ==> s.ending
    ensures
      var s1 := s.(transferring := false);
      var u := TransferDone(x.origin, outcome);
      Sound(env, s1, Some(u)) && Holders(s1, Some(u)) == Holders(s, Some(t))
  {
    hide Kept, Led, Holders, Unattended;
    SameKept(s, s.(transferring := false));
    TransferStopsLed(env, s, t, x, outcome);
  }

  lemma FinishKeeps(env: Env, s: Call, t: Task, x: Transfer, outcome: Outcome)
    requires Sound(env, s, Some(t)) && Unattended(t, x)
    requires outcome != Unavailable && OwnsFlow(x.origin) ==> s.ending
    ensures
      var s' := Finish(s, x, outcome);
      Sound(env, s', None) && s'.ending == s.ending && Holders(s', None) == Holders(s, Some(t))
  {
    hide Sound, Holders, Unattended;
    TransferStops(env, s, t, x, outcome);
    SpawnKeeps(env, s.(transferring := false), TransferDone(x.origin, outcome));
  }

  /** The part of `Kept` that does not look at flags, when nothing is open. */
  lemma KeptWithNothingOpen(s: Call, s': Call)
    requires Kept(s) && s.menu.None? && s.voicemail.None?
    requires s'.tasks == s.tasks && s'.timers == s.timers && s'.answer == s.answer && s'.nextId == s.nextId
    requires s'.menu == s.menu && s'.voicemail == s.voicemail && s'.menuToken == s.menuToken
    requires s'.disposed == s.disposed && s'.stepCount == s.stepCount && (s.ending ==> s'.ending)
    requires s'.log.heard == s.log.heard && s'.log.offered == s.log.offered && s'.log.prompts == s.log.prompts
    requires s'.log.asked == s.log.asked && s'.log.replies == s.log.replies
    ensures Kept(s')
  {
    hide Count, IdsFit, NumbersFit, TimersFit, HeardFit, PoolOf;
  }

  /** A transfer holds the flow by itself or through the assistant, so nothing else is open. */
  lemma NothingOpen(env: Env, s: Call, t: Task)
    requires Sound(env, s, Some(t)) && InTransfer(t)
    ensures s.menu.None? && s.voicemail.None?
  {
    HandOk(env, s, t);
    hide Kept, Count, TasksFit, EndingOk, StaffOk;
  }

  ghost function Connected(s: Call): Call {
    s.(ending := true, log := s.log.(connects := s.log.connects + 1))
  }

  lemma ConnectedLed(env: Env, s: Call, t: Task, x: Transfer, optIn: bool)
    requires Led(env, s, Some(t)) && !s.ending && t == HoldTail(x, optIn, Answered) && s.menu.None?
    requires TasksFit(env, Pool(s), s.aiActive, true)
    ensures Led(env, Connected(s), Some(Connecting(x)))
    ensures Holders(Connected(s), Some(Connecting(x))) == Holders(s, Some(t))
  {
    hide Count, Graces, TasksFit, DialedFit, PoolOf;
  }

  /** Staff has answered and the caller is still there: the caller is connected. */
  lemma ConnectKeeps(env: Env, s: Call, t: Task, x: Transfer, optIn: bool)
    requires Sound(env, s, Some(t)) && !s.ending && t == HoldTail(x, optIn, Answered)
    ensures
      var s' := PostDial(s, x, optIn, Answered);
      Sound(env, s', None) && s'.ending && Holders(s', None) == Holders(s, Some(t))
  {
    NothingOpen(env, s, t);
    var s1 := Connected(s);
    EndedTasks(env, s, Some(t));
    hide IdsOk, TimersOk, PromptsOk, CountsOk, VoicemailsOk, Led, Holders, TasksFit;
    KeptWithNothingOpen(s, s1);
    ConnectedLed(env, s, t, x, optIn);
    hide Kept;
    SpawnKeeps(env, s1, Connecting(x));
  }

  lemma EndedTasks(env: Env, s: Call, hand: Option<Task>)
    requires Sound(env, s, hand)
    ensures TasksFit(env, Pool(s), s.aiActive, true)
  {
    hide Kept, Count, FlowOk, EndingOk, StaffOk, Pool;
    TasksGrow(env, Pool(s), s.aiActive, s.ending, s.aiActive, true);
  }

  lemma ReferredLed(env: Env, s: Call, t: Task, x: Transfer, optIn: bool)
    requires Led(env, s, Some(t)) && !s.ending && t == HoldTail(x, optIn, Referred) && s.menu.None?
    requires TasksFit(env, Pool(s), s.aiActive, true)
    ensures
      var s1 := Connected(s).(transferring := false);
      var u := TransferDone(x.origin, Outcome.Connected);
      Led(env, s1, Some(u)) && Holders(s1, Some(u)) == Holders(s, Some(t))
  {
    hide Count, Graces, TasksFit, DialedFit, PoolOf;
  }

  /** A cold transfer has taken the caller out of the room. */
  lemma ReferKeeps(env: Env, s: Call, t: Task, x: Transfer, optIn: bool)
    requires Sound(env, s, Some(t)) && !s.ending && t == HoldTail(x, optIn, Referred)
    ensures
      var s' := PostDial(s, x, optIn, Referred);
      Sound(env, s', None) && s'.ending && Holders(s', None) == Holders(s, Some(t))
  {
    NothingOpen(env, s, t);
    var s1 := Connected(s).(transferring := false);
    EndedTasks(env, s, Some(t));
    hide IdsOk, TimersOk, PromptsOk, CountsOk, VoicemailsOk, Led, Holders, TasksFit;
    KeptWithNothingOpen(s, s1);
    ReferredLed(env, s, t, x, optIn);
    hide Kept;
    SpawnKeeps(env, s1, TransferDone(x.origin, Outcome.Connected));
  }

  lemma ClearLed(env: Env, s: Call, t: Task, x: Transfer, optIn: bool)
    requires Led(env, s, Some(t)) && s.disposed && t == HoldTail(x, optIn, Answered)
    ensures
      var s1 := s.(log := s.log.(clears := s.log.clears + 1));
      Led(env, s1, Some(ClearingRoom(x))) && Holders(s1, Some(ClearingRoom(x))) == Holders(s, Some(t))
  {
    hide Count, Graces, TasksFit, DialedFit, PoolOf;
  }

  /** Staff has answered but the caller has left: the room is torn down. */
  lemma ClearKeeps(env: Env, s: Call, t: Task, x: Transfer, optIn: bool)
    requires Sound(env, s, Some(t)) && s.ending && s.disposed && t == HoldTail(x, optIn, Answered)
    ensures
      var s' := PostDial(s, x, optIn, Answered);
      Sound(env, s', None) && s'.ending && Holders(s', None) == Holders(s, Some(t))
  {
    NothingOpen(env, s, t);
    var s1 := s.(log := s.log.(clears := s.log.clears + 1));
    ClearState(s, x, optIn);
    hide Kept, Led, Holders, TasksFit, PostDial;
    KeptWithNothingOpen(s, s1);
    ClearLed(env, s, t, x, optIn);
    SpawnKeeps(env, s1, ClearingRoom(x));
  }

  lemma ClearState(s: Call, x: Transfer, optIn: bool)
    requires s.ending && s.disposed
    ensures PostDial(s, x, optIn, Answered) == Spawn(s.(log := s.log.(clears := s.log.clears + 1)), ClearingRoom(x))
  {
    hide Finish;
  }

  lemma DropState(s: Call, x: Transfer, optIn: bool)
    requires s.ending && !s.disposed
    ensures PostDial(s, x, optIn, Answered) ==
            Spawn(s.(transferring := false, log := s.log.(dropped := s.log.dropped + 1)), TransferDone(x.origin, Ended))
  {
    hide Spawn;
  }

  lemma DropLed(env: Env, s: Call, t: Task, x: Transfer, optIn: bool)
    requires Led(env, s, Some(t)) && s.ending && !s.disposed && t == HoldTail(x, optIn, Answered)
    ensures
      var s1 := s.(transferring := false, log := s.log.(dropped := s.log.dropped + 1));
      var u := TransferDone(x.origin, Ended);
      Led(env, s1, Some(u)) && Holders(s1, Some(u)) == Holders(s, Some(t))
  {
    hide Count, Graces, TasksFit, DialedFit, PoolOf;
  }

  /** Staff has answered while a goodbye was under way: the transfer just ends. */
  lemma DropKeeps(env: Env, s: Call, t: Task, x: Transfer, optIn: bool)
    requires Sound(env, s, Some(t)) && s.ending && !s.disposed && t == HoldTail(x, optIn, Answered)
    ensures
      var s' := PostDial(s, x, optIn, Answered);
      Sound(env, s', None) && s'.ending && Holders(s', None) == Holders(s, Some(t))
  {
    NothingOpen(env, s, t);
    var s1 := s.(transferring := false, log := s.log.(dropped := s.log.dropped + 1));
    DropState(s, x, optIn);
    hide Kept, Led, Holders, TasksFit, PostDial;
    KeptWithNothingOpen(s, s1);
    DropLed(env, s, t, x, optIn);
    SpawnKeeps(env, s1, TransferDone(x.origin, Ended));
  }

  lemma PostDialKeeps(env: Env, s: Call, t: Task, x: Transfer, optIn: bool, result: DialResult)
    requires Sound(env, s, Some(t))
    requires t == HoldTail(x, optIn, result) || (t == TestHold(x, optIn) && result == NoAnswer)
    ensures
      var s' := PostDial(s, x, optIn, result);
      Sound(env, s', None) && Holders(s', None) == Holders(s, Some(t)) && (s.ending ==> s'.ending)
  {
    if result == Answered {
      hide Sound, Holders;
      if !s.ending { ConnectKeeps(env, s, t, x, optIn); }
      else if s.disposed { ClearKeeps(env, s, t, x, optIn); }
      else { DropKeeps(env, s, t, x, optIn); }
    } else {
      assert Unattended(t, x) && Ringing(t, x) && Ringing(NoAnswerNotice(x, optIn), x);
      hide Sound, Holders, Ringing, Unattended;
      if s.ending { FinishKeeps(env, s, t, x, Ended); }
      else if result == NoAnswer { RingOn(env, s, t, NoAnswerNotice(x, optIn), x); }
      else { ReferKeeps(env, s, t, x, optIn); }
    }
  }

  lemma LeaveLed(env: Env, s: Call, x: Transfer)
    requires Led(env, s, Some(Connecting(x)))
    ensures
      var s1 := s.(log := s.log.(leaves := s.log.leaves + 1));
      Led(env, s1, Some(Leaving(x))) && Holders(s1, Some(Leaving(x))) == Holders(s, Some(Connecting(x)))
  {
    hide Count, Graces, TasksFit, DialedFit, PoolOf;
  }

  /** The agent leaves staff and caller alone. */
  lemma LeaveKeeps(env: Env, s: Call, x: Transfer)
    requires Sound(env, s, Some(Connecting(x)))
    ensures
      var s' := Spawn(s, Leaving(x)).(log := s.log.(leaves := s.log.leaves + 1));
      Sound(env, s', None) && Holders(s', None) == Holders(s, Some(Connecting(x)))
  {
    NothingOpen(env, s, Connecting(x));
    var s1 := s.(log := s.log.(leaves := s.log.leaves + 1));
    hide IdsOk, TimersOk, PromptsOk, CountsOk, VoicemailsOk, Led, Holders;
    KeptWithNothingOpen(s, s1);
    LeaveLed(env, s, x);
    hide Kept;
    SpawnKeeps(env, s1, Leaving(x));
    assert Spawn(s1, Leaving(x)) == Spawn(s, Leaving(x)).(log := s1.log);
  }

  lemma TextSentKeeps(env: Env, s: Call, hand: Option<Task>, n: nat)
    requires Sound(env, s, hand)
    ensures Sound(env, s.(textsSent := n), hand) && Holders(s.(textsSent := n), hand) == Holders(s, hand)
  {
    var s' := s.(textsSent := n);
    hide Kept, Led, Holders, DialedFit;
    DialedIsFit(env, s, hand);
    SameKept(s, s');
    SameLed(env, s, s', hand);
  }
}
