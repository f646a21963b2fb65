/** What no segment takes back: the steps taken, the names given out, and what a voicemail heard. */
module CallProgress {
  import opened Options
  import opened CallFlow
  import opened CallEngine
  import opened Dialing
  import opened CallSteps
  import Text

  /** A menu that is open afterwards was open before, or has a name never used before. */
  ghost predicate SameOrNewMenu(s: Call, s': Call) {
    s'.menu.None? || s.menuToken < s'.menu.value.token || MenuStays(s, s')
  }

  ghost predicate MenuStays(s: Call, s': Call) {
    && s'.menu.Some? && s.menu.Some? && s'.menu.value.token == s.menu.value.token
    && s'.menu.value.node == s.menu.value.node && s'.menu.value.misses == s.menu.value.misses
  }

  ghost predicate HeardStays(s: Call, s': Call) {
    forall id :: id in s.log.heard && id < s.nextId ==> id in s'.log.heard && s'.log.heard[id] == s.log.heard[id]
  }

  ghost predicate Moves(s: Call, s': Call) {
    && (s.ending ==> s'.ending)
    && s.stepCount <= s'.stepCount && s.menuToken <= s'.menuToken && s.nextId <= s'.nextId
    && SameOrNewMenu(s, s')
  }

  /** What only three events do: dropping staff who answered, letting the grace run out, disposing. */
  ghost predicate NoDeeds(s: Call, s': Call) {
    s'.log.dropped == s.log.dropped && s'.log.graces == s.log.graces && s'.disposed == s.disposed
  }

  ghost predicate Advances(s: Call, s': Call) {
    s'.started == s.started && Moves(s, s') && NoDeeds(s, s')
  }

  ghost predicate Onward(s: Call, s': Call) {
    Advances(s, s') && HeardStays(s, s')
  }

  /** Nothing but the menu's timer, flags and work changes. */
  lemma SameProgress(s: Call, s': Call)
    requires s'.started == s.started && (s.ending ==> s'.ending) && s.stepCount <= s'.stepCount
    requires s'.menuToken == s.menuToken && s.nextId <= s'.nextId && s'.log.heard == s.log.heard
    requires s'.menu == s.menu || s'.menu.None? || MenuStays(s, s')
    requires NoDeeds(s, s')
    ensures Onward(s, s')
  {
  }

  lemma SettleOnward(s: Call, reply: Option<Reply>)
    ensures Onward(s, Settle(s, reply))
  {
    hide Onward;
    SameProgress(s, Settle(s, reply));
  }

  lemma AskOnward(s: Call, w: Waiter)
    ensures Onward(s, Ask(s, w))
  {
    hide Onward;
    SameProgress(s, Ask(s, w));
  }

  lemma SpawnOnward(s: Call, t: Task)
    ensures Onward(s, Spawn(s, t))
  {
    hide Onward;
    SameProgress(s, Spawn(s, t));
  }

  lemma EndCallOnward(env: Env, s: Call, survey: bool)
    ensures Onward(s, EndCall(env, s, survey))
  {
    hide Parted, LeaveMenu, Ask, Spawn, Onward;
    var s1 := LeaveMenu(s);
    var s2 := Parted(s1);
    SameProgress(s, s);
    LeaveOnward(s);
    PartedOnward(s1);
    OnwardAgain(s, s1, s2);
    AskOnward(s2, RatingQuestion);
    OnwardAgain(s, s2, Ask(s2, RatingQuestion));
    SpawnOnward(s2, Goodbye);
    OnwardAgain(s, s2, Spawn(s2, Goodbye));
  }

  lemma PartedOnward(s: Call)
    ensures Onward(s, Parted(s))
  {
    hide Onward;
    SameProgress(s, Parted(s));
  }

  lemma FailOnward(env: Env, s: Call)
    ensures Onward(s, Fail(env, s))
  {
    hide EndCall;
    EndCallOnward(env, s.(failed := true), false);
  }

  lemma AfterDialOnward(s: Call, x: Transfer, optIn: bool, result: DialResult)
    ensures Onward(s, AfterDial(s, x, optIn, result))
  {
  }

  lemma DialOnward(env: Env, s: Call, x: Transfer, optIn: bool, attempt: nat)
    ensures Onward(s, DialOrGiveUp(env, s, x, optIn, attempt))
  {
    hide Spawn, Attempts, AfterDial;
    SpawnOnward(s, Dialing(x, optIn, attempt));
    AfterDialOnward(s, x, optIn, NoAnswer);
  }

  lemma StartDialingOnward(env: Env, s: Call, x: Transfer, optIn: bool)
    ensures Onward(s, StartDialing(env, s, x, optIn))
  {
    hide DialOrGiveUp, Spawn;
    DialOnward(env, s, x, optIn, 0);
    SpawnOnward(s, TestHold(x, optIn));
    SpawnOnward(s, ColdHold(x, optIn));
  }

  lemma BeginTransferOnward(env: Env, s: Call, origin: Origin, target: Option<Target>)
    ensures Onward(s, BeginTransfer(env, s, origin, target))
  {
    var s1 := s.(transferring := true);
    SameProgress(s, s1);
    hide Ask, StartDialing, Spawn, CanOfferText, Onward;
    SpawnOnward(s, TransferDone(origin, Ended));
    SpawnOnward(s, TransferDone(origin, Unavailable));
    if target.Some? {
      var x := Transfer(origin, target.value);
      var s2, s3 := Ask(s1, TextOffer(x)), StartDialing(env, s1, x, false);
      AskOnward(s1, TextOffer(x));
      StartDialingOnward(env, s1, x, false);
      OnwardAgain(s, s1, s2);
      OnwardAgain(s, s1, s3);
    }
  }

  lemma FinishOnward(s: Call, x: Transfer, outcome: Outcome)
    ensures Onward(s, Finish(s, x, outcome))
  {
    hide Onward;
    SameProgress(s, Finish(s, x, outcome));
  }

  /** The caller is about to be left alone with staff. */
  function Joined(s: Call): Call {
    LeaveMenu(s.(ending := true, log := s.log.(connects := s.log.connects + 1)))
  }

  lemma ConnectedOnward(s: Call)
    ensures Onward(s, Joined(s))
  {
    hide Onward;
    SameProgress(s, Joined(s));
  }

  lemma PostDialState(s: Call, x: Transfer, optIn: bool, result: DialResult)
    requires !s.ending
    ensures result == NoAnswer ==> PostDial(s, x, optIn, result) == Spawn(s, NoAnswerNotice(x, optIn))
    ensures result == Answered ==> PostDial(s, x, optIn, result) == Spawn(Joined(s), Connecting(x))
    ensures result == Referred ==> PostDial(s, x, optIn, result) == Finish(Joined(s), x, Connected)
  {
    hide Spawn, Finish, LeaveMenu;
  }

  /** Staff have answered, but the hold ends in a goodbye: the transfer ends, and nobody is left to look after them. */
  ghost predicate Dropping(s: Call, result: DialResult) {
    result == Answered && s.ending && !s.disposed
  }

  ghost function WithDrop(s: Call, drop: bool): Call {
    if drop then s.(log := s.log.(dropped := s.log.dropped + 1)) else s
  }

  lemma PostDialOnward(s: Call, x: Transfer, optIn: bool, result: DialResult)
    ensures Onward(WithDrop(s, Dropping(s, result)), PostDial(s, x, optIn, result))
  {
    if s.ending {
      EndedPostDialOnward(s, x, optIn, result);
    } else {
      var s1 := Joined(s);
      ConnectedOnward(s);
      PostDialState(s, x, optIn, result);
      hide Spawn, Finish, LeaveMenu, Onward, PostDial;
      SpawnOnward(s, NoAnswerNotice(x, optIn));
      SpawnOnward(s1, Connecting(x));
      FinishOnward(s1, x, Connected);
      if result != NoAnswer { OnwardAgain(s, s1, PostDial(s, x, optIn, result)); }
    }
  }

  lemma EndedPostDialState(s: Call, x: Transfer, optIn: bool, result: DialResult)
    requires s.ending
    ensures
      var s2 := s.(log := s.log.(dropped := s.log.dropped + 1));
      PostDial(s, x, optIn, result) ==
      if result == Answered && s.disposed then Spawn(s, ClearingRoom(x)).(log := s.log.(clears := s.log.clears + 1))
      else if result == Answered then Finish(s2, x, Ended) else Finish(s, x, Ended)
  {
    hide Spawn, Finish;
  }

  lemma EndedPostDialOnward(s: Call, x: Transfer, optIn: bool, result: DialResult)
    requires s.ending
    ensures Onward(WithDrop(s, Dropping(s, result)), PostDial(s, x, optIn, result))
  {
    var s2 := s.(log := s.log.(dropped := s.log.dropped + 1));
    var s3 := Spawn(s, ClearingRoom(x));
    var s4 := s3.(log := s.log.(clears := s.log.clears + 1));
    EndedPostDialState(s, x, optIn, result);
    SpawnLog(s, ClearingRoom(x));
    hide Finish, Onward, PostDial, Spawn;
    if result != Answered {
      FinishOnward(s, x, Ended);
    } else if s.disposed {
      SpawnOnward(s, ClearingRoom(x));
      SameProgress(s3, s4);
      OnwardAgain(s, s3, s4);
    } else {
      FinishOnward(s2, x, Ended);
    }
  }

  lemma SpawnLog(s: Call, t: Task)
    ensures Spawn(s, t).log == s.log
  {
  }

  lemma StartTransferOnward(env: Env, s: Call, origin: Origin, target: Target)
    ensures Onward(s, StartTransfer(env, s, origin, target))
  {
    hide BeginTransfer, LeaveMenu, Onward;
    LeaveOnward(s);
    BeginTransferOnward(env, LeaveMenu(s), origin, Some(target));
    OnwardAgain(s, LeaveMenu(s), BeginTransfer(env, LeaveMenu(s), origin, Some(target)));
  }

  lemma FinishVoicemailOnward(s: Call)
    ensures Onward(s, FinishVoicemail(s)) && Onward(s, FlushVoicemail(s))
  {
    TakeOnward(s);
    var s1 := TakeVoicemail(s);
    hide Message, Spawn, TakeVoicemail;
    SpawnOnward(s1, FlushSave);
    if s.voicemail.Some? {
      SpawnOnward(s1, VoicemailNotice(s.voicemail.value.node));
      SpawnOnward(s1, SavingVoicemail(s.voicemail.value.node));
    }
  }

  lemma TakeOnward(s: Call)
    ensures Onward(s, TakeVoicemail(s))
  {
    hide Message, FirstChars, Onward;
    SameProgress(s, TakeVoicemail(s));
  }

  lemma StartVoicemailOnward(s: Call, node: FlowNode)
    ensures Onward(s, StartVoicemail(s, node))
  {
  }

  lemma StartAssistantOnward(env: Env, s: Call)
    ensures Onward(s, StartAssistant(env, s))
  {
    var s1 := s.(aiActive := true);
    SameProgress(s, s1);
    hide Fail, Onward;
    FailOnward(env, s1);
    OnwardAgain(s, s1, Fail(env, s1));
  }

  lemma VisitOnward(s: Call, node: FlowNode)
    ensures Onward(s, Visit(s, node))
  {
    hide Onward;
    SameProgress(s, Visit(s, node));
  }

  lemma OnwardSteps(s: Call, s': Call)
    requires Onward(s, s')
    ensures s.stepCount <= s'.stepCount
  {
  }

  lemma OverLimitOnward(env: Env, s: Call)
    ensures
      var s' := EndCall(env, s.(stepCount := s.stepCount + 1), false);
      Onward(s, s') && s.stepCount < s'.stepCount
  {
    var s1 := s.(stepCount := s.stepCount + 1);
    hide EndCall, Onward;
    SameProgress(s, s1);
    EndCallOnward(env, s1, false);
    OnwardAgain(s, s1, EndCall(env, s1, false));
    OnwardSteps(s1, EndCall(env, s1, false));
  }

  /** Entering a step takes one, unless the call ends. */
  lemma {:induction false} EnterOnward(env: Env, s: Call, step: Option<string>)
    ensures Onward(s, Enter(env, s, step))
    ensures !Enter(env, s, step).ending ==> s.stepCount < Enter(env, s, step).stepCount
    decreases MAX_STEPS_PER_CALL - s.stepCount, 0
  {
    SameProgress(s, s);
    hide EndCall, TakeStep, FindNode, Onward;
    var node := if step.None? then None else FindNode(env.graph.nodes, step.value);
    if s.ending {
    } else if node.None? {
      EndCallOnward(env, s, false);
      EndCallEnds(env, s);
    } else if s.stepCount + 1 > MAX_STEPS_PER_CALL {
      OverLimitOnward(env, s);
    } else {
      var s1 := Visit(s, node.value);
      VisitOnward(s, node.value);
      TakeStepOnward(env, s1, node.value);
      assert Enter(env, s, step) == TakeStep(env, s1, node.value);
      OnwardAgain(s, s1, Enter(env, s, step));
      OnwardSteps(s1, Enter(env, s, step));
    }
  }

  lemma {:induction false} TakeStepOnward(env: Env, s: Call, node: FlowNode)
    ensures Onward(s, TakeStep(env, s, node))
    decreases MAX_STEPS_PER_CALL - s.stepCount, 1
  {
    hide Enter, EndCall, BeginTransfer, StepTarget, Spawn, OpenMenu, StartVoicemail, StartAssistant, NextNode, Onward;
    match node.kind
    case Start => EnterOnward(env, s, NextNode(env.graph, node.id, None));
    case HoursCheck => EnterOnward(env, s, NextNode(env.graph, node.id, Some(if env.isOpen then "open" else "closed")));
    case PlayMessage => SpawnOnward(s, StepPause(node, false));
    case KeypadMenu => OpenOnward(s, node, 0);
    case TextLink =>
      SpawnOnward(s, StepPause(node, (env.hasCallerPhone || env.testCall) && s.textsSent < MAX_TEXTS_PER_CALL));
    case TransferCall => BeginTransferOnward(env, s, FromStep(node), StepTarget(env, node));
    case Voicemail => StartVoicemailOnward(s, node);
    case AiAgent => StartAssistantOnward(env, s);
    case HangUp => EndCallOnward(env, s, true);
  }

  lemma EndCallEnds(env: Env, s: Call)
    ensures EndCall(env, s, false).ending
  {
  }

  lemma FollowOnward(env: Env, s: Call, id: string, handle: Option<string>)
    ensures Onward(s, FollowOrEnd(env, s, id, handle))
  {
    hide Enter, EndCall;
    EnterOnward(env, s, NextNode(env.graph, id, handle));
    EndCallOnward(env, s, false);
  }

  lemma StopMenuOnward(s: Call)
    ensures Onward(s, StopMenuTimer(s))
  {
  }

  lemma StopVoicemailOnward(s: Call)
    ensures Onward(s, StopVoicemailTimer(s))
  {
  }

  lemma ArmMenuOnward(s: Call)
    ensures Onward(s, ArmMenuTimer(s))
  {
  }

  lemma ArmVoicemailOnward(s: Call)
    ensures Onward(s, ArmVoicemailTimer(s))
  {
  }

  lemma LeaveOnward(s: Call)
    ensures Onward(s, LeaveMenu(s)) && LeaveMenu(s).menuToken == s.menuToken && LeaveMenu(s).log == s.log
  {
    hide Onward;
    SameProgress(s, LeaveMenu(s));
  }

  lemma OpenOnward(s: Call, node: FlowNode, misses: nat)
    ensures Onward(s, OpenMenu(s, node, misses))
  {
  }

  lemma OnwardAgain(s: Call, s1: Call, s2: Call)
    requires Onward(s, s1) && Onward(s1, s2)
    ensures Onward(s, s2)
  {
  }

  lemma RetryOnward(env: Env, s: Call)
    ensures Onward(s, RetryMenu(env, s))
  {
    if s.menu.Some? {
      var m, s1 := s.menu.value, LeaveMenu(s);
      RetryState(env, s);
      hide FollowOrEnd, OpenMenu, LeaveMenu, RetryMenu, Onward;
      LeaveOnward(s);
      FollowOnward(env, s1, m.node.id, Some("no_input"));
      OpenOnward(s1, m.node, m.misses + 1);
      OnwardAgain(s, s1, RetryMenu(env, s));
    }
  }

  lemma ChooseOnward(env: Env, s: Call, key: MenuKey)
    ensures Onward(s, Choose(env, s, key))
  {
    if s.menu.Some? {
      var m, s1 := s.menu.value, LeaveMenu(s);
      ChooseState(env, s, key);
      hide FollowOrEnd, BeginTransfer, RetryMenu, LeaveMenu, Choose, Onward, PressZeroTarget, FindOption;
      LeaveOnward(s);
      RetryOnward(env, s);
      FollowOnward(env, s1, m.node.id, Some(KeyHandle(key)));
      BeginTransferOnward(env, s1, FromMenu, if key == '0' then PressZeroTarget(env) else None);
      if Choose(env, s, key) != RetryMenu(env, s) { OnwardAgain(s, s1, Choose(env, s, key)); }
    }
  }

  lemma KeypadOnward(env: Env, s: Call, key: MenuKey)
    ensures Onward(s, OnKeypad(env, s, key))
  {
    SameProgress(s, s);
    hide Settle, FinishVoicemail, StartTransfer, Choose, Onward, PressZeroTarget;
    SettleOnward(s, Some(KeyReply(key)));
    FinishVoicemailOnward(s);
    ChooseOnward(env, s, key);
    var staff := PressZeroTarget(env);
    if staff.Some? { StartTransferOnward(env, s, FromAssistant, staff.value); }
  }

  /** What an utterance adds to what the live voicemail has heard, and to nothing else. */
  ghost predicate HeardGrows(s: Call, s': Call) {
    forall id :: id in s.log.heard && id < s.nextId ==> id in s'.log.heard && s.log.heard[id] <= s'.log.heard[id]
  }

  ghost predicate KnowsHeard(s: Call) {
    s.voicemail.Some? ==>
      var v := s.voicemail.value;
      v.id in s.log.heard && s.log.heard[v.id] == v.parts
  }

  ghost predicate Grows(s: Call, s': Call) {
    Advances(s, s') && HeardGrows(s, s')
  }

  lemma OnwardGrows(s: Call, s': Call)
    requires Onward(s, s')
    ensures Grows(s, s')
  {
  }

  lemma HearGrows(s: Call, v: VoicemailState, spoken: string)
    requires s.voicemail == Some(v) && KnowsHeard(s)
    ensures
      var s1 := s.(
        voicemail := Some(v.(parts := v.parts + [spoken])),
        log := s.log.(heard := s.log.heard[v.id := v.parts + [spoken]]));
      Grows(s, s1) && Grows(s, ArmVoicemailTimer(s1))
  {
    var s1 := s.(
      voicemail := Some(v.(parts := v.parts + [spoken])),
      log := s.log.(heard := s.log.heard[v.id := v.parts + [spoken]]));
    UtteranceGrows(s, v, spoken);
    ArmedHeard(s1);
    hide ArmVoicemailTimer, Grows, Onward, KnowsHeard;
    ArmVoicemailOnward(s1);
    GrowsOnward(s, s1, ArmVoicemailTimer(s1));
  }

  lemma UtteranceGrows(s: Call, v: VoicemailState, spoken: string)
    requires s.voicemail == Some(v) && KnowsHeard(s)
    ensures Grows(s, s.(
              voicemail := Some(v.(parts := v.parts + [spoken])),
              log := s.log.(heard := s.log.heard[v.id := v.parts + [spoken]])))
  {
    assert v.parts <= v.parts + [spoken];
  }

  lemma GrowsOnward(s: Call, s1: Call, s2: Call)
    requires Grows(s, s1) && Onward(s1, s2) && s2.log == s1.log
    ensures Grows(s, s2)
  {
  }

  lemma ArmedHeard(s: Call)
    ensures ArmVoicemailTimer(s).log == s.log
  {
  }

  lemma SpeechGrows(env: Env, s: Call, text: string)
    requires KnowsHeard(s)
    ensures Grows(s, OnCallerSpeech(env, s, text))
  {
    var spoken := Text.Trim(text);
    SameProgress(s, s);
    OnwardGrows(s, s);
    if s.voicemail.Some? { HearGrows(s, s.voicemail.value, spoken); }
    hide Settle, Choose, RetryMenu, ArmVoicemailTimer, Text.Trim, Grows, Onward;
    SettleOnward(s, Some(TextReply(spoken)));
    OnwardGrows(s, Settle(s, Some(TextReply(spoken))));
    RetryOnward(env, s);
    OnwardGrows(s, RetryMenu(env, s));
    if s.menu.Some? {
      var key := env.matchMenuChoice(s.menu.value.node.options, spoken);
      if key.Some? {
        ChooseOnward(env, s, key.value);
        OnwardGrows(s, Choose(env, s, key.value));
      }
    }
  }

  /** Tasks after which the flow moves. */
  lemma FlowResumeOnward(env: Env, s: Call, task: Task, r: Result)
    requires task.Preamble? || task.StepPause? || task.VoicemailNotice? || task.TransferDone?
    ensures Onward(s, Resume(env, s, task, r))
  {
    hide Enter, EndCall, Fail, FollowOrEnd, NextNode, FindStart;
    match task
    case Preamble =>
      var s1 := s.(inPreamble := false);
      FailOnward(env, s1);
      var start := FindStart(env.graph.nodes);
      if start.Some? { EnterOnward(env, s1, Some(start.value.id)); }
    case StepPause(node, texting) =>
      EnterOnward(env, s, NextNode(env.graph, node.id, None));
      EnterOnward(env, s.(textsSent := s.textsSent + 1), NextNode(env.graph, node.id, None));
    case VoicemailNotice(node) => FollowOnward(env, s, node.id, None);
    case TransferDone(origin, outcome) =>
      EndCallOnward(env, s, false);
      if origin.FromStep? { EnterOnward(env, s, NextNode(env.graph, origin.node.id, Some("no_answer"))); }
  }

  /** The state with what the resumed task is about to do to staff already written down. */
  ghost function Owed(s: Call, task: Task): Call {
    WithDrop(s, task.HoldTail? && Dropping(s, task.result))
  }

  ghost predicate Rings(task: Task) {
    || task.TestHold? || task.ColdHold? || task.Dialing? || task.HoldTail? || task.NoAnswerNotice? || task.FollowUp?
  }

  lemma TransferResumeOnward(env: Env, s: Call, task: Task, r: Result)
    requires Rings(task)
    ensures Onward(Owed(s, task), Resume(env, s, task, r))
  {
    hide DialOrGiveUp, AfterDial, PostDial, Finish, Spawn, Onward;
    match task
    case TestHold(x, optIn) => PostDialOnward(s, x, optIn, NoAnswer);
    case ColdHold(x, optIn) => DialOnward(env, s, x, optIn, 0);
    case Dialing(x, optIn, attempt) =>
      DialOnward(env, s, x, optIn, attempt + 1);
      AfterDialOnward(s, x, optIn, r.dial);
    case HoldTail(x, optIn, result) => PostDialOnward(s, x, optIn, result);
    case NoAnswerNotice(x, optIn) =>
      SpawnOnward(s, FollowUp(x));
      FinishOnward(s, x, if s.ending then Ended else Unavailable);
    case FollowUp(x) => FollowUpOnward(env, s, x, r);
  }

  function Texted(s: Call, ok: bool): Call {
    s.(textsSent := if ok then s.textsSent + 1 else s.textsSent)
  }

  lemma FollowUpState(env: Env, s: Call, x: Transfer, r: Result)
    ensures Resume(env, s, FollowUp(x), r) == Finish(Texted(s, r.ok), x, if s.ending then Ended else Unavailable)
  {
    hide Finish;
  }

  lemma TextedOnward(s: Call, ok: bool)
    ensures Onward(s, Texted(s, ok))
  {
    hide Onward;
    SameProgress(s, Texted(s, ok));
  }

  lemma FollowUpOnward(env: Env, s: Call, x: Transfer, r: Result)
    ensures Onward(s, Resume(env, s, FollowUp(x), r))
  {
    hide Finish, Onward, Resume, Texted;
    var outcome := if s.ending then Ended else Unavailable;
    FollowUpState(env, s, x, r);
    TextedOnward(s, r.ok);
    FinishOnward(Texted(s, r.ok), x, outcome);
    OnwardAgain(s, Texted(s, r.ok), Finish(Texted(s, r.ok), x, outcome));
  }

  lemma RepliedOnward(env: Env, s: Call, waiter: Waiter, reply: Option<Reply>, r: Result)
    ensures Onward(s, Resume(env, s, Replied(waiter, reply), r))
  {
    hide StartDialing, Finish, Spawn;
    match waiter
    case TextOffer(x) =>
      StartDialingOnward(env, s, x, reply.Some? && env.parseYes(reply.value));
      FinishOnward(s, x, Ended);
    case RatingQuestion =>
      var rating := if reply.Some? then env.parseRating(reply.value) else None;
      SpawnOnward(s, Goodbye);
      SpawnOnward(s.(rating := rating), RatingThanks);
  }

  lemma ListenOnward(s: Call)
    requires s.voicemail.Some?
    ensures Onward(s, Listen(s, s.voicemail.value))
  {
    hide Onward;
    SameProgress(s, Listen(s, s.voicemail.value));
  }

  lemma PromptResumeOnward(env: Env, s: Call, task: Task, r: Result)
    requires task.MenuPrompt? || task.VoicemailPrompt?
    ensures Onward(s, Resume(env, s, task, r))
  {
    SameProgress(s, s);
    hide ArmMenuTimer, ArmVoicemailTimer, Listen, Onward;
    ArmMenuOnward(s);
    if s.voicemail.Some? {
      var s1 := Listen(s, s.voicemail.value);
      ListenOnward(s);
      ArmVoicemailOnward(s1);
      OnwardAgain(s, s1, ArmVoicemailTimer(s1));
    }
  }

  lemma NotedOnward(s: Call, log: Log)
    requires log.heard == s.log.heard && log.dropped == s.log.dropped && log.graces == s.log.graces
    ensures Onward(s, s.(log := log))
  {
    hide Onward;
    SameProgress(s, s.(log := log));
  }

  lemma GraceOnward(s: Call)
    ensures Onward(s, SetTimer(s, HangUpGrace))
  {
    hide Onward;
    SameProgress(s, SetTimer(s, HangUpGrace));
  }

  lemma GoodbyeResumeOnward(env: Env, s: Call, task: Task, r: Result)
    requires task.SavingVoicemail? || task.FlushSave? || task.RatingThanks? || task.Goodbye? || task.HangUpNow?
    ensures Onward(s, Resume(env, s, task, r))
  {
    hide Onward, Spawn, SetTimer;
    SameProgress(s, s);
    match task
    case SavingVoicemail(node) => SpawnOnward(s, VoicemailNotice(node));
    case RatingThanks => SpawnOnward(s, Goodbye);
    case Goodbye => GraceOnward(s);
    case HangUpNow => NotedOnward(s, s.log.(hangUps := s.log.hangUps + 1));
    case FlushSave =>
  }

  lemma LeavingResumeOnward(env: Env, s: Call, task: Task, r: Result)
    requires task.Connecting? || task.Leaving? || task.ClearingRoom?
    ensures Onward(s, Resume(env, s, task, r))
  {
    hide Onward, Finish, Spawn;
    match task
    case Connecting(x) =>
      var s1 := Spawn(s, Leaving(x));
      SpawnOnward(s, Leaving(x));
      SpawnLog(s, Leaving(x));
      NotedOnward(s1, s.log.(leaves := s.log.leaves + 1));
      OnwardAgain(s, s1, s1.(log := s.log.(leaves := s.log.leaves + 1)));
    case Leaving(x) => FinishOnward(s, x, Connected);
    case ClearingRoom(x) => FinishOnward(s, x, Ended);
  }

  lemma ResumeOnward(env: Env, s: Call, task: Task, r: Result)
    ensures Onward(Owed(s, task), Resume(env, s, task, r))
  {
    hide Resume, Onward;
    if task.Preamble? || task.StepPause? || task.VoicemailNotice? || task.TransferDone? {
      FlowResumeOnward(env, s, task, r);
    } else if Rings(task) {
      TransferResumeOnward(env, s, task, r);
    } else if task.Replied? {
      RepliedOnward(env, s, task.waiter, task.reply, r);
    } else if task.MenuPrompt? || task.VoicemailPrompt? {
      PromptResumeOnward(env, s, task, r);
    } else if task.Connecting? || task.Leaving? || task.ClearingRoom? {
      LeavingResumeOnward(env, s, task, r);
    } else {
      GoodbyeResumeOnward(env, s, task, r);
    }
  }

  lemma FireOnward(env: Env, s: Call, timer: Timer)
    ensures Onward(if timer == HangUpGrace then GraceOver(s) else s, Fire(env, s, timer))
  {
    SameProgress(s, s);
    hide EndCall, RetryMenu, FinishVoicemail, Settle, Spawn, Onward, GraceOver;
    match timer
    case CallLimit => EndCallOnward(env, s, false);
    case MenuWait(_) => RetryOnward(env, s);
    case AnswerWait(_) => SettleOnward(s, None);
    case HangUpGrace => SpawnOnward(GraceOver(s), HangUpNow);
    case _ => FinishVoicemailOnward(s);
  }

  lemma TurnOnward(s: Call, text: string)
    ensures Onward(s, OnAssistantTurn(s, text))
  {
    hide Settle, Text.Trim;
    SettleOnward(s, Some(TextReply(Text.Trim(text))));
  }

  lemma SpeakingOnward(s: Call, speaking: bool)
    ensures Onward(s, s.(speaking := speaking))
  {
    hide Onward;
    SameProgress(s, s.(speaking := speaking));
  }

  lemma StartedOnward(s: Call)
    ensures Onward(s, OnCallerStartedSpeaking(s))
  {
    hide StopMenuTimer, StopVoicemailTimer, Onward;
    var s0 := s.(speaking := true);
    var s1 := StopMenuTimer(s0);
    SpeakingOnward(s, true);
    StopMenuOnward(s0);
    StopVoicemailOnward(s1);
    OnwardAgain(s, s0, s1);
    OnwardAgain(s, s1, StopVoicemailTimer(s1));
  }

  lemma SoundOnward(s: Call)
    ensures Onward(s, OnCallerStartedSpeaking(s)) && Onward(s, OnCallerStoppedSpeaking(s))
  {
    StartedOnward(s);
    hide ArmMenuTimer, ArmVoicemailTimer, OnCallerStartedSpeaking, Onward;
    SpeakingOnward(s, s.speaking);
    SpeakingOnward(s, false);
    var s1 := if s.menu.Some? && s.menu.value.timer.None? then ArmMenuTimer(s) else s;
    ArmMenuOnward(s);
    ArmVoicemailOnward(s1);
    var s2 := if s1.voicemail.Some? && s1.voicemail.value.listening && s1.voicemail.value.timer.None?
      then ArmVoicemailTimer(s1) else s1;
    assert s.(speaking := s.speaking) == s;
    SpeakingOnward(s1, s1.speaking);
    assert s1.(speaking := s1.speaking) == s1;
    OnwardAgain(s, s1, s2);
    SpeakingOnward(s2, false);
    OnwardAgain(s, s2, s2.(speaking := false));
  }

  lemma PlayedOnward(s: Call, id: Id, spoken: bool)
    ensures Onward(s, QuestionPlayed(s, id, spoken))
  {
    hide Settle;
    SettleOnward(s, None);
  }

  lemma ToolsOnward(env: Env, s: Call, caseId: Option<string>)
    ensures Onward(s, ToolEndCall(env, s)) && Onward(s, ToolTransfer(env, s, caseId))
  {
    hide EndCall, StartTransfer;
    EndCallOnward(env, s, true);
    var target := env.resolveTransfer(caseId);
    if target.Some? { StartTransferOnward(env, s, FromAssistant, target.value); }
  }

  lemma DisposeOnward(s: Call)
    ensures Onward(s.(disposed := true), Dispose(s))
  {
    if !s.disposed {
      var s1 := Settle(s, None);
      hide Onward;
      SameProgress(s.(disposed := true), Dispose(s));
    } else {
      SameProgress(s, s);
    }
  }

  // ---- The three deeds, by event ----

  /** This event is the end of the hold message for staff who have answered, while a goodbye is under way. */
  ghost predicate HoldEndsInGoodbye(s: Call, e: Event) {
    e.Resumes? && e.id in s.tasks && s.tasks[e.id].HoldTail? && Dropping(s, s.tasks[e.id].result)
  }

  /** This event is the end of the grace after a goodbye, upon which the room is closed. */
  ghost predicate GraceEnds(s: Call, e: Event) {
    e.TimerFires? && e.id in s.timers && s.timers[e.id] == HangUpGrace && !s.disposed
  }

  ghost predicate Deeds(s: Call, e: Event, s': Call) {
    && s'.log.dropped == s.log.dropped + (if HoldEndsInGoodbye(s, e) then 1 else 0)
    && s'.log.graces == s.log.graces + (if GraceEnds(s, e) then 1 else 0)
    && s'.disposed == (s.disposed || e == Disposed)
  }

  lemma OnwardDeeds(s: Call, e: Event, s0: Call, s': Call)
    requires Onward(s0, s') && s0.started == s.started && s0.ending == s.ending && s0.stepCount == s.stepCount
    requires s0.menuToken == s.menuToken && s0.nextId == s.nextId && s0.menu == s.menu && s0.log.heard == s.log.heard
    requires Deeds(s, e, s0)
    ensures Moves(s, s') && HeardGrows(s, s') && Deeds(s, e, s') && s'.started == s.started
  {
    hide HoldEndsInGoodbye, GraceEnds;
  }
}
