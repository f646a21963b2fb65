/** The flow goes where the graph leads: what a key, an utterance, a timer or a finished step comes to. */
module CallFollows {
  import opened Options
  import opened CallFlow
  import opened CallEngine
  import opened Dialing
  import opened CallInvariants
  import opened CallMeaning
  import opened CallSegments
  import opened CallSteps
  import CallTransfers
  import opened CallProgress
  import opened CallWalk
  import opened CallOutcomes
  import PhoneNumbers

  /** Names are given out in order, so the next one is new. */
  ghost predicate NewIds(s: Call) { forall i :: i in s.tasks ==> i < s.nextId }

  // ---- Pieces ----

  lemma SpawnAdds(s: Call, t: Task)
    requires NewIds(s)
    ensures
      var s' := Spawn(s, t);
      && Adds(s.tasks, s'.tasks, t) && Seen(s') == Seen(s).(tasks := s'.tasks)
      && s'.menu == s.menu && s'.voicemail == s.voicemail
  {
    assert s.nextId !in s.tasks && Spawn(s, t).tasks == s.tasks[s.nextId := t];
  }

  lemma AskMeans(s: Call, waiter: Waiter)
    ensures
      var s' := Ask(s, waiter);
      && Asks(Seen(s), waiter, s') && Seen(s') == Seen(s).(tasks := s'.tasks, answer := s'.answer)
      && s'.menu == s.menu && s'.voicemail == s.voicemail
  {
  }

  lemma PartedSeen(s: Call)
    ensures
      var s', b := Parted(LeaveMenu(s)), Seen(s);
      && Seen(s') == b.(ending := true, shows := b.shows.(goodbyes := b.shows.goodbyes + 1))
      && s'.menu.None? && s'.nextId == s.nextId
  {
  }

  lemma EndCallMeans(env: Env, s: Call, survey: bool)
    requires NewIds(s) && !s.ending
    ensures GoodbyeBegins(env, Seen(s), survey, EndCall(env, s, survey))
  {
    var s2 := Parted(LeaveMenu(s));
    PartedSeen(s);
    assert s2.tasks == Seen(s2).tasks && NewIds(s2);
    AskMeans(s2, RatingQuestion);
    SpawnAdds(s2, Goodbye);
    hide Parted, LeaveMenu, Ask, Spawn, Adds;
  }

  // ---- Transfers ----

  lemma AfterDialMeans(s: Call, x: Transfer, optIn: bool, r: DialResult)
    requires NewIds(s)
    ensures
      var s', b := AfterDial(s, x, optIn, r), Seen(s);
      && Adds(s.tasks, s'.tasks, HoldTail(x, optIn, r)) && s'.menu == s.menu
      && Seen(s') == b.(
           tasks := s'.tasks,
           shows := b.shows.(recordingStops := b.shows.recordingStops + if r == Answered then 1 else 0))
  {
    var s1 := s.(log := if r == Answered
      then s.log.(recordingStops := s.log.recordingStops + 1, answers := s.log.answers + 1) else s.log);
    assert AfterDial(s, x, optIn, r) == Spawn(s1, HoldTail(x, optIn, r));
    SpawnAdds(s1, HoldTail(x, optIn, r));
    hide Spawn, Adds;
  }

  lemma AttemptMeans(s: Call, x: Transfer, optIn: bool, attempt: nat)
    requires NewIds(s)
    ensures
      var s1, b := Spawn(s, Dialing(x, optIn, attempt)), Seen(s);
      var s' := s1.(log := s.log.(dialed := s.log.dialed + [x.target.phone]));
      && Adds(s.tasks, s'.tasks, Dialing(x, optIn, attempt)) && s'.menu == s.menu
      && Seen(s') == b.(tasks := s'.tasks, shows := b.shows.(dialed := b.shows.dialed + [x.target.phone]))
  {
    SpawnAdds(s, Dialing(x, optIn, attempt));
    hide Adds;
  }

  lemma DialMeans(env: Env, s: Call, x: Transfer, optIn: bool, attempt: nat)
    requires NewIds(s)
    ensures
      var s' := DialOrGiveUp(env, s, x, optIn, attempt);
      RingsAgain(env, Seen(s), x, optIn, attempt, s') && NoStep(Seen(s), s') && s'.menu == s.menu
  {
    if attempt < MostRings(env, x) && !s.ending {
      AttemptMeans(s, x, optIn, attempt);
      SpawnLog(s, Dialing(x, optIn, attempt));
      hide Spawn, AfterDial, Adds, Seen;
      SeenParts();
    } else {
      AfterDialMeans(s, x, optIn, NoAnswer);
      hide Spawn, AfterDial, Adds, Seen;
      SeenParts();
    }
  }

  lemma SeenParts()
    ensures forall s :: Seen(s).stands == Stands(s) && Seen(s).shows == Shows(s) && Seen(s).visited == s.log.visited
    ensures forall s :: Seen(s).ending == s.ending && Seen(s).tasks == s.tasks && Seen(s).answer == s.answer
    ensures forall s :: Seen(s).menuToken == s.menuToken
  {
  }

  lemma StartDialingMeans(env: Env, s: Call, x: Transfer, optIn: bool)
    requires NewIds(s)
    ensures
      var s' := StartDialing(env, s, x, optIn);
      HoldBegins(env, Seen(s), x, optIn, s') && NoStep(Seen(s), s') && s'.menu == s.menu
  {
    SpawnAdds(s, TestHold(x, optIn));
    SpawnAdds(s, ColdHold(x, optIn));
    DialMeans(env, s, x, optIn, 0);
    hide Spawn, DialOrGiveUp, Adds, RingsAgain;
  }

  lemma BeginTransferMeans(env: Env, s: Call, origin: Origin, target: Option<Target>)
    requires NewIds(s) && !s.ending && !s.transferring && s.menu.None?
    ensures TransferBegins(env, Seen(s), origin, target, BeginTransfer(env, s, origin, target))
  {
    if target.None? || !env.canDial(target.value.phone) || (env.warmDialer.None? && !env.testCall) {
      hide Adds, HoldBegins, Asks, Ask, StartDialing, Spawn, TransferBegins, BeginTransfer;
      TransferRefused(env, s, origin, target);
    } else {
      hide Adds, HoldBegins, Asks, Ask, StartDialing, Spawn, TransferBegins, BeginTransfer;
      TransferUnderWay(env, s, origin, target.value);
    }
  }

  lemma TransferRefused(env: Env, s: Call, origin: Origin, target: Option<Target>)
    requires NewIds(s) && !s.ending && !s.transferring && s.menu.None?
    requires target.None? || !env.canDial(target.value.phone) || (env.warmDialer.None? && !env.testCall)
    ensures TransferBegins(env, Seen(s), origin, target, BeginTransfer(env, s, origin, target))
  {
    var s' := Spawn(s, TransferDone(origin, Unavailable));
    assert BeginTransfer(env, s, origin, target) == s' by { hide Spawn, Ask, StartDialing; }
    SpawnAdds(s, TransferDone(origin, Unavailable));
    hide Adds, HoldBegins, Asks, Spawn, BeginTransfer;
  }

  lemma TransferUnderWay(env: Env, s: Call, origin: Origin, target: Target)
    requires NewIds(s) && !s.ending && !s.transferring && s.menu.None?
    requires env.canDial(target.phone) && (env.warmDialer.Some? || env.testCall)
    ensures TransferBegins(env, Seen(s), origin, Some(target), BeginTransfer(env, s, origin, Some(target)))
  {
    var x, s1 := Transfer(origin, target), s.(transferring := true);
    TransferringSeen(s);
    SeenParts();
    forall s' ensures Asks(Seen(s1), TextOffer(x), s') ==> Asks(Seen(s), TextOffer(x), s') {}
    hide Adds, HoldBegins, Asks, Ask, StartDialing, Spawn, Seen, Stands, Shows;
    if env.offerTextWhenNoAnswer && CanText(env, s.textsSent) {
      AskMeans(s1, TextOffer(x));
    } else {
      StartDialingMeans(env, s1, x, false);
    }
  }

  lemma TransferringSeen(s: Call)
    ensures
      var s1, b := s.(transferring := true), Seen(s);
      && Seen(s1) == b.(stands := b.stands.(transferring := true)) && b.stands.textsSent == s.textsSent
      && s1.nextId == s.nextId && s1.menu == s.menu && s1.tasks == s.tasks
  {
  }

  // ---- Steps of the flow ----

  lemma OpenMenuMeans(s: Call, node: FlowNode, misses: nat)
    requires NewIds(s)
    ensures
      var s', b := OpenMenu(s, node, misses), Seen(s);
      && Seen(s') == b.(tasks := s'.tasks, menuToken := s'.menuToken)
      && s'.menuToken == s.menuToken + 1 && Adds(s.tasks, s'.tasks, MenuPrompt(s'.menuToken))
      && s'.menu == Some(MenuState(node, misses, s'.menuToken, None))
  {
    assert s.nextId !in s.tasks && OpenMenu(s, node, misses).tasks == s.tasks[s.nextId := MenuPrompt(s.menuToken + 1)];
  }

  lemma StartVoicemailMeans(s: Call, node: FlowNode)
    requires NewIds(s)
    ensures
      var s' := StartVoicemail(s, node);
      && Seen(s') == Seen(s).(tasks := s'.tasks)
      && s'.voicemail == Some(VoicemailState(s.nextId, node, [], false, None, None))
      && Adds(s.tasks, s'.tasks, VoicemailPrompt(s.nextId))
  {
    assert s.nextId + 1 !in s.tasks
           && StartVoicemail(s, node).tasks == s.tasks[s.nextId + 1 := VoicemailPrompt(s.nextId)];
  }

  lemma StartAssistantMeans(env: Env, s: Call)
    requires NewIds(s) && !s.ending
    ensures
      var s', b := StartAssistant(env, s), Seen(s);
      var b1 := b.(stands := b.stands.(aiActive := true));
      if env.assistantStarts then Seen(s') == b1
      else GoodbyeBegins(env, b1.(stands := b1.stands.(failed := true)), false, s')
  {
    EndCallMeans(env, s.(aiActive := true, failed := true), false);
    hide EndCall, GoodbyeBegins;
  }

  // ---- Going to a step ----

  /** Nothing holds the flow any more, it goes on, and the steps taken have been counted. */
  ghost predicate Ready(s: Call) {
    && NewIds(s) && |s.log.visited| == s.stepCount <= MAX_STEPS_PER_CALL
    && !s.ending && !s.transferring && s.menu.None?
  }

  lemma VisitMeans(s: Call, node: FlowNode)
    requires Ready(s) && s.stepCount < MAX_STEPS_PER_CALL
    ensures
      var s1 := Visit(s, node);
      Ready(s1) && Seen(s1) == Seen(s).(visited := s.log.visited + [node]) && s1.stepCount == s.stepCount + 1
  {
  }

  /** A step that does something leaves that behind. */
  lemma ActingStepMeans(env: Env, s: Call, node: FlowNode)
    requires Ready(s) && !Passing(node)
    ensures
      var s' := TakeStep(env, s, node);
      s'.log.visited == s.log.visited && Leaves(env, Seen(s), node, s')
  {
    if node.kind == TransferCall {
      TransferStepMeans(env, s, node);
      hide TakeStep, Leaves;
    } else if node.kind == AiAgent || node.kind == HangUp {
      EndingStepMeans(env, s, node);
      hide TakeStep, Leaves;
    } else {
      PlainStepMeans(env, s, node);
      hide TakeStep, Leaves;
    }
  }

  lemma PlainStepMeans(env: Env, s: Call, node: FlowNode)
    requires Ready(s) && node.kind in {PlayMessage, KeypadMenu, TextLink, Voicemail}
    ensures
      var s' := TakeStep(env, s, node);
      s'.log.visited == s.log.visited && Leaves(env, Seen(s), node, s')
  {
    hide Adds, Spawn, OpenMenu, StartVoicemail, Enter, EndCall, BeginTransfer, StepTarget, StartAssistant, NextNode;
    match node.kind
    case PlayMessage => SpawnAdds(s, StepPause(node, false));
    case KeypadMenu => OpenMenuMeans(s, node, 0);
    case TextLink => SpawnAdds(s, StepPause(node, CanText(env, s.textsSent)));
    case Voicemail => StartVoicemailMeans(s, node);
  }

  lemma TransferStepMeans(env: Env, s: Call, node: FlowNode)
    requires Ready(s) && node.kind == TransferCall
    ensures
      var s' := TakeStep(env, s, node);
      s'.log.visited == s.log.visited && Leaves(env, Seen(s), node, s')
  {
    var target := StepTarget(env, node);
    assert RingsFor(env, node, target) by { hide PhoneNumbers.IsE164; }
    BeginTransferMeans(env, s, FromStep(node), target);
    hide BeginTransfer, StepTarget, HoldBegins, RingsFor, Enter, EndCall, NextNode, OpenMenu, StartVoicemail, Spawn,
      StartAssistant, Adds, Asks;
  }

  lemma EndingStepMeans(env: Env, s: Call, node: FlowNode)
    requires Ready(s) && (node.kind == AiAgent || node.kind == HangUp)
    ensures
      var s' := TakeStep(env, s, node);
      s'.log.visited == s.log.visited && Leaves(env, Seen(s), node, s')
  {
    StartAssistantMeans(env, s);
    EndCallMeans(env, s, true);
    hide Adds, Asks, StartAssistant, Enter, EndCall, NextNode, OpenMenu, StartVoicemail, Spawn, BeginTransfer,
      StepTarget;
  }

  ghost function NodeOf(env: Env, step: Option<string>): Option<FlowNode> {
    if step.None? then None else FindNode(env.graph.nodes, step.value)
  }

  /** A step that passes on to this one is taken before it. */
  lemma WalksOn(env: Env, s: Scene, node: FlowNode, next: Option<FlowNode>, s': Call)
    requires Passing(node) && |s.visited| < 60
    requires next.Some? ==> LeadsTo(env.graph, node.id, PassesBy(env, node), next.value)
    requires next.None? ==> LeadsNowhere(env, node, PassesBy(env, node))
    requires Walks(env, s.(visited := s.visited + [node]), next, s')
    ensures Walks(env, s, Some(node), s')
  {
    hide LeadsTo, PassesBy;
    var s1 := s.(visited := s.visited + [node]);
    var steps := s'.log.visited[|s.visited|..];
    if next.None? || |s1.visited| >= 60 {
      assert s'.log.visited == s1.visited && steps == [node] by { hide Asks, Adds; }
      assert s.(visited := s'.log.visited) == s1;
      hide GoodbyeBegins;
    } else {
      hide Leaves, GoodbyeBegins;
      var rest := s'.log.visited[|s1.visited|..];
      assert steps == [node] + rest;
      assert s.(visited := s'.log.visited) == s1.(visited := s'.log.visited);
    }
  }

  lemma NextIsLedTo(env: Env, node: FlowNode, handle: Option<string>)
    ensures
      var next := NodeOf(env, NextNode(env.graph, node.id, handle));
      && (next.Some? ==> LeadsTo(env.graph, node.id, handle, next.value))
      && (next.None? ==> LeadsNowhere(env, node, handle))
      && (forall n :: LeadsTo(env.graph, node.id, handle, n) ==> next == Some(n))
      && (NextNode(env.graph, node.id, handle).None? <==> next.None?)
  {
    LeadsToIsFound(env.graph, node.id, handle);
    hide LeadsTo, FindNode;
  }

  lemma OneStep(env: Env, s: Scene, node: FlowNode, s': Call)
    requires s'.log.visited == s.visited + [node] && |s.visited| < 60
    requires Leaves(env, s.(visited := s'.log.visited), node, s')
    ensures Walks(env, s, Some(node), s')
  {
    hide Leaves, GoodbyeBegins;
    assert s'.log.visited[|s.visited|..] == [node];
  }

  lemma {:induction false} EnterMeans(env: Env, s: Call, step: Option<string>)
    requires Ready(s)
    ensures Walks(env, Seen(s), NodeOf(env, step), Enter(env, s, step))
    decreases MAX_STEPS_PER_CALL - s.stepCount
  {
    var node := NodeOf(env, step);
    if node.None? {
      EndCallMeans(env, s, false);
      hide GoodbyeBegins, EndCall, TakeStep, FindNode;
    } else if s.stepCount == MAX_STEPS_PER_CALL {
      var late := s.(stepCount := s.stepCount + 1);
      assert Seen(late) == Seen(s);
      EndCallMeans(env, late, false);
      hide GoodbyeBegins, EndCall, TakeStep, FindNode;
    } else {
      var s1 := Visit(s, node.value);
      assert Enter(env, s, step) == TakeStep(env, s1, node.value) by { hide Visit, EndCall, TakeStep, FindNode; }
      VisitMeans(s, node.value);
      assert |s.log.visited| < 60 && Seen(s).visited == s.log.visited;
      hide Visit, Enter, TakeStep, Walks, Ready, Seen;
      if Passing(node.value) {
        PassingStep(env, s1, node.value);
        var next := NextNode(env.graph, node.value.id, PassesBy(env, node.value));
        EnterMeans(env, s1, next);
        NextIsLedTo(env, node.value, PassesBy(env, node.value));
        WalksOn(env, Seen(s), node.value, NodeOf(env, next), Enter(env, s1, next));
      } else {
        SeenParts();
        ActingStepMeans(env, s1, node.value);
        OneStep(env, Seen(s), node.value, TakeStep(env, s1, node.value));
      }
    }
  }

  lemma PassingStep(env: Env, s: Call, node: FlowNode)
    requires Passing(node)
    ensures TakeStep(env, s, node) == Enter(env, s, NextNode(env.graph, node.id, PassesBy(env, node)))
  {
    hide Enter, NextNode;
  }

  /** Following an output, or ending the call when it leads nowhere. */
  lemma FollowMeans(env: Env, s: Call, node: FlowNode, handle: Option<string>)
    requires Ready(s)
    ensures Follows(env, Seen(s), node, handle, FollowOrEnd(env, s, node.id, handle))
  {
    var next := NextNode(env.graph, node.id, handle);
    NextIsLedTo(env, node, handle);
    EnterMeans(env, s, next);
    EndCallMeans(env, s, false);
    hide Enter, EndCall, NextNode, LeadsTo, Leaves, TakenAtOnce, GoodbyeBegins, Seen, FindNode;
  }

  // ---- Menus ----

  /** A menu is open and the call goes on. */
  ghost predicate AtMenu(s: Call) { s.menu.Some? && Ready(LeaveMenu(s)) }

  lemma LeftSeen(s: Call)
    ensures Seen(LeaveMenu(s)) == Seen(s) && LeaveMenu(LeaveMenu(s)) == LeaveMenu(s)
  {
  }

  lemma OptionIsOffered(options: seq<MenuOption>, key: MenuKey)
    ensures FindOption(options, key).Some? <==> exists k :: 0 <= k < |options| && options[k].key == key
  {
    if options != [] {
      OptionIsOffered(options[1..], key);
      assert forall k :: 0 <= k < |options| - 1 ==> options[1..][k] == options[k + 1];
      if k :| 0 <= k < |options| && options[k].key == key {
        assert k > 0 ==> options[1..][k - 1].key == key;
      }
    }
  }

  lemma RetryMeans(env: Env, s: Call)
    requires AtMenu(s)
    ensures AskedAgain(env, Seen(s), s.menu.value, RetryMenu(env, s))
  {
    var m := s.menu.value;
    LeftSeen(s);
    RetryState(env, s);
    if m.misses < MenuRepeats(m.node) {
      OpenMenuMeans(LeaveMenu(s), m.node, m.misses + 1);
      SeenParts();
      hide LeaveMenu, OpenMenu, FollowOrEnd, Follows, Seen, Adds, RetryMenu;
    } else {
      FollowMeans(env, LeaveMenu(s), m.node, Some("no_input"));
      hide LeaveMenu, OpenMenu, FollowOrEnd, Follows, Seen, Adds, RetryMenu;
    }
  }

  lemma StaffLineIsFound(env: Env)
    ensures forall target :: StaffLine(env, target) <==> PressZeroTarget(env) == Some(target)
  {
  }

  lemma ChooseMeans(env: Env, s: Call, key: MenuKey)
    requires AtMenu(s)
    ensures Chosen(env, Seen(s), s.menu.value, key, Choose(env, s, key))
  {
    var m := s.menu.value;
    LeftSeen(s);
    ChooseState(env, s, key);
    OptionIsOffered(m.node.options, key);
    StaffLineIsFound(env);
    assert OutputOf(key) == KeyHandle(key);
    RetryMeans(env, s);
    hide Choose, LeaveMenu, FollowOrEnd, BeginTransfer, RetryMenu, Follows, TransferBegins, AskedAgain, Seen,
      FindOption, StaffLine, PressZeroTarget, KeyHandle, OutputOf, Ready;
    if Offers(m, key) {
      FollowMeans(env, LeaveMenu(s), m.node, Some(KeyHandle(key)));
    } else if key == '0' && PressZeroTarget(env).Some? {
      assert Ready(LeaveMenu(s));
      TransferFromMenu(env, s, PressZeroTarget(env));
    }
  }

  lemma TransferFromMenu(env: Env, s: Call, target: Option<Target>)
    requires AtMenu(s)
    ensures TransferBegins(env, Seen(s), FromMenu, target, BeginTransfer(env, LeaveMenu(s), FromMenu, target))
  {
    LeftSeen(s);
    hide LeaveMenu, BeginTransfer, TransferBegins, Seen;
    BeginTransferMeans(env, LeaveMenu(s), FromMenu, target);
  }

  // ---- Reachable states ----

  lemma CountedAndNew(env: Env, s: Call)
    requires Good(env, s) && Placed(env, s) && !s.ending
    ensures NewIds(s) && |s.log.visited| == s.stepCount <= MAX_STEPS_PER_CALL
  {
    assert IdsFit(s.tasks, s.timers, s.answer, s.nextId) by { hide Led, TimersOk, PromptsOk, CountsOk, VoicemailsOk; }
    assert s.stepCount > MAX_STEPS_PER_CALL ==> s.ending by { hide Led, TimersOk, PromptsOk, IdsOk, VoicemailsOk; }
    hide Good, IsPath, TasksPlaced, OpenPlaced;
  }

  lemma MenuIsReady(env: Env, s: Call)
    requires Good(env, s) && Placed(env, s) && s.menu.Some?
    ensures AtMenu(s) && !s.ending && !s.disposed && s.answer.None? && s.voicemail.None? && !s.inPreamble && !s.aiActive
  {
    Flags(env, s, None);
    Alone(env, s);
    CountedAndNew(env, s);
    MenuHolds(env, s);
    LeaveMenuKeeps(env, s, None);
    hide Good, Placed, Sound, Holders;
    CallTransfers.NotTransferring(env, LeaveMenu(s), FromMenu);
  }
}
