/** The steps a call takes form a path of its graph, along outputs that the steps really have. */
module CallWalk {
  import opened Options
  import opened CallFlow
  import opened CallEngine
  import opened Dialing
  import opened CallInvariants
  import opened CallSegments
  import opened CallSteps
  import opened CallWaiting
  import opened CallProgress
  import opened CallEvents
  import Text

  // ---- Paths ----

  /** The outputs by which a call may leave a step. */
  ghost predicate Allowed(env: Env, node: FlowNode, handle: Option<string>) {
    match node.kind
    case Start => handle == None
    case PlayMessage => handle == None
    case TextLink => handle == None
    case Voicemail => handle == None
    case HoursCheck => handle == Some(if env.isOpen then "open" else "closed")
    case KeypadMenu =>
      handle == Some("no_input")
      || exists k :: 0 <= k < |node.options| && handle == Some(KeyHandle(node.options[k].key))
    case TransferCall => handle == Some("no_answer")
    case AiAgent => false
    case HangUp => false
  }

  ghost predicate Leads(env: Env, from: FlowNode, to: FlowNode) {
    exists handle :: Allowed(env, from, handle) && NextNode(env.graph, from.id, handle) == Some(to.id)
  }

  /** The first step bears the start step's id; each later one is what an allowed output leads to. */
  ghost predicate IsPath(env: Env, visited: seq<FlowNode>) {
    && (forall k :: 0 <= k < |visited| ==> FindNode(env.graph.nodes, visited[k].id) == Some(visited[k]))
    && (visited != [] ==>
          var start := FindStart(env.graph.nodes);
          start.Some? && visited[0].id == start.value.id)
    && (forall k :: 0 <= k < |visited| - 1 ==> Leads(env, visited[k], visited[k + 1]))
  }

  // ---- Where the call is ----

  ghost function Last(s: Call): Option<FlowNode> {
    if s.log.visited == [] then None else Some(s.log.visited[|s.log.visited| - 1])
  }

  ghost predicate At(node: FlowNode, kinds: set<StepKind>, last: Option<FlowNode>) {
    last == Some(node) && node.kind in kinds
  }

  ghost predicate OriginPlaced(origin: Origin, last: Option<FlowNode>) {
    origin.FromStep? ==> At(origin.node, {TransferCall}, last)
  }

  /** Work that belongs to a step belongs to the last one taken. */
  ghost predicate TaskPlaced(t: Task, last: Option<FlowNode>) {
    && (t.Preamble? ==> last.None?)
    && (t.StepPause? ==> At(t.node, {PlayMessage, TextLink}, last))
    && (t.SavingVoicemail? || t.VoicemailNotice? ==> At(t.node, {Voicemail}, last))
    && (t.TransferDone? ==> OriginPlaced(t.origin, last))
    && (InTransfer(t) ==> OriginPlaced(TransferOf(t).origin, last))
  }

  ghost predicate TasksPlaced(tasks: map<Id, Task>, last: Option<FlowNode>) {
    forall i :: i in tasks ==> TaskPlaced(tasks[i], last)
  }

  ghost predicate OpenPlaced(
    menu: Option<MenuState>, voicemail: Option<VoicemailState>, answer: Option<Question>, last: Option<FlowNode>)
  {
    && (menu.Some? ==> At(menu.value.node, {KeypadMenu}, last))
    && (voicemail.Some? ==> At(voicemail.value.node, {Voicemail}, last))
    && (answer.Some? ==> TaskPlaced(Replied(answer.value.waiter, None), last))
  }

  ghost predicate Placed(env: Env, s: Call) {
    && IsPath(env, s.log.visited)
    && |s.log.visited| == StepsTaken(s)
    && (!s.started ==> s.log.visited == [])
    && TasksPlaced(s.tasks, Last(s))
    && OpenPlaced(s.menu, s.voicemail, s.answer, Last(s))
  }

  /** Nothing pending belongs to a step. */
  ghost predicate Free(s: Call) {
    && s.menu.None? && s.voicemail.None?
    && (s.answer.Some? ==> !Is(Driving, Replied(s.answer.value.waiter, None)))
    && (forall i :: i in s.tasks ==> !Is(Driving, s.tasks[i]))
  }

  lemma FreeWhenIdle(env: Env, s: Call)
    requires Sound(env, s, None) && Holders(s, None) == 0
    ensures Free(s)
  {
    assert IdsFit(s.tasks, s.timers, s.answer, s.nextId) by {
      hide Led, Holders, TimersOk, PromptsOk, CountsOk, VoicemailsOk;
    }
    hide Sound;
    var driving := Those(Pool(s), Driving);
    assert driving == {};
    if s.answer.Some? {
      assert s.answer.value.id !in driving;
    }
    forall i | i in s.tasks ensures !Is(Driving, s.tasks[i]) {
      assert i !in driving && Pool(s)[i] == s.tasks[i];
    }
  }

  /** What the walk may stand on moves only when a step is taken. */
  lemma Stays(env: Env, s: Call, s': Call)
    requires Placed(env, s) && s'.log.visited == s.log.visited && s'.started == s.started
    requires StepsTaken(s') == StepsTaken(s)
    requires TasksPlaced(s'.tasks, Last(s)) && OpenPlaced(s'.menu, s'.voicemail, s'.answer, Last(s))
    ensures Placed(env, s') && Last(s') == Last(s)
  {
  }

  lemma PlacedParts(env: Env, s: Call)
    requires Placed(env, s)
    ensures TasksPlaced(s.tasks, Last(s)) && OpenPlaced(s.menu, s.voicemail, s.answer, Last(s))
  {
  }

  lemma TaskAdded(tasks: map<Id, Task>, i: Id, t: Task, last: Option<FlowNode>)
    requires TasksPlaced(tasks, last) && TaskPlaced(t, last)
    ensures TasksPlaced(tasks[i := t], last)
  {
  }

  // ---- Segments that take no step ----

  lemma SpawnPlaced(env: Env, s: Call, t: Task)
    requires Placed(env, s) && TaskPlaced(t, Last(s))
    ensures Placed(env, Spawn(s, t)) && Last(Spawn(s, t)) == Last(s)
  {
    PlacedParts(env, s);
    TaskAdded(s.tasks, s.nextId, t, Last(s));
    hide Placed, TaskPlaced, TasksPlaced, OpenPlaced;
    Stays(env, s, Spawn(s, t));
  }

  lemma RetirePlaced(env: Env, s: Call, i: Id)
    requires Placed(env, s) && i in s.tasks
    ensures Placed(env, Retire(s, i)) && Last(Retire(s, i)) == Last(s) && TaskPlaced(s.tasks[i], Last(s))
  {
    PlacedParts(env, s);
    assert TasksPlaced(s.tasks - {i}, Last(s));
    hide Placed, TaskPlaced, OpenPlaced;
    Stays(env, s, Retire(s, i));
  }

  lemma SettlePlaced(env: Env, s: Call, reply: Option<Reply>)
    requires Placed(env, s)
    ensures Placed(env, Settle(s, reply)) && Last(Settle(s, reply)) == Last(s)
  {
    var s' := Settle(s, reply);
    PlacedParts(env, s);
    assert TasksPlaced(s'.tasks, Last(s)) && OpenPlaced(s'.menu, s'.voicemail, s'.answer, Last(s));
    hide Placed, TaskPlaced, TasksPlaced, OpenPlaced;
    Stays(env, s, s');
  }

  lemma AskPlaced(env: Env, s: Call, waiter: Waiter)
    requires Placed(env, s) && TaskPlaced(Replied(waiter, None), Last(s))
    ensures Placed(env, Ask(s, waiter)) && Last(Ask(s, waiter)) == Last(s)
  {
    var s1 := Settle(s, None);
    SettlePlaced(env, s, None);
    PlacedParts(env, s1);
    var s' := Ask(s, waiter);
    assert TasksPlaced(s'.tasks, Last(s)) && OpenPlaced(s'.menu, s'.voicemail, s'.answer, Last(s));
    hide Placed, TaskPlaced, TasksPlaced, OpenPlaced;
    Stays(env, s, s');
  }

  lemma QuestionPlayedPlaced(env: Env, s: Call, id: Id, spoken: bool)
    requires Placed(env, s)
    ensures Placed(env, QuestionPlayed(s, id, spoken))
  {
    SettlePlaced(env, s, None);
    hide Settle;
  }

  /** The menu closes or only its timer changes; the voicemail closes, or keeps its step. */
  lemma OpenStays(env: Env, s: Call, s': Call)
    requires Placed(env, s) && s'.log.visited == s.log.visited && s'.stepCount == s.stepCount && s'.started == s.started
    requires s'.tasks == s.tasks && s'.answer == s.answer
    requires s'.menu.Some? ==> s.menu.Some? && s'.menu.value.node == s.menu.value.node
    requires s'.voicemail.Some? ==> s.voicemail.Some? && s'.voicemail.value.node == s.voicemail.value.node
    ensures Placed(env, s') && Last(s') == Last(s)
  {
    hide IsPath, TasksPlaced;
  }

  lemma LeavePlaced(env: Env, s: Call)
    requires Placed(env, s)
    ensures Placed(env, LeaveMenu(s)) && Last(LeaveMenu(s)) == Last(s)
  {
    hide Placed;
    OpenStays(env, s, LeaveMenu(s));
  }

  lemma PartedPlaced(env: Env, s: Call)
    requires Placed(env, s)
    ensures Placed(env, Parted(s)) && Last(Parted(s)) == Last(s)
  {
    hide Placed;
    OpenStays(env, s, Parted(s));
  }

  lemma EndCallPlaced(env: Env, s: Call, survey: bool)
    requires Placed(env, s)
    ensures Placed(env, EndCall(env, s, survey))
  {
    var s2 := Parted(LeaveMenu(s));
    assert TaskPlaced(Goodbye, Last(s2)) && TaskPlaced(Replied(RatingQuestion, None), Last(s2));
    hide Placed, TaskPlaced, LeaveMenu, Parted, Ask, Spawn;
    LeavePlaced(env, s);
    PartedPlaced(env, LeaveMenu(s));
    AskPlaced(env, s2, RatingQuestion);
    SpawnPlaced(env, s2, Goodbye);
  }

  lemma FailPlaced(env: Env, s: Call)
    requires Placed(env, s)
    ensures Placed(env, Fail(env, s))
  {
    hide Placed, EndCall;
    OpenStays(env, s, s.(failed := true));
    EndCallPlaced(env, s.(failed := true), false);
  }

  // ---- Transfers ----

  lemma FinishPlaced(env: Env, s: Call, x: Transfer, outcome: Outcome)
    requires Placed(env, s) && OriginPlaced(x.origin, Last(s))
    ensures Placed(env, Finish(s, x, outcome))
  {
    var s1 := s.(transferring := false);
    assert TaskPlaced(TransferDone(x.origin, outcome), Last(s1));
    hide Placed, TaskPlaced;
    OpenStays(env, s, s1);
    SpawnPlaced(env, s1, TransferDone(x.origin, outcome));
  }

  /** Tasks of a transfer that are placed when its origin is. */
  lemma TransferTask(env: Env, s: Call, t: Task, x: Transfer)
    requires Placed(env, s) && OriginPlaced(x.origin, Last(s)) && InTransfer(t) && TransferOf(t) == x
    ensures TaskPlaced(t, Last(s)) && Placed(env, Spawn(s, t)) && Last(Spawn(s, t)) == Last(s)
  {
    assert TaskPlaced(t, Last(s));
    hide Placed, TaskPlaced, Spawn;
    SpawnPlaced(env, s, t);
  }

  lemma LoggedPlaced(env: Env, s: Call, log: Log)
    requires Placed(env, s) && log.visited == s.log.visited
    ensures Placed(env, s.(log := log)) && Last(s.(log := log)) == Last(s)
  {
    hide Placed;
    OpenStays(env, s, s.(log := log));
  }

  lemma AfterDialPlaced(env: Env, s: Call, x: Transfer, optIn: bool, result: DialResult)
    requires Placed(env, s) && OriginPlaced(x.origin, Last(s))
    ensures Placed(env, AfterDial(s, x, optIn, result))
  {
    var t := HoldTail(x, optIn, result);
    var log := s.log.(recordingStops := s.log.recordingStops + 1, answers := s.log.answers + 1);
    hide Placed, OriginPlaced, Spawn;
    TransferTask(env, s, t, x);
    LoggedPlaced(env, s, log);
    TransferTask(env, s.(log := log), t, x);
  }

  lemma DialPlaced(env: Env, s: Call, x: Transfer, optIn: bool, attempt: nat)
    requires Placed(env, s) && OriginPlaced(x.origin, Last(s))
    ensures Placed(env, DialOrGiveUp(env, s, x, optIn, attempt))
  {
    var t := Dialing(x, optIn, attempt);
    var s1 := Spawn(s, t);
    hide Placed, OriginPlaced, AfterDial, Attempts;
    AfterDialPlaced(env, s, x, optIn, NoAnswer);
    TransferTask(env, s, t, x);
    LoggedPlaced(env, s1, s.log.(dialed := s.log.dialed + [x.target.phone]));
  }

  lemma StartDialingPlaced(env: Env, s: Call, x: Transfer, optIn: bool)
    requires Placed(env, s) && OriginPlaced(x.origin, Last(s))
    ensures Placed(env, StartDialing(env, s, x, optIn))
  {
    hide Placed, OriginPlaced, DialOrGiveUp, Spawn;
    TransferTask(env, s, TestHold(x, optIn), x);
    TransferTask(env, s, ColdHold(x, optIn), x);
    DialPlaced(env, s, x, optIn, 0);
  }

  lemma BeginTransferPlaced(env: Env, s: Call, origin: Origin, target: Option<Target>)
    requires Placed(env, s) && OriginPlaced(origin, Last(s))
    ensures Placed(env, BeginTransfer(env, s, origin, target))
  {
    var s1 := s.(transferring := true);
    assert forall outcome :: TaskPlaced(TransferDone(origin, outcome), Last(s));
    hide Placed, Spawn, Ask, StartDialing, CanOfferText, OriginPlaced;
    OpenStays(env, s, s1);
    SpawnPlaced(env, s, TransferDone(origin, Ended));
    SpawnPlaced(env, s, TransferDone(origin, Unavailable));
    if target.Some? {
      var x := Transfer(origin, target.value);
      TransferTask(env, s1, Replied(TextOffer(x), None), x);
      AskPlaced(env, s1, TextOffer(x));
      StartDialingPlaced(env, s1, x, false);
    }
  }

  lemma JoinedPlaced(env: Env, s: Call)
    requires Placed(env, s)
    ensures Placed(env, Joined(s)) && Last(Joined(s)) == Last(s)
  {
    hide Placed;
    OpenStays(env, s, Joined(s));
  }

  lemma PostDialPlaced(env: Env, s: Call, x: Transfer, optIn: bool, result: DialResult)
    requires Placed(env, s) && OriginPlaced(x.origin, Last(s))
    ensures Placed(env, PostDial(s, x, optIn, result))
  {
    if s.ending {
      var s2, s3 := s.(log := s.log.(dropped := s.log.dropped + 1)), Spawn(s, ClearingRoom(x));
      EndedPostDialState(s, x, optIn, result);
      SpawnLog(s, ClearingRoom(x));
      hide Placed, OriginPlaced, PostDial, Spawn, Finish;
      TransferTask(env, s, ClearingRoom(x), x);
      LoggedPlaced(env, s3, s.log.(clears := s.log.clears + 1));
      LoggedPlaced(env, s, s2.log);
      FinishPlaced(env, s, x, Ended);
      FinishPlaced(env, s2, x, Ended);
    } else {
      var s1 := Joined(s);
      PostDialState(s, x, optIn, result);
      hide Placed, OriginPlaced, PostDial, Spawn, Finish, Joined;
      JoinedPlaced(env, s);
      TransferTask(env, s, NoAnswerNotice(x, optIn), x);
      TransferTask(env, s1, Connecting(x), x);
      FinishPlaced(env, s1, x, Connected);
    }
  }

  lemma StartTransferPlaced(env: Env, s: Call, origin: Origin, target: Target)
    requires Placed(env, s) && !origin.FromStep?
    ensures Placed(env, StartTransfer(env, s, origin, target))
  {
    hide Placed, LeaveMenu, BeginTransfer;
    LeavePlaced(env, s);
    BeginTransferPlaced(env, LeaveMenu(s), origin, Some(target));
  }

  // ---- Menus and voicemails ----

  lemma ArmMenuPlaced(env: Env, s: Call)
    requires Placed(env, s)
    ensures Placed(env, ArmMenuTimer(s))
  {
    hide Placed;
    OpenStays(env, s, ArmMenuTimer(s));
  }

  lemma StopMenuPlaced(env: Env, s: Call)
    requires Placed(env, s)
    ensures Placed(env, StopMenuTimer(s))
  {
    hide Placed;
    OpenStays(env, s, StopMenuTimer(s));
  }

  lemma ListenPlaced(env: Env, s: Call)
    requires Placed(env, s) && s.voicemail.Some?
    ensures Placed(env, Listen(s, s.voicemail.value))
  {
    hide Placed;
    OpenStays(env, s, Listen(s, s.voicemail.value));
  }

  lemma ArmVoicemailPlaced(env: Env, s: Call)
    requires Placed(env, s)
    ensures Placed(env, ArmVoicemailTimer(s))
  {
    hide Placed;
    OpenStays(env, s, ArmVoicemailTimer(s));
  }

  lemma StopVoicemailPlaced(env: Env, s: Call)
    requires Placed(env, s)
    ensures Placed(env, StopVoicemailTimer(s))
  {
    hide Placed;
    OpenStays(env, s, StopVoicemailTimer(s));
  }

  lemma OpenMenuPlaced(env: Env, s: Call, node: FlowNode, misses: nat)
    requires Placed(env, s) && At(node, {KeypadMenu}, Last(s))
    ensures Placed(env, OpenMenu(s, node, misses))
  {
    var s' := OpenMenu(s, node, misses);
    PlacedParts(env, s);
    TaskAdded(s.tasks, s.nextId, MenuPrompt(s.menuToken + 1), Last(s));
    assert OpenPlaced(s'.menu, s'.voicemail, s'.answer, Last(s));
    hide Placed, TasksPlaced, OpenPlaced;
    Stays(env, s, s');
  }

  lemma StartVoicemailPlaced(env: Env, s: Call, node: FlowNode)
    requires Placed(env, s) && At(node, {Voicemail}, Last(s))
    ensures Placed(env, StartVoicemail(s, node))
  {
    var s' := StartVoicemail(s, node);
    PlacedParts(env, s);
    TaskAdded(s.tasks, s.nextId + 1, VoicemailPrompt(s.nextId), Last(s));
    assert OpenPlaced(s'.menu, s'.voicemail, s'.answer, Last(s));
    hide Placed, TasksPlaced, OpenPlaced;
    Stays(env, s, s');
  }

  lemma TakePlaced(env: Env, s: Call)
    requires Placed(env, s)
    ensures Placed(env, TakeVoicemail(s)) && Last(TakeVoicemail(s)) == Last(s)
  {
    hide Placed, Message;
    OpenStays(env, s, TakeVoicemail(s));
  }

  lemma FinishVoicemailPlaced(env: Env, s: Call)
    requires Placed(env, s)
    ensures Placed(env, FinishVoicemail(s)) && Placed(env, FlushVoicemail(s))
  {
    var s1 := TakeVoicemail(s);
    if s.voicemail.Some? {
      var node := s.voicemail.value.node;
      PlacedParts(env, s);
      TakePlaced(env, s);
      assert TaskPlaced(VoicemailNotice(node), Last(s1)) && TaskPlaced(SavingVoicemail(node), Last(s1));
      assert TaskPlaced(FlushSave, Last(s1));
      hide Placed, TaskPlaced, Spawn, TakeVoicemail, Message;
      SpawnPlaced(env, s1, VoicemailNotice(node));
      SpawnPlaced(env, s1, SavingVoicemail(node));
      SpawnPlaced(env, s1, FlushSave);
    }
  }

  // ---- Steps ----

  /** The step the walk may go to next. */
  ghost predicate Next(env: Env, s: Call, step: string) {
    match Last(s)
    case None => FindStart(env.graph.nodes).Some? && step == FindStart(env.graph.nodes).value.id
    case Some(node) => exists handle :: Allowed(env, node, handle) && NextNode(env.graph, node.id, handle) == Some(step)
  }

  lemma PathGrows(env: Env, visited: seq<FlowNode>, node: FlowNode)
    requires IsPath(env, visited) && FindNode(env.graph.nodes, node.id) == Some(node)
    requires
      if visited == [] then FindStart(env.graph.nodes).Some? && node.id == FindStart(env.graph.nodes).value.id
      else Leads(env, visited[|visited| - 1], node)
    ensures IsPath(env, visited + [node])
  {
    hide Leads, FindNode, FindStart;
  }

  lemma VisitPlaced(env: Env, s: Call, step: string)
    requires Placed(env, s) && Free(s) && s.started && s.stepCount < MAX_STEPS_PER_CALL && Next(env, s, step)
    requires FindNode(env.graph.nodes, step).Some?
    ensures
      var node := FindNode(env.graph.nodes, step).value;
      Placed(env, Visit(s, node)) && Last(Visit(s, node)) == Some(node)
  {
    var node := FindNode(env.graph.nodes, step).value;
    var s' := Visit(s, node);
    assert node.id == step;
    if s.log.visited != [] { assert Leads(env, s.log.visited[|s.log.visited| - 1], node); }
    PathGrows(env, s.log.visited, node);
    assert s'.log.visited == s.log.visited + [node];
    hide IsPath, FindNode, FindStart;
    assert TasksPlaced(s'.tasks, Last(s'));
  }

  lemma HandleLeads(env: Env, s: Call, node: FlowNode, handle: Option<string>)
    requires Last(s) == Some(node) && Allowed(env, node, handle)
    ensures
      var next := NextNode(env.graph, node.id, handle);
      next.Some? ==> Next(env, s, next.value)
  {
  }

  lemma {:induction false} EnterPlaced(env: Env, s: Call, step: Option<string>)
    requires Placed(env, s) && (s.ending || Free(s)) && s.started && (step.Some? ==> Next(env, s, step.value))
    ensures Placed(env, Enter(env, s, step))
    decreases MAX_STEPS_PER_CALL - s.stepCount, 0
  {
    hide Placed, EndCall, TakeStep, FindNode, Next, Last;
    var node := if step.None? then None else FindNode(env.graph.nodes, step.value);
    if s.ending {
    } else if node.None? {
      EndCallPlaced(env, s, false);
    } else if s.stepCount + 1 > MAX_STEPS_PER_CALL {
      var s1 := s.(stepCount := s.stepCount + 1);
      CountedPlaced(env, s);
      EndCallPlaced(env, s1, false);
    } else {
      var s1 := Visit(s, node.value);
      VisitPlaced(env, s, step.value);
      StillFree(s, node.value);
      TakeStepPlaced(env, s1, node.value);
      assert Enter(env, s, step) == TakeStep(env, s1, node.value);
    }
  }

  lemma StillFree(s: Call, node: FlowNode)
    requires Free(s)
    ensures Free(Visit(s, node)) && Visit(s, node).started == s.started
  {
    hide Is;
  }

  lemma CountedPlaced(env: Env, s: Call)
    requires Placed(env, s) && s.stepCount >= MAX_STEPS_PER_CALL
    ensures Placed(env, s.(stepCount := s.stepCount + 1))
  {
    PlacedParts(env, s);
    hide Placed;
    Stays(env, s, s.(stepCount := s.stepCount + 1));
  }

  lemma {:induction false} TakeStepPlaced(env: Env, s: Call, node: FlowNode)
    requires Placed(env, s) && Free(s) && s.started && Last(s) == Some(node)
    ensures Placed(env, TakeStep(env, s, node))
    decreases MAX_STEPS_PER_CALL - s.stepCount, 1
  {
    hide Placed, Free, Enter, EndCall, OpenMenu, BeginTransfer, StartVoicemail, StartAssistant, Spawn, StepTarget,
      NextNode, Last, Next;
    match node.kind
    case Start =>
      HandleLeads(env, s, node, None);
      EnterPlaced(env, s, NextNode(env.graph, node.id, None));
    case HoursCheck =>
      var handle := Some(if env.isOpen then "open" else "closed");
      HandleLeads(env, s, node, handle);
      EnterPlaced(env, s, NextNode(env.graph, node.id, handle));
    case PlayMessage => SpawnPlaced(env, s, StepPause(node, false));
    case KeypadMenu => OpenMenuPlaced(env, s, node, 0);
    case TextLink =>
      SpawnPlaced(env, s, StepPause(node, (env.hasCallerPhone || env.testCall) && s.textsSent < MAX_TEXTS_PER_CALL));
    case TransferCall => BeginTransferPlaced(env, s, FromStep(node), StepTarget(env, node));
    case Voicemail => StartVoicemailPlaced(env, s, node);
    case AiAgent => AssistantPlaced(env, s);
    case HangUp => EndCallPlaced(env, s, true);
  }

  lemma AssistantPlaced(env: Env, s: Call)
    requires Placed(env, s)
    ensures Placed(env, StartAssistant(env, s))
  {
    var s1 := s.(aiActive := true);
    hide Placed, Fail;
    OpenStays(env, s, s1);
    FailPlaced(env, s1);
  }

  lemma FollowPlaced(env: Env, s: Call, node: FlowNode, handle: Option<string>)
    requires Placed(env, s) && (s.ending || Free(s)) && s.started && Last(s) == Some(node) && Allowed(env, node, handle)
    ensures Placed(env, FollowOrEnd(env, s, node.id, handle))
  {
    hide Placed, Free, Enter, EndCall, NextNode, Allowed, Next;
    HandleLeads(env, s, node, handle);
    EnterPlaced(env, s, NextNode(env.graph, node.id, handle));
    EndCallPlaced(env, s, false);
  }

  /** A placed call that has taken a step, or whose flow has a holder, has begun. */
  lemma HeldHasStarted(env: Env, s: Call)
    requires Good(env, s) && Holders(s, None) > 0
    ensures s.started
  {
    hide Sound, Holders;
  }

  lemma MenuLeft(env: Env, s: Call)
    requires Good(env, s) && Placed(env, s) && s.menu.Some?
    ensures
      var s1 := LeaveMenu(s);
      && Placed(env, s1) && Free(s1) && s1.started && !s1.ending
      && At(s.menu.value.node, {KeypadMenu}, Last(s1)) && s1.ending == s.ending
  {
    PlacedParts(env, s);
    Flags(env, s, None);
    MenuHolds(env, s);
    HeldHasStarted(env, s);
    assert LeaveMenu(s).started == s.started && LeaveMenu(s).ending == s.ending;
    hide Sound, Placed, Holders, LeaveMenu;
    LeavePlaced(env, s);
    LeaveMenuKeeps(env, s, None);
    FreeWhenIdle(env, LeaveMenu(s));
  }

  lemma NoInputAllowed(env: Env, node: FlowNode)
    requires node.kind == KeypadMenu
    ensures Allowed(env, node, Some("no_input"))
  {
  }

  lemma NothingToRetry(env: Env, s: Call)
    requires s.menu.None?
    ensures RetryMenu(env, s) == s
  {
  }

  lemma RetryPlaced(env: Env, s: Call)
    requires Good(env, s) && Placed(env, s)
    ensures Placed(env, RetryMenu(env, s))
  {
    if s.menu.Some? {
      hide Placed, Good, Free, LeaveMenu, FollowOrEnd, OpenMenu, RetryMenu, MenuRepeats, Allowed, Last;
      var m, s1 := s.menu.value, LeaveMenu(s);
      RetryState(env, s);
      MenuLeft(env, s);
      NoInputAllowed(env, m.node);
      OpenMenuPlaced(env, s1, m.node, m.misses + 1);
      FollowPlaced(env, s1, m.node, Some("no_input"));
    } else {
      NothingToRetry(env, s);
    }
  }

  lemma OptionAllowed(env: Env, node: FlowNode, key: MenuKey)
    requires node.kind == KeypadMenu && FindOption(node.options, key).Some?
    ensures Allowed(env, node, Some(KeyHandle(key)))
  {
    var o := FindOption(node.options, key).value;
    assert o in node.options;
    var k :| 0 <= k < |node.options| && node.options[k] == o;
    hide KeyHandle;
  }

  lemma ChoosePlaced(env: Env, s: Call, key: MenuKey)
    requires Good(env, s) && Placed(env, s)
    ensures Placed(env, Choose(env, s, key))
  {
    if s.menu.Some? {
      var m, s1 := s.menu.value, LeaveMenu(s);
      ChooseState(env, s, key);
      MenuLeft(env, s);
      RetryPlaced(env, s);
      hide Placed, Good, Free, LeaveMenu, FollowOrEnd, BeginTransfer, RetryMenu, Choose, PressZeroTarget, FindOption,
        KeyHandle;
      if FindOption(m.node.options, key).Some? {
        OptionAllowed(env, m.node, key);
        FollowPlaced(env, s1, m.node, Some(KeyHandle(key)));
      }
      BeginTransferPlaced(env, s1, FromMenu, if key == '0' then PressZeroTarget(env) else None);
    }
  }

  // ---- Events ----

  lemma KeypadPlaced(env: Env, s: Call, key: MenuKey)
    requires Good(env, s) && Placed(env, s)
    ensures Placed(env, OnKeypad(env, s, key))
  {
    hide Placed, Good, Settle, FinishVoicemail, StartTransfer, Choose, PressZeroTarget;
    SettlePlaced(env, s, Some(KeyReply(key)));
    FinishVoicemailPlaced(env, s);
    ChoosePlaced(env, s, key);
    var staff := PressZeroTarget(env);
    if staff.Some? { StartTransferPlaced(env, s, FromAssistant, staff.value); }
  }

  lemma HearPlaced(env: Env, s: Call, v: VoicemailState, spoken: string)
    requires Placed(env, s) && s.voicemail == Some(v)
    ensures
      var s1 := s.(
        voicemail := Some(v.(parts := v.parts + [spoken])),
        log := s.log.(heard := s.log.heard[v.id := v.parts + [spoken]]));
      Placed(env, s1) && Placed(env, ArmVoicemailTimer(s1))
  {
    var s1 := s.(
      voicemail := Some(v.(parts := v.parts + [spoken])),
      log := s.log.(heard := s.log.heard[v.id := v.parts + [spoken]]));
    hide Placed, ArmVoicemailTimer;
    OpenStays(env, s, s1);
    ArmVoicemailPlaced(env, s1);
  }

  lemma SpeechPlaced(env: Env, s: Call, text: string)
    requires Good(env, s) && Placed(env, s)
    ensures Placed(env, OnCallerSpeech(env, s, text))
  {
    var spoken := Text.Trim(text);
    if s.voicemail.Some? { HearPlaced(env, s, s.voicemail.value, spoken); }
    hide Placed, Good, Settle, Choose, RetryMenu, ArmVoicemailTimer, Text.Trim;
    SettlePlaced(env, s, Some(TextReply(spoken)));
    RetryPlaced(env, s);
    if s.menu.Some? {
      var key := env.matchMenuChoice(s.menu.value.node.options, spoken);
      if key.Some? { ChoosePlaced(env, s, key.value); }
    }
  }

  lemma SpeakingPlaced(env: Env, s: Call, speaking: bool)
    requires Placed(env, s)
    ensures Placed(env, s.(speaking := speaking))
  {
    hide Placed;
    OpenStays(env, s, s.(speaking := speaking));
  }

  lemma StartedPlaced(env: Env, s: Call)
    requires Placed(env, s)
    ensures Placed(env, OnCallerStartedSpeaking(s))
  {
    var s0 := s.(speaking := true);
    hide Placed, StopMenuTimer, StopVoicemailTimer;
    SpeakingPlaced(env, s, true);
    StopMenuPlaced(env, s0);
    StopVoicemailPlaced(env, StopMenuTimer(s0));
  }

  lemma StoppedPlaced(env: Env, s: Call)
    requires Placed(env, s) && (s.menu.Some? ==> s.voicemail.None?)
    ensures Placed(env, OnCallerStoppedSpeaking(s))
  {
    StoppedState(s);
    hide Placed, OnCallerStoppedSpeaking, ArmMenuTimer, ArmVoicemailTimer;
    if s.ending {
      SpeakingPlaced(env, s, false);
    } else if s.menu.Some? && s.menu.value.timer.None? {
      ArmMenuPlaced(env, s);
      SpeakingPlaced(env, ArmMenuTimer(s), false);
    } else if s.voicemail.Some? && s.voicemail.value.listening && s.voicemail.value.timer.None? {
      ArmVoicemailPlaced(env, s);
      SpeakingPlaced(env, ArmVoicemailTimer(s), false);
    } else {
      SpeakingPlaced(env, s, false);
    }
  }

  lemma BeginPlaced(env: Env, s: Call)
    requires Placed(env, s)
    ensures Placed(env, Begin(s))
  {
    if !s.started {
      var s1 := s.(started := true, inPreamble := true);
      assert Last(s) == None && Placed(env, s1) by { hide IsPath, TasksPlaced, OpenPlaced; }
      hide Placed;
      SpawnPlaced(env, s1, Preamble);
    }
  }

  lemma DisposePlaced(env: Env, s: Call)
    requires Placed(env, s)
    ensures Placed(env, Dispose(s))
  {
    var s1 := Settle(s, None);
    SettlePlaced(env, s, None);
    hide Placed, Settle;
    if !s.disposed { OpenStays(env, s1, Dispose(s)); }
  }

  lemma ToolsPlaced(env: Env, s: Call, caseId: Option<string>)
    requires Placed(env, s)
    ensures Placed(env, ToolEndCall(env, s)) && Placed(env, ToolTransfer(env, s, caseId))
  {
    hide Placed, EndCall, StartTransfer;
    EndCallPlaced(env, s, true);
    var target := env.resolveTransfer(caseId);
    if target.Some? { StartTransferPlaced(env, s, FromAssistant, target.value); }
  }

  lemma GracePlaced(env: Env, s: Call)
    requires Placed(env, s)
    ensures Placed(env, Fire(env, s, HangUpGrace))
  {
    assert TaskPlaced(HangUpNow, Last(GraceOver(s)));
    hide Placed, TaskPlaced, Spawn, GraceOver;
    GraceStays(env, s);
    SpawnPlaced(env, GraceOver(s), HangUpNow);
  }

  lemma GraceStays(env: Env, s: Call)
    requires Placed(env, s)
    ensures Placed(env, GraceOver(s))
  {
    hide Placed;
    OpenStays(env, s, GraceOver(s));
  }

  lemma LimitFirePlaced(env: Env, s: Call)
    requires Placed(env, s)
    ensures Placed(env, Fire(env, s, CallLimit))
  {
    hide Placed, EndCall;
    EndCallPlaced(env, s, false);
  }

  lemma FirePlaced(env: Env, s: Call, id: Id)
    requires Good(env, s) && Placed(env, s) && id in s.timers
    ensures Placed(env, Fire(env, s.(timers := s.timers - {id}), s.timers[id]))
  {
    var s1, timer := s.(timers := s.timers - {id}), s.timers[id];
    TimerKept(env, s, id);
    OwnTimerFires(env, s, id);
    OpenStays(env, s, s1);
    if timer == HangUpGrace {
      hide Fire, Placed;
      GracePlaced(env, s1);
    } else if timer == CallLimit {
      hide Fire, Placed;
      LimitFirePlaced(env, s1);
    } else {
      hide Placed, Good, TimersOk, LeaveMenu, TakeVoicemail, Settle, EndCall, RetryMenu, FinishVoicemail, Spawn,
        GraceOver;
      OwnFirePlaced(env, s, s1, timer);
    }
  }

  lemma OwnFirePlaced(env: Env, s: Call, s1: Call, timer: Timer)
    requires Good(env, s) && Placed(env, s) && timer != HangUpGrace && timer != CallLimit
    requires s1 == s.(timers := s1.timers)
    requires timer.MenuWait? ==> s.menu.Some? && LeaveMenu(s1) == LeaveMenu(s)
    requires timer.VoicemailSilence? || timer.VoicemailMax? ==>
               s.voicemail.Some? && TakeVoicemail(s1) == TakeVoicemail(s)
    requires timer.AnswerWait? ==>
               s.answer.Some? && s.answer.value.id == timer.id && Settle(s1, None) == Settle(s, None)
    ensures Placed(env, Fire(env, s1, timer))
  {
    hide Placed, Good, LeaveMenu, TakeVoicemail, Settle, EndCall, RetryMenu, FinishVoicemail, Spawn, GraceOver;
    match timer {
      case MenuWait(_) =>
        RetryFires(env, s, s1);
        RetryPlaced(env, s);
      case AnswerWait(_) => SettlePlaced(env, s, None);
      case _ =>
        FinishFires(env, s, s1);
        FinishVoicemailPlaced(env, s);
    }
  }

  // ---- After an await ----

  /** Where a task that drives the flow resumes, nothing else belongs to a step. */
  lemma AloneWhenResumed(env: Env, s: Call, i: Id)
    requires Good(env, s) && i in s.tasks && Is(Driving, s.tasks[i])
    requires !s.tasks[i].MenuPrompt? && !s.tasks[i].VoicemailPrompt?
    ensures Free(Retire(s, i)) && s.started
  {
    RetireKeeps(env, s, i);
    AloneInHand(env, Retire(s, i), s.tasks[i]);
    HeldHasStarted(env, s);
  }

  lemma AloneInHand(env: Env, s: Call, t: Task)
    requires Sound(env, s, Some(t)) && Is(Driving, t)
    ensures Free(s) && Holders(s, Some(t)) == 1
  {
    assert IdsFit(s.tasks, s.timers, s.answer, s.nextId) by { hide Led, TimersOk, PromptsOk, CountsOk, VoicemailsOk; }
    assert Count(Pool(s), Driving) == 0 && s.menu.None? && s.voicemail.None? && Holders(s, Some(t)) == 1 by {
      hide Kept, TransfersOk, EndingOk, StaffOk, Count, Pool;
    }
    hide Sound;
    var driving := Those(Pool(s), Driving);
    assert driving == {};
    if s.answer.Some? { assert s.answer.value.id !in driving; }
    forall j | j in s.tasks ensures !Is(Driving, s.tasks[j]) {
      assert j !in driving && Pool(s)[j] == s.tasks[j];
    }
  }

  lemma PauseAllowed(env: Env, t: Task, last: Option<FlowNode>)
    requires t.StepPause? && TaskPlaced(t, last)
    ensures Allowed(env, t.node, None) && last == Some(t.node)
  {
  }

  lemma TextedFree(s: Call, ok: bool)
    requires Free(s)
    ensures Free(Texted(s, ok)) && Texted(s, ok).started == s.started
  {
    hide Is;
  }

  lemma PausePlaced(env: Env, s: Call, t: Task, r: Result)
    requires Placed(env, s) && Free(s) && s.started && t.StepPause? && TaskPlaced(t, Last(s))
    ensures Placed(env, Resume(env, s, t, r))
  {
    var sent := Texted(s, t.texting && r.ok);
    PauseAllowed(env, t, Last(s));
    TextedFree(s, t.texting && r.ok);
    PauseState(env, s, t, r);
    hide Placed, Free, Enter, NextNode, Allowed, Next, Resume, Texted, Last, TaskPlaced;
    TextedPlaced(env, s, t.texting && r.ok);
    HandleLeads(env, sent, t.node, None);
    EnterPlaced(env, sent, NextNode(env.graph, t.node.id, None));
  }

  lemma NoticePlaced(env: Env, s: Call, r: Result)
    requires Placed(env, s) && Free(s) && s.started && TaskPlaced(Preamble, Last(s))
    ensures Placed(env, Resume(env, s, Preamble, r))
  {
    var s1 := s.(inPreamble := false);
    assert Free(s1) && Last(s1) == None;
    hide Placed, Free, Enter, Fail;
    OpenStays(env, s, s1);
    FailPlaced(env, s1);
    var start := FindStart(env.graph.nodes);
    if start.Some? { EnterPlaced(env, s1, Some(start.value.id)); }
  }

  lemma FlowTaskPlaced(env: Env, s: Call, t: Task, r: Result)
    requires Placed(env, s) && Free(s) && s.started && TaskPlaced(t, Last(s))
    requires t.VoicemailNotice? || (t.TransferDone? && t.origin.FromStep?)
    ensures Placed(env, Resume(env, s, t, r))
  {
    hide Placed, Free, Enter, FollowOrEnd, EndCall, NextNode, Next;
    if t.VoicemailNotice? {
      FollowPlaced(env, s, t.node, None);
    } else {
      HandleLeads(env, s, t.origin.node, Some("no_answer"));
      EnterPlaced(env, s, NextNode(env.graph, t.origin.node.id, Some("no_answer")));
    }
  }

  lemma RingPlaced(env: Env, s: Call, t: Task, r: Result)
    requires Placed(env, s) && TaskPlaced(t, Last(s)) && (t.TestHold? || t.ColdHold? || t.Dialing? || t.HoldTail?)
    ensures Placed(env, Resume(env, s, t, r))
  {
    assert OriginPlaced(t.x.origin, Last(s));
    RingState(env, s, t, r);
    hide Placed, OriginPlaced, TaskPlaced, PostDial, DialOrGiveUp, AfterDial, Resume;
    if t.Dialing? {
      DialPlaced(env, s, t.x, t.optIn, t.attempt + 1);
      AfterDialPlaced(env, s, t.x, t.optIn, r.dial);
    } else if t.ColdHold? {
      DialPlaced(env, s, t.x, t.optIn, 0);
    } else {
      PostDialPlaced(env, s, t.x, t.optIn, if t.HoldTail? then t.result else NoAnswer);
    }
  }

  lemma MissedPlaced(env: Env, s: Call, t: Task, r: Result)
    requires Placed(env, s) && TaskPlaced(t, Last(s)) && (t.NoAnswerNotice? || t.FollowUp?)
    ensures Placed(env, Resume(env, s, t, r))
  {
    assert OriginPlaced(t.x.origin, Last(s));
    MissedState(env, s, t, r);
    hide Placed, OriginPlaced, TaskPlaced, Spawn, Finish, Resume;
    TransferTask(env, s, FollowUp(t.x), t.x);
    TextedPlaced(env, s, r.ok);
    FinishPlaced(env, s, t.x, if s.ending then Ended else Unavailable);
    FinishPlaced(env, Texted(s, r.ok), t.x, if s.ending then Ended else Unavailable);
  }

  lemma MissedState(env: Env, s: Call, t: Task, r: Result)
    requires t.NoAnswerNotice? || t.FollowUp?
    ensures
      var outcome := if s.ending then Ended else Unavailable;
      Resume(env, s, t, r) ==
      if t.FollowUp? then Finish(Texted(s, r.ok), t.x, outcome)
      else if t.optIn then Spawn(s, FollowUp(t.x)) else Finish(s, t.x, outcome)
  {
    if t.FollowUp? { FollowUpState(env, s, t.x, r); }
    hide Spawn, Finish, Texted;
  }

  lemma TextedPlaced(env: Env, s: Call, ok: bool)
    requires Placed(env, s)
    ensures Placed(env, Texted(s, ok)) && Last(Texted(s, ok)) == Last(s)
  {
    hide Placed;
    OpenStays(env, s, Texted(s, ok));
  }

  lemma OfferPlaced(env: Env, s: Call, t: Task, r: Result)
    requires Placed(env, s) && TaskPlaced(t, Last(s)) && t.Replied? && t.waiter.TextOffer?
    ensures Placed(env, Resume(env, s, t, r))
  {
    assert OriginPlaced(t.waiter.x.origin, Last(s));
    hide Placed, OriginPlaced, TaskPlaced, StartDialing, Finish;
    FinishPlaced(env, s, t.waiter.x, Ended);
    StartDialingPlaced(env, s, t.waiter.x, t.reply.Some? && env.parseYes(t.reply.value));
  }

  lemma LeavingPlaced(env: Env, s: Call, t: Task, r: Result)
    requires Placed(env, s) && TaskPlaced(t, Last(s)) && (t.Connecting? || t.Leaving? || t.ClearingRoom?)
    ensures Placed(env, Resume(env, s, t, r))
  {
    assert OriginPlaced(t.x.origin, Last(s));
    LeavingState(env, s, t, r);
    SpawnLog(s, Leaving(t.x));
    hide Placed, OriginPlaced, TaskPlaced, Spawn, Finish, Resume;
    TransferTask(env, s, Leaving(t.x), t.x);
    LoggedPlaced(env, Spawn(s, Leaving(t.x)), s.log.(leaves := s.log.leaves + 1));
    FinishPlaced(env, s, t.x, if t.Leaving? then Outcome.Connected else Ended);
  }

  lemma PromptPlaced(env: Env, s: Call, t: Task, r: Result)
    requires Placed(env, s) && (t.MenuPrompt? || t.VoicemailPrompt?)
    ensures Placed(env, Resume(env, s, t, r))
  {
    hide Placed, ArmMenuTimer, ArmVoicemailTimer, Listen;
    ArmMenuPlaced(env, s);
    if s.voicemail.Some? {
      ListenPlaced(env, s);
      ArmVoicemailPlaced(env, Listen(s, s.voicemail.value));
    }
  }

  lemma RatedPlaced(env: Env, s: Call, rating: Option<nat>)
    requires Placed(env, s)
    ensures Placed(env, s.(rating := rating)) && Last(s.(rating := rating)) == Last(s)
  {
    hide Placed;
    OpenStays(env, s, s.(rating := rating));
  }

  lemma RatingPlaced(env: Env, s: Call, t: Task, r: Result)
    requires Placed(env, s) && ((t.Replied? && t.waiter.RatingQuestion?) || t.RatingThanks?)
    ensures Placed(env, Resume(env, s, t, r))
  {
    RatingState(env, s, t, r);
    var rating := if t.Replied? && t.reply.Some? then env.parseRating(t.reply.value) else None;
    assert TaskPlaced(Goodbye, Last(s)) && TaskPlaced(RatingThanks, Last(s));
    hide Placed, TaskPlaced, Spawn, Resume, Last;
    if rating.None? {
      SpawnPlaced(env, s, Goodbye);
    } else {
      RatedPlaced(env, s, rating);
      SpawnPlaced(env, s.(rating := rating), RatingThanks);
    }
  }

  lemma SavingPlaced(env: Env, s: Call, t: Task, r: Result)
    requires Placed(env, s) && TaskPlaced(t, Last(s)) && t.SavingVoicemail?
    ensures Placed(env, Resume(env, s, t, r))
  {
    assert TaskPlaced(VoicemailNotice(t.node), Last(s));
    hide Placed, TaskPlaced, Spawn, Last;
    SpawnPlaced(env, s, VoicemailNotice(t.node));
  }

  lemma GracePending(env: Env, s: Call)
    requires Placed(env, s)
    ensures Placed(env, SetTimer(s, HangUpGrace))
  {
    hide Placed;
    OpenStays(env, s, SetTimer(s, HangUpGrace));
  }

  lemma OtherPlaced(env: Env, s: Call, t: Task, r: Result)
    requires Placed(env, s) && TaskPlaced(t, Last(s))
    requires
      || t.SavingVoicemail? || t.FlushSave? || t.Goodbye? || t.HangUpNow?
      || (t.TransferDone? && !t.origin.FromStep?)
    ensures Placed(env, Resume(env, s, t, r))
  {
    if t.SavingVoicemail? {
      hide Placed, Resume, TaskPlaced, Last;
      SavingPlaced(env, s, t, r);
    } else {
      hide Placed, TaskPlaced, Spawn, EndCall, SetTimer, Last, Enter;
      if t.Goodbye? {
        GracePending(env, s);
      } else if t.HangUpNow? {
        LoggedPlaced(env, s, s.log.(hangUps := s.log.hangUps + 1));
      } else if t.TransferDone? {
        EndCallPlaced(env, s, false);
      }
    }
  }

  lemma ResumePlaced(env: Env, s: Call, i: Id, r: Result)
    requires Good(env, s) && Placed(env, s) && i in s.tasks
    ensures Placed(env, Resume(env, Retire(s, i), s.tasks[i], r))
  {
    var s1, t := Retire(s, i), s.tasks[i];
    RetirePlaced(env, s, i);
    assert s1.started == s.started;
    hide Good, Placed, Free, TaskPlaced, Resume, Retire, Last;
    if t.Preamble? || t.StepPause? || t.VoicemailNotice? || (t.TransferDone? && t.origin.FromStep?) {
      AloneWhenResumed(env, s, i);
      if t.Preamble? { NoticePlaced(env, s1, r); }
      else if t.StepPause? { PausePlaced(env, s1, t, r); }
      else { FlowTaskPlaced(env, s1, t, r); }
    } else if t.TestHold? || t.ColdHold? || t.Dialing? || t.HoldTail? {
      RingPlaced(env, s1, t, r);
    } else if t.NoAnswerNotice? || t.FollowUp? {
      MissedPlaced(env, s1, t, r);
    } else if t.Connecting? || t.Leaving? || t.ClearingRoom? {
      LeavingPlaced(env, s1, t, r);
    } else if t.MenuPrompt? || t.VoicemailPrompt? {
      PromptPlaced(env, s1, t, r);
    } else if t.Replied? && t.waiter.TextOffer? {
      OfferPlaced(env, s1, t, r);
    } else if t.Replied? || t.RatingThanks? {
      RatingPlaced(env, s1, t, r);
    } else {
      OtherPlaced(env, s1, t, r);
    }
  }

  // ---- Every run ----

  lemma TimerPlaced(env: Env, s: Call, id: Id)
    requires Good(env, s) && Placed(env, s) && id in s.timers
    ensures Placed(env, Step(env, s, TimerFires(id)))
  {
    hide Good, Placed, Step, Fire;
    StepFires(env, s, id);
    OpenStays(env, s, s.(timers := s.timers - {id}));
    FirePlaced(env, s, id);
  }

  lemma NothingFires(env: Env, s: Call, e: Event)
    requires (e.TimerFires? && e.id !in s.timers) || (e.Resumes? && e.id !in s.tasks)
    ensures Step(env, s, e) == s
  {
  }

  lemma EventPlaced(env: Env, s: Call, e: Event)
    requires Good(env, s) && Placed(env, s) && !e.TimerFires? && !e.Resumes?
    ensures Placed(env, Step(env, s, e))
  {
    Flags(env, s, None);
    hide Good, Placed, OnKeypad, OnCallerSpeech, OnCallerStartedSpeaking, OnCallerStoppedSpeaking, Resume, Retire, Fire,
      QuestionPlayed, ToolEndCall, ToolTransfer, Dispose, FlushVoicemail, Begin, Settle, SetTimer, Text.Trim;
    match e {
      case BeginCall => BeginPlaced(env, s);
      case StartCallLimit => LimitPlaced(env, s);
      case Keypad(key) => KeypadPlaced(env, s, key);
      case CallerSpeech(text) => SpeechPlaced(env, s, text);
      case AssistantTurn(text) => SettlePlaced(env, s, Some(TextReply(Text.Trim(text))));
      case CallerStarted => StartedPlaced(env, s);
      case CallerStopped => StoppedPlaced(env, s);
      case Played(id, spoken) => QuestionPlayedPlaced(env, s, id, spoken);
      case EndCallTool => ToolsPlaced(env, s, None);
      case TransferTool(caseId) => ToolsPlaced(env, s, caseId);
      case Disposed => DisposePlaced(env, s);
      case Flushed => FinishVoicemailPlaced(env, s);
    }
  }

  lemma LimitPlaced(env: Env, s: Call)
    requires Placed(env, s)
    ensures Placed(env, SetTimer(s, CallLimit))
  {
    hide Placed;
    OpenStays(env, s, SetTimer(s, CallLimit));
  }

  lemma StepPlaced(env: Env, s: Call, e: Event)
    requires Good(env, s) && Placed(env, s)
    ensures Placed(env, Step(env, s, e))
  {
    hide Good, Placed, Step, Fire, Resume, Retire;
    if e.TimerFires? {
      if e.id in s.timers { TimerPlaced(env, s, e.id); } else { NothingFires(env, s, e); }
    } else if e.Resumes? {
      if e.id in s.tasks {
        StepResumes(env, s, e.id, e.result);
        ResumePlaced(env, s, e.id, e.result);
      } else {
        NothingFires(env, s, e);
      }
    } else {
      EventPlaced(env, s, e);
    }
  }

  lemma NewCallIsPlaced(env: Env)
    ensures Placed(env, NEW_CALL)
  {
    var s := NEW_CALL;
    assert s.log.visited == [] && s.tasks == map[];
  }

  lemma {:induction false} RunPlaced(env: Env, events: seq<Event>)
    ensures Placed(env, Run(env, events))
  {
    hide Good, Placed, Step;
    if events == [] {
      NewCallIsPlaced(env);
    } else {
      var most := events[..|events| - 1];
      RunPlaced(env, most);
      RunKeeps(env, most);
      StepPlaced(env, Run(env, most), events[|events| - 1]);
    }
  }

  /**
   * Whatever happens on a call, the steps it takes are a path of the published graph from
   * its start step: each is what the step before it leads to, by the output for the opening
   * hours as they are, an offered key, the end of a menu's repeats, a transfer nobody
   * answered, or a step's only output. There are at most 60 of them.
   */
  lemma StepsFollowTheGraph(env: Env, events: seq<Event>)
    ensures IsPath(env, Run(env, events).log.visited) && |Run(env, events).log.visited| <= MAX_STEPS_PER_CALL
  {
    RunPlaced(env, events);
    hide IsPath, TasksPlaced, OpenPlaced, Run;
  }
}
