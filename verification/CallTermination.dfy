/** Left alone, a call comes to its end within a fixed number of events. */
module CallTermination {
  import opened Options
  import opened CallFlow
  import opened CallEngine
  import opened Dialing
  import opened CallInvariants
  import opened CallTheorems
  import opened CallEndings

  // ---- Sums over pending work ----

  ghost function Total<T>(m: map<Id, T>, cost: T -> nat): nat {
    if m == map[] then 0
    else
      var i :| i in m;
      cost(m[i]) + Total(m - {i}, cost)
  }

  lemma {:induction false} TotalAt<T>(m: map<Id, T>, cost: T -> nat, i: Id)
    requires i in m
    ensures Total(m, cost) == cost(m[i]) + Total(m - {i}, cost)
  {
    var j :| j in m && Total(m, cost) == cost(m[j]) + Total(m - {j}, cost);
    if i != j {
      TotalAt(m - {j}, cost, i);
      TotalAt(m - {i}, cost, j);
      assert m - {j} - {i} == m - {i} - {j};
    }
  }

  lemma TotalLess<T>(m: map<Id, T>, cost: T -> nat, i: Id)
    ensures Total(m - {i}, cost) <= Total(m, cost)
  {
    if i in m { TotalAt(m, cost, i); } else { assert m - {i} == m; }
  }

  lemma TotalPut<T>(m: map<Id, T>, cost: T -> nat, i: Id, t: T)
    ensures Total(m[i := t], cost) <= Total(m, cost) + cost(t)
  {
    TotalAt(m[i := t], cost, i);
    assert m[i := t] - {i} == m - {i};
    TotalLess(m, cost, i);
  }

  // ---- What pending work may still cause ----

  ghost function DialsLeft(env: Env, x: Transfer, attempt: nat): nat {
    if attempt < Attempts(env, x) then Attempts(env, x) - attempt else 0
  }

  ghost function ReplyCost(env: Env, waiter: Waiter): nat {
    match waiter
    case TextOffer(x) => 7 + Attempts(env, x)
    case RatingQuestion => 5
  }

  /** More than the cost of whatever its continuation leaves pending, apart from a new step of the flow. */
  ghost function Cost(env: Env, t: Task): nat {
    match t
    case Preamble => 1
    case StepPause(_, _) => 1
    case MenuPrompt(_) => 2
    case VoicemailPrompt(_) => 3
    case SavingVoicemail(_) => 2
    case VoicemailNotice(_) => 1
    case FlushSave => 1
    case Replied(waiter, _) => ReplyCost(env, waiter)
    case TestHold(_, _) => 4
    case ColdHold(x, _) => 6 + Attempts(env, x)
    case Dialing(x, _, attempt) => 5 + DialsLeft(env, x, attempt)
    case HoldTail(_, _, _) => 4
    case NoAnswerNotice(_, _) => 3
    case FollowUp(_) => 2
    case Connecting(_) => 3
    case Leaving(_) => 2
    case ClearingRoom(_) => 2
    case TransferDone(_, _) => 1
    case RatingThanks => 4
    case Goodbye => 3
    case HangUpNow => 1
  }

  ghost function TimerCost(timer: Timer): nat {
    if timer == HangUpGrace then 2 else 1
  }

  ghost function QuestionCost(env: Env, answer: Option<Question>): nat {
    if answer.None? then 0 else ReplyCost(env, answer.value.waiter) + if answer.value.playing then 2 else 0
  }

  ghost function MenuCost(menu: Option<MenuState>): nat {
    if menu.None? || MenuRepeats(menu.value.node) <= menu.value.misses then 0
    else 3 * (MenuRepeats(menu.value.node) - menu.value.misses)
  }

  ghost function StepsLeft(s: Call): nat {
    if s.stepCount <= MAX_STEPS_PER_CALL then MAX_STEPS_PER_CALL + 1 - s.stepCount else 0
  }

  const STEP_COST := 12
  const ENDING_COST := 8

  ghost function Tasks(env: Env, tasks: map<Id, Task>): nat { Total(tasks, (t: Task) => Cost(env, t)) }

  ghost function Timers(timers: map<Id, Timer>): nat { Total(timers, TimerCost) }

  /** A bound on the events that can still happen while nobody interferes. */
  ghost function Spare(env: Env, s: Call): nat {
    Tasks(env, s.tasks) + Timers(s.timers) + Open(env, s) + Ahead(s)
  }

  ghost function Open(env: Env, s: Call): nat {
    QuestionCost(env, s.answer) + MenuCost(s.menu) + if s.voicemail.Some? then 2 else 0
  }

  ghost function Ahead(s: Call): nat {
    STEP_COST * StepsLeft(s) + if s.ending then 0 else ENDING_COST
  }

  lemma Put(env: Env, tasks: map<Id, Task>, i: Id, t: Task)
    ensures Tasks(env, tasks[i := t]) <= Tasks(env, tasks) + Cost(env, t)
  {
    TotalPut(tasks, (t: Task) => Cost(env, t), i, t);
  }

  lemma Taken(env: Env, tasks: map<Id, Task>, i: Id)
    requires i in tasks
    ensures Tasks(env, tasks) == Cost(env, tasks[i]) + Tasks(env, tasks - {i})
  {
    TotalAt(tasks, (t: Task) => Cost(env, t), i);
  }

  lemma TimerSet(timers: map<Id, Timer>, i: Id, t: Timer)
    ensures Timers(timers[i := t]) <= Timers(timers) + TimerCost(t)
  {
    TotalPut(timers, TimerCost, i, t);
  }

  lemma TimerTaken(timers: map<Id, Timer>, i: Id)
    requires i in timers
    ensures Timers(timers) == TimerCost(timers[i]) + Timers(timers - {i})
  {
    TotalAt(timers, TimerCost, i);
  }

  lemma TimerCleared(timers: map<Id, Timer>, t: Option<Id>)
    ensures Timers(Without(timers, t)) <= Timers(timers)
  {
    if t.Some? { TotalLess(timers, TimerCost, t.value); }
  }

  /** Fields that cost nothing. */
  lemma FreeFields(env: Env, s: Call)
    ensures forall n: nat :: Spare(env, s.(textsSent := n)) == Spare(env, s)
    ensures forall log: Log :: Spare(env, s.(log := log)) == Spare(env, s)
    ensures forall rating: Option<nat> :: Spare(env, s.(rating := rating)) == Spare(env, s)
    ensures Spare(env, s.(inPreamble := false)) == Spare(env, s)
  {
    hide Tasks, Timers, QuestionCost, MenuCost;
  }

  // ---- The pieces of a segment ----

  lemma SpawnCosts(env: Env, s: Call, t: Task)
    ensures Spare(env, Spawn(s, t)) <= Spare(env, s) + Cost(env, t)
    ensures Spawn(s, t).ending == s.ending
  {
    hide Tasks, Timers, Cost;
    Put(env, s.tasks, s.nextId, t);
  }

  lemma SettleCosts(env: Env, s: Call, reply: Option<Reply>)
    ensures Spare(env, Settle(s, reply)) + (if s.answer.Some? && s.answer.value.playing then 2 else 0) <= Spare(env, s)
    ensures Settle(s, reply).answer.None? && Settle(s, reply).ending == s.ending
  {
    hide Tasks, Timers;
    if s.answer.Some? {
      var q := s.answer.value;
      Put(env, s.tasks, q.id, Replied(q.waiter, reply));
      TimerCleared(s.timers, q.timer);
    }
  }

  lemma AskCosts(env: Env, s: Call, waiter: Waiter)
    ensures Spare(env, Ask(s, waiter)) <= Spare(env, s) + ReplyCost(env, waiter) + 2
  {
    SettleCosts(env, s, None);
    hide Tasks, Timers, Settle;
  }

  lemma LeaveCosts(env: Env, s: Call)
    ensures Spare(env, LeaveMenu(s)) + MenuCost(s.menu) <= Spare(env, s)
    ensures LeaveMenu(s).ending == s.ending && LeaveMenu(s).menu.None?
  {
    hide Tasks, Timers;
    TimerCleared(s.timers, if s.menu.Some? then s.menu.value.timer else None);
  }

  lemma PartedCosts(env: Env, s: Call)
    requires !s.ending
    ensures Spare(env, Parted(s)) + ENDING_COST <= Spare(env, s)
  {
    hide Tasks, Timers;
    if s.voicemail.Some? {
      TimerCleared(s.timers, s.voicemail.value.timer);
      TimerCleared(Without(s.timers, s.voicemail.value.timer), s.voicemail.value.maxTimer);
    }
  }

  lemma EndCallCosts(env: Env, s: Call, survey: bool)
    ensures Spare(env, EndCall(env, s, survey)) <= Spare(env, s)
  {
    hide Spare, Parted, LeaveMenu, Ask, Spawn;
    if !s.ending {
      LeaveCosts(env, s);
      PartedCosts(env, LeaveMenu(s));
      AskCosts(env, Parted(LeaveMenu(s)), RatingQuestion);
      SpawnCosts(env, Parted(LeaveMenu(s)), Goodbye);
    }
  }

  lemma FailCosts(env: Env, s: Call)
    ensures Spare(env, Fail(env, s)) <= Spare(env, s)
  {
    EndCallCosts(env, s.(failed := true), false);
    hide Tasks, Timers, EndCall;
  }

  // ---- Transfers ----

  lemma AfterDialCosts(env: Env, s: Call, x: Transfer, optIn: bool, r: DialResult)
    ensures Spare(env, AfterDial(s, x, optIn, r)) <= Spare(env, s) + 4
  {
    hide Tasks, Timers, Spawn;
    var log := if r == Answered
      then s.log.(recordingStops := s.log.recordingStops + 1, answers := s.log.answers + 1) else s.log;
    assert Spare(env, s.(log := log)) == Spare(env, s);
    SpawnCosts(env, s.(log := log), HoldTail(x, optIn, r));
    assert AfterDial(s, x, optIn, r) == Spawn(s.(log := log), HoldTail(x, optIn, r));
  }

  lemma DialCosts(env: Env, s: Call, x: Transfer, optIn: bool, attempt: nat)
    ensures Spare(env, DialOrGiveUp(env, s, x, optIn, attempt)) <=
            Spare(env, s) + if DialsLeft(env, x, attempt) > 0 then 5 + DialsLeft(env, x, attempt) else 4
  {
    hide Tasks, Timers, Spawn, AfterDial, Attempts;
    AfterDialCosts(env, s, x, optIn, NoAnswer);
    var s1 := Spawn(s, Dialing(x, optIn, attempt));
    SpawnCosts(env, s, Dialing(x, optIn, attempt));
    assert Spare(env, s1.(log := s1.log.(dialed := s.log.dialed + [x.target.phone]))) == Spare(env, s1);
  }

  lemma StartDialingCosts(env: Env, s: Call, x: Transfer, optIn: bool)
    ensures Spare(env, StartDialing(env, s, x, optIn)) <= Spare(env, s) + 6 + Attempts(env, x)
  {
    hide Spare, Spawn, DialOrGiveUp, Attempts;
    SpawnCosts(env, s, TestHold(x, optIn));
    SpawnCosts(env, s, ColdHold(x, optIn));
    DialCosts(env, s, x, optIn, 0);
  }

  lemma BeginTransferCosts(env: Env, s: Call, origin: Origin, target: Option<Target>)
    requires target.Some? ==> target.value.retries == 0
    ensures Spare(env, BeginTransfer(env, s, origin, target)) <= Spare(env, s) + 10
  {
    hide Tasks, Timers, Spawn, Ask, StartDialing, CanOfferText;
    SpawnCosts(env, s, TransferDone(origin, Ended));
    SpawnCosts(env, s, TransferDone(origin, Unavailable));
    if target.Some? {
      var x, s1 := Transfer(origin, target.value), s.(transferring := true);
      assert Attempts(env, x) == 1 && Spare(env, s1) == Spare(env, s);
      AskCosts(env, s1, TextOffer(x));
      StartDialingCosts(env, s1, x, false);
    }
  }

  lemma FinishCosts(env: Env, s: Call, x: Transfer, outcome: Outcome)
    ensures Spare(env, Finish(s, x, outcome)) <= Spare(env, s) + 1
  {
    hide Tasks, Timers, Spawn;
    assert Spare(env, s.(transferring := false)) == Spare(env, s);
    SpawnCosts(env, s.(transferring := false), TransferDone(x.origin, outcome));
  }

  lemma PostDialCosts(env: Env, s: Call, x: Transfer, optIn: bool, r: DialResult)
    ensures Spare(env, PostDial(s, x, optIn, r)) <= Spare(env, s) + 3
  {
    hide Spare, Spawn, Finish, LeaveMenu;
    FreeFields(env, s);
    if s.ending {
      SpawnCosts(env, s, ClearingRoom(x));
      FreeFields(env, Spawn(s, ClearingRoom(x)));
      FinishCosts(env, if r == Answered then s.(log := s.log.(dropped := s.log.dropped + 1)) else s, x, Ended);
    } else {
      var s1 := s.(ending := true, log := s.log.(connects := s.log.connects + 1));
      ConnectingCosts(env, s);
      SpawnCosts(env, s, NoAnswerNotice(x, optIn));
      LeaveCosts(env, s1);
      SpawnCosts(env, LeaveMenu(s1), Connecting(x));
      FinishCosts(env, LeaveMenu(s1), x, Connected);
    }
  }

  lemma ConnectingCosts(env: Env, s: Call)
    ensures Spare(env, s.(ending := true, log := s.log.(connects := s.log.connects + 1))) <= Spare(env, s)
  {
    hide Tasks, Timers, QuestionCost, MenuCost;
  }

  // ---- Steps of the flow ----

  lemma OpenMenuCosts(env: Env, s: Call, node: FlowNode, misses: nat)
    ensures Spare(env, OpenMenu(s, node, misses)) + MenuCost(s.menu) <=
            Spare(env, s) + 2 + MenuCost(Some(MenuState(node, misses, s.menuToken + 1, None)))
  {
    hide Tasks, Timers, MenuCost;
    Put(env, s.tasks, s.nextId, MenuPrompt(s.menuToken + 1));
  }

  lemma StartVoicemailCosts(env: Env, s: Call, node: FlowNode)
    ensures Spare(env, StartVoicemail(s, node)) <= Spare(env, s) + 5
  {
    hide Tasks, Timers, MenuCost;
    Put(env, s.tasks, s.nextId + 1, VoicemailPrompt(s.nextId));
  }

  lemma AssistantCosts(env: Env, s: Call)
    ensures Spare(env, StartAssistant(env, s)) <= Spare(env, s)
  {
    hide Tasks, Timers, Fail;
    assert Spare(env, s.(aiActive := true)) == Spare(env, s);
    FailCosts(env, s.(aiActive := true));
  }

  lemma VisitCosts(env: Env, s: Call, node: FlowNode)
    requires s.stepCount < MAX_STEPS_PER_CALL
    ensures Spare(env, Visit(s, node)) + STEP_COST == Spare(env, s)
  {
    hide Tasks, Timers, Open;
    assert Open(env, Visit(s, node)) == Open(env, s) by { OpenStays(env, s, node); }
  }

  lemma OpenStays(env: Env, s: Call, node: FlowNode)
    ensures Open(env, Visit(s, node)) == Open(env, s)
  {
    hide MenuCost, QuestionCost;
  }

  lemma CountedOnceMore(env: Env, s: Call)
    ensures Spare(env, s.(stepCount := s.stepCount + 1)) <= Spare(env, s)
  {
    hide Tasks, Timers, MenuCost, QuestionCost;
  }

  lemma {:induction false} EnterCosts(env: Env, s: Call, step: Option<string>)
    ensures Spare(env, Enter(env, s, step)) <= Spare(env, s)
    decreases MAX_STEPS_PER_CALL - s.stepCount, 0
  {
    hide Spare, EndCall, TakeStep, Visit;
    EndCallCosts(env, s, false);
    if s.stepCount + 1 > MAX_STEPS_PER_CALL {
      CountedOnceMore(env, s);
      EndCallCosts(env, s.(stepCount := s.stepCount + 1), false);
    } else if step.Some? {
      var node := FindNode(env.graph.nodes, step.value);
      if node.Some? {
        VisitCosts(env, s, node.value);
        VisitCounts(s, node.value);
        TakeStepCosts(env, Visit(s, node.value), node.value);
      }
    }
  }

  lemma VisitCounts(s: Call, node: FlowNode)
    ensures Visit(s, node).stepCount == s.stepCount + 1
  {
  }

  lemma {:induction false} TakeStepCosts(env: Env, s: Call, node: FlowNode)
    ensures Spare(env, TakeStep(env, s, node)) <= Spare(env, s) + STEP_COST
    decreases MAX_STEPS_PER_CALL - s.stepCount, 1
  {
    hide Spare, Spawn, EndCall, OpenMenu, BeginTransfer, StartVoicemail, StartAssistant, Enter;
    match node.kind
    case Start => EnterCosts(env, s, NextNode(env.graph, node.id, None));
    case HoursCheck => EnterCosts(env, s, NextNode(env.graph, node.id, Some(if env.isOpen then "open" else "closed")));
    case PlayMessage => SpawnCosts(env, s, StepPause(node, false));
    case KeypadMenu => OpenMenuCosts(env, s, node, 0);
    case TextLink =>
      SpawnCosts(env, s, StepPause(node, (env.hasCallerPhone || env.testCall) && s.textsSent < MAX_TEXTS_PER_CALL));
    case TransferCall => BeginTransferCosts(env, s, FromStep(node), StepTarget(env, node));
    case Voicemail => StartVoicemailCosts(env, s, node);
    case AiAgent => AssistantCosts(env, s);
    case HangUp => EndCallCosts(env, s, true);
  }

  lemma FollowCosts(env: Env, s: Call, id: string, handle: Option<string>)
    ensures Spare(env, FollowOrEnd(env, s, id, handle)) <= Spare(env, s)
  {
    hide Spare, EndCall, Enter;
    EnterCosts(env, s, NextNode(env.graph, id, handle));
    EndCallCosts(env, s, false);
  }

  lemma RetryCosts(env: Env, s: Call)
    ensures Spare(env, RetryMenu(env, s)) <= Spare(env, s)
  {
    hide Spare, LeaveMenu, OpenMenu, FollowOrEnd;
    if s.menu.Some? {
      var m, left := s.menu.value, LeaveMenu(s);
      LeaveCosts(env, s);
      OpenMenuCosts(env, left, m.node, m.misses + 1);
      FollowCosts(env, left, m.node.id, Some("no_input"));
    }
  }

  // ---- Menus, voicemail and questions ----

  lemma ArmMenuCosts(env: Env, s: Call)
    ensures Spare(env, ArmMenuTimer(s)) <= Spare(env, s) + 1
  {
    hide Tasks, Timers;
    if s.menu.Some? {
      TimerCleared(s.timers, s.menu.value.timer);
      TimerSet(Without(s.timers, s.menu.value.timer), s.nextId, MenuWait(s.menu.value.token));
    }
  }

  lemma ArmVoicemailCosts(env: Env, s: Call)
    ensures Spare(env, ArmVoicemailTimer(s)) <= Spare(env, s) + 1
  {
    hide Tasks, Timers;
    if s.voicemail.Some? {
      TimerCleared(s.timers, s.voicemail.value.timer);
      TimerSet(Without(s.timers, s.voicemail.value.timer), s.nextId, VoicemailSilence(s.voicemail.value.id));
    }
  }

  lemma ListenCosts(env: Env, s: Call, v: VoicemailState)
    requires s.voicemail == Some(v)
    ensures Spare(env, Listen(s, v)) <= Spare(env, s) + 1
  {
    hide Tasks, Timers;
    TimerSet(s.timers, s.nextId, VoicemailMax(v.id));
  }

  lemma FinishVoicemailCosts(env: Env, s: Call)
    ensures Spare(env, FinishVoicemail(s)) <= Spare(env, s)
  {
    hide Spare, TakeVoicemail, Spawn, Message;
    if s.voicemail.Some? {
      var v := s.voicemail.value;
      TakenVoicemailCosts(env, s);
      SpawnCosts(env, TakeVoicemail(s), VoicemailNotice(v.node));
      SpawnCosts(env, TakeVoicemail(s), SavingVoicemail(v.node));
    }
  }

  lemma TakenVoicemailCosts(env: Env, s: Call)
    requires s.voicemail.Some?
    ensures Spare(env, TakeVoicemail(s)) + 2 <= Spare(env, s)
  {
    hide Tasks, Timers, Message;
    TimerCleared(s.timers, s.voicemail.value.timer);
    TimerCleared(Without(s.timers, s.voicemail.value.timer), s.voicemail.value.maxTimer);
  }

  lemma PlayedSpends(env: Env, s: Call, id: Id, spoken: bool)
    requires s.answer.Some? && s.answer.value.id == id && s.answer.value.playing
    ensures Spare(env, QuestionPlayed(s, id, spoken)) < Spare(env, s)
  {
    SettleCosts(env, s, None);
    hide Tasks, Timers, Settle;
    TimerSet(s.timers, s.nextId, AnswerWait(id));
  }

  // ---- Every event spends something ----

  lemma RetireSpends(env: Env, s: Call, i: Id)
    requires i in s.tasks
    ensures Spare(env, Retire(s, i)) + Cost(env, s.tasks[i]) == Spare(env, s)
  {
    hide Tasks, Timers, Cost;
    Taken(env, s.tasks, i);
  }

  lemma FlowTaskSpends(env: Env, s: Call, t: Task, r: Result)
    requires t.Preamble? || t.StepPause? || t.VoicemailNotice? || t.TransferDone?
    ensures Spare(env, Resume(env, s, t, r)) <= Spare(env, s)
  {
    hide Spare, Enter, FollowOrEnd, EndCall, Fail, NextNode, FindStart;
    FreeFields(env, s);
    match t
    case Preamble =>
      var s1, start := s.(inPreamble := false), FindStart(env.graph.nodes);
      FailCosts(env, s1);
      if start.Some? { EnterCosts(env, s1, Some(start.value.id)); }
    case StepPause(node, texting) =>
      var s1 := if texting && r.ok then s.(textsSent := s.textsSent + 1) else s;
      EnterCosts(env, s1, NextNode(env.graph, node.id, None));
    case VoicemailNotice(node) => FollowCosts(env, s, node.id, None);
    case TransferDone(origin, outcome) =>
      EndCallCosts(env, s, false);
      if origin.FromStep? { EnterCosts(env, s, NextNode(env.graph, origin.node.id, Some("no_answer"))); }
  }

  lemma DialTaskSpends(env: Env, s: Call, t: Task, r: Result)
    requires (t.Replied? && t.waiter.TextOffer?) || t.TestHold? || t.ColdHold? || t.Dialing? || t.HoldTail?
    ensures Spare(env, Resume(env, s, t, r)) < Spare(env, s) + Cost(env, t)
  {
    hide Spare, StartDialing, DialOrGiveUp, AfterDial, PostDial, Finish, Attempts;
    match t
    case Replied(waiter, reply) =>
      FinishCosts(env, s, waiter.x, Ended);
      StartDialingCosts(env, s, waiter.x, reply.Some? && env.parseYes(reply.value));
    case TestHold(x, optIn) => PostDialCosts(env, s, x, optIn, NoAnswer);
    case ColdHold(x, optIn) => DialCosts(env, s, x, optIn, 0);
    case Dialing(x, optIn, attempt) =>
      DialCosts(env, s, x, optIn, attempt + 1);
      AfterDialCosts(env, s, x, optIn, r.dial);
    case HoldTail(x, optIn, result) => PostDialCosts(env, s, x, optIn, result);
  }

  lemma FinishTaskSpends(env: Env, s: Call, t: Task, r: Result)
    requires t.NoAnswerNotice? || t.FollowUp? || t.Connecting? || t.Leaving? || t.ClearingRoom?
    ensures Spare(env, Resume(env, s, t, r)) < Spare(env, s) + Cost(env, t)
  {
    hide Spare, Spawn, Finish;
    FreeFields(env, s);
    match t
    case NoAnswerNotice(x, optIn) =>
      SpawnCosts(env, s, FollowUp(x));
      FinishCosts(env, s, x, if s.ending then Ended else Unavailable);
    case FollowUp(x) =>
      var sent := if r.ok then s.(textsSent := s.textsSent + 1) else s;
      FinishCosts(env, sent, x, if s.ending then Ended else Unavailable);
    case Connecting(x) =>
      SpawnCosts(env, s, Leaving(x));
      FreeFields(env, Spawn(s, Leaving(x)));
    case Leaving(x) => FinishCosts(env, s, x, Connected);
    case ClearingRoom(x) => FinishCosts(env, s, x, Ended);
  }

  lemma PromptSpends(env: Env, s: Call, t: Task, r: Result)
    requires t.MenuPrompt? || t.VoicemailPrompt? || t.SavingVoicemail? || t.FlushSave?
    ensures Spare(env, Resume(env, s, t, r)) < Spare(env, s) + Cost(env, t)
  {
    hide Spare, ArmMenuTimer, ArmVoicemailTimer, Listen, Spawn;
    ArmMenuCosts(env, s);
    if s.voicemail.Some? {
      ListenCosts(env, s, s.voicemail.value);
      ArmVoicemailCosts(env, Listen(s, s.voicemail.value));
    }
    if t.SavingVoicemail? { SpawnCosts(env, s, VoicemailNotice(t.node)); }
  }

  lemma GraceCosts(env: Env, s: Call)
    ensures Spare(env, SetTimer(s, HangUpGrace)) <= Spare(env, s) + 2
  {
    hide Tasks, Timers;
    TimerSet(s.timers, s.nextId, HangUpGrace);
  }

  lemma GoodbyeSpends(env: Env, s: Call, t: Task, r: Result)
    requires (t.Replied? && t.waiter.RatingQuestion?) || t.RatingThanks? || t.Goodbye? || t.HangUpNow?
    ensures Spare(env, Resume(env, s, t, r)) < Spare(env, s) + Cost(env, t)
  {
    hide Spare, Spawn, SetTimer;
    FreeFields(env, s);
    SpawnCosts(env, s, Goodbye);
    GraceCosts(env, s);
    if t.Replied? && t.reply.Some? { SpawnCosts(env, s.(rating := env.parseRating(t.reply.value)), RatingThanks); }
  }

  lemma ResumeSpends(env: Env, s: Call, t: Task, r: Result)
    ensures Spare(env, Resume(env, s, t, r)) < Spare(env, s) + Cost(env, t)
  {
    hide Spare, Resume;
    if t.Preamble? || t.StepPause? || t.VoicemailNotice? || t.TransferDone? {
      FlowTaskSpends(env, s, t, r);
    } else if t.NoAnswerNotice? || t.FollowUp? || t.Connecting? || t.Leaving? || t.ClearingRoom? {
      FinishTaskSpends(env, s, t, r);
    } else if t.MenuPrompt? || t.VoicemailPrompt? || t.SavingVoicemail? || t.FlushSave? {
      PromptSpends(env, s, t, r);
    } else if InTransfer(t) {
      DialTaskSpends(env, s, t, r);
    } else {
      GoodbyeSpends(env, s, t, r);
    }
  }

  lemma FireCosts(env: Env, s: Call, timer: Timer)
    ensures Spare(env, Fire(env, s, timer)) < Spare(env, s) + TimerCost(timer)
  {
    hide Tasks, Timers, EndCall, RetryMenu, FinishVoicemail, Settle, Spawn;
    EndCallCosts(env, s, false);
    RetryCosts(env, s);
    FinishVoicemailCosts(env, s);
    SettleCosts(env, s, None);
    assert Spare(env, GraceOver(s)) == Spare(env, s);
    SpawnCosts(env, GraceOver(s), HangUpNow);
  }

  lemma TimerSpends(env: Env, s: Call, i: Id)
    requires i in s.timers
    ensures Spare(env, Step(env, s, TimerFires(i))) < Spare(env, s)
  {
    var s1 := s.(timers := s.timers - {i});
    TimerTaken(s.timers, i);
    assert Spare(env, s1) + TimerCost(s.timers[i]) == Spare(env, s) by { hide Tasks, Timers; }
    hide Spare, Fire;
    FireCosts(env, s1, s.timers[i]);
  }

  // ---- Left alone ----

  /** A running timer fires, a pending await is over, or a question has been read out. */
  predicate Unattended(s: Call, e: Event) {
    || (e.TimerFires? && e.id in s.timers)
    || (e.Resumes? && e.id in s.tasks)
    || (e.Played? && s.answer.Some? && s.answer.value.id == e.id && s.answer.value.playing)
  }

  lemma UnattendedSpends(env: Env, s: Call, e: Event)
    requires Unattended(s, e)
    ensures Spare(env, Step(env, s, e)) < Spare(env, s)
  {
    hide Spare, Fire, Resume, Retire, QuestionPlayed, Cost;
    if e.TimerFires? {
      TimerSpends(env, s, e.id);
    } else if e.Resumes? {
      RetireSpends(env, s, e.id);
      ResumeSpends(env, Retire(s, e.id), s.tasks[e.id], e.result);
    } else {
      PlayedSpends(env, s, e.id, e.spoken);
    }
  }

  /** Nobody speaks, presses keys, hangs up or uses a tool. */
  ghost predicate LeftAlone(env: Env, before: seq<Event>, more: seq<Event>) {
    forall k :: 0 <= k < |more| ==> Unattended(Run(env, before + more[..k]), more[k])
  }

  lemma {:induction false} LeftAloneSpends(env: Env, before: seq<Event>, more: seq<Event>)
    requires LeftAlone(env, before, more)
    ensures |more| + Spare(env, Run(env, before + more)) <= Spare(env, Run(env, before))
  {
    hide Run, Spare, Step, Unattended;
    if more == [] {
      assert before + more == before;
    } else {
      var most, e := more[..|more| - 1], more[|more| - 1];
      forall k | 0 <= k < |most| ensures Unattended(Run(env, before + most[..k]), most[k]) {
        assert most[..k] == more[..k];
      }
      LeftAloneSpends(env, before, most);
      assert before + more == (before + most) + [e];
      RunAppend(env, before + most, e);
      UnattendedSpends(env, Run(env, before + most), e);
    }
  }

  /** No await is pending, no timer runs, no question is being read out. */
  predicate Settled(s: Call) {
    s.tasks == map[] && s.timers == map[] && (s.answer.Some? ==> !s.answer.value.playing)
  }

  /** The caller has been hung up on, or was handed over and the room was left to staff who answered. */
  predicate Over(s: Call) {
    && s.ending
    && if s.log.goodbyes > 0 then s.log.hangUps > 0
       else s.log.connects > 0 && (s.log.answers == 0 || s.log.leaves > 0)
  }

  lemma NothingPending(s: Call, k: Kind)
    requires Settled(s) && WaitedFor(s)
    ensures !Pending(s, k)
  {
  }

  lemma SettledIsOver(s: Call)
    requires Settled(s) && WaitedFor(s) && GoesOn(s)
    ensures Over(s) || (!s.ending && (s.aiActive || (s.menu.Some? && s.speaking)))
  {
    forall k ensures !Pending(s, k) { NothingPending(s, k); }
    hide Pending;
  }

  /**
   * Left alone after any run, a call goes on for no more than a known number of events; and
   * once nothing is left to happen, it is over, unless it is not even ending because the
   * assistant has the flow or the caller is still speaking at a menu.
   */
  lemma LeftAloneItEnds(env: Env, before: seq<Event>, more: seq<Event>)
    requires LeftAlone(env, before, more)
    requires Run(env, before + more).started && !Run(env, before + more).disposed
    ensures
      var s := Run(env, before + more);
      && |more| <= Spare(env, Run(env, before))
      && (Settled(s) || exists e :: Unattended(s, e))
      && (Settled(s) ==> Over(s) || (!s.ending && (s.aiActive || (s.menu.Some? && s.speaking))))
  {
    hide Run, Spare;
    var s := Run(env, before + more);
    LeftAloneSpends(env, before, more);
    CallsNeverHang(env, before + more);
    if Settled(s) { SettledIsOver(s); } else { SomethingHappens(s); }
  }

  lemma SomethingHappens(s: Call)
    requires !Settled(s)
    ensures exists e :: Unattended(s, e)
  {
    if s.tasks != map[] {
      var i :| i in s.tasks;
      assert Unattended(s, Resumes(i, Result(true, NoAnswer)));
    } else if s.timers != map[] {
      var i :| i in s.timers;
      assert Unattended(s, TimerFires(i));
    } else {
      assert Unattended(s, Played(s.answer.value.id, true));
    }
  }

  /** What a call may cost from its first moment, its limit included. */
  const WHOLE_CALL_COST: nat := STEP_COST * (MAX_STEPS_PER_CALL + 1) + ENDING_COST + 2

  /** From its first moment, with its limit set at any time after that: at most 742 events, on any graph. */
  lemma WholeCallEnds(env: Env, early: seq<Event>, late: seq<Event>)
    requires LeftAlone(env, [BeginCall], early)
    requires LeftAlone(env, [BeginCall] + early + [StartCallLimit], late)
    ensures |early| + |late| <= WHOLE_CALL_COST
  {
    hide Run, Spare, Step, SetTimer;
    var sofar := [BeginCall] + early;
    LeftAloneSpends(env, [BeginCall], early);
    LeftAloneSpends(env, sofar + [StartCallLimit], late);
    RunAppend(env, sofar, StartCallLimit);
    LimitStep(env, Run(env, sofar));
    LimitCosts(env, Run(env, sofar));
    BegunCosts(env);
  }

  /** The same when the limit is set first. */
  lemma LimitedCallEnds(env: Env, more: seq<Event>)
    requires LeftAlone(env, [StartCallLimit, BeginCall], more)
    ensures |more| <= WHOLE_CALL_COST
  {
    hide Run, Spare, Step, SetTimer;
    var none, limit: seq<Event> := [], [StartCallLimit];
    assert none + limit == limit && limit + [BeginCall] == [StartCallLimit, BeginCall];
    LeftAloneSpends(env, [StartCallLimit, BeginCall], more);
    RunAppend(env, none, StartCallLimit);
    RunAppend(env, limit, BeginCall);
    assert Run(env, none) == NEW_CALL by { NothingRun(env); }
    LimitStep(env, NEW_CALL);
    LimitCosts(env, NEW_CALL);
    BeginCosts(env, SetTimer(NEW_CALL, CallLimit));
    NewCallCosts(env);
  }

  lemma NothingRun(env: Env)
    ensures Run(env, []) == NEW_CALL
  {
  }

  lemma LimitStep(env: Env, s: Call)
    ensures Step(env, s, StartCallLimit) == SetTimer(s, CallLimit)
  {
    hide SetTimer;
  }

  lemma LimitCosts(env: Env, s: Call)
    ensures Spare(env, SetTimer(s, CallLimit)) <= Spare(env, s) + 1
  {
    hide Tasks, Timers;
    TimerSet(s.timers, s.nextId, CallLimit);
  }

  lemma BeginCosts(env: Env, s: Call)
    ensures Spare(env, Step(env, s, BeginCall)) <= Spare(env, s) + 1
  {
    hide Tasks, Timers, Spawn;
    var begun := s.(started := true, inPreamble := true);
    assert Spare(env, begun) == Spare(env, s);
    SpawnCosts(env, begun, Preamble);
  }

  lemma NewCallCosts(env: Env)
    ensures Spare(env, NEW_CALL) == STEP_COST * (MAX_STEPS_PER_CALL + 1) + ENDING_COST
  {
    assert Tasks(env, NEW_CALL.tasks) == 0 && Timers(NEW_CALL.timers) == 0;
    hide Tasks, Timers;
  }

  lemma BegunCosts(env: Env)
    ensures Spare(env, Run(env, [BeginCall])) <= WHOLE_CALL_COST - 1
  {
    hide Run, Spare, Step;
    var none: seq<Event> := [];
    assert none + [BeginCall] == [BeginCall];
    RunAppend(env, none, BeginCall);
    NothingRun(env);
    BeginCosts(env, NEW_CALL);
    NewCallCosts(env);
  }
}
