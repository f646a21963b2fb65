/** The walk over the call graph, every event, and so every run keeps the invariant. */
module CallSteps {
  import opened Options
  import opened CallFlow
  import opened CallEngine
  import opened CallInvariants
  import opened CallFrames
  import opened CallSegments
  import opened CallWaiting
  import opened CallTransfers

  /** What a segment that was given the flow leaves: one holder, or a call that is ending. */
  ghost predicate HandedOn(env: Env, s': Call) {
    Sound(env, s', None) && (!s'.ending ==> Holders(s', None) == 1)
  }

  // ---- Steps ----

  lemma VisitKeeps(env: Env, s: Call, node: FlowNode)
    requires Sound(env, s, None) && s.stepCount < MAX_STEPS_PER_CALL && s.menu.None?
    ensures Sound(env, Visit(s, node), None)
    ensures Holders(Visit(s, node), None) == Holders(s, None)
  {
    var s' := Visit(s, node);
    assert Kept(s') by { hide Led, Count, IdsFit, NumbersFit, TimersFit, HeardFit, PoolOf; }
    hide Kept, Work, Graces, TasksFit, Pool, TaskOk, DialedFit;
    SameWorkDialed(env, s, s', None);
  }

  /** The step counter takes no part in ending a call. */
  lemma EndCallCounts(env: Env, s: Call, n: nat)
    requires !s.ending
    ensures EndCall(env, s.(stepCount := n), false) == EndCall(env, s, false).(stepCount := n)
    ensures EndCall(env, s, false).stepCount == s.stepCount
  {
    var s1, s2 := LeaveMenu(s), Parted(LeaveMenu(s));
    LeaveCounts(s, n);
    PartedCounts(s1, n);
    SpawnCounts(s2, Goodbye, n);
    hide LeaveMenu, Parted, Spawn;
  }

  lemma LeaveCounts(s: Call, n: nat)
    ensures LeaveMenu(s.(stepCount := n)) == LeaveMenu(s).(stepCount := n) && LeaveMenu(s).stepCount == s.stepCount
  {
  }

  lemma PartedCounts(s: Call, n: nat)
    ensures Parted(s.(stepCount := n)) == Parted(s).(stepCount := n) && Parted(s).stepCount == s.stepCount
  {
  }

  lemma SpawnCounts(s: Call, t: Task, n: nat)
    ensures Spawn(s.(stepCount := n), t) == Spawn(s, t).(stepCount := n) && Spawn(s, t).stepCount == s.stepCount
  {
  }

  lemma LateCountKeeps(env: Env, s: Call)
    requires Sound(env, s, None) && s.ending && s.stepCount == MAX_STEPS_PER_CALL
    ensures Sound(env, s.(stepCount := s.stepCount + 1), None)
  {
    Flags(env, s, None);
    var s' := s.(stepCount := s.stepCount + 1);
    assert Kept(s') by { hide Led, Count, IdsFit, NumbersFit, TimersFit, HeardFit, PoolOf; }
    hide Kept, Work, Graces, TasksFit, Pool, TaskOk, DialedFit;
    SameWorkDialed(env, s, s', None);
  }

  /** The step beyond the limit only ends the call. */
  lemma OverLimitKeeps(env: Env, s: Call)
    requires Sound(env, s, None) && !s.ending && s.stepCount == MAX_STEPS_PER_CALL
    ensures
      var s' := EndCall(env, s.(stepCount := s.stepCount + 1), false);
      Sound(env, s', None) && s'.ending
  {
    hide Sound, Holders, EndCall;
    EndCallKeeps(env, s, false);
    EndCallCounts(env, s, s.stepCount + 1);
    LateCountKeeps(env, EndCall(env, s, false));
  }

  lemma StepLimit(env: Env, s: Call)
    requires Sound(env, s, None)
    ensures !s.ending ==> s.stepCount <= MAX_STEPS_PER_CALL
    ensures s.menu.None? ==> s.log.prompts <= PROMPTS_PER_MENU * StepsTaken(s)
    ensures s.menu.Some? ==>
              s.stepCount >= 1 && s.menu.value.misses <= MAX_MENU_REPEATS
              && s.log.prompts <= PROMPTS_PER_MENU * (StepsTaken(s) - 1) + s.menu.value.misses + 1
  {
    hide Led, Count, IdsFit, NumbersFit, TimersFit, HeardFit, PoolOf;
  }

  lemma AssistantKeeps(env: Env, s: Call)
    requires Sound(env, s, None) && !s.ending && Holders(s, None) == 0
    ensures HandedOn(env, StartAssistant(env, s))
  {
    var s1 := s.(aiActive := true);
    assert Sound(env, s1, None) && Holders(s1, None) == 1 by {
      TasksTold(env, s);
      assert Kept(s1) by {
        hide Led, Count, IdsFit, NumbersFit, TimersFit, HeardFit, PoolOf, CountsOk;
        SameCounts(s, s1);
      }
      hide Kept, Count, Graces, TasksFit, DialedFit, PoolOf;
    }
    hide Sound, Holders;
    FailKeeps(env, s1);
  }

  lemma TasksTold(env: Env, s: Call)
    requires Sound(env, s, None)
    ensures TasksFit(env, Pool(s), true, s.ending)
  {
    hide Kept, Count, FlowOk, EndingOk, StaffOk, Pool;
    TasksGrow(env, Pool(s), s.aiActive, s.ending, true, s.ending);
  }

  lemma {:induction false} EnterKeeps(env: Env, s: Call, step: Option<string>)
    requires Sound(env, s, None) && (!s.ending ==> Holders(s, None) == 0)
    ensures HandedOn(env, Enter(env, s, step))
    decreases MAX_STEPS_PER_CALL - s.stepCount, 0
  {
    hide Sound, Holders, EndCall, TakeStep, FindNode;
    StepLimit(env, s);
    if !s.ending {
      var node := if step.None? then None else FindNode(env.graph.nodes, step.value);
      if node.None? {
        EndCallKeeps(env, s, false);
      } else if s.stepCount == MAX_STEPS_PER_CALL {
        OverLimitKeeps(env, s);
      } else {
        NoMenu(s);
        VisitKeeps(env, s, node.value);
        TakeStepKeeps(env, Visit(s, node.value), node.value);
      }
    }
  }

  lemma {:induction false} TakeStepKeeps(env: Env, s: Call, node: FlowNode)
    requires Sound(env, s, None) && !s.ending && Holders(s, None) == 0
    requires 1 <= s.stepCount && s.log.prompts <= PROMPTS_PER_MENU * (StepsTaken(s) - 1)
    ensures HandedOn(env, TakeStep(env, s, node))
    decreases MAX_STEPS_PER_CALL - s.stepCount, 1
  {
    hide Sound, Holders, HandedOn, StepsTaken, Enter, EndCall, OpenMenu, BeginTransfer, StartVoicemail, StartAssistant,
      Spawn, StepTarget, NextNode;
    if node.kind == Start {
      EnterKeeps(env, s, NextNode(env.graph, node.id, None));
    } else if node.kind == HoursCheck {
      EnterKeeps(env, s, NextNode(env.graph, node.id, Some(if env.isOpen then "open" else "closed")));
    } else {
      StepKindKeeps(env, s, node);
    }
  }

  lemma NoMenu(s: Call)
    requires Holders(s, None) == 0
    ensures s.menu.None?
  {
  }

  /** The kinds of step that do not pass on at once. */
  lemma StepKindKeeps(env: Env, s: Call, node: FlowNode)
    requires Sound(env, s, None) && !s.ending && Holders(s, None) == 0
    requires 1 <= s.stepCount && s.log.prompts <= PROMPTS_PER_MENU * (StepsTaken(s) - 1)
    ensures HandedOn(env, OpenMenu(s, node, 0))
    ensures forall texting :: HandedOn(env, Spawn(s, StepPause(node, texting)))
    ensures HandedOn(env, BeginTransfer(env, s, FromStep(node), StepTarget(env, node)))
    ensures HandedOn(env, StartVoicemail(s, node))
    ensures HandedOn(env, StartAssistant(env, s))
    ensures HandedOn(env, EndCall(env, s, true))
  {
    hide Sound, Holders, StepsTaken;
    OpenMenuKeeps(env, s, node, 0);
    forall texting ensures HandedOn(env, Spawn(s, StepPause(node, texting))) {
      PlainTaskOk(env, StepPause(node, texting), s.aiActive, s.ending);
      SpawnStep(env, s, StepPause(node, texting));
    }
    BeginTransferKeeps(env, s, FromStep(node), StepTarget(env, node));
    StartVoicemailKeeps(env, s, node);
    AssistantKeeps(env, s);
    EndCallKeeps(env, s, true);
  }

  lemma FollowKeeps(env: Env, s: Call, id: string, handle: Option<string>)
    requires Sound(env, s, None) && (!s.ending ==> Holders(s, None) == 0)
    ensures HandedOn(env, FollowOrEnd(env, s, id, handle))
  {
    hide Sound, Holders, Enter, EndCall;
    EnterKeeps(env, s, NextNode(env.graph, id, handle));
    EndCallKeeps(env, s, false);
  }

  // ---- Menus ----

  lemma LeaveKeepsSteps(s: Call)
    ensures
      var s1 := LeaveMenu(s);
      StepsTaken(s1) == StepsTaken(s) && s1.stepCount == s.stepCount && s1.log == s.log && s1.ending == s.ending
  {
  }

  lemma RetryState(env: Env, s: Call)
    requires s.menu.Some?
    ensures
      var m := s.menu.value;
      RetryMenu(env, s) ==
      if m.misses < MenuRepeats(m.node) then OpenMenu(LeaveMenu(s), m.node, m.misses + 1)
      else FollowOrEnd(env, LeaveMenu(s), m.node.id, Some("no_input"))
  {
    hide LeaveMenu, FollowOrEnd, OpenMenu;
  }

  /** The menu can be asked again: it has a repeat left. */
  lemma RetryOpens(env: Env, s: Call)
    requires Sound(env, s, None) && s.menu.Some? && s.menu.value.misses < MenuRepeats(s.menu.value.node)
    ensures
      var s' := OpenMenu(LeaveMenu(s), s.menu.value.node, s.menu.value.misses + 1);
      Sound(env, s', None) && Holders(s', None) == 1
  {
    LeaveKeepsSteps(s);
    hide Sound, Holders, OpenMenu, StepsTaken, LeaveMenu;
    Flags(env, s, None);
    StepLimit(env, s);
    MenuHolds(env, s);
    LeaveMenuKeeps(env, s, None);
    OpenMenuKeeps(env, LeaveMenu(s), s.menu.value.node, s.menu.value.misses + 1);
  }

  lemma RetryKeeps(env: Env, s: Call)
    requires Sound(env, s, None) && s.menu.Some?
    ensures HandedOn(env, RetryMenu(env, s))
  {
    var m := s.menu.value;
    RetryState(env, s);
    LeaveKeepsSteps(s);
    hide Sound, Holders, FollowOrEnd, OpenMenu, StepsTaken, RetryMenu, LeaveMenu;
    MenuHolds(env, s);
    LeaveMenuKeeps(env, s, None);
    if m.misses < MenuRepeats(m.node) {
      RetryOpens(env, s);
    } else {
      FollowKeeps(env, LeaveMenu(s), m.node.id, Some("no_input"));
    }
  }

  lemma MenuHolds(env: Env, s: Call)
    requires Sound(env, s, None) && s.menu.Some?
    ensures Holders(s, None) == 1
  {
    hide Kept, Count, TransfersOk, EndingOk, StaffOk;
  }

  lemma ChooseState(env: Env, s: Call, key: MenuKey)
    requires s.menu.Some?
    ensures
      var m, s1 := s.menu.value, LeaveMenu(s);
      var staff := if key == '0' then PressZeroTarget(env) else None;
      Choose(env, s, key) ==
      if FindOption(m.node.options, key).Some? then FollowOrEnd(env, s1, m.node.id, Some(KeyHandle(key)))
      else if staff.Some? then BeginTransfer(env, s1, FromMenu, staff)
      else RetryMenu(env, s)
  {
    assert LeaveMenu(LeaveMenu(s)) == LeaveMenu(s);
    hide LeaveMenu, FollowOrEnd, BeginTransfer, RetryMenu, PressZeroTarget;
  }

  lemma ChooseKeeps(env: Env, s: Call, key: MenuKey)
    requires Sound(env, s, None) && s.menu.Some?
    ensures HandedOn(env, Choose(env, s, key))
  {
    var m, s1 := s.menu.value, LeaveMenu(s);
    LeaveKeepsSteps(s);
    ChooseState(env, s, key);
    hide Sound, Holders, FollowOrEnd, BeginTransfer, RetryMenu, LeaveMenu, Choose, PressZeroTarget, FindOption;
    Flags(env, s, None);
    MenuHolds(env, s);
    LeaveMenuKeeps(env, s, None);
    RetryKeeps(env, s);
    FollowKeeps(env, s1, m.node.id, Some(KeyHandle(key)));
    BeginTransferKeeps(env, s1, FromMenu, if key == '0' then PressZeroTarget(env) else None);
  }

  // ---- Input ----

  /** An assistant that wants a transfer keeps the flow while it goes on. */
  lemma AssistantTransferKeeps(env: Env, s: Call, target: Target)
    requires Sound(env, s, None) && s.aiActive && !s.ending && !s.transferring
    ensures
      var s' := StartTransfer(env, s, FromAssistant, target);
      Sound(env, s', None) && Holders(s', None) == Holders(s, None)
  {
    Flags(env, s, None);
    assert LeaveMenu(s) == s;
    hide Sound, Holders, BeginTransfer;
    BeginTransferKeeps(env, s, FromAssistant, Some(target));
  }
}
