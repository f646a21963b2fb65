/**
 * The controller object itself. Each method is one synchronous stretch of the source's
 * methods, updates the fields in place and is proved to do exactly what the state machine
 * of CallEngine does; what holds on every run of that machine therefore holds of the object.
 */
module CallController {
  import opened Options
  import opened CallFlow
  import opened CallEngine
  import opened Dialing
  import E = CallEngine
  import CallInvariants
  import CallEvents
  import CallWaiting
  import Text

  class Controller {
    const env: Env
    var started: bool
    var ending: bool
    var disposed: bool
    var inPreamble: bool
    var transferring: bool
    var aiActive: bool
    var failed: bool
    var rating: Option<nat>
    var stepCount: nat
    var menuToken: nat
    var menu: Option<MenuState>
    var voicemail: Option<VoicemailState>
    var answer: Option<Question>
    var timers: map<Id, Timer>
    var tasks: map<Id, Task>
    var nextId: Id
    var textsSent: nat
    var speaking: bool
    var log: Log

    ghost function View(): Call
      reads this
    {
      Call(started, ending, disposed, inPreamble, transferring, aiActive, failed, rating, stepCount, menuToken, menu,
           voicemail, answer, timers, tasks, nextId, textsSent, speaking, log)
    }

    /** What every event keeps. */
    ghost predicate Valid()
      reads this
    {
      CallInvariants.Good(env, View())
    }

    constructor (env: Env)
      ensures this.env == env && View() == NEW_CALL && Valid()
    {
      this.env := env;
      var s := NEW_CALL;
      started, ending, disposed, inPreamble := s.started, s.ending, s.disposed, s.inPreamble;
      transferring := s.transferring;
      aiActive, failed, rating, stepCount, menuToken := s.aiActive, s.failed, s.rating, s.stepCount, s.menuToken;
      menu, voicemail, answer, timers, tasks, nextId := s.menu, s.voicemail, s.answer, s.timers, s.tasks, s.nextId;
      textsSent, speaking, log := s.textsSent, s.speaking, s.log;
      new;
      hide CallInvariants.Good;
      CallEvents.NewCallIsGood(env);
    }

    // ---- Pending work and timers ----

    method Await(task: Task)
      modifies `tasks, `nextId
      ensures View() == E.Spawn(old(View()), task)
    {
      tasks := tasks[nextId := task];
      nextId := nextId + 1;
    }

    method SetTimer(timer: Timer) returns (id: Id)
      modifies `timers, `nextId
      ensures View() == E.SetTimer(old(View()), timer) && id == old(nextId)
    {
      id := nextId;
      timers := timers[id := timer];
      nextId := nextId + 1;
    }

    method ClearTimer(timer: Option<Id>)
      modifies `timers
      ensures timers == Without(old(timers), timer)
    {
      if timer.Some? { timers := timers - {timer.value}; }
    }

    method StartCallLimit()
      modifies `timers, `nextId
      ensures View() == E.SetTimer(old(View()), CallLimit)
    {
      var id := SetTimer(CallLimit);
    }

    method QuietVoicemail()
      modifies `timers, `voicemail
      ensures View() == E.QuietVoicemail(old(View()))
    {
      if voicemail.Some? {
        var v := voicemail.value;
        ClearTimer(v.timer);
        ClearTimer(v.maxTimer);
        voicemail := Some(v.(listening := false, timer := None, maxTimer := None));
      }
    }

    method Dispose()
      modifies this
      ensures View() == E.Dispose(old(View()))
    {
      hide E.Settle, E.QuietVoicemail;
      if disposed { return; }
      Settle(None);
      QuietVoicemail();
      Close();
    }

    method Close()
      modifies `disposed, `ending, `timers, `menu
      ensures View() == old(View()).(disposed := true, ending := true, timers := map[], menu := None)
    {
      disposed, ending, timers, menu := true, true, map[], None;
    }

    // ---- Questions ----

    method Settle(reply: Option<Reply>)
      modifies `answer, `timers, `tasks, `log
      ensures View() == E.Settle(old(View()), reply)
    {
      hide Without;
      if answer.Some? {
        var q := answer.value;
        ClearTimer(q.timer);
        answer, tasks, log := None, tasks[q.id := Replied(q.waiter, reply)], log.(replies := log.replies + 1);
      }
    }

    method Ask(waiter: Waiter)
      modifies `answer, `timers, `tasks, `log, `nextId
      ensures View() == E.Ask(old(View()), waiter)
    {
      Settle(None);
      answer := Some(Question(nextId, waiter, true, None));
      nextId := nextId + 1;
      log := log.(asked := log.asked + 1);
    }

    method QuestionPlayed(id: Id, spoken: bool)
      modifies `answer, `timers, `tasks, `log, `nextId
      ensures View() == E.QuestionPlayed(old(View()), id, spoken)
    {
      if answer.None? || answer.value.id != id || !answer.value.playing { return; }
      if !spoken {
        Settle(None);
      } else {
        var timer := SetTimer(AnswerWait(id));
        answer := Some(answer.value.(playing := false, timer := Some(timer)));
      }
    }

    // ---- Ending ----

    method LeaveMenu()
      modifies `menu, `timers
      ensures View() == E.LeaveMenu(old(View()))
    {
      ClearTimer(if menu.Some? then menu.value.timer else None);
      menu := None;
    }

    method Part()
      modifies `ending, `log, `timers, `voicemail
      ensures View() == Parted(old(View()))
    {
      hide E.QuietVoicemail;
      ending := true;
      log := log.(goodbyes := log.goodbyes + 1);
      QuietVoicemail();
    }

    method EndCall(survey: bool)
      modifies this
      ensures View() == E.EndCall(env, old(View()), survey)
    {
      hide Parted, E.Ask, E.Spawn;
      if ending { return; }
      LeaveMenu();
      assert View().failed == old(failed) && View().rating == old(rating);
      hide E.LeaveMenu;
      Part();
      if survey && env.csatEnabled && !failed && rating.None? {
        Ask(RatingQuestion);
      } else {
        Await(Goodbye);
      }
    }

    method Fail()
      modifies this
      ensures View() == E.Fail(env, old(View()))
    {
      failed := true;
      hide E.EndCall;
      EndCall(false);
    }

    // ---- Transfers ----

    method Transfer(origin: Origin, target: Option<Target>)
      modifies this
      ensures View() == E.BeginTransfer(env, old(View()), origin, target)
    {
      hide E.Spawn, E.Ask, E.StartDialing;
      if ending || transferring {
        Await(TransferDone(origin, Ended));
      } else if target.None? || !env.canDial(target.value.phone) {
        Await(TransferDone(origin, Unavailable));
      } else if env.warmDialer.None? && !env.testCall {
        Await(TransferDone(origin, Unavailable));
      } else {
        transferring := true;
        var x := E.Transfer(origin, target.value);
        if env.offerTextWhenNoAnswer && textsSent < MAX_TEXTS_PER_CALL && (env.hasCallerPhone || env.testCall) {
          Ask(TextOffer(x));
        } else {
          StartDialing(x, false);
        }
      }
    }

    method StartDialing(x: E.Transfer, optIn: bool)
      modifies this
      ensures View() == E.StartDialing(env, old(View()), x, optIn)
    {
      hide E.Spawn, E.DialOrGiveUp;
      if env.warmDialer.None? {
        Await(TestHold(x, optIn));
      } else if env.warmDialer.value {
        DialOrGiveUp(x, optIn, 0);
      } else {
        Await(ColdHold(x, optIn));
      }
    }

    method DialOrGiveUp(x: E.Transfer, optIn: bool, attempt: nat)
      modifies this
      ensures View() == E.DialOrGiveUp(env, old(View()), x, optIn, attempt)
    {
      var attempts := if env.warmDialer == Some(true) then 1 + x.target.retries else 1;
      if attempt < attempts && !ending {
        Await(Dialing(x, optIn, attempt));
        log := log.(dialed := log.dialed + [x.target.phone]);
      } else {
        AfterDial(x, optIn, NoAnswer);
      }
    }

    method AfterDial(x: E.Transfer, optIn: bool, result: DialResult)
      modifies this
      ensures View() == E.AfterDial(old(View()), x, optIn, result)
    {
      if result == Answered {
        log := log.(recordingStops := log.recordingStops + 1, answers := log.answers + 1);
      }
      Await(HoldTail(x, optIn, result));
    }

    method Finish(x: E.Transfer, outcome: Outcome)
      modifies this
      ensures View() == E.Finish(old(View()), x, outcome)
    {
      transferring := false;
      Await(TransferDone(x.origin, outcome));
    }

    method PostDial(x: E.Transfer, optIn: bool, result: DialResult)
      modifies this
      ensures View() == E.PostDial(old(View()), x, optIn, result)
    {
      hide E.Finish, E.LeaveMenu;
      if ending {
        if result == Answered && disposed {
          Await(ClearingRoom(x));
          log := log.(clears := log.clears + 1);
        } else {
          if result == Answered { log := log.(dropped := log.dropped + 1); }
          Finish(x, Ended);
        }
      } else if result == NoAnswer {
        Await(NoAnswerNotice(x, optIn));
      } else {
        ending := true;
        log := log.(connects := log.connects + 1);
        LeaveMenu();
        if result == Answered { Await(Connecting(x)); } else { Finish(x, Connected); }
      }
    }

    method StartTransfer(origin: Origin, target: Target)
      modifies this
      ensures View() == E.StartTransfer(env, old(View()), origin, target)
    {
      hide E.BeginTransfer;
      LeaveMenu();
      Transfer(origin, Some(target));
    }

    // ---- Menus ----

    method OpenMenu(node: FlowNode, misses: nat)
      modifies `tasks, `nextId, `menuToken, `menu, `log
      ensures View() == E.OpenMenu(old(View()), node, misses)
    {
      menuToken := menuToken + 1;
      menu := Some(MenuState(node, misses, menuToken, None));
      Await(MenuPrompt(menuToken));
      log := log.(prompts := log.prompts + 1);
    }

    method ArmMenuTimer()
      modifies `timers, `nextId, `menu
      ensures View() == E.ArmMenuTimer(old(View()))
    {
      if menu.Some? {
        ClearTimer(menu.value.timer);
        var timer := SetTimer(MenuWait(menu.value.token));
        menu := Some(menu.value.(timer := Some(timer)));
      }
    }

    method StopMenuTimer()
      modifies `timers, `menu
      ensures View() == E.StopMenuTimer(old(View()))
    {
      if menu.Some? {
        ClearTimer(menu.value.timer);
        menu := Some(menu.value.(timer := None));
      }
    }

    // ---- Voicemail ----

    method StopVoicemailTimer()
      modifies `timers, `voicemail
      ensures View() == E.StopVoicemailTimer(old(View()))
    {
      if voicemail.Some? {
        ClearTimer(voicemail.value.timer);
        voicemail := Some(voicemail.value.(timer := None));
      }
    }

    method StartVoicemail(node: FlowNode)
      modifies `tasks, `nextId, `voicemail, `log
      ensures View() == E.StartVoicemail(old(View()), node)
    {
      var id := nextId;
      nextId := nextId + 1;
      voicemail := Some(VoicemailState(id, node, [], false, None, None));
      log := log.(heard := log.heard[id := []]);
      Await(VoicemailPrompt(id));
    }

    method ArmVoicemailTimer()
      modifies `timers, `nextId, `voicemail
      ensures View() == E.ArmVoicemailTimer(old(View()))
    {
      if voicemail.None? || ending { return; }
      ClearTimer(voicemail.value.timer);
      var timer := SetTimer(VoicemailSilence(voicemail.value.id));
      voicemail := Some(voicemail.value.(timer := Some(timer)));
    }

    method TakeVoicemail() returns (taken: Option<(FlowNode, string)>)
      modifies `timers, `voicemail, `log
      ensures View() == E.TakeVoicemail(old(View()))
      ensures taken ==
              if old(voicemail).None? then None
              else Some((old(voicemail).value.node, Message(old(voicemail).value.parts)))
    {
      hide Without, FirstChars, Text.Trim, Text.JoinWords;
      if voicemail.None? { return None; }
      var v := voicemail.value;
      ClearTimer(v.timer);
      ClearTimer(v.maxTimer);
      voicemail := None;
      var message := Text.Trim(Text.JoinWords(v.parts));
      if message != "" {
        log := log.(offered := log.offered + [(v.id, FirstChars(message, MAX_VOICEMAIL_CHARS))]);
      }
      return Some((v.node, message));
    }

    method FinishVoicemail()
      modifies this
      ensures View() == E.FinishVoicemail(old(View()))
    {
      hide E.TakeVoicemail, E.Spawn, Message;
      var taken := TakeVoicemail();
      if taken.Some? {
        var (node, message) := taken.value;
        if message != "" { Await(SavingVoicemail(node)); } else { Await(VoicemailNotice(node)); }
      } else {
        assert View() == old(View()) by { CallWaiting.NothingToTake(old(View())); }
      }
    }

    method FlushVoicemail()
      modifies this
      ensures View() == E.FlushVoicemail(old(View()))
    {
      hide E.TakeVoicemail, E.Spawn, Message;
      var taken := TakeVoicemail();
      if taken.None? {
        assert View() == old(View()) by { CallWaiting.NothingToTake(old(View())); }
      } else if taken.value.1 != "" {
        Await(FlushSave);
      }
    }

    // ---- Flow ----

    method StartAiAssistant()
      modifies this
      ensures View() == E.StartAssistant(env, old(View()))
    {
      hide E.Fail;
      aiActive := true;
      if !env.assistantStarts { Fail(); }
    }

    method Enter(step: Option<string>)
      modifies this
      ensures View() == E.Enter(env, old(View()), step)
      decreases MAX_STEPS_PER_CALL - stepCount, 0
    {
      hide E.EndCall, E.TakeStep, FindNode;
      if ending { return; }
      var node := if step.None? then None else FindNode(env.graph.nodes, step.value);
      if node.None? {
        EndCall(false);
        return;
      }
      stepCount := stepCount + 1;
      if stepCount > MAX_STEPS_PER_CALL {
        EndCall(false);
      } else {
        log := log.(visited := log.visited + [node.value]);
        TakeStep(node.value);
      }
    }

    method TakeStep(node: FlowNode)
      modifies this
      ensures View() == E.TakeStep(env, old(View()), node)
      decreases MAX_STEPS_PER_CALL - stepCount, 1
    {
      hide E.Enter, E.EndCall, E.BeginTransfer, E.StartVoicemail, E.StartAssistant, E.OpenMenu, E.Spawn, NextNode,
        StepTarget;
      match node.kind
      case Start => Enter(NextNode(env.graph, node.id, None));
      case HoursCheck => Enter(NextNode(env.graph, node.id, Some(if env.isOpen then "open" else "closed")));
      case PlayMessage => Await(StepPause(node, false));
      case KeypadMenu => OpenMenu(node, 0);
      case TextLink =>
        Await(StepPause(node, (env.hasCallerPhone || env.testCall) && textsSent < MAX_TEXTS_PER_CALL));
      case TransferCall => Transfer(FromStep(node), StepTarget(env, node));
      case Voicemail => StartVoicemail(node);
      case AiAgent => StartAiAssistant();
      case HangUp => EndCall(true);
    }

    method FollowOrEnd(id: string, handle: Option<string>)
      modifies this
      ensures View() == E.FollowOrEnd(env, old(View()), id, handle)
    {
      hide E.Enter, E.EndCall, NextNode;
      var next := NextNode(env.graph, id, handle);
      if next.Some? { Enter(next); } else { EndCall(false); }
    }

    method RetryMenu()
      modifies this
      ensures View() == E.RetryMenu(env, old(View()))
    {
      hide E.FollowOrEnd, E.OpenMenu, E.LeaveMenu;
      if menu.None? { return; }
      var m := menu.value;
      var repeats := MenuRepeats(m.node);
      LeaveMenu();
      if m.misses < repeats {
        OpenMenu(m.node, m.misses + 1);
      } else {
        FollowOrEnd(m.node.id, Some("no_input"));
      }
    }

    method Choose(key: MenuKey)
      modifies this
      ensures View() == E.Choose(env, old(View()), key)
    {
      hide E.FollowOrEnd, E.RetryMenu, E.LeaveMenu, E.StartTransfer, PressZeroTarget, FindOption;
      if menu.None? { return; }
      var m := menu.value;
      if FindOption(m.node.options, key).None? {
        var staff := if key == '0' then PressZeroTarget(env) else None;
        if staff.Some? {
          LeaveMenu();
          StartTransfer(FromMenu, staff.value);
        } else {
          RetryMenu();
        }
      } else {
        LeaveMenu();
        FollowOrEnd(m.node.id, Some(KeyHandle(key)));
      }
    }

    // ---- Input ----

    method OnKeypad(key: MenuKey)
      modifies this
      ensures View() == E.OnKeypad(env, old(View()), key)
    {
      hide E.Settle, E.FinishVoicemail, E.StartTransfer, E.Choose, PressZeroTarget;
      if !IsMenuKey(key) || inPreamble || disposed { return; }
      if answer.Some? {
        Settle(Some(KeyReply(key)));
      } else if ending {
      } else if voicemail.Some? {
        if key == '#' { FinishVoicemail(); }
      } else if aiActive {
        if key == '0' && !transferring {
          var staff := PressZeroTarget(env);
          if staff.Some? { StartTransfer(FromAssistant, staff.value); }
        }
      } else {
        Choose(key);
      }
    }

    method OnCallerSpeech(text: string)
      modifies this
      ensures View() == E.OnCallerSpeech(env, old(View()), text)
    {
      hide E.Settle, E.Choose, E.RetryMenu, E.ArmVoicemailTimer, Text.Trim;
      var spoken := Text.Trim(text);
      if spoken == "" || inPreamble { return; }
      if answer.Some? {
        Settle(Some(TextReply(spoken)));
      } else if ending {
      } else if voicemail.Some? {
        var v := voicemail.value;
        voicemail := Some(v.(parts := v.parts + [spoken]));
        log := log.(heard := log.heard[v.id := v.parts + [spoken]]);
        if v.listening { ArmVoicemailTimer(); }
      } else if menu.Some? {
        var key := env.matchMenuChoice(menu.value.node.options, spoken);
        if key.Some? { Choose(key.value); } else { RetryMenu(); }
      }
    }

    method TakeSpokenAnswer(text: string)
      modifies this
      ensures View() == E.OnAssistantTurn(old(View()), text)
    {
      hide E.Settle, Text.Trim;
      var spoken := Text.Trim(text);
      if spoken == "" { return; }
      Settle(Some(TextReply(spoken)));
    }

    method OnCallerStartedSpeaking()
      modifies this
      ensures View() == E.OnCallerStartedSpeaking(old(View()))
    {
      hide E.StopMenuTimer, E.StopVoicemailTimer;
      speaking := true;
      StopMenuTimer();
      StopVoicemailTimer();
    }

    method OnCallerStoppedSpeaking()
      modifies this
      ensures View() == E.OnCallerStoppedSpeaking(old(View()))
    {
      hide E.ArmMenuTimer, E.ArmVoicemailTimer;
      if !ending {
        if menu.Some? && menu.value.timer.None? { ArmMenuTimer(); }
        if voicemail.Some? && voicemail.value.listening && voicemail.value.timer.None? { ArmVoicemailTimer(); }
      }
      speaking := false;
    }

    method Begin()
      modifies this
      ensures View() == E.Begin(old(View()))
    {
      if started { return; }
      started, inPreamble := true, true;
      Await(Preamble);
    }

    method TransferFromAssistant(caseId: Option<string>)
      modifies this
      ensures View() == E.ToolTransfer(env, old(View()), caseId)
    {
      hide E.StartTransfer;
      var target := env.resolveTransfer(caseId);
      if target.None? || transferring || ending { return; }
      if !env.canDial(target.value.phone) { return; }
      StartTransfer(FromAssistant, target.value);
    }

    // ---- After an await ----

    method PreambleSpoken()
      modifies this
      ensures forall r :: View() == E.Resume(env, old(View()), Preamble, r)
    {
      hide E.Enter, E.Fail, FindStart;
      inPreamble := false;
      var start := FindStart(env.graph.nodes);
      if start.None? { Fail(); } else { Enter(Some(start.value.id)); }
    }

    method StepDone(node: FlowNode, texting: bool, r: Result)
      modifies this
      ensures View() == E.Resume(env, old(View()), StepPause(node, texting), r)
    {
      hide E.Enter, NextNode;
      if texting && r.ok { textsSent := textsSent + 1; }
      Enter(NextNode(env.graph, node.id, None));
    }

    method PromptPlayed(task: Task, r: Result)
      requires task.MenuPrompt? || task.VoicemailPrompt?
      modifies this
      ensures View() == E.Resume(env, old(View()), task, r)
    {
      hide E.ArmMenuTimer, E.ArmVoicemailTimer;
      if task.MenuPrompt? {
        if menu.Some? && menu.value.token == task.token { ArmMenuTimer(); }
      } else if voicemail.Some? && voicemail.value.id == task.id && !ending {
        var timer := SetTimer(VoicemailMax(task.id));
        voicemail := Some(voicemail.value.(listening := true, maxTimer := Some(timer)));
        ArmVoicemailTimer();
      }
    }

    method AnswerSettled(waiter: Waiter, reply: Option<Reply>, r: Result)
      modifies this
      ensures View() == E.Resume(env, old(View()), Replied(waiter, reply), r)
    {
      hide E.StartDialing, E.Finish, E.Spawn, E.Enter, E.FollowOrEnd, E.EndCall, E.Fail;
      match waiter
      case TextOffer(x) =>
        if ending { Finish(x, Ended); } else { StartDialing(x, reply.Some? && env.parseYes(reply.value)); }
      case RatingQuestion =>
        var given := if reply.Some? then env.parseRating(reply.value) else None;
        if given.None? {
          Await(Goodbye);
        } else {
          rating := given;
          Await(RatingThanks);
        }
    }

    method TransferMoves(task: Task, r: Result)
      requires
        || task.TestHold? || task.ColdHold? || task.Dialing? || task.HoldTail? || task.NoAnswerNotice?
        || task.FollowUp?
      modifies this
      ensures View() == E.Resume(env, old(View()), task, r)
    {
      hide E.PostDial, E.DialOrGiveUp, E.AfterDial, E.Finish, E.Spawn, E.Enter, E.FollowOrEnd, E.EndCall, E.Fail,
        E.StartDialing, E.SetTimer, E.ArmMenuTimer, E.ArmVoicemailTimer, Listen;
      match task
      case TestHold(x, optIn) => PostDial(x, optIn, NoAnswer);
      case ColdHold(x, optIn) => DialOrGiveUp(x, optIn, 0);
      case Dialing(x, optIn, attempt) =>
        if r.dial == NoAnswer { DialOrGiveUp(x, optIn, attempt + 1); } else { AfterDial(x, optIn, r.dial); }
      case HoldTail(x, optIn, result) => PostDial(x, optIn, result);
      case NoAnswerNotice(x, optIn) =>
        if optIn { Await(FollowUp(x)); } else { Finish(x, if ending then Ended else Unavailable); }
      case FollowUp(x) =>
        if r.ok { textsSent := textsSent + 1; }
        Finish(x, if ending then Ended else Unavailable);
    }

    method TransferEnded(origin: Origin, outcome: Outcome, r: Result)
      modifies this
      ensures View() == E.Resume(env, old(View()), TransferDone(origin, outcome), r)
    {
      hide E.Enter, E.EndCall, NextNode;
      if outcome != Unavailable { return; }
      if origin.FromStep? {
        Enter(NextNode(env.graph, origin.node.id, Some("no_answer")));
      } else if !ending && !aiActive {
        EndCall(false);
      }
    }

    method Leave(task: Task, r: Result)
      requires task.Connecting? || task.Leaving? || task.ClearingRoom?
      modifies this
      ensures View() == E.Resume(env, old(View()), task, r)
    {
      match task
      case Connecting(x) =>
        Await(Leaving(x));
        log := log.(leaves := log.leaves + 1);
      case Leaving(x) => Finish(x, Connected);
      case ClearingRoom(x) => Finish(x, Ended);
    }

    method GoodbyeMoves(task: Task, r: Result)
      requires task.RatingThanks? || task.Goodbye? || task.HangUpNow? || task.FlushSave? || task.SavingVoicemail?
      modifies this
      ensures View() == E.Resume(env, old(View()), task, r)
    {
      hide E.Spawn, E.SetTimer, E.Enter, E.FollowOrEnd, E.EndCall, E.Fail, E.StartDialing, E.DialOrGiveUp, E.AfterDial,
        E.PostDial, E.Finish, E.ArmMenuTimer, E.ArmVoicemailTimer, Listen;
      match task
      case RatingThanks => Await(Goodbye);
      case Goodbye => if !disposed { var timer := SetTimer(HangUpGrace); }
      case HangUpNow => log := log.(hangUps := log.hangUps + 1);
      case FlushSave =>
      case SavingVoicemail(node) => Await(VoicemailNotice(node));
    }

    method Resume(task: Task, r: Result)
      modifies this
      ensures View() == E.Resume(env, old(View()), task, r)
    {
      match task {
        case Preamble => hide E.Resume; PreambleSpoken();
        case StepPause(node, texting) => hide E.Resume; StepDone(node, texting, r);
        case MenuPrompt(_) => hide E.Resume; PromptPlayed(task, r);
        case VoicemailPrompt(_) => hide E.Resume; PromptPlayed(task, r);
        case VoicemailNotice(node) => hide E.FollowOrEnd; FollowOrEnd(node.id, None);
        case Replied(waiter, reply) => hide E.Resume; AnswerSettled(waiter, reply, r);
        case TransferDone(origin, outcome) => hide E.Resume; TransferEnded(origin, outcome, r);
        case Connecting(_) => hide E.Resume; Leave(task, r);
        case Leaving(_) => hide E.Resume; Leave(task, r);
        case ClearingRoom(_) => hide E.Resume; Leave(task, r);
        case RatingThanks => hide E.Resume; GoodbyeMoves(task, r);
        case Goodbye => hide E.Resume; GoodbyeMoves(task, r);
        case HangUpNow => hide E.Resume; GoodbyeMoves(task, r);
        case FlushSave => hide E.Resume; GoodbyeMoves(task, r);
        case SavingVoicemail(_) => hide E.Resume; GoodbyeMoves(task, r);
        case _ => hide E.Resume; TransferMoves(task, r);
      }
    }

    method TimerFires(timer: Timer)
      modifies this
      ensures View() == E.Fire(env, old(View()), timer)
    {
      hide E.EndCall, E.RetryMenu, E.FinishVoicemail, E.Settle, E.Spawn;
      match timer
      case CallLimit => EndCall(false);
      case MenuWait(_) => RetryMenu();
      case VoicemailSilence(_) => FinishVoicemail();
      case VoicemailMax(_) => FinishVoicemail();
      case AnswerWait(id) => if answer.Some? && answer.value.id == id { Settle(None); }
      case HangUpGrace =>
        log := log.(graces := log.graces + 1);
        Await(HangUpNow);
    }

    /** What the caller, the assistant or the session does. */
    method HandleInput(e: Event)
      requires !e.TimerFires? && !e.Resumes? && !e.Played?
      modifies this
      ensures View() == Step(env, old(View()), e)
    {
      hide E.OnKeypad, E.OnCallerSpeech, E.OnAssistantTurn, E.OnCallerStartedSpeaking, E.OnCallerStoppedSpeaking,
        E.Resume, E.Fire, E.QuestionPlayed, E.ToolTransfer, E.EndCall, E.Dispose, E.FlushVoicemail, E.SetTimer, E.Begin;
      match e
      case BeginCall => Begin();
      case StartCallLimit => StartCallLimit();
      case Keypad(key) => OnKeypad(key);
      case CallerSpeech(text) => OnCallerSpeech(text);
      case AssistantTurn(text) => if aiActive { TakeSpokenAnswer(text); }
      case CallerStarted => OnCallerStartedSpeaking();
      case CallerStopped => OnCallerStoppedSpeaking();
      case EndCallTool => if aiActive && !transferring { EndCall(true); }
      case TransferTool(caseId) => if aiActive { TransferFromAssistant(caseId); }
      case Disposed => Dispose();
      case Flushed => if disposed { FlushVoicemail(); }
    }

    /** What was waited for has come. */
    method HandleWork(e: Event)
      requires e.TimerFires? || e.Resumes? || e.Played?
      modifies this
      ensures View() == Step(env, old(View()), e)
    {
      hide E.Resume, E.Fire, E.QuestionPlayed, E.Dispose, E.FlushVoicemail, E.OnKeypad, E.OnCallerSpeech,
        E.ToolTransfer, E.OnCallerStartedSpeaking, E.OnCallerStoppedSpeaking, E.OnAssistantTurn, E.ToolEndCall;
      match e
      case TimerFires(id) =>
        if id in timers {
          var timer := timers[id];
          timers := timers - {id};
          if !disposed { TimerFires(timer); }
        }
      case Resumes(id, result) =>
        if id in tasks {
          var task := tasks[id];
          tasks := tasks - {id};
          Resume(task, result);
        }
      case Played(id, spoken) => QuestionPlayed(id, spoken);
    }

    /** One event, exactly as the state machine takes it. */
    method Handle(e: Event)
      requires Valid()
      modifies this
      ensures View() == Step(env, old(View()), e) && Valid()
    {
      CallEvents.StepKeeps(env, View(), e);
      hide CallInvariants.Good, Step;
      if e.TimerFires? || e.Resumes? || e.Played? { HandleWork(e); } else { HandleInput(e); }
    }
  }
}
