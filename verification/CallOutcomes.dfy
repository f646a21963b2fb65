/** What becomes of messages, staff and menu turns on every run. */
module CallOutcomes {
  import opened Options
  import opened CallFlow
  import opened CallEngine
  import opened Dialing
  import opened CallInvariants
  import opened CallSegments
  import opened CallWaiting
  import opened CallSteps
  import opened CallProgress
  import opened CallEvents
  import opened CallTheorems
  import Text

  // ---- Voicemail ----

  /** An offered message is everything that voicemail heard, in order; no voicemail is offered twice. */
  lemma MessagesAreFaithful(env: Env, events: seq<Event>)
    ensures
      var log := Run(env, events).log;
      && (forall k :: 0 <= k < |log.offered| ==> Faithful(log.heard, log.offered[k]))
      && (forall j, k :: 0 <= j < k < |log.offered| ==> log.offered[j].0 != log.offered[k].0)
  {
    RunKeeps(env, events);
    hide Led, Driven, IdsOk, TimersOk, PromptsOk, CountsOk, Run, Faithful;
  }

  /** An utterance while a voicemail is live joins what it heard, whether or not it listens yet. */
  lemma UtteranceIsHeard(env: Env, s: Call, text: string)
    requires Good(env, s) && s.voicemail.Some? && !s.ending && Text.Trim(text) != ""
    ensures
      var v, s' := s.voicemail.value, Step(env, s, CallerSpeech(text));
      v.id in s'.log.heard && s'.log.heard[v.id] == s.log.heard[v.id] + [Text.Trim(text)]
  {
    GoodKnowsHeard(env, s);
    VoicemailAlone(env, s);
    StepSpeaks(env, s, text);
    var v, spoken := s.voicemail.value, Text.Trim(text);
    var s1 := s.(
      voicemail := Some(v.(parts := v.parts + [spoken])),
      log := s.log.(heard := s.log.heard[v.id := v.parts + [spoken]]));
    ArmedHeard(s1);
    hide Good, Text.Trim, ArmVoicemailTimer, Step, Settle;
  }

  /** While a voicemail is live no question is open and no notice plays. */
  lemma VoicemailAlone(env: Env, s: Call)
    requires Good(env, s) && s.voicemail.Some? && !s.ending
    ensures s.answer.None? && !s.inPreamble && s.voicemail.value.id < s.nextId
  {
    Alone(env, s);
    hide Led, Driven, TimersOk, PromptsOk, CountsOk, VoicemailsOk;
  }

  /** An open question belongs to a transfer that drives the call, unless the assistant asked for it. */
  lemma QuestionDrives(env: Env, s: Call)
    requires Good(env, s) && s.answer.Some? && !s.ending && !s.aiActive
    ensures Count(Pool(s), Driving) >= 1
  {
    var q := s.answer.value;
    assert q.id in Pool(s) && Pool(s)[q.id] == Replied(q.waiter, None);
    assert TaskOk(env, Pool(s)[q.id], s.aiActive, s.ending) && q.waiter.TextOffer? by {
      hide Kept, FlowOk, StaffOk, Count, Pool;
    }
    assert q.id in Those(Pool(s), Driving);
  }

  /** With a menu or a voicemail open nothing else drives the call, so no question is open. */
  lemma Alone(env: Env, s: Call)
    requires Good(env, s) && (s.menu.Some? || s.voicemail.Some?) && !s.ending
    ensures s.answer.None? && !s.inPreamble && !s.aiActive && Count(Pool(s), Driving) == 0
  {
    assert Count(Pool(s), Driving) == 0 && !s.aiActive by { hide Kept, TransfersOk, EndingOk, StaffOk, Count, Pool; }
    assert Those(Pool(s), Driving) == {};
    assert Those(Pool(s), NoticePlaying) <= Those(Pool(s), Driving);
    assert Count(Pool(s), NoticePlaying) == 0;
    assert !s.inPreamble by { hide Kept, TransfersOk, EndingOk, StaffOk, Count, Pool; }
    hide Good, Count;
    if s.answer.Some? { QuestionDrives(env, s); }
  }

  lemma FlushedIsClosed(env: Env, s: Call)
    ensures Step(env, Dispose(s), Flushed).voicemail.None?
  {
    DisposeEnds(s);
    hide Dispose, TakeVoicemail, Message;
    TakeFlags(Dispose(s));
  }

  lemma DisposeEnds(s: Call)
    ensures Dispose(s).disposed
  {
    hide Settle, QuietVoicemail;
  }

  /**
   * Whatever a caller says to a live voicemail is handed over to be saved by the time the call
   * is torn down, in one message with all the rest of it: neither timers, keys, hang-ups nor
   * the end of the call in between can lose it. Only the message's length can: it is handed
   * over whole exactly when what was said up to and including it joins to at most 1000
   * characters. A save that fails then is another matter.
   */
  lemma NothingSaidIsLost(env: Env, before: seq<Event>, text: string, after: seq<Event>)
    requires Run(env, before).voicemail.Some? && !Run(env, before).ending && Text.Trim(text) != ""
    ensures
      var v := Run(env, before).voicemail.value;
      var end := Run(env, before + [CallerSpeech(text)] + after + [Disposed] + [Flushed]);
      && v.id in end.log.heard && v.parts + [Text.Trim(text)] <= end.log.heard[v.id]
      && var so, all := Text.JoinWords(v.parts + [Text.Trim(text)]), Text.JoinWords(end.log.heard[v.id]);
      && (so <= FirstChars(all, MAX_VOICEMAIL_CHARS) <==> |so| <= MAX_VOICEMAIL_CHARS)
      && (FirstChars(all, MAX_VOICEMAIL_CHARS) == all <==> |all| <= MAX_VOICEMAIL_CHARS)
      && exists k :: 0 <= k < |end.log.offered| && end.log.offered[k] == (v.id, FirstChars(all, MAX_VOICEMAIL_CHARS))
  {
    hide Good, Step, Text.Trim, Text.JoinWords, FirstChars, HeardGrows, Run;
    var s, said := Run(env, before), before + [CallerSpeech(text)];
    var v, end := s.voicemail.value, Run(env, said + after + [Disposed] + [Flushed]);
    HeardInTheEnd(env, before, text);
    TornDown(env, said, after);
    HeardByThen(env, s, Run(env, said), end, v.id);
    ClosedIsOffered(env, end, v.id);
    WordsSurvive(v.parts + [Text.Trim(text)], end.log.heard[v.id], MAX_VOICEMAIL_CHARS);
  }

  lemma HeardInTheEnd(env: Env, before: seq<Event>, text: string)
    requires Run(env, before).voicemail.Some? && !Run(env, before).ending && Text.Trim(text) != ""
    ensures
      var v, s := Run(env, before).voicemail.value, Run(env, before + [CallerSpeech(text)]);
      Good(env, s) && v.id in s.log.heard && s.log.heard[v.id] == v.parts + [Text.Trim(text)]
  {
    hide Good, Step, Text.Trim, Run;
    var s := Run(env, before);
    RunKeeps(env, before);
    VoicemailAlone(env, s);
    UtteranceIsHeard(env, s, text);
    VoicemailKnown(env, s);
    RunAppend(env, before, CallerSpeech(text));
    RunKeeps(env, before + [CallerSpeech(text)]);
  }

  /** Once a call is torn down and flushed, no voicemail is open, and nothing heard before is forgotten. */
  lemma TornDown(env: Env, events: seq<Event>, after: seq<Event>)
    ensures
      var end := Run(env, events + after + [Disposed] + [Flushed]);
      Good(env, end) && end.voicemail.None? && HeardGrows(Run(env, events), end)
  {
    hide Good, Step, Moves, HeardGrows, Dispose, Run;
    var ended := events + after + [Disposed];
    RunMoves(env, events, after + [Disposed] + [Flushed]);
    assert events + (after + [Disposed] + [Flushed]) == ended + [Flushed];
    RunAppend(env, events + after, Disposed);
    RunAppend(env, ended, Flushed);
    StepDisposes(env, Run(env, events + after));
    FlushedIsClosed(env, Run(env, events + after));
    RunKeeps(env, ended + [Flushed]);
  }

  lemma {:induction false} JoinIsPrefix(parts: seq<string>, more: seq<string>)
    requires parts <= more
    ensures Text.JoinWords(parts) <= Text.JoinWords(more)
  {
    if |parts| > 1 {
      JoinIsPrefix(parts[1..], more[1..]);
    } else if |parts| == 1 && |more| > 1 {
      assert Text.JoinWords(more) == parts[0] + (" " + Text.JoinWords(more[1..]));
    }
  }

  /** The first words survive a cut exactly when they fit. */
  lemma WordsSurvive(parts: seq<string>, more: seq<string>, n: nat)
    requires parts <= more
    ensures
      var so, all := Text.JoinWords(parts), Text.JoinWords(more);
      && (so <= FirstChars(all, n) <==> |so| <= n)
      && (FirstChars(all, n) == all <==> |all| <= n)
  {
    JoinIsPrefix(parts, more);
    hide Text.JoinWords;
  }

  lemma VoicemailKnown(env: Env, s: Call)
    requires Good(env, s) && s.voicemail.Some?
    ensures s.voicemail.value.id in s.log.heard && s.log.heard[s.voicemail.value.id] == s.voicemail.value.parts
  {
    GoodKnowsHeard(env, s);
    hide Good;
  }

  lemma HeardByThen(env: Env, s: Call, s1: Call, s2: Call, id: Id)
    requires Good(env, s1) && HeardGrows(s1, s2) && id in s1.log.heard
    ensures id in s2.log.heard && s1.log.heard[id] <= s2.log.heard[id]
  {
    hide Led, Driven, IdsOk, TimersOk, PromptsOk, CountsOk, Faithful;
  }

  lemma ClosedIsOffered(env: Env, s: Call, id: Id)
    requires Good(env, s) && s.voicemail.None? && id in s.log.heard && s.log.heard[id] != []
    ensures exists k :: 0 <= k < |s.log.offered| && s.log.offered[k] ==
              (id, FirstChars(Text.JoinWords(s.log.heard[id]), MAX_VOICEMAIL_CHARS))
  {
    hide Led, Driven, IdsOk, TimersOk, PromptsOk, CountsOk, FirstChars;
    assert OfferedId(s.log.offered, id);
    var k :| 0 <= k < |s.log.offered| && s.log.offered[k].0 == id;
    assert Faithful(s.log.heard, s.log.offered[k]);
  }

  // ---- The caller's turn at a menu ----

  /** The menu's key 0 has started a transfer. */
  ghost predicate MenuTransfer(s: Call) {
    exists i :: i in Pool(s) && FromMenuKey(Pool(s)[i])
  }

  ghost predicate FromMenuKey(t: Task) {
    (t.TransferDone? && t.origin.FromMenu?) || (InTransfer(t) && TransferOf(t).origin.FromMenu?)
  }

  /**
   * Leaving a menu visit ends the call, starts a transfer, or lowers the measure
   * (steps left, repeats left) in lexicographic order.
   */
  ghost predicate TurnTaken(s: Call, s': Call)
    requires s.menu.Some?
  {
    || s'.ending
    || MenuTransfer(s')
    || s.stepCount < s'.stepCount
    || (&& s'.stepCount == s.stepCount && s'.menu.Some? && s'.menu.value.node == s.menu.value.node
        && s.menu.value.misses < s'.menu.value.misses <= MenuRepeats(s.menu.value.node))
  }

  lemma RetryTakesTurn(env: Env, s: Call)
    requires s.menu.Some? && !s.ending
    ensures TurnTaken(s, RetryMenu(env, s))
  {
    var m, s1 := s.menu.value, LeaveMenu(s);
    assert s1.stepCount == s.stepCount && !s1.ending;
    RetryState(env, s);
    FollowTakesStep(env, s1, m.node.id, Some("no_input"));
    hide RetryMenu, LeaveMenu, FollowOrEnd, MenuTransfer;
  }

  lemma FollowTakesStep(env: Env, s: Call, id: string, handle: Option<string>)
    requires !s.ending
    ensures FollowOrEnd(env, s, id, handle).ending || s.stepCount < FollowOrEnd(env, s, id, handle).stepCount
  {
    EndCallEnds(env, s);
    EnterOnward(env, s, NextNode(env.graph, id, handle));
    hide Enter, EndCall;
  }

  lemma SpawnedTransfer(s: Call, t: Task)
    requires FromMenuKey(t) && s.answer.None?
    ensures MenuTransfer(Spawn(s, t))
  {
    assert Pool(Spawn(s, t))[s.nextId] == t;
  }

  lemma DialingFromMenu(env: Env, s: Call, x: Transfer, optIn: bool)
    requires s.answer.None? && x.origin.FromMenu?
    ensures MenuTransfer(StartDialing(env, s, x, optIn))
  {
    assert FromMenuKey(TestHold(x, optIn)) && FromMenuKey(ColdHold(x, optIn)) && FromMenuKey(Dialing(x, optIn, 0));
    assert FromMenuKey(HoldTail(x, optIn, NoAnswer));
    hide FromMenuKey, MenuTransfer, Spawn;
    SpawnedTransfer(s, TestHold(x, optIn));
    SpawnedTransfer(s, ColdHold(x, optIn));
    SpawnedTransfer(s, HoldTail(x, optIn, NoAnswer));
    SpawnedTransfer(s, Dialing(x, optIn, 0));
    var s1 := Spawn(s, Dialing(x, optIn, 0));
    SameTransfer(s1, s1.(log := s.log.(dialed := s.log.dialed + [x.target.phone])));
    SpawnLog(s, Dialing(x, optIn, 0));
  }

  lemma SameTransfer(s: Call, s': Call)
    requires MenuTransfer(s) && s'.tasks == s.tasks && s'.answer == s.answer
    ensures MenuTransfer(s')
  {
    var i :| i in Pool(s) && FromMenuKey(Pool(s)[i]);
    assert i in Pool(s') && FromMenuKey(Pool(s')[i]);
  }

  lemma AskedFromMenu(s: Call, x: Transfer)
    requires s.answer.None? && x.origin.FromMenu?
    ensures MenuTransfer(Ask(s, TextOffer(x)))
  {
    var s' := Ask(s, TextOffer(x));
    assert Pool(s')[s.nextId] == Replied(TextOffer(x), None);
  }

  lemma BeginsFromMenu(env: Env, s: Call, target: Option<Target>)
    requires s.answer.None?
    ensures MenuTransfer(BeginTransfer(env, s, FromMenu, target))
  {
    hide MenuTransfer, Spawn, Ask, StartDialing, CanOfferText;
    SpawnedTransfer(s, TransferDone(FromMenu, Ended));
    SpawnedTransfer(s, TransferDone(FromMenu, Unavailable));
    if target.Some? {
      var x := Transfer(FromMenu, target.value);
      AskedFromMenu(s.(transferring := true), x);
      DialingFromMenu(env, s.(transferring := true), x, false);
    }
  }

  lemma ChooseTakesTurn(env: Env, s: Call, key: MenuKey)
    requires s.menu.Some? && !s.ending && s.answer.None?
    ensures TurnTaken(s, Choose(env, s, key))
  {
    var m, s1 := s.menu.value, LeaveMenu(s);
    assert s1.stepCount == s.stepCount && !s1.ending && s1.answer == s.answer;
    ChooseState(env, s, key);
    RetryTakesTurn(env, s);
    FollowTakesStep(env, s1, m.node.id, Some(KeyHandle(key)));
    hide RetryMenu, LeaveMenu, FollowOrEnd, MenuTransfer, BeginTransfer, Choose, PressZeroTarget, FindOption;
    BeginsFromMenu(env, s1, if key == '0' then PressZeroTarget(env) else None);
  }

  /** The open menu is left alone. */
  ghost predicate MenuUntouched(s: Call, s': Call) {
    MenuStays(s, s') && s'.ending == s.ending
  }

  /** With a menu open, no pending task can move the flow. */
  lemma TasksBesideMenu(env: Env, s: Call, i: Id, r: Result)
    requires Good(env, s) && s.menu.Some? && !s.ending && i in s.tasks
    ensures MenuUntouched(s, Resume(env, Retire(s, i), s.tasks[i], r))
  {
    Alone(env, s);
    var t := s.tasks[i];
    var ids := Those(Pool(s), Driving);
    assert ids == {} && i in Pool(s) && Pool(s)[i] == t;
    assert i !in ids;
    assert !Is(Driving, t);
    assert TaskOk(env, t, s.aiActive, s.ending) by {
      assert TasksFit(env, Pool(s), s.aiActive, s.ending) by { hide Kept, FlowOk, EndingOk, StaffOk, Count, Pool; }
    }
    assert !InTransfer(t) && !t.TransferDone?;
    assert s.voicemail.None? by { Flags(env, s, None); }
    QuietTasks(env, s, i, r);
  }

  lemma QuietTasks(env: Env, s: Call, i: Id, r: Result)
    requires s.menu.Some? && s.voicemail.None? && i in s.tasks && !Is(Driving, s.tasks[i])
    requires !InTransfer(s.tasks[i]) && !s.tasks[i].TransferDone?
    ensures MenuUntouched(s, Resume(env, Retire(s, i), s.tasks[i], r))
  {
    var s1, t := Retire(s, i), s.tasks[i];
    assert MenuUntouched(s, s1) && s1.menu == s.menu && s1.voicemail == s.voicemail && s1.ending == s.ending;
    hide Retire, MenuUntouched;
    if t.MenuPrompt? || t.VoicemailPrompt? || t.FlushSave? {
      PromptBesideMenu(env, s1, t, r);
    } else {
      GoodbyeBesideMenu(env, s1, t, r);
    }
    SameMenu(s, s1, Resume(env, s1, t, r));
  }

  lemma SameMenu(s: Call, s1: Call, s2: Call)
    requires MenuUntouched(s1, s2) && s1.menu == s.menu && s1.ending == s.ending
    ensures MenuUntouched(s, s2)
  {
  }

  lemma ArmedMenuStays(s: Call)
    requires s.menu.Some?
    ensures MenuUntouched(s, ArmMenuTimer(s)) && MenuUntouched(s, s)
  {
  }

  lemma PromptBesideMenu(env: Env, s: Call, t: Task, r: Result)
    requires s.menu.Some? && s.voicemail.None? && (t.MenuPrompt? || t.VoicemailPrompt? || t.FlushSave?)
    ensures MenuUntouched(s, Resume(env, s, t, r))
  {
    hide MenuUntouched, ArmMenuTimer, ArmVoicemailTimer, Listen;
    ArmedMenuStays(s);
  }

  lemma SpawnStays(s: Call, t: Task, rating: Option<nat>)
    requires s.menu.Some?
    ensures MenuUntouched(s, Spawn(s, t)) && MenuUntouched(s, Spawn(s.(rating := rating), t))
  {
  }

  lemma RatingBesideMenu(env: Env, s: Call, t: Task, r: Result)
    requires s.menu.Some? && ((t.Replied? && t.waiter.RatingQuestion?) || t.RatingThanks?)
    ensures MenuUntouched(s, Resume(env, s, t, r))
  {
    RatingState(env, s, t, r);
    var rating := if t.Replied? && t.reply.Some? then env.parseRating(t.reply.value) else None;
    hide Resume, Spawn, MenuUntouched;
    SpawnStays(s, Goodbye, rating);
    SpawnStays(s, RatingThanks, rating);
  }

  lemma GoodbyeBesideMenu(env: Env, s: Call, t: Task, r: Result)
    requires s.menu.Some?
    requires (t.Replied? && t.waiter.RatingQuestion?) || t.RatingThanks? || t.Goodbye? || t.HangUpNow?
    ensures MenuUntouched(s, Resume(env, s, t, r))
  {
    if t.Goodbye? || t.HangUpNow? {
      hide Enter, FollowOrEnd, EndCall, Fail, StartDialing, DialOrGiveUp, AfterDial, PostDial, Finish, ArmMenuTimer,
        ArmVoicemailTimer, Listen, Spawn;
    } else {
      hide Resume, MenuUntouched;
      RatingBesideMenu(env, s, t, r);
    }
  }

  lemma TimersBesideMenu(env: Env, s: Call, id: Id)
    requires Good(env, s) && s.menu.Some? && !s.ending && id in s.timers && !s.disposed
    ensures
      var s' := Fire(env, s.(timers := s.timers - {id}), s.timers[id]);
      MenuUntouched(s, s') || TurnTaken(s, s')
  {
    var s1 := s.(timers := s.timers - {id});
    Alone(env, s);
    Flags(env, s, None);
    TimerKept(env, s, id);
    OwnTimerFires(env, s, id);
    hide Good, TimersOk, LeaveMenu, TakeVoicemail, Settle, EndCall, RetryMenu, FinishVoicemail, MenuTransfer, Count;
    if s.timers[id].MenuWait? {
      RetryFires(env, s, s1);
      RetryTakesTurn(env, s);
    } else if s.timers[id] == CallLimit {
      EndCallEnds(env, s1);
    }
  }

  lemma NoTurnTaken(s: Call)
    requires s.menu.Some?
    ensures MenuUntouched(s, s)
  {
  }

  lemma SoundsBesideMenu(s: Call)
    requires s.menu.Some? && s.voicemail.None?
    ensures MenuUntouched(s, OnCallerStartedSpeaking(s)) && MenuUntouched(s, OnCallerStoppedSpeaking(s))
  {
  }

  lemma InputAtMenu(env: Env, s: Call, e: Event)
    requires Good(env, s) && s.menu.Some? && !s.ending && (e.Keypad? || e.CallerSpeech?)
    ensures MenuUntouched(s, Step(env, s, e)) || TurnTaken(s, Step(env, s, e))
  {
    Alone(env, s);
    Flags(env, s, None);
    NoTurnTaken(s);
    RetryTakesTurn(env, s);
    hide Good, Choose, RetryMenu, Text.Trim, TurnTaken, MenuUntouched, Count;
    if e.Keypad? {
      ChooseTakesTurn(env, s, e.key);
    } else {
      var key := env.matchMenuChoice(s.menu.value.node.options, Text.Trim(e.text));
      if key.Some? { ChooseTakesTurn(env, s, key.value); }
    }
  }

  lemma OthersBesideMenu(env: Env, s: Call, e: Event)
    requires Good(env, s) && s.menu.Some? && !s.ending
    requires !e.Keypad? && !e.CallerSpeech? && !e.TimerFires? && !e.Resumes?
    ensures MenuUntouched(s, Step(env, s, e)) || Step(env, s, e).ending
  {
    Alone(env, s);
    Flags(env, s, None);
    SoundsBesideMenu(s);
    hide Good, Count, OnCallerStartedSpeaking, OnCallerStoppedSpeaking, Dispose;
    if e.Disposed? {
      StepDisposes(env, s);
      DisposedEnding(s);
    }
  }

  lemma DisposedEnding(s: Call)
    ensures !s.disposed ==> Dispose(s).ending
  {
    hide Settle, QuietVoicemail;
  }

  /** However a visit to a menu comes to its end, the walk has come closer to its own. */
  lemma MenuTurnsMakeProgress(env: Env, events: seq<Event>, e: Event)
    requires Run(env, events).menu.Some? && !MenuStays(Run(env, events), Step(env, Run(env, events), e))
    ensures TurnTaken(Run(env, events), Step(env, Run(env, events), e))
  {
    var s := Run(env, events);
    RunKeeps(env, events);
    Flags(env, s, None);
    hide Good, Run, TurnTaken;
    MenuEvent(env, s, e);
    if Step(env, s, e).ending { EndingTakesTurn(s, Step(env, s, e)); }
  }

  lemma EndingTakesTurn(s: Call, s': Call)
    requires s.menu.Some? && s'.ending
    ensures TurnTaken(s, s')
  {
  }

  lemma MenuEvent(env: Env, s: Call, e: Event)
    requires Good(env, s) && s.menu.Some? && !s.ending
    ensures MenuUntouched(s, Step(env, s, e)) || TurnTaken(s, Step(env, s, e)) || Step(env, s, e).ending
  {
    NoTurnTaken(s);
    Flags(env, s, None);
    if e.Keypad? || e.CallerSpeech? {
      hide Good, Step, TurnTaken, MenuUntouched;
      InputAtMenu(env, s, e);
    } else if e.TimerFires? {
      hide Good, Fire, TurnTaken, MenuUntouched;
      if e.id in s.timers { TimersBesideMenu(env, s, e.id); }
    } else if e.Resumes? {
      hide Good, Resume, Retire, TurnTaken, MenuUntouched;
      if e.id in s.tasks { TasksBesideMenu(env, s, e.id, e.result); }
    } else {
      hide Good, Step, TurnTaken, MenuUntouched;
      OthersBesideMenu(env, s, e);
    }
  }

  /** A menu that gives way to another visit has had its turn, and nothing waits for it any more. */
  lemma ReplacedMenuIsLeft(env: Env, events: seq<Event>, e: Event)
    requires Run(env, events).menu.Some? && Run(env, events + [e]).menu.Some?
    requires Run(env, events + [e]).menu.value.token != Run(env, events).menu.value.token
    ensures TurnTaken(Run(env, events), Run(env, events + [e]))
    ensures forall i :: i in Run(env, events + [e]).timers ==>
              Run(env, events + [e]).timers[i] != MenuWait(Run(env, events).menu.value.token)
  {
    RunAppend(env, events, e);
    hide Run, Step, TurnTaken;
    MenuTurnsMakeProgress(env, events, e);
    forall i | i in Run(env, events + [e]).timers
      ensures Run(env, events + [e]).timers[i] != MenuWait(Run(env, events).menu.value.token)
    {
      TimersAreCurrent(env, events + [e], i);
    }
  }

  // ---- A live voicemail is not replaced ----

  /** Still the same voicemail, with all it heard, or none. */
  ghost predicate NoOther(s: Call, s': Call) {
    s'.voicemail.Some? ==>
      s.voicemail.Some? && s'.voicemail.value.id == s.voicemail.value.id
      && s.voicemail.value.parts <= s'.voicemail.value.parts
  }

  /** Only these open what comes next in the flow. */
  predicate MovesOn(t: Task) {
    t.Preamble? || t.StepPause? || t.VoicemailNotice? || (t.TransferDone? && t.origin.FromStep?)
  }

  lemma NothingIsEntered(env: Env, s: Call, step: Option<string>, id: string, handle: Option<string>)
    requires s.ending
    ensures Enter(env, s, step) == s && FollowOrEnd(env, s, id, handle) == s
  {
  }

  lemma EndCallKeepsVoicemail(env: Env, s: Call, survey: bool)
    ensures NoOther(s, EndCall(env, s, survey))
  {
  }

  lemma ListeningKeepsVoicemail(s: Call, v: VoicemailState)
    requires s.voicemail == Some(v)
    ensures NoOther(s, ArmVoicemailTimer(Listen(s, v)))
  {
  }

  /** None of these touches the voicemail. */
  lemma PartsKeepVoicemail()
    ensures forall s: Call, t: Task :: Spawn(s, t).voicemail == s.voicemail
    ensures forall s: Call, t: Timer :: SetTimer(s, t).voicemail == s.voicemail
    ensures forall s: Call :: LeaveMenu(s).voicemail == s.voicemail && LeaveMenu(s).ending == s.ending
    ensures forall s: Call, reply: Option<Reply> :: Settle(s, reply).voicemail == s.voicemail
    ensures forall s: Call :: ArmMenuTimer(s).voicemail == s.voicemail
    ensures forall s: Call :: StopMenuTimer(s).voicemail == s.voicemail
    ensures forall s: Call :: TakeVoicemail(s).voicemail.None?
  {
  }

  lemma AfterDialKeepsVoicemail(s: Call, x: Transfer, optIn: bool, r: DialResult)
    ensures AfterDial(s, x, optIn, r).voicemail == s.voicemail
  {
  }

  lemma DialKeepsVoicemail(env: Env, s: Call, x: Transfer, optIn: bool, attempt: nat)
    ensures DialOrGiveUp(env, s, x, optIn, attempt).voicemail == s.voicemail
  {
    hide AfterDial, Spawn;
    PartsKeepVoicemail();
    AfterDialKeepsVoicemail(s, x, optIn, NoAnswer);
  }

  lemma StartKeepsVoicemail(env: Env, s: Call, x: Transfer, optIn: bool)
    ensures StartDialing(env, s, x, optIn).voicemail == s.voicemail
  {
    hide DialOrGiveUp, Spawn;
    PartsKeepVoicemail();
    DialKeepsVoicemail(env, s, x, optIn, 0);
  }

  lemma FinishKeepsVoicemail(s: Call, x: Transfer, outcome: Outcome)
    ensures Finish(s, x, outcome).voicemail == s.voicemail
  {
    hide Spawn;
    PartsKeepVoicemail();
  }

  lemma PostDialKeepsVoicemail(s: Call, x: Transfer, optIn: bool, r: DialResult)
    ensures PostDial(s, x, optIn, r).voicemail == s.voicemail
  {
    hide Spawn, Finish, LeaveMenu;
    PartsKeepVoicemail();
    FinishKeepsVoicemail(if r == Answered then s.(log := s.log.(dropped := s.log.dropped + 1)) else s, x, Ended);
    FinishKeepsVoicemail(LeaveMenu(s.(ending := true, log := s.log.(connects := s.log.connects + 1))), x, Connected);
  }

  lemma OpeningTaskAtTheEnd(env: Env, s: Call, t: Task, r: Result)
    requires s.ending && MovesOn(t)
    ensures Resume(env, s, t, r).voicemail == s.voicemail
  {
    var start := FindStart(env.graph.nodes);
    if t.Preamble? {
      NothingIsEntered(env, s.(inPreamble := false), if start.Some? then Some(start.value.id) else None, "", None);
    } else if t.StepPause? {
      var s1 := if t.texting && r.ok then s.(textsSent := s.textsSent + 1) else s;
      NothingIsEntered(env, s1, NextNode(env.graph, t.node.id, None), "", None);
    } else if t.VoicemailNotice? {
      NothingIsEntered(env, s, None, t.node.id, None);
    } else {
      NothingIsEntered(env, s, NextNode(env.graph, t.origin.node.id, Some("no_answer")), "", None);
    }
    hide Enter, FollowOrEnd, NextNode, FindStart;
  }

  lemma DialTaskKeepsVoicemail(env: Env, s: Call, t: Task, r: Result)
    requires (t.Replied? && t.waiter.TextOffer?) || t.TestHold? || t.ColdHold? || t.Dialing? || t.HoldTail?
    ensures Resume(env, s, t, r).voicemail == s.voicemail
  {
    hide StartDialing, DialOrGiveUp, AfterDial, PostDial, Finish, Spawn;
    match t
    case Replied(waiter, reply) =>
      FinishKeepsVoicemail(s, waiter.x, Ended);
      StartKeepsVoicemail(env, s, waiter.x, reply.Some? && env.parseYes(reply.value));
    case TestHold(x, optIn) => PostDialKeepsVoicemail(s, x, optIn, NoAnswer);
    case ColdHold(x, optIn) => DialKeepsVoicemail(env, s, x, optIn, 0);
    case Dialing(x, optIn, attempt) =>
      DialKeepsVoicemail(env, s, x, optIn, attempt + 1);
      AfterDialKeepsVoicemail(s, x, optIn, r.dial);
    case HoldTail(x, optIn, result) => PostDialKeepsVoicemail(s, x, optIn, result);
  }

  lemma FinishTaskKeepsVoicemail(env: Env, s: Call, t: Task, r: Result)
    requires t.NoAnswerNotice? || t.FollowUp? || t.Connecting? || t.Leaving? || t.ClearingRoom?
    ensures Resume(env, s, t, r).voicemail == s.voicemail
  {
    hide Spawn, Finish;
    PartsKeepVoicemail();
    match t
    case NoAnswerNotice(x, optIn) => FinishKeepsVoicemail(s, x, if s.ending then Ended else Unavailable);
    case FollowUp(x) =>
      var sent := if r.ok then s.(textsSent := s.textsSent + 1) else s;
      FinishKeepsVoicemail(sent, x, if s.ending then Ended else Unavailable);
    case Connecting(x) =>
    case Leaving(x) => FinishKeepsVoicemail(s, x, Connected);
    case ClearingRoom(x) => FinishKeepsVoicemail(s, x, Ended);
  }

  lemma PromptKeepsVoicemail(env: Env, s: Call, t: Task, r: Result)
    requires t.MenuPrompt? || t.VoicemailPrompt?
    ensures NoOther(s, Resume(env, s, t, r))
  {
    hide ArmMenuTimer, ArmVoicemailTimer, Listen;
    PartsKeepVoicemail();
    if s.voicemail.Some? { ListeningKeepsVoicemail(s, s.voicemail.value); }
  }

  lemma GoodbyeKeepsVoicemail(env: Env, s: Call, t: Task, r: Result)
    requires (t.Replied? && t.waiter.RatingQuestion?) || t.RatingThanks? || t.Goodbye? || t.HangUpNow?
    ensures Resume(env, s, t, r).voicemail == s.voicemail
  {
    hide Spawn, SetTimer;
    PartsKeepVoicemail();
  }

  lemma QuietTaskKeepsVoicemail(env: Env, s: Call, t: Task, r: Result)
    requires t.SavingVoicemail? || t.FlushSave? || (t.TransferDone? && !t.origin.FromStep?)
    ensures NoOther(s, Resume(env, s, t, r))
  {
    EndCallKeepsVoicemail(env, s, false);
    hide Spawn, EndCall;
    PartsKeepVoicemail();
  }

  lemma TaskKeepsVoicemail(env: Env, s: Call, t: Task, r: Result)
    requires s.ending || !MovesOn(t)
    ensures NoOther(s, Resume(env, s, t, r))
  {
    hide Resume;
    if MovesOn(t) {
      OpeningTaskAtTheEnd(env, s, t, r);
    } else if t.NoAnswerNotice? || t.FollowUp? || t.Connecting? || t.Leaving? || t.ClearingRoom? {
      FinishTaskKeepsVoicemail(env, s, t, r);
    } else if InTransfer(t) {
      DialTaskKeepsVoicemail(env, s, t, r);
    } else if t.MenuPrompt? || t.VoicemailPrompt? {
      PromptKeepsVoicemail(env, s, t, r);
    } else if t.Replied? || t.RatingThanks? || t.Goodbye? || t.HangUpNow? {
      GoodbyeKeepsVoicemail(env, s, t, r);
    } else {
      QuietTaskKeepsVoicemail(env, s, t, r);
    }
  }

  lemma TimerKeepsVoicemail(env: Env, s: Call, timer: Timer)
    requires s.ending || s.menu.None?
    ensures NoOther(s, Fire(env, s, timer))
  {
    hide EndCall, Enter, FollowOrEnd, TakeVoicemail, Spawn, Settle, LeaveMenu;
    EndCallKeepsVoicemail(env, s, false);
    PartsKeepVoicemail();
    if timer.MenuWait? && s.menu.Some? {
      NothingIsEntered(env, LeaveMenu(s), None, s.menu.value.node.id, Some("no_input"));
    }
  }

  lemma KeyKeepsVoicemail(env: Env, s: Call, key: MenuKey)
    requires s.voicemail.Some? && !s.aiActive
    ensures NoOther(s, OnKeypad(env, s, key))
  {
    hide TakeVoicemail, StartTransfer, Choose, PressZeroTarget, Spawn, Settle;
    PartsKeepVoicemail();
  }

  lemma ArmedKeepsVoicemail(s: Call)
    ensures NoOther(s, ArmVoicemailTimer(s)) && NoOther(s, StopVoicemailTimer(s))
  {
  }

  lemma SpeechKeepsVoicemail(env: Env, s: Call, text: string)
    requires s.voicemail.Some? && s.menu.None?
    ensures NoOther(s, OnCallerSpeech(env, s, text))
  {
    hide Text.Trim, Choose, RetryMenu, ArmVoicemailTimer, Settle;
    PartsKeepVoicemail();
    var v, spoken := s.voicemail.value, Text.Trim(text);
    ArmedKeepsVoicemail(s.(
      voicemail := Some(v.(parts := v.parts + [spoken])),
      log := s.log.(heard := s.log.heard[v.id := v.parts + [spoken]])));
  }

  lemma SoundsKeepVoicemail(s: Call)
    ensures NoOther(s, OnCallerStartedSpeaking(s)) && NoOther(s, OnCallerStoppedSpeaking(s))
  {
    hide ArmMenuTimer, ArmVoicemailTimer, StopMenuTimer, StopVoicemailTimer;
    PartsKeepVoicemail();
    ArmedKeepsVoicemail(StopMenuTimer(s.(speaking := true)));
    ArmedKeepsVoicemail(if s.menu.Some? && s.menu.value.timer.None? then ArmMenuTimer(s) else s);
  }

  lemma QuestionKeepsVoicemail(s: Call, id: Id, spoken: bool)
    ensures QuestionPlayed(s, id, spoken).voicemail == s.voicemail
  {
    hide Settle;
    PartsKeepVoicemail();
  }

  lemma EndsKeepVoicemail(s: Call)
    ensures NoOther(s, Dispose(s)) && NoOther(s, FlushVoicemail(s)) && Begin(s).voicemail == s.voicemail
  {
    hide Settle, TakeVoicemail, Message, Spawn;
    PartsKeepVoicemail();
  }

  lemma OthersKeepVoicemail(env: Env, s: Call, e: Event)
    requires s.voicemail.Some? && !s.aiActive && !e.Keypad? && !e.CallerSpeech? && !e.TimerFires? && !e.Resumes?
    ensures NoOther(s, Step(env, s, e))
  {
    hide OnCallerStartedSpeaking, OnCallerStoppedSpeaking, QuestionPlayed, Dispose, FlushVoicemail, Begin;
    SoundsKeepVoicemail(s);
    EndsKeepVoicemail(s);
    if e.Played? { QuestionKeepsVoicemail(s, e.id, e.spoken); }
  }

  /** In one event a live voicemail gains words, or is finished with, but never gives way to another. */
  lemma VoicemailIsNotReplaced(env: Env, events: seq<Event>, e: Event)
    requires Run(env, events).voicemail.Some?
    ensures NoOther(Run(env, events), Step(env, Run(env, events), e))
  {
    var s := Run(env, events);
    RunKeeps(env, events);
    Flags(env, s, None);
    hide Run;
    if e.Keypad? {
      hide Good, OnKeypad;
      KeyKeepsVoicemail(env, s, e.key);
    } else if e.CallerSpeech? {
      hide Good, OnCallerSpeech;
      SpeechKeepsVoicemail(env, s, e.text);
    } else if e.TimerFires? {
      hide Good, Fire;
      if e.id in s.timers { TimerKeepsVoicemail(env, s.(timers := s.timers - {e.id}), s.timers[e.id]); }
    } else if e.Resumes? {
      if !s.ending { Alone(env, s); }
      hide Good, Resume, Retire;
      if e.id in s.tasks { LiveTaskKeepsVoicemail(env, s, e.id, e.result); }
    } else {
      hide Good, Step;
      OthersKeepVoicemail(env, s, e);
    }
  }

  lemma LiveTaskKeepsVoicemail(env: Env, s: Call, i: Id, r: Result)
    requires Good(env, s) && s.voicemail.Some? && i in s.tasks
    ensures NoOther(s, Resume(env, Retire(s, i), s.tasks[i], r))
  {
    if !s.ending {
      Alone(env, s);
      assert i in Pool(s) && Pool(s)[i] == s.tasks[i];
      assert i !in Those(Pool(s), Driving);
    }
    hide Good, Resume;
    TaskKeepsVoicemail(env, Retire(s, i), s.tasks[i], r);
  }

  // ---- Input reaches one place ----

  /** A key or an utterance answers a question, goes to the voicemail or takes a menu turn: one of them. */
  lemma InputReachesOnePlace(env: Env, events: seq<Event>, e: Event)
    requires e.Keypad? || e.CallerSpeech?
    ensures
      var s := Run(env, events);
      var s' := Step(env, s, e);
      var answered := s.answer.Some? && s'.answer != s.answer;
      var recorded := s.voicemail.Some? && s'.voicemail != s.voicemail;
      var turned := s.menu.Some? && !MenuStays(s, s');
      !(answered && recorded) && !(answered && turned) && !(recorded && turned)
  {
    var s := Run(env, events);
    RunKeeps(env, events);
    Flags(env, s, None);
    hide Good, Run;
    if s.answer.Some? { AnswerTakesInput(env, s, e); }
  }

  lemma AnswerTakesInput(env: Env, s: Call, e: Event)
    requires s.answer.Some? && (e.Keypad? || e.CallerSpeech?)
    ensures Step(env, s, e).menu == s.menu && Step(env, s, e).voicemail == s.voicemail
  {
    hide Choose, RetryMenu, FinishVoicemail, StartTransfer, ArmVoicemailTimer, Text.Trim;
  }
}
