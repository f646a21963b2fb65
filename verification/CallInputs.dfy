/** What input comes to where neither a menu nor a question is open, and what sounds, prompts and the end come to. */
module CallInputs {
  import opened Options
  import opened CallFlow
  import opened CallEngine
  import opened CallInvariants
  import opened CallMeaning
  import opened CallSegments
  import opened CallProgress
  import opened CallEvents
  import opened CallTheorems
  import opened CallOutcomes
  import opened CallFollows
  import opened CallConsequences
  import opened CallExchanges
  import Text

  // ---- The end of a voicemail ----

  lemma TakenSeen(s: Call, v: VoicemailState)
    requires s.voicemail == Some(v) && NewIds(s)
    ensures
      var s1, b := TakeVoicemail(s), Seen(s);
      && s1.voicemail.None? && NewIds(s1) && (forall t :: Spawn(s1, t).voicemail.None?)
      && Message(v.parts) == Text.Trim(Text.JoinWords(v.parts))
      && (Said(v.parts) == "" <==> Message(v.parts) == "")
      && Seen(s1) ==
         if Said(v.parts) == "" then b
         else b.(shows := b.shows.(offered := b.shows.offered + [(v.id, Said(v.parts))]))
  {
    assert s.log.offered + [] == s.log.offered;
    hide Text.Trim, Text.JoinWords;
  }

  lemma FinishVoicemailMeans(s: Call, v: VoicemailState)
    requires s.voicemail == Some(v) && NewIds(s)
    ensures Taken(Seen(s), v, FinishVoicemail(s))
  {
    TakenSeen(s, v);
    FinishState(s, v);
    hide TakeVoicemail, Message, Said, Spawn, ComesNext, Seen, NewIds, FinishVoicemail;
    SpawnMeans(TakeVoicemail(s), if Message(v.parts) == "" then VoicemailNotice(v.node) else SavingVoicemail(v.node));
  }

  lemma FinishState(s: Call, v: VoicemailState)
    requires s.voicemail == Some(v)
    ensures
      FinishVoicemail(s) ==
      Spawn(TakeVoicemail(s), if Message(v.parts) == "" then VoicemailNotice(v.node) else SavingVoicemail(v.node))
  {
    hide TakeVoicemail, Message, Spawn;
  }

  /** When a voicemail's silence or its longest time runs out it is over. */
  lemma VoicemailRunsOut(env: Env, events: seq<Event>, id: Id)
    requires
      var s := Run(env, events);
      id in s.timers && (s.timers[id].VoicemailSilence? || s.timers[id].VoicemailMax?)
    ensures
      var s := Run(env, events);
      s.voicemail.Some? && Taken(Seen(s), s.voicemail.value, Run(env, events + [TimerFires(id)]))
  {
    var s := Run(env, events);
    var s1 := s.(timers := s.timers - {id});
    RunKeeps(env, events);
    RunAppend(env, events, TimerFires(id));
    TimersAreCurrent(env, events, id);
    FreshIds(env, s);
    assert Seen(s1) == Seen(s) && NewIds(s1);
    StepFires(env, s, id);
    FinishVoicemailMeans(s1, s.voicemail.value);
    hide Run, Step, Good, Seen, NewIds, IdsFit, EndCall, RetryMenu, FinishVoicemail, Taken, Settle;
  }

  // ---- Keys ----

  /** With neither a menu nor a question open, only "#" at a voicemail and key 0 with the assistant do anything. */
  lemma KeysElsewhere(env: Env, events: seq<Event>, key: MenuKey)
    requires Run(env, events).menu.None? && Run(env, events).answer.None?
    ensures
      var s, s' := Run(env, events), Run(env, events + [Keypad(key)]);
      if s.ending || s.inPreamble then s' == s
      else if s.voicemail.Some? then if key == '#' then Taken(Seen(s), s.voicemail.value, s') else s' == s
      else if s.aiActive && key == '0' && !s.transferring then
        && (forall target :: StaffLine(env, target) ==> TransferBegins(env, Seen(s), FromAssistant, Some(target), s'))
        && ((forall target :: !StaffLine(env, target)) ==> s' == s)
      else s' == s
  {
    var s := Run(env, events);
    RunKeeps(env, events);
    RunAppend(env, events, Keypad(key));
    Flags(env, s, None);
    FreshIds(env, s);
    StaffLineIsFound(env);
    KeyElsewhere(env, s, key);
    hide Run, Step, Good, NewIds, IdsFit, Settle, FinishVoicemail, StartTransfer, PressZeroTarget, StaffLine, Taken,
      TransferBegins, Seen, OnKeypad;
    if s.ending || s.inPreamble {
    } else if s.voicemail.Some? {
      FinishVoicemailMeans(s, s.voicemail.value);
    } else if s.aiActive && key == '0' && !s.transferring && PressZeroTarget(env).Some? {
      AssistantTransferMeans(env, s, PressZeroTarget(env).value);
    }
  }

  lemma KeyElsewhere(env: Env, s: Call, key: MenuKey)
    requires s.menu.None? && s.answer.None? && (s.disposed ==> s.ending)
    ensures
      var s' := Step(env, s, Keypad(key));
      if s.ending || s.inPreamble || !IsMenuKey(key) then s' == s
      else if s.voicemail.Some? then s' == if key == '#' then FinishVoicemail(s) else s
      else if s.aiActive && key == '0' && !s.transferring && PressZeroTarget(env).Some?
      then s' == StartTransfer(env, s, FromAssistant, PressZeroTarget(env).value)
      else s' == s
  {
    hide FinishVoicemail, StartTransfer, PressZeroTarget;
  }

  lemma AssistantTransferMeans(env: Env, s: Call, target: Target)
    requires NewIds(s) && !s.ending && !s.transferring && s.menu.None?
    ensures TransferBegins(env, Seen(s), FromAssistant, Some(target), StartTransfer(env, s, FromAssistant, target))
  {
    assert LeaveMenu(s) == s;
    BeginTransferMeans(env, s, FromAssistant, Some(target));
    hide BeginTransfer, TransferBegins, LeaveMenu;
  }

  /** The assistant's transfer tool rings the line of that case, if it may. */
  lemma TransferToolRings(env: Env, events: seq<Event>, caseId: Option<string>)
    ensures
      var s, s' := Run(env, events), Run(env, events + [TransferTool(caseId)]);
      var target := env.resolveTransfer(caseId);
      if s.aiActive && !s.transferring && !s.ending && target.Some? && env.canDial(target.value.phone)
      then TransferBegins(env, Seen(s), FromAssistant, target, s')
      else s' == s
  {
    var s, target := Run(env, events), env.resolveTransfer(caseId);
    RunKeeps(env, events);
    RunAppend(env, events, TransferTool(caseId));
    Flags(env, s, None);
    FreshIds(env, s);
    if s.aiActive && !s.ending && !s.transferring && target.Some? { AssistantTransferMeans(env, s, target.value); }
    hide Run, Good, NewIds, IdsFit, StartTransfer, TransferBegins, Seen;
  }

  /** The assistant's tool that ends the call asks for a rating; it does nothing while a transfer is under way. */
  lemma EndToolEnds(env: Env, events: seq<Event>)
    ensures
      var s, s' := Run(env, events), Run(env, events + [EndCallTool]);
      if s.aiActive && !s.transferring && !s.ending then GoodbyeBegins(env, Seen(s), true, s') else s' == s
  {
    var s := Run(env, events);
    RunKeeps(env, events);
    RunAppend(env, events, EndCallTool);
    FreshIds(env, s);
    if !s.ending { EndCallMeans(env, s, true); }
    assert s.ending ==> EndCall(env, s, true) == s by { hide Parted, Ask, Spawn, LeaveMenu, Run; }
    hide Run, Good, NewIds, IdsFit, EndCall, GoodbyeBegins, Seen;
  }

  // ---- Waits ----

  /** This timer runs now, in place of the old one, and has this name. */
  ghost predicate Waits(
    timers: map<Id, Timer>, before: Option<Id>, t: Timer, timers': map<Id, Timer>, name: Option<Id>)
  {
    && name.Some? && name.value !in timers
    && timers' == (if before.Some? then timers - {before.value} else timers)[name.value := t]
  }

  lemma ArmMenuMeans(s: Call)
    requires s.menu.Some? && (forall i :: i in s.timers ==> i < s.nextId)
    ensures
      var s', m := ArmMenuTimer(s), s.menu.value;
      && Seen(s') == Seen(s) && s'.voicemail == s.voicemail
      && s'.menu.Some? && s'.menu.value == m.(timer := s'.menu.value.timer)
      && Waits(s.timers, m.timer, MenuWait(m.token), s'.timers, s'.menu.value.timer)
      && (forall i :: i in s'.timers ==> i < s'.nextId)
  {
  }

  lemma ArmVoicemailMeans(s: Call)
    requires s.voicemail.Some? && !s.ending && (forall i :: i in s.timers ==> i < s.nextId)
    ensures
      var s', v := ArmVoicemailTimer(s), s.voicemail.value;
      && Seen(s') == Seen(s) && s'.menu == s.menu
      && s'.voicemail.Some? && s'.voicemail.value == v.(timer := s'.voicemail.value.timer)
      && Waits(s.timers, v.timer, VoicemailSilence(v.id), s'.timers, s'.voicemail.value.timer)
  {
  }

  /** Once its prompt has played, a menu that is still open waits; an older prompt means nothing. */
  lemma MenuWaitsAfterPrompt(env: Env, events: seq<Event>, id: Id, r: Result)
    requires id in Run(env, events).tasks && Run(env, events).tasks[id].MenuPrompt?
    ensures
      var s, s' := Run(env, events), Run(env, events + [Resumes(id, r)]);
      && Seen(s') == SeenWithout(s, id)
      && if s.menu.Some? && s.menu.value.token == s.tasks[id].token
         then
           var m := s.menu.value;
           && s'.menu.Some? && s'.menu.value == m.(timer := s'.menu.value.timer)
           && Waits(s.timers, m.timer, MenuWait(m.token), s'.timers, s'.menu.value.timer)
         else s'.menu == s.menu && s'.timers == s.timers
  {
    var s := Run(env, events);
    var s1 := Retire(s, id);
    RunKeeps(env, events);
    RunAppend(env, events, Resumes(id, r));
    StepResumes(env, s, id, r);
    FreshIds(env, s);
    Retired(env, s, id);
    assert s1.timers == s.timers && s1.nextId == s.nextId;
    if s.menu.Some? { ArmMenuMeans(s1); }
    hide Run, Step, Good, Seen, SeenWithout, NewIds, ArmMenuTimer, Retire, Waits;
  }

  /** Once its greeting has played, a voicemail that is still open listens, for a limited time. */
  lemma VoicemailListensAfterGreeting(env: Env, events: seq<Event>, id: Id, r: Result)
    requires id in Run(env, events).tasks && Run(env, events).tasks[id].VoicemailPrompt?
    ensures
      var s, s' := Run(env, events), Run(env, events + [Resumes(id, r)]);
      && Seen(s') == SeenWithout(s, id)
      && if s.voicemail.Some? && s.voicemail.value.id == s.tasks[id].id && !s.ending
         then
           var v := s.voicemail.value;
           && s'.voicemail.Some? && s'.voicemail.value.maxTimer.Some?
           && var longest, timer := s'.voicemail.value.maxTimer, s'.voicemail.value.timer;
              && s'.voicemail.value == v.(listening := true, timer := timer, maxTimer := longest)
              && longest.value !in s.timers
              && Waits(s.timers[longest.value := VoicemailMax(v.id)], v.timer, VoicemailSilence(v.id), s'.timers, timer)
         else s'.voicemail == s.voicemail && s'.timers == s.timers
  {
    var s := Run(env, events);
    var s1 := Retire(s, id);
    RunKeeps(env, events);
    RunAppend(env, events, Resumes(id, r));
    StepResumes(env, s, id, r);
    FreshIds(env, s);
    Retired(env, s, id);
    assert s1.timers == s.timers && s1.nextId == s.nextId && s1.voicemail == s.voicemail && s1.ending == s.ending;
    if s.voicemail.Some? && !s.ending {
      ListenMeans(s1, s.voicemail.value);
      ArmVoicemailMeans(Listen(s1, s.voicemail.value));
    }
    hide Run, Step, Good, Seen, SeenWithout, NewIds, ArmVoicemailTimer, Listen, Retire, Waits;
  }

  lemma ListenMeans(s: Call, v: VoicemailState)
    requires s.voicemail == Some(v) && forall i :: i in s.timers ==> i < s.nextId
    ensures
      var s' := Listen(s, v);
      && Seen(s') == Seen(s) && s'.timers == s.timers[s.nextId := VoicemailMax(v.id)] && s.nextId !in s.timers
      && s'.voicemail == Some(v.(listening := true, maxTimer := Some(s.nextId))) && s'.ending == s.ending
      && forall i :: i in s'.timers ==> i < s'.nextId
  {
  }

  // ---- Utterances and sounds ----

  /** With neither a menu nor a question open, words count only at a voicemail, where they join what was said. */
  lemma WordsElsewhere(env: Env, events: seq<Event>, text: string)
    requires Run(env, events).menu.None? && Run(env, events).answer.None?
    ensures
      var s, s' := Run(env, events), Run(env, events + [CallerSpeech(text)]);
      if s.voicemail.None? || s.ending || s.inPreamble || Text.Trim(text) == "" then s' == s
      else
        && Seen(s') == Seen(s) && s'.voicemail.Some?
        && var v, v' := s.voicemail.value, s'.voicemail.value;
           && v' == v.(parts := v.parts + [Text.Trim(text)], timer := v'.timer)
           && if v.listening then Waits(s.timers, v.timer, VoicemailSilence(v.id), s'.timers, v'.timer)
              else v'.timer == v.timer && s'.timers == s.timers
  {
    var s := Run(env, events);
    RunKeeps(env, events);
    RunAppend(env, events, CallerSpeech(text));
    StepSpeaks(env, s, text);
    FreshIds(env, s);
    if s.voicemail.Some? && !s.ending {
      var v, spoken := s.voicemail.value, Text.Trim(text);
      HeardMeans(s, v, spoken);
      ArmVoicemailMeans(Heard(s, v, spoken));
      assert OnCallerSpeech(env, s, text) ==
             (if spoken == "" || s.inPreamble then s
              else if v.listening then ArmVoicemailTimer(Heard(s, v, spoken)) else Heard(s, v, spoken)) by {
        hide Run, Good, ArmVoicemailTimer, Text.Trim, Choose, RetryMenu;
      }
    }
    hide Run, Step, Good, Seen, ArmVoicemailTimer, Heard, Text.Trim, Waits, IdsFit, Choose, RetryMenu, Settle;
  }

  ghost function Heard(s: Call, v: VoicemailState, spoken: string): Call {
    s.(
      voicemail := Some(v.(parts := v.parts + [spoken])),
      log := s.log.(heard := s.log.heard[v.id := v.parts + [spoken]]))
  }

  lemma HeardMeans(s: Call, v: VoicemailState, spoken: string)
    ensures
      var s' := Heard(s, v, spoken);
      && Seen(s') == Seen(s) && s'.voicemail == Some(v.(parts := v.parts + [spoken])) && s'.timers == s.timers
      && s'.nextId == s.nextId && s'.ending == s.ending
  {
  }

  /** While the caller makes a sound neither a menu nor a voicemail counts its silence. */
  lemma SoundsStopTheWaits(env: Env, events: seq<Event>)
    ensures
      var s, s' := Run(env, events), Run(env, events + [CallerStarted]);
      && Seen(s') == Seen(s) && s'.speaking
      && s'.menu == (if s.menu.Some? then Some(s.menu.value.(timer := None)) else None)
      && s'.voicemail == (if s.voicemail.Some? then Some(s.voicemail.value.(timer := None)) else None)
      && forall i :: i in s'.timers <==>
           && i in s.timers && (s.menu.Some? ==> s.menu.value.timer != Some(i))
           && (s.voicemail.Some? ==> s.voicemail.value.timer != Some(i))
  {
    RunAppend(env, events, CallerStarted);
    hide Run;
  }

  /** After a sound the wait begins again, unless words have already begun it. */
  lemma SilenceStartsTheWaits(env: Env, events: seq<Event>)
    ensures
      var s, s' := Run(env, events), Run(env, events + [CallerStopped]);
      && Seen(s') == Seen(s) && !s'.speaking
      && (if s.menu.Some? && s.menu.value.timer.None?
          then
            var m := s.menu.value;
            && s'.menu.Some? && s'.menu.value == m.(timer := s'.menu.value.timer)
            && Waits(s.timers, None, MenuWait(m.token), s'.timers, s'.menu.value.timer)
          else s'.menu == s.menu)
      && (if s.voicemail.Some? && !s.ending && s.voicemail.value.listening && s.voicemail.value.timer.None?
          then
            var v := s.voicemail.value;
            && s'.voicemail.Some? && s'.voicemail.value == v.(timer := s'.voicemail.value.timer)
            && Waits(s.timers, None, VoicemailSilence(v.id), s'.timers, s'.voicemail.value.timer)
          else s'.voicemail == s.voicemail)
  {
    var s := Run(env, events);
    RunKeeps(env, events);
    RunAppend(env, events, CallerStopped);
    Flags(env, s, None);
    FreshIds(env, s);
    if s.menu.Some? { ArmMenuMeans(s); }
    if s.voicemail.Some? && !s.ending { ArmVoicemailMeans(s); }
    StoppedState(env, s);
    hide Run, Step, Good, Seen, ArmMenuTimer, ArmVoicemailTimer, Waits, IdsFit;
  }

  lemma StoppedState(env: Env, s: Call)
    requires s.menu.Some? ==> s.voicemail.None? && !s.ending
    ensures
      var s', armed := Step(env, s, CallerStopped), if s.menu.Some? then ArmMenuTimer(s) else ArmVoicemailTimer(s);
      var rest :=
        && (s.menu.Some? ==> s.menu.value.timer.Some?)
        && (s.voicemail.Some? && !s.ending ==> !s.voicemail.value.listening || s.voicemail.value.timer.Some?);
      var s1 := if s.ending || rest || (s.menu.None? && s.voicemail.None?) then s else armed;
      && Seen(s') == Seen(s1) && s'.menu == s1.menu && s'.voicemail == s1.voicemail && s'.timers == s1.timers
      && !s'.speaking
  {
  }

  // ---- Begin and end ----

  /** A call begins once, with the notice. */
  lemma CallsBeginOnce(env: Env, events: seq<Event>)
    ensures
      var s, s' := Run(env, events), Run(env, events + [BeginCall]);
      var b := Seen(s);
      if s.started then s' == s
      else ComesNext(b.(stands := b.stands.(started := true, inPreamble := true)), Preamble, s')
  {
    var s := Run(env, events);
    RunKeeps(env, events);
    RunAppend(env, events, BeginCall);
    FreshIds(env, s);
    BegunSeen(s);
    hide Run, Good, Seen, Spawn, ComesNext, NewIds, IdsFit;
    SpawnMeans(s.(started := true, inPreamble := true), Preamble);
  }

  lemma BegunSeen(s: Call)
    ensures
      var s1, b := s.(started := true, inPreamble := true), Seen(s);
      Seen(s1) == b.(stands := b.stands.(started := true, inPreamble := true)) && (NewIds(s) ==> NewIds(s1))
  {
  }

  /** The end of the session stops every timer, leaves the menu, and answers an open question with nothing. */
  lemma DisposeStopsAll(env: Env, events: seq<Event>)
    ensures
      var s, s' := Run(env, events), Run(env, events + [Disposed]);
      var b := Seen(s);
      var over := b.(ending := true, stands := b.stands.(disposed := true));
      if s.disposed then s' == s
      else
        && s'.timers == map[] && s'.menu.None?
        && (if s.answer.Some? then Replies(over, None, s') else Seen(s') == over)
        && s'.voicemail == if s.voicemail.None? then None
                           else Some(s.voicemail.value.(listening := false, timer := None, maxTimer := None))
  {
    RunAppend(env, events, Disposed);
    hide Run;
  }

  /** After the end what a voicemail heard is handed over to be saved, if anything was said. */
  lemma FlushHandsOver(env: Env, events: seq<Event>)
    ensures
      var s, s' := Run(env, events), Run(env, events + [Flushed]);
      if !s.disposed || s.voicemail.None? then s' == s
      else
        var v, b := s.voicemail.value, Seen(s);
        && s'.voicemail.None?
        && if Said(v.parts) == "" then Seen(s') == b
           else ComesNext(b.(shows := b.shows.(offered := b.shows.offered + [(v.id, Said(v.parts))])), FlushSave, s')
  {
    var s := Run(env, events);
    RunKeeps(env, events);
    RunAppend(env, events, Flushed);
    FreshIds(env, s);
    if s.voicemail.Some? {
      TakenSeen(s, s.voicemail.value);
      SpawnMeans(TakeVoicemail(s), FlushSave);
    }
    FlushState(s);
    hide Run, Good, Seen, Spawn, ComesNext, NewIds, IdsFit, TakeVoicemail, Message, Said, FlushVoicemail;
  }

  lemma FlushState(s: Call)
    ensures
      FlushVoicemail(s) ==
      if s.voicemail.None? then s
      else if Message(s.voicemail.value.parts) == "" then TakeVoicemail(s) else Spawn(TakeVoicemail(s), FlushSave)
  {
    hide TakeVoicemail, Message, Spawn;
  }

  /** The longest a call may take is counted from when it is set. */
  lemma LimitIsSet(env: Env, events: seq<Event>)
    ensures
      var s, s' := Run(env, events), Run(env, events + [StartCallLimit]);
      Seen(s') == Seen(s) && Starts(s.timers, s'.timers, CallLimit)
  {
    hide Run, Step, Good, SetTimer, Starts, Seen, NewIds;
    var s := Run(env, events);
    RunKeeps(env, events);
    FreshIds(env, s);
    RunAppend(env, events, StartCallLimit);
    SetTimerMeans(env, s, CallLimit);
  }

  lemma SetTimerMeans(env: Env, s: Call, t: Timer)
    requires forall i :: i in s.timers ==> i < s.nextId
    ensures Seen(SetTimer(s, t)) == Seen(s) && Starts(s.timers, SetTimer(s, t).timers, t)
    ensures Step(env, s, StartCallLimit) == SetTimer(s, CallLimit)
  {
    assert s.nextId !in s.timers && SetTimer(s, t).timers == s.timers[s.nextId := t];
  }

  /** What the work of a step comes to once the call is ending: it is noted, but leads nowhere. */
  ghost predicate LeadsNoFurther(env: Env, s: Scene, t: Task, ok: bool, s': Call) {
    match t
    case Preamble =>
      var failed := s.stands.failed || NoStart(env.graph);
      Seen(s') == s.(stands := s.stands.(inPreamble := false, failed := failed))
    case StepPause(_, texting) =>
      var texts := s.stands.textsSent + if texting && ok then 1 else 0;
      Seen(s') == s.(stands := s.stands.(textsSent := texts))
    case SavingVoicemail(node) => ComesNext(s, VoicemailNotice(node), s')
    case _ => Seen(s') == s
  }

  /** Once a call is ending no step is taken, no menu opens and no goodbye begins again. */
  lemma EndIsFinal(env: Env, events: seq<Event>, id: Id, r: Result)
    requires id in Run(env, events).tasks && Run(env, events).ending
    requires Flowing(Run(env, events).tasks[id]) || Run(env, events).tasks[id].FlushSave?
    ensures
      var s := Run(env, events);
      LeadsNoFurther(env, SeenWithout(s, id), s.tasks[id], r.ok, Run(env, events + [Resumes(id, r)]))
  {
    hide Run, Step, Good, Resume, Retire, Seen, SeenWithout, LeadsNoFurther, NewIds;
    var s := Run(env, events);
    RunKeeps(env, events);
    RunAppend(env, events, Resumes(id, r));
    StepResumes(env, s, id, r);
    FreshIds(env, s);
    Retired(env, s, id);
    RetiredFields(s, id);
    DoneAtTheEnd(env, Retire(s, id), s.tasks[id], r);
  }

  lemma DoneAtTheEnd(env: Env, s: Call, t: Task, r: Result)
    requires s.ending && NewIds(s) && (Flowing(t) || t.FlushSave?)
    ensures LeadsNoFurther(env, Seen(s), t, r.ok, Resume(env, s, t, r))
  {
    hide Seen, NewIds, ComesNext, Spawn, NextNode, Enter, EndCall, FollowOrEnd, FindNode, Texted;
    match t
    case Preamble =>
      hide Resume, LeadsNoFurther;
      NoticeAtTheEnd(env, s, r);
    case StepPause(node, texting) =>
      hide Resume, LeadsNoFurther;
      PauseAtTheEnd(env, s, t, r);
    case SavingVoicemail(node) => SpawnMeans(s, VoicemailNotice(node));
    case VoicemailNotice(node) => NothingIsEntered(env, s, None, node.id, None);
    case TransferDone(origin, _) =>
      if origin.FromStep? {
        NothingIsEntered(env, s, NextNode(env.graph, origin.node.id, Some("no_answer")), "", None);
      }
    case _ =>
  }

  lemma NoticeAtTheEnd(env: Env, s: Call, r: Result)
    requires s.ending
    ensures LeadsNoFurther(env, Seen(s), Preamble, r.ok, Resume(env, s, Preamble, r))
  {
    var s1 := s.(inPreamble := false);
    var start := FindStart(env.graph.nodes);
    NoticeSeen(s);
    assert start.None? <==> NoStart(env.graph);
    NoticeState(env, s, r);
    hide Seen, Enter, Fail, FindStart, NoStart, Resume;
    if start.None? {
      EndedFailure(env, s1);
    } else {
      NothingIsEntered(env, s1, Some(start.value.id), "", None);
      assert s.failed == Seen(s).stands.failed by { SeenStands(s); }
    }
  }

  lemma SeenStands(s: Call)
    ensures Seen(s).stands.failed == s.failed
    ensures var b := Seen(s); b.(stands := b.stands.(failed := b.stands.failed)) == b
  {
  }

  lemma NoticeState(env: Env, s: Call, r: Result)
    ensures
      var s1, start := s.(inPreamble := false), FindStart(env.graph.nodes);
      Resume(env, s, Preamble, r) == if start.None? then Fail(env, s1) else Enter(env, s1, Some(start.value.id))
  {
    hide Enter, Fail, FindStart;
  }

  lemma PauseAtTheEnd(env: Env, s: Call, t: Task, r: Result)
    requires s.ending && t.StepPause?
    ensures LeadsNoFurther(env, Seen(s), t, r.ok, Resume(env, s, t, r))
  {
    TextedSeen(s, t.texting && r.ok);
    TextedEnding(s, t.texting && r.ok);
    PauseState(env, s, t, r);
    NothingIsEntered(env, Texted(s, t.texting && r.ok), NextNode(env.graph, t.node.id, None), "", None);
    hide Seen, Enter, NextNode, Texted, Resume;
  }

  lemma TextedEnding(s: Call, ok: bool)
    ensures Texted(s, ok).ending == s.ending
  {
  }

  lemma EndedFailure(env: Env, s: Call)
    requires s.ending
    ensures
      var b := Seen(s);
      Fail(env, s) == s.(failed := true) && Seen(s.(failed := true)) == b.(stands := b.stands.(failed := true))
  {
    hide Spawn, Ask, Parted, LeaveMenu;
  }

  /** What nothing waits for changes nothing. */
  lemma StraysAreIgnored(env: Env, events: seq<Event>, e: Event)
    requires
      var s := Run(env, events);
      || (e.Resumes? && e.id !in s.tasks) || (e.TimerFires? && e.id !in s.timers)
      || (e.AssistantTurn? && (s.answer.None? || !s.aiActive))
      || (e.Played? && (s.answer.None? || s.answer.value.id != e.id || !s.answer.value.playing))
    ensures Run(env, events + [e]) == Run(env, events)
  {
    hide Run, Text.Trim;
    RunAppend(env, events, e);
  }
}
