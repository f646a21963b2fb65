/** Segments of what waits for the caller: menus, voicemails and questions, and their timers. */
module CallWaiting {
  import opened Options
  import opened CallFlow
  import opened CallEngine
  import opened CallInvariants
  import opened CallFrames
  import opened CallSegments
  import Text

  /** `Kept` without the promise that every prompt will be heard. */
  ghost predicate Stored(s: Call) {
    IdsOk(s) && TimersOk(s) && CountsOk(s) && VoicemailsOk(s)
  }

  // ---- Menus ----

  lemma ArmMenuKept(s: Call)
    requires Stored(s) && s.menu.Some? && s.voicemail.None? && !s.disposed
    requires s.answer.Some? ==> s.answer.value.playing == s.answer.value.timer.None?
    ensures Kept(ArmMenuTimer(s)) && Graces(ArmMenuTimer(s).timers) == Graces(s.timers)
  {
    hide Count, Graces, IdsFit, NumbersFit, TimersFit, HeardFit, PoolOf;
    var m := s.menu.value;
    TimersBelow(s);
    IdsGrow(s, Without(s.timers, m.timer)[s.nextId := MenuWait(m.token)], s.nextId + 1);
    MenuTimerSet(s.timers, m, s.voicemail, s.answer, s.nextId);
    HeardGrow(s.voicemail, s.log.heard, s.log.offered, s.nextId, s.nextId + 1);
  }

  lemma ArmMenuKeeps(env: Env, s: Call, hand: Option<Task>)
    requires Stored(s) && Led(env, s, hand) && s.menu.Some?
    requires s.answer.Some? ==> s.answer.value.playing == s.answer.value.timer.None?
    ensures Sound(env, ArmMenuTimer(s), hand)
    ensures Holders(ArmMenuTimer(s), hand) == Holders(s, hand)
  {
    hide Count, Graces, TasksFit, DialedFit, PoolOf, Stored;
    ArmMenuKept(s);
    hide Kept, StaffOk;
    SameWorkKeeps(env, s, hand, ArmMenuTimer(s), hand);
  }

  /** A prompt that has played, of this menu or of one long left. */
  lemma PromptRetired(env: Env, s: Call, i: Id)
    requires Sound(env, s, None) && i in s.tasks && (s.tasks[i].MenuPrompt? || s.tasks[i].VoicemailPrompt?)
    ensures Stored(Retire(s, i)) && Led(env, Retire(s, i), None)
    ensures Holders(Retire(s, i), None) == Holders(s, None)
    ensures forall k :: Count(Pool(Retire(s, i)), k) == Count(Pool(s), k) - One(Is(k, s.tasks[i]))
  {
    hide Count, Graces, IdsFit, NumbersFit, TasksFit, TimersFit, HeardFit, PoolOf, TaskOk, PromptsOk, CountsOk, FlowOk,
      StaffOk, EndingOk, Holders;
    Removed(env, s, i);
    SameCounts(s, Retire(s, i));
    assert forall k :: Leading(k) || k == Driving ==> !Is(k, s.tasks[i]);
    LedRetired(env, s, i);
  }

  lemma LedRetired(env: Env, s: Call, i: Id)
    requires Led(env, s, None) && i in s.tasks && TasksFit(env, Pool(Retire(s, i)), s.aiActive, s.ending)
    requires forall k :: Leading(k) || k == Driving ==> Count(Pool(Retire(s, i)), k) == Count(Pool(s), k)
    ensures Led(env, Retire(s, i), None) && Holders(Retire(s, i), None) == Holders(s, None)
  {
    hide Count, Graces, TasksFit, DialedFit, Pool, StaffOk;
    SameWorkKeeps(env, s, None, Retire(s, i), None);
  }

  lemma MenuPromptKeeps(env: Env, s: Call, i: Id, r: Result)
    requires Sound(env, s, None) && i in s.tasks && s.tasks[i].MenuPrompt?
    ensures
      var s' := Resume(env, Retire(s, i), s.tasks[i], r);
      Sound(env, s', None) && Holders(s', None) == Holders(s, None)
  {
    var s1 := Retire(s, i);
    var token := s.tasks[i].token;
    PromptRetired(env, s, i);
    if s1.menu.Some? && s1.menu.value.token == token {
      hide Led, Holders, IdsOk, TimersOk, CountsOk, VoicemailsOk;
      ArmMenuKeeps(env, s1, None);
    } else {
      assert s.voicemail.Some? ==> !Is(GreetingFor(s.voicemail.value.id), s.tasks[i]);
      assert s.menu.Some? ==> !Is(PromptFor(s.menu.value.token), s.tasks[i]);
      hide Led, Holders, Count, IdsOk, TimersOk, CountsOk, VoicemailsOk, Is;
      SamePrompts(s, s1);
    }
  }

  // ---- Voicemail ----

  lemma NoGreetingYet(s: Call)
    requires IdsOk(s)
    ensures Count(Pool(s), GreetingFor(s.nextId)) == 0
  {
    assert Those(Pool(s), GreetingFor(s.nextId)) == {};
  }

  lemma KeptGrow(s: Call, nextId: Id)
    requires Kept(s) && s.nextId <= nextId
    ensures Kept(s.(nextId := nextId))
  {
    hide Count, IdsFit, NumbersFit, TimersFit, HeardFit, PoolOf, CountsOk;
    TimersBelow(s);
    IdsGrow(s, s.timers, nextId);
    HeardGrow(s.voicemail, s.log.heard, s.log.offered, s.nextId, nextId);
    SamePrompts(s, s.(nextId := nextId));
    SameCounts(s, s.(nextId := nextId));
  }

  /** The greeting's task comes after the voicemail's own identifier. */
  lemma GreetingAdded(env: Env, s: Call)
    requires IdsOk(s) && TasksFit(env, Pool(s), s.aiActive, s.ending)
    ensures
      var tasks' := s.tasks[s.nextId + 1 := VoicemailPrompt(s.nextId)];
      && IdsFit(tasks', s.timers, s.answer, s.nextId + 2) && NumbersFit(tasks', s.menuToken, s.nextId + 2)
      && Count(PoolOf(tasks', s.answer), GreetingFor(s.nextId)) == 1
  {
    var t := VoicemailPrompt(s.nextId);
    NoGreetingYet(s);
    assert Is(GreetingFor(s.nextId), t);
    hide Count, IdsFit, NumbersFit, TasksFit, PoolOf, TaskOk, Is;
    TimersBelow(s);
    IdsGrow(s, s.timers, s.nextId + 1);
    PlainTaskOk(env, t, s.aiActive, s.ending);
    Added(env, s.(nextId := s.nextId + 1), t);
    NumbersAdd(s.tasks, s.menuToken, s.nextId, s.nextId + 1, t, s.menuToken, s.nextId + 2);
  }

  lemma StartVoicemailHeard(s: Call, node: FlowNode)
    requires VoicemailsOk(s) && s.voicemail.None?
    ensures VoicemailsOk(StartVoicemail(s, node))
  {
    var v := VoicemailState(s.nextId, node, [], false, None, None);
    hide HeardFit;
    HeardOpens(v, s.log.heard, s.log.offered, s.nextId);
    HeardGrow(Some(v), s.log.heard[s.nextId := []], s.log.offered, s.nextId + 1, s.nextId + 2);
  }

  lemma StartVoicemailStored(env: Env, s: Call, node: FlowNode)
    requires Stored(s) && s.voicemail.None? && TasksFit(env, Pool(s), s.aiActive, s.ending)
    ensures Stored(StartVoicemail(s, node))
    ensures Count(Pool(StartVoicemail(s, node)), GreetingFor(s.nextId)) == 1
  {
    hide Count, IdsFit, NumbersFit, TasksFit, TimersFit, PoolOf, CountsOk, VoicemailsOk;
    GreetingAdded(env, s);
    StartVoicemailHeard(s, node);
    VoicemailOpens(
      s.timers, s.menu, VoicemailState(s.nextId, node, [], false, None, None), s.answer, s.disposed);
    SameCounts(s, StartVoicemail(s, node));
  }

  lemma StartVoicemailKept(env: Env, s: Call, node: FlowNode)
    requires Kept(s) && !s.ending && s.menu.None? && s.voicemail.None?
    requires TasksFit(env, Pool(s), s.aiActive, s.ending)
    ensures Kept(StartVoicemail(s, node))
  {
    hide Count, Pool, TasksFit, IdsOk, TimersOk, CountsOk, VoicemailsOk;
    StartVoicemailStored(env, s, node);
  }

  lemma GreetingWork(env: Env, s: Call)
    requires Sound(env, s, None)
    ensures
      var tasks' := s.tasks[s.nextId + 1 := VoicemailPrompt(s.nextId)];
      && TasksFit(env, Pool(s), s.aiActive, s.ending)
      && TasksFit(env, PoolOf(tasks', s.answer), s.aiActive, s.ending)
      && forall k :: Leading(k) || k == Driving ==> Count(PoolOf(tasks', s.answer), k) == Count(Pool(s), k)
  {
    hide Kept, Count, Graces, TasksFit, PoolOf, Is, FlowOk, StaffOk, EndingOk;
    KeptGrow(s, s.nextId + 1);
    PromptWork(env, s.(nextId := s.nextId + 1), VoicemailPrompt(s.nextId));
  }

  lemma StartVoicemailKeeps(env: Env, s: Call, node: FlowNode)
    requires Sound(env, s, None) && !s.ending && Holders(s, None) == 0
    ensures Sound(env, StartVoicemail(s, node), None) && Holders(StartVoicemail(s, node), None) == 1
  {
    hide Count, Graces, TasksFit, PoolOf, Is, FlowOk, StaffOk, TransfersOk, IdsOk, TimersOk, PromptsOk, CountsOk,
      VoicemailsOk;
    GreetingWork(env, s);
    StartVoicemailKept(env, s, node);
    hide Kept;
    LeadKeeps(env, s, None, StartVoicemail(s, node), None);
  }

  lemma ArmVoicemailKept(s: Call)
    requires Stored(s) && s.voicemail.Some? && s.voicemail.value.listening && s.menu.None? && !s.ending && !s.disposed
    requires s.voicemail.value.maxTimer.Some? && Count(Pool(s), GreetingFor(s.voicemail.value.id)) == 0
    requires s.answer.Some? ==> s.answer.value.playing == s.answer.value.timer.None?
    ensures Kept(ArmVoicemailTimer(s)) && Graces(ArmVoicemailTimer(s).timers) == Graces(s.timers)
  {
    hide Count, Graces, IdsFit, NumbersFit, TimersFit, HeardFit, PoolOf, CountsOk;
    var v := s.voicemail.value;
    TimersBelow(s);
    IdsGrow(s, Without(s.timers, v.timer)[s.nextId := VoicemailSilence(v.id)], s.nextId + 1);
    VoicemailTimerSet(s.timers, s.menu, v, s.answer, s.nextId);
    HeardSame(v, v.(timer := Some(s.nextId)), s.log.heard, s.log.offered, s.nextId);
    HeardGrow(Some(v.(timer := Some(s.nextId))), s.log.heard, s.log.offered, s.nextId, s.nextId + 1);
    SameCounts(s, ArmVoicemailTimer(s));
  }

  lemma ArmVoicemailKeeps(env: Env, s: Call)
    requires Stored(s) && Led(env, s, None) && !s.ending
    requires s.voicemail.Some? && s.voicemail.value.listening
    requires s.voicemail.value.maxTimer.Some? && Count(Pool(s), GreetingFor(s.voicemail.value.id)) == 0
    requires s.answer.Some? ==> s.answer.value.playing == s.answer.value.timer.None?
    ensures Sound(env, ArmVoicemailTimer(s), None)
    ensures Holders(ArmVoicemailTimer(s), None) == Holders(s, None)
  {
    hide Count, Graces, TasksFit, DialedFit, PoolOf, Stored;
    ArmVoicemailKept(s);
    hide Kept, StaffOk;
    SameWorkKeeps(env, s, None, ArmVoicemailTimer(s), None);
  }

  lemma ListenStored(s: Call, v: VoicemailState)
    requires Stored(s) && s.voicemail == Some(v) && !s.disposed
    requires !v.listening && v.timer.None? && v.maxTimer.None?
    ensures Stored(Listen(s, v)) && Graces(Listen(s, v).timers) == Graces(s.timers)
  {
    hide Count, Graces, IdsFit, NumbersFit, TimersFit, HeardFit, PoolOf, CountsOk;
    TimersBelow(s);
    IdsGrow(s, s.timers[s.nextId := VoicemailMax(v.id)], s.nextId + 1);
    VoicemailListens(s.timers, s.menu, v, s.answer, s.nextId);
    var v' := v.(listening := true, maxTimer := Some(s.nextId));
    HeardSame(v, v', s.log.heard, s.log.offered, s.nextId);
    HeardGrow(Some(v'), s.log.heard, s.log.offered, s.nextId, s.nextId + 1);
    SameCounts(s, Listen(s, v));
  }

  lemma ListenKeeps(env: Env, s: Call, v: VoicemailState)
    requires Stored(s) && Led(env, s, None) && s.voicemail == Some(v) && !s.ending
    requires !v.listening && v.timer.None? && v.maxTimer.None? && Count(Pool(s), GreetingFor(v.id)) == 0
    requires s.answer.Some? ==> s.answer.value.playing == s.answer.value.timer.None?
    ensures Sound(env, ArmVoicemailTimer(Listen(s, v)), None)
    ensures Holders(ArmVoicemailTimer(Listen(s, v)), None) == Holders(s, None)
  {
    hide Count, Graces, TasksFit, DialedFit, PoolOf, Stored;
    ListenStored(s, v);
    hide Kept, StaffOk;
    SameWorkKeeps(env, s, None, Listen(s, v), None);
    ArmVoicemailKeeps(env, Listen(s, v));
  }

  lemma VoicemailPromptState(env: Env, s: Call, t: Task, r: Result)
    requires t.VoicemailPrompt?
    ensures
      Resume(env, s, t, r) ==
      if s.voicemail.None? || s.voicemail.value.id != t.id || s.ending then s
      else ArmVoicemailTimer(Listen(s, s.voicemail.value))
  {
    hide ArmVoicemailTimer, Listen;
  }

  /** What the retired greeting of voicemail `id` leaves of the prompts. */
  lemma GreetingRetired(env: Env, s: Call, s1: Call, id: Id)
    requires PromptsOk(s)
    requires s1 == s.(tasks := s1.tasks)
    requires forall k :: Count(Pool(s1), k) == Count(Pool(s), k) - One(k == GreetingFor(id))
    ensures s.voicemail.None? || s.voicemail.value.id != id || s.ending ==> PromptsOk(s1)
    ensures
      s.voicemail.Some? && s.voicemail.value.id == id && !s.ending ==>
        var v := s.voicemail.value;
        !v.listening && v.timer.None? && v.maxTimer.None? && Count(Pool(s1), GreetingFor(id)) == 0
    ensures s.answer.Some? ==> s.answer.value.playing == s.answer.value.timer.None?
  {
    hide Count, Pool;
  }

  lemma GreetingKinds(t: Task)
    requires t.VoicemailPrompt?
    ensures forall k :: Is(k, t) <==> k == GreetingFor(t.id)
  {
  }

  lemma VoicemailPromptKeeps(env: Env, s: Call, i: Id, r: Result)
    requires Sound(env, s, None) && i in s.tasks && s.tasks[i].VoicemailPrompt?
    ensures
      var s' := Resume(env, Retire(s, i), s.tasks[i], r);
      Sound(env, s', None) && Holders(s', None) == Holders(s, None)
  {
    var s1, t := Retire(s, i), s.tasks[i];
    PromptRetired(env, s, i);
    GreetingKinds(t);
    PromptsAreOk(env, s);
    VoicemailPromptState(env, s1, t, r);
    hide Led, Holders, Count, Pool, PromptsOk, Is, Resume, ArmVoicemailTimer, Listen, IdsOk, TimersOk, CountsOk,
      VoicemailsOk;
    GreetingRetired(env, s, s1, t.id);
    if s1.voicemail.Some? && s1.voicemail.value.id == t.id && !s1.ending { ListenKeeps(env, s1, s1.voicemail.value); }
  }

  /** The live voicemail accepts an utterance. */
  function Hear(s: Call, v: VoicemailState, spoken: string): Call {
    s.(
      voicemail := Some(v.(parts := v.parts + [spoken])),
      log := s.log.(heard := s.log.heard[v.id := v.parts + [spoken]]))
  }

  lemma HearKept(s: Call, v: VoicemailState, spoken: string)
    requires Kept(s) && s.voicemail == Some(v) && !s.disposed && spoken != "" && Text.Trimmed(spoken)
    ensures Kept(Hear(s, v, spoken))
  {
    hide Count, IdsFit, NumbersFit, TimersFit, HeardFit, PoolOf, CountsOk;
    HeardMore(v, spoken, s.log.heard, s.log.offered, s.nextId);
    VoicemailHears(s.timers, s.menu, v, s.answer, v.parts + [spoken]);
    SameCounts(s, Hear(s, v, spoken));
  }

  lemma HearKeeps(env: Env, s: Call, v: VoicemailState, spoken: string)
    requires Sound(env, s, None) && s.voicemail == Some(v) && !s.ending && spoken != "" && Text.Trimmed(spoken)
    ensures
      var s1 := Hear(s, v, spoken);
      var s' := if v.listening then ArmVoicemailTimer(s1) else s1;
      Sound(env, s', None) && Holders(s', None) == Holders(s, None)
  {
    var s1 := Hear(s, v, spoken);
    assert Led(env, s1, None) && Holders(s1, None) == Holders(s, None) by {
      hide Kept, Count, Graces, TasksFit, PoolOf, StaffOk;
      SameWorkKeeps(env, s, None, s1, None);
    }
    Flags(env, s, None);
    HearKept(s, v, spoken);
    hide Led, Holders, Count, IdsOk, TimersOk, CountsOk, VoicemailsOk;
    if v.listening { ArmVoicemailKeeps(env, s1); }
  }

  lemma NothingToTake(s: Call)
    requires s.voicemail.None?
    ensures TakeVoicemail(s) == s
  {
  }

  lemma TakeIds(s: Call)
    requires IdsOk(s) && s.voicemail.Some?
    ensures IdsOk(TakeVoicemail(s))
  {
    hide IdsFit, NumbersFit, Message;
    IdsShrink(s, Without(Without(s.timers, s.voicemail.value.timer), s.voicemail.value.maxTimer));
  }

  lemma TakeTimers(s: Call)
    requires TimersOk(s) && s.voicemail.Some?
    ensures TimersOk(TakeVoicemail(s)) && Graces(TakeVoicemail(s).timers) == Graces(s.timers)
  {
    hide Graces, TimersFit, Message;
    VoicemailCloses(s.timers, s.menu, s.voicemail.value, s.answer, s.disposed);
  }

  lemma TakeHeard(s: Call)
    requires VoicemailsOk(s) && s.voicemail.Some?
    ensures VoicemailsOk(TakeVoicemail(s))
  {
    hide HeardFit, Message, FirstChars;
    HeardTaken(s.voicemail.value, s.log.heard, s.log.offered, s.nextId);
    assert s.log.offered + [] == s.log.offered;
  }

  lemma TakePrompts(s: Call)
    requires PromptsOk(s) && s.voicemail.Some?
    ensures PromptsOk(TakeVoicemail(s))
  {
    hide Count, PoolOf, Message;
  }

  lemma TakeKept(s: Call)
    requires Kept(s) && s.voicemail.Some?
    ensures Kept(TakeVoicemail(s)) && Graces(TakeVoicemail(s).timers) == Graces(s.timers)
  {
    hide IdsOk, TimersOk, PromptsOk, CountsOk, VoicemailsOk, Message;
    TakeIds(s);
    TakeTimers(s);
    TakeHeard(s);
    TakePrompts(s);
    SameCounts(s, TakeVoicemail(s));
  }

  lemma TakeKeeps(env: Env, s: Call)
    requires Sound(env, s, None) && s.voicemail.Some?
    ensures Sound(env, TakeVoicemail(s), None)
    ensures Holders(s, None) == 1 && Holders(TakeVoicemail(s), None) == 0
  {
    hide IdsOk, TimersOk, PromptsOk, CountsOk, VoicemailsOk, Count, Graces, TasksFit, PoolOf, StaffOk, Message;
    TakeKept(s);
    LeadKeeps(env, s, None, TakeVoicemail(s), None);
  }

  lemma TakeFlags(s: Call)
    ensures TakeVoicemail(s).ending == s.ending && TakeVoicemail(s).voicemail.None?
  {
    hide Message;
  }

  lemma FinishVoicemailState(s: Call)
    requires s.voicemail.Some?
    ensures
      var v := s.voicemail.value;
      FinishVoicemail(s) ==
      Spawn(TakeVoicemail(s), if Message(v.parts) == "" then VoicemailNotice(v.node) else SavingVoicemail(v.node))
    ensures FinishVoicemail(s).ending == s.ending
  {
    hide Message;
  }

  lemma FinishVoicemailKeeps(env: Env, s: Call)
    requires Sound(env, s, None) && s.voicemail.Some?
    ensures Sound(env, FinishVoicemail(s), None) && Holders(FinishVoicemail(s), None) == 1
    ensures FinishVoicemail(s).ending == s.ending
  {
    var s1, v := TakeVoicemail(s), s.voicemail.value;
    FinishVoicemailState(s);
    hide Kept, Led, Holders, TaskOk, TakeVoicemail, Message, FinishVoicemail, Spawn;
    PlainTaskOk(env, VoicemailNotice(v.node), s1.aiActive, s1.ending);
    PlainTaskOk(env, SavingVoicemail(v.node), s1.aiActive, s1.ending);
    TakeKeeps(env, s);
    SpawnStep(env, s1, if Message(v.parts) == "" then VoicemailNotice(v.node) else SavingVoicemail(v.node));
  }

  lemma FlushVoicemailKeeps(env: Env, s: Call)
    requires Sound(env, s, None) && s.ending
    ensures Sound(env, FlushVoicemail(s), None) && Holders(FlushVoicemail(s), None) <= Holders(s, None)
    ensures FlushVoicemail(s).ending && FlushVoicemail(s).voicemail.None?
  {
    if s.voicemail.Some? {
      var s1 := TakeVoicemail(s);
      hide Kept, Led, Holders, TaskOk, TakeVoicemail, Message;
      TakeFlags(s);
      PlainTaskOk(env, FlushSave, s1.aiActive, s1.ending);
      TakeKeeps(env, s);
      SpawnIdle(env, s1, FlushSave);
    }
  }

  // ---- The caller makes a sound ----

  lemma SpeakingKeeps(env: Env, s: Call)
    requires Sound(env, s, None)
    ensures Sound(env, s.(speaking := true), None)
    ensures Holders(s.(speaking := true), None) == Holders(s, None)
  {
    var s' := s.(speaking := true);
    hide IdsFit, NumbersFit, TimersFit, HeardFit, Count, Graces, TasksFit, PoolOf, StaffOk, CountsOk, TransfersOk,
      EndingOk, FlowOk;
    SameCounts(s, s');
    LedSpeaking(env, s);
  }

  lemma LedSpeaking(env: Env, s: Call)
    requires Led(env, s, None)
    ensures Led(env, s.(speaking := true), None)
    ensures Holders(s.(speaking := true), None) == Holders(s, None)
  {
    hide Count, Graces, TasksFit, PoolOf, StaffOk;
    SameWorkKeeps(env, s, None, s.(speaking := true), None);
  }

  lemma StopMenuKept(s: Call)
    requires Kept(s) && s.speaking
    ensures Kept(StopMenuTimer(s)) && Graces(StopMenuTimer(s).timers) == Graces(s.timers)
  {
    hide Count, Graces, IdsFit, NumbersFit, TimersFit, HeardFit, PoolOf;
    if s.menu.Some? {
      MenuCloses(s.timers, s.menu.value, s.voicemail, s.answer, s.disposed);
      IdsShrink(s, Without(s.timers, s.menu.value.timer));
    }
  }

  lemma StopMenuKeeps(env: Env, s: Call)
    requires Sound(env, s, None) && s.speaking
    ensures Sound(env, StopMenuTimer(s), None) && Holders(StopMenuTimer(s), None) == Holders(s, None)
  {
    hide Count, Graces, TasksFit, PoolOf, StaffOk, IdsOk, TimersOk, PromptsOk, CountsOk, VoicemailsOk;
    StopMenuKept(s);
    SameWorkKeeps(env, s, None, StopMenuTimer(s), None);
  }

  lemma StopVoicemailKept(s: Call)
    requires Kept(s)
    ensures Kept(StopVoicemailTimer(s)) && Graces(StopVoicemailTimer(s).timers) == Graces(s.timers)
  {
    hide Count, Graces, IdsFit, NumbersFit, TimersFit, HeardFit, PoolOf, CountsOk;
    if s.voicemail.Some? {
      var v := s.voicemail.value;
      VoicemailPaused(s.timers, s.menu, v, s.answer, s.disposed);
      IdsShrink(s, Without(s.timers, v.timer));
      HeardSame(v, v.(timer := None), s.log.heard, s.log.offered, s.nextId);
      SameCounts(s, StopVoicemailTimer(s));
    }
  }

  lemma StopVoicemailKeeps(env: Env, s: Call)
    requires Sound(env, s, None)
    ensures Sound(env, StopVoicemailTimer(s), None) && Holders(StopVoicemailTimer(s), None) == Holders(s, None)
  {
    hide Count, Graces, TasksFit, PoolOf, StaffOk, IdsOk, TimersOk, PromptsOk, CountsOk, VoicemailsOk;
    StopVoicemailKept(s);
    SameWorkKeeps(env, s, None, StopVoicemailTimer(s), None);
  }

  lemma StartedKeeps(env: Env, s: Call)
    requires Sound(env, s, None)
    ensures Sound(env, OnCallerStartedSpeaking(s), None)
    ensures Holders(OnCallerStartedSpeaking(s), None) == Holders(s, None)
  {
    var s1 := s.(speaking := true);
    assert StopMenuTimer(s1).speaking;
    hide Kept, Led, Holders, StopMenuTimer, StopVoicemailTimer;
    SpeakingKeeps(env, s);
    StopMenuKeeps(env, s1);
    StopVoicemailKeeps(env, StopMenuTimer(s1));
  }

  lemma SilentKeeps(env: Env, s: Call)
    requires Sound(env, s, None) && (s.menu.Some? ==> s.menu.value.timer.Some?)
    ensures Sound(env, s.(speaking := false), None)
    ensures Holders(s.(speaking := false), None) == Holders(s, None)
  {
    var s' := s.(speaking := false);
    assert Led(env, s', None) && Holders(s', None) == Holders(s, None) by {
      hide Kept, Count, Graces, TasksFit, PoolOf, StaffOk;
      SameWorkKeeps(env, s, None, s', None);
    }
    hide Led, Holders, IdsFit, NumbersFit, TimersFit, HeardFit, Count, PoolOf, CountsOk;
    SameCounts(s, s');
  }

  lemma StoppedState(s: Call)
    requires s.menu.Some? ==> s.voicemail.None?
    ensures
      OnCallerStoppedSpeaking(s) ==
      (if s.ending then s
       else if s.menu.Some? && s.menu.value.timer.None? then ArmMenuTimer(s)
       else if s.voicemail.Some? && s.voicemail.value.listening && s.voicemail.value.timer.None?
       then ArmVoicemailTimer(s)
       else s).(speaking := false)
  {
    if s.menu.Some? { assert ArmMenuTimer(s).voicemail == s.voicemail; }
    hide ArmMenuTimer, ArmVoicemailTimer;
  }

  lemma ArmedMenu(s: Call)
    ensures ArmMenuTimer(s).menu.Some? ==> ArmMenuTimer(s).menu.value.timer.Some?
  {
  }

  lemma ArmedVoicemail(s: Call)
    ensures ArmVoicemailTimer(s).menu == s.menu
  {
  }

  lemma StoppedAtMenu(env: Env, s: Call)
    requires Sound(env, s, None) && s.menu.Some? && !s.ending && s.menu.value.timer.None?
    ensures
      var s' := ArmMenuTimer(s).(speaking := false);
      Sound(env, s', None) && Holders(s', None) == Holders(s, None)
  {
    ArmedMenu(s);
    PromptsAreOk(env, s);
    hide Led, Holders, Kept, ArmMenuTimer;
    ArmMenuKeeps(env, s, None);
    SilentKeeps(env, ArmMenuTimer(s));
  }

  lemma StoppedAtVoicemail(env: Env, s: Call)
    requires Sound(env, s, None) && s.menu.None? && !s.ending
    requires s.voicemail.Some? && s.voicemail.value.listening && s.voicemail.value.timer.None?
    ensures
      var s' := ArmVoicemailTimer(s).(speaking := false);
      Sound(env, s', None) && Holders(s', None) == Holders(s, None)
  {
    ArmedVoicemail(s);
    PromptsAreOk(env, s);
    hide Led, Holders, Kept, Count, Pool, ArmVoicemailTimer;
    ArmVoicemailKeeps(env, s);
    SilentKeeps(env, ArmVoicemailTimer(s));
  }

  lemma PromptsAreOk(env: Env, s: Call)
    requires Sound(env, s, None)
    ensures PromptsOk(s) && Stored(s)
  {
    hide Led, IdsOk, TimersOk, CountsOk, VoicemailsOk, PromptsOk;
  }

  lemma StoppedKeeps(env: Env, s: Call)
    requires Sound(env, s, None)
    ensures Sound(env, OnCallerStoppedSpeaking(s), None)
    ensures Holders(OnCallerStoppedSpeaking(s), None) == Holders(s, None)
  {
    Flags(env, s, None);
    StoppedState(s);
    hide Sound, Holders, OnCallerStoppedSpeaking, ArmMenuTimer, ArmVoicemailTimer;
    if !s.ending && s.menu.Some? && s.menu.value.timer.None? {
      StoppedAtMenu(env, s);
    } else if !s.ending && s.voicemail.Some? && s.voicemail.value.listening && s.voicemail.value.timer.None? {
      StoppedAtVoicemail(env, s);
    } else {
      SilentKeeps(env, s);
    }
  }

  // ---- Questions ----

  lemma QuestionTimed(s: Call, q: Question)
    requires Kept(s) && s.answer == Some(q) && q.playing && !s.disposed
    ensures Kept(QuestionPlayed(s, q.id, true)) && Graces(QuestionPlayed(s, q.id, true).timers) == Graces(s.timers)
  {
    hide Count, Graces, IdsFit, NumbersFit, TimersFit, HeardFit, PoolOf, CountsOk;
    var s' := QuestionPlayed(s, q.id, true);
    TimersBelow(s);
    assert IdsFit(s'.tasks, s'.timers, s'.answer, s'.nextId) by { QuestionIds(s, q); }
    IdsGrow(s, s.timers, s.nextId + 1);
    QuestionTimerSet(s.timers, s.menu, s.voicemail, q, s.nextId);
    HeardGrow(s.voicemail, s.log.heard, s.log.offered, s.nextId, s.nextId + 1);
    assert PoolOf(s'.tasks, s'.answer) == PoolOf(s.tasks, s.answer) by {
      SameQuestionPool(s.tasks, q, s'.answer.value);
    }
    SameCounts(s, s');
  }

  lemma QuestionIds(s: Call, q: Question)
    requires IdsFit(s.tasks, s.timers, s.answer, s.nextId) && s.answer == Some(q)
    ensures IdsFit(
              s.tasks, s.timers[s.nextId := AnswerWait(q.id)], Some(q.(playing := false, timer := Some(s.nextId))),
              s.nextId + 1)
  {
  }

  lemma SameQuestionPool(tasks: map<Id, Task>, q: Question, q': Question)
    requires q'.id == q.id && q'.waiter == q.waiter
    ensures PoolOf(tasks, Some(q')) == PoolOf(tasks, Some(q))
  {
  }

  lemma QuestionPlayedKeeps(env: Env, s: Call, id: Id, spoken: bool)
    requires Sound(env, s, None)
    ensures Sound(env, QuestionPlayed(s, id, spoken), None)
    ensures Holders(QuestionPlayed(s, id, spoken), None) == Holders(s, None)
  {
    Flags(env, s, None);
    if s.answer.Some? && s.answer.value.id == id && s.answer.value.playing && spoken {
      hide Kept, Led, Holders, Graces, QuestionPlayed;
      QuestionTimed(s, s.answer.value);
      QuestionTimedLed(env, s, s.answer.value);
    } else {
      hide Sound, Holders, Settle;
      SettleKeeps(env, s, None, None);
    }
  }

  /** Timers and what is open may change as long as the same work is pending. */
  lemma SamePoolLed(env: Env, s: Call, s': Call)
    requires Led(env, s, None) && Pool(s') == Pool(s) && Graces(s'.timers) == Graces(s.timers)
    requires s' == s.(timers := s'.timers, nextId := s'.nextId, answer := s'.answer)
    requires s'.answer.Some? ==> s.answer.Some? && s'.answer.value.waiter == s.answer.value.waiter
    ensures Led(env, s', None) && Holders(s', None) == Holders(s, None)
  {
    hide Count, Graces, TasksFit, Pool;
  }

  lemma QuestionTimedFields(s: Call, q: Question)
    requires s.answer == Some(q) && q.playing
    ensures
      var s' := QuestionPlayed(s, q.id, true);
      && s' == s.(timers := s'.timers, nextId := s'.nextId, answer := s'.answer)
      && s'.answer == Some(q.(playing := false, timer := Some(s.nextId)))
  {
  }

  lemma QuestionTimedLed(env: Env, s: Call, q: Question)
    requires Led(env, s, None) && s.answer == Some(q) && q.playing && !s.disposed
    requires Graces(QuestionPlayed(s, q.id, true).timers) == Graces(s.timers)
    ensures
      var s' := QuestionPlayed(s, q.id, true);
      Led(env, s', None) && Holders(s', None) == Holders(s, None)
  {
    hide Led, Holders, Graces, QuestionPlayed, PoolOf;
    var s' := QuestionPlayed(s, q.id, true);
    QuestionTimedFields(s, q);
    SameQuestionPool(s.tasks, q, s'.answer.value);
    SamePoolLed(env, s, s');
  }
}
