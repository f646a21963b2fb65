/** Every segment of the call engine keeps the invariant. */
module CallSegments {
  import opened Options
  import opened CallFlow
  import opened CallEngine
  import opened CallInvariants
  import opened CallFrames

  /** A task of the menu's own, which neither transfers nor ends the call. */
  ghost predicate Stepping(t: Task) {
    t.StepPause? || t.SavingVoicemail? || t.VoicemailNotice? || (t.TransferDone? && OwnsFlow(t.origin))
  }

  /** A task that counts as nothing. */
  ghost predicate Idle(t: Task) {
    t.MenuPrompt? || t.VoicemailPrompt? || t.FlushSave? || (t.TransferDone? && !OwnsFlow(t.origin))
  }

  /** Tasks of the same kinds can stand for each other. */
  ghost predicate Alike(t: Task, u: Task) {
    && Is(Driving, t) == Is(Driving, u) && Is(Transferring, t) == Is(Transferring, u)
    && Is(Parting, t) == Is(Parting, u) && Is(StaffOnHold, t) == Is(StaffOnHold, u)
    && Is(StaffPossible, t) == Is(StaffPossible, u) && Is(ConnectingStaff, t) == Is(ConnectingStaff, u)
    && Is(Departing, t) == Is(Departing, u) && Is(HangingUp, t) == Is(HangingUp, u)
    && Is(NoticePlaying, t) == Is(NoticePlaying, u)
  }

  lemma HandPutDown(env: Env, s: Call, t: Task)
    requires Sound(env, s, Some(t)) && (Stepping(t) || Idle(t))
    ensures Sound(env, s, None)
    ensures Holders(s, None) == Holders(s, Some(t)) - One(Stepping(t))
  {
    hide Count, Graces, IdsFit, NumbersFit, TasksFit, DialedFit, TimersFit, HeardFit, PoolOf, TaskOk;
  }

  /** Only what is open or heard changes; all work but the driving kind is what it was. */
  ghost predicate SameLead(s: Call, hand: Option<Task>, s': Call, hand': Option<Task>) {
    && s'.started == s.started && s'.ending == s.ending && s'.disposed == s.disposed
    && s'.inPreamble == s.inPreamble && s'.transferring == s.transferring && s'.aiActive == s.aiActive
    && s'.log.goodbyes == s.log.goodbyes && s'.log.connects == s.log.connects && s'.log.leaves == s.log.leaves
    && s'.log.hangUps == s.log.hangUps && s'.log.graces == s.log.graces && s'.log.clears == s.log.clears
    && s'.log.dropped == s.log.dropped
    && s'.log.answers == s.log.answers && s'.log.recordingStops == s.log.recordingStops
    && s'.log.dialed == s.log.dialed
    && Graces(s'.timers) == Graces(s.timers)
    && forall k :: Leading(k) ==> Work(s', hand', k) == Work(s, hand, k)
  }

  ghost predicate Leading(k: Kind) {
    || k.Transferring? || k.Parting? || k.StaffOnHold? || k.StaffPossible? || k.Departing? || k.HangingUp?
    || k.ConnectingStaff? || k.NoticePlaying?
  }

  lemma LeadKeeps(env: Env, s: Call, hand: Option<Task>, s': Call, hand': Option<Task>)
    requires Led(env, s, hand) && SameLead(s, hand, s', hand')
    requires TasksFit(env, Pool(s'), s.aiActive, s.ending)
    requires hand'.Some? ==> TaskOk(env, hand'.value, s.aiActive, s.ending)
    requires s'.answer.Some? ==> !s'.disposed && (s'.answer.value.waiter.RatingQuestion? ==> s.ending)
    requires Holders(s', hand') <= 1 && (s.ending ==> s'.menu.None?)
    ensures Led(env, s', hand')
  {
    hide Work, Graces, TasksFit, DialedFit, TaskOk, Pool, Holders;
  }

  /** The same work under other identifiers, in the pool or in hand. */
  lemma SameWorkKeeps(env: Env, s: Call, hand: Option<Task>, s': Call, hand': Option<Task>)
    requires Led(env, s, hand) && SameLead(s, hand, s', hand')
    requires s'.menu.Some? == s.menu.Some? && s'.voicemail.Some? == s.voicemail.Some?
    requires Work(s', hand', Driving) == Work(s, hand, Driving)
    requires TasksFit(env, Pool(s'), s.aiActive, s.ending)
    requires hand'.Some? ==> TaskOk(env, hand'.value, s.aiActive, s.ending)
    requires s'.answer.Some? ==> !s'.disposed && (s'.answer.value.waiter.RatingQuestion? ==> s.ending)
    ensures Led(env, s', hand')
    ensures Holders(s', hand') == Holders(s, hand)
  {
    hide Work, Graces, TasksFit, DialedFit, TaskOk, Pool;
    LeadKeeps(env, s, hand, s', hand');
  }

  lemma HandChanges(env: Env, s: Call, t: Task, u: Task)
    requires Sound(env, s, Some(t)) && Alike(t, u) && TaskOk(env, u, s.aiActive, s.ending)
    ensures Sound(env, s, Some(u)) && Holders(s, Some(u)) == Holders(s, Some(t))
  {
    AlikeWork(s, t, u);
    hide Kept, Count, Graces, TasksFit, DialedFit, TaskOk, Pool, Work, Alike;
    SameWorkKeeps(env, s, Some(t), s, Some(u));
  }

  lemma AlikeWork(s: Call, t: Task, u: Task)
    requires Alike(t, u)
    ensures forall k :: Leading(k) || k == Driving ==> Work(s, Some(u), k) == Work(s, Some(t), k)
  {
    hide Count, Pool;
  }

  // ---- Tasks come and go ----

  lemma SpawnKept(env: Env, s: Call, t: Task)
    requires Kept(s) && TasksFit(env, Pool(s), s.aiActive, s.ending) && TaskOk(env, t, s.aiActive, s.ending)
    requires t.MenuPrompt? ==> t.token <= s.menuToken
    requires t.VoicemailPrompt? ==> t.id < s.nextId && !(s.voicemail.Some? && s.voicemail.value.id == t.id)
    ensures Kept(Spawn(s, t))
  {
    MorePrompts(env, s, t);
    hide Count, IdsFit, NumbersFit, TasksFit, TimersFit, HeardFit, Pool, TaskOk, CountsOk, PromptsOk;
    Added(env, s, t);
    NumbersAdd(s.tasks, s.menuToken, s.nextId, s.nextId, t, s.menuToken, s.nextId + 1);
    HeardGrow(s.voicemail, s.log.heard, s.log.offered, s.nextId, s.nextId + 1);
    SameCounts(s, Spawn(s, t));
  }

  lemma MorePrompts(env: Env, s: Call, t: Task)
    requires Kept(s) && TasksFit(env, Pool(s), s.aiActive, s.ending) && TaskOk(env, t, s.aiActive, s.ending)
    requires t.VoicemailPrompt? ==> !(s.voicemail.Some? && s.voicemail.value.id == t.id)
    ensures PromptsOk(Spawn(s, t))
  {
    assert s.voicemail.Some? ==> !Is(GreetingFor(s.voicemail.value.id), t);
    hide Count, IdsFit, NumbersFit, TasksFit, TimersFit, HeardFit, PoolOf, TaskOk, Is, CountsOk;
    Added(env, s, t);
  }

  lemma SpawnKeeps(env: Env, s: Call, t: Task)
    requires Sound(env, s, Some(t))
    requires t.MenuPrompt? ==> t.token <= s.menuToken
    requires t.VoicemailPrompt? ==> t.id < s.nextId && !(s.voicemail.Some? && s.voicemail.value.id == t.id)
    ensures Sound(env, Spawn(s, t), None)
    ensures Holders(Spawn(s, t), None) == Holders(s, Some(t))
  {
    hide Count, Graces, IdsFit, NumbersFit, TasksFit, TimersFit, HeardFit, PoolOf, TaskOk, Is, Holders, FlowOk,
      StaffOk, PromptsOk, CountsOk;
    SpawnKept(env, s, t);
    Added(env, s, t);
    SameWorkKeeps(env, s, Some(t), Spawn(s, t), None);
  }

  lemma RetireKept(env: Env, s: Call, i: Id)
    requires Kept(s) && i in s.tasks && !s.tasks[i].MenuPrompt? && !s.tasks[i].VoicemailPrompt?
    requires TasksFit(env, Pool(s), s.aiActive, s.ending)
    ensures Kept(Retire(s, i))
  {
    hide Count, IdsFit, NumbersFit, TasksFit, TimersFit, HeardFit, PoolOf, TaskOk;
    Removed(env, s, i);
    SamePrompts(s, Retire(s, i));
  }

  lemma RetireKeeps(env: Env, s: Call, i: Id)
    requires Sound(env, s, None) && i in s.tasks && !s.tasks[i].MenuPrompt? && !s.tasks[i].VoicemailPrompt?
    ensures Sound(env, Retire(s, i), Some(s.tasks[i]))
    ensures Holders(Retire(s, i), Some(s.tasks[i])) == Holders(s, None)
  {
    hide Count, Graces, IdsFit, NumbersFit, TasksFit, TimersFit, HeardFit, PoolOf, TaskOk, Is, Holders, FlowOk,
      StaffOk, PromptsOk, CountsOk;
    RetireKept(env, s, i);
    Removed(env, s, i);
    SameWorkKeeps(env, s, None, Retire(s, i), Some(s.tasks[i]));
  }

  // ---- Questions ----

  lemma SettleKept(env: Env, s: Call, reply: Option<Reply>)
    requires Kept(s) && TasksFit(env, Pool(s), s.aiActive, s.ending) && s.answer.Some?
    ensures Kept(Settle(s, reply))
  {
    hide Count, IdsFit, NumbersFit, TasksFit, TimersFit, HeardFit, PoolOf, TaskOk, Is, PromptsOk, CountsOk, Graces;
    Settled(env, s, reply);
    QuestionCloses(s.timers, s.menu, s.voicemail, s.answer.value, s.disposed);
    SamePrompts(s, Settle(s, reply));
    SameCounts(s, Settle(s, reply));
  }

  /** Prompts are in order as long as the same prompts are pending. */
  lemma SamePrompts(s: Call, s': Call)
    requires PromptsOk(s)
    requires s'.menu == s.menu && s'.voicemail == s.voicemail && s'.ending == s.ending && s'.speaking == s.speaking
    requires s'.answer.Some? ==> s'.answer.value.playing == s'.answer.value.timer.None?
    requires s.menu.Some? ==>
               Count(Pool(s'), PromptFor(s.menu.value.token)) == Count(Pool(s), PromptFor(s.menu.value.token))
    requires s.voicemail.Some? ==>
               Count(Pool(s'), GreetingFor(s.voicemail.value.id)) == Count(Pool(s), GreetingFor(s.voicemail.value.id))
    ensures PromptsOk(s')
  {
    hide Count, Pool;
  }

  lemma SameCounts(s: Call, s': Call)
    requires CountsOk(s)
    requires s'.stepCount == s.stepCount && s'.ending == s.ending && s'.menu == s.menu
    requires s'.log.prompts == s.log.prompts
    requires s'.log.asked - s.log.asked ==
             (s'.log.replies - s.log.replies) + One(s'.answer.Some?) - One(s.answer.Some?)
    ensures CountsOk(s')
  {
  }

  lemma SettleKeeps(env: Env, s: Call, hand: Option<Task>, reply: Option<Reply>)
    requires Sound(env, s, hand)
    ensures Sound(env, Settle(s, reply), hand)
    ensures Holders(Settle(s, reply), hand) == Holders(s, hand)
  {
    hide Count, Graces, IdsFit, NumbersFit, TasksFit, TimersFit, HeardFit, PoolOf, TaskOk, Is, Holders, FlowOk,
      StaffOk, EndingOk, PromptsOk, CountsOk;
    if s.answer.Some? {
      SettleKept(env, s, reply);
      Settled(env, s, reply);
      QuestionCloses(s.timers, s.menu, s.voicemail, s.answer.value, s.disposed);
      SameWorkKeeps(env, s, hand, Settle(s, reply), hand);
    }
  }

  lemma NothingToSettle(s: Call, reply: Option<Reply>)
    requires s.answer.None?
    ensures Settle(s, reply) == s
  {
  }

  lemma AskFreshKept(env: Env, s: Call, waiter: Waiter)
    requires Kept(s) && s.answer.None?
    requires TasksFit(env, Pool(s), s.aiActive, s.ending)
    requires TaskOk(env, Replied(waiter, None), s.aiActive, s.ending)
    ensures Kept(Ask(s, waiter))
  {
    AskedPrompts(env, s, waiter);
    NothingToSettle(s, None);
    hide Count, IdsFit, NumbersFit, TasksFit, TimersFit, HeardFit, Pool, TaskOk, Settle, PromptsOk;
    Asked(env, s, waiter);
    QuestionOpens(s.timers, s.menu, s.voicemail, Question(s.nextId, waiter, true, None), s.disposed);
    TimersBelow(s);
    IdsGrow(s, s.timers, s.nextId + 1);
    HeardGrow(s.voicemail, s.log.heard, s.log.offered, s.nextId, s.nextId + 1);
  }

  lemma AskedFields(s: Call, waiter: Waiter)
    requires s.answer.None?
    ensures
      var s' := Ask(s, waiter);
      && s'.menu == s.menu && s'.voicemail == s.voicemail && s'.ending == s.ending && s'.speaking == s.speaking
      && s'.tasks == s.tasks && s'.answer == Some(Question(s.nextId, waiter, true, None))
  {
  }

  lemma AskedPrompts(env: Env, s: Call, waiter: Waiter)
    requires Kept(s) && s.answer.None?
    requires TasksFit(env, Pool(s), s.aiActive, s.ending)
    requires TaskOk(env, Replied(waiter, None), s.aiActive, s.ending)
    ensures PromptsOk(Ask(s, waiter))
  {
    assert forall token :: !Is(PromptFor(token), Replied(waiter, None));
    assert forall id :: !Is(GreetingFor(id), Replied(waiter, None));
    hide Count, IdsFit, NumbersFit, TasksFit, TimersFit, HeardFit, PoolOf, TaskOk, Is, Ask, CountsOk, PromptsOk;
    AskedFields(s, waiter);
    Asked(env, s, waiter);
    SamePrompts(s, Ask(s, waiter));
  }

  lemma AskFreshKeeps(env: Env, s: Call, waiter: Waiter)
    requires Sound(env, s, Some(Replied(waiter, None))) && !s.disposed && s.answer.None?
    requires waiter.RatingQuestion? ==> s.ending
    ensures Sound(env, Ask(s, waiter), None)
    ensures Holders(Ask(s, waiter), None) == Holders(s, Some(Replied(waiter, None)))
  {
    NothingToSettle(s, None);
    hide Settle, Count, Graces, IdsFit, NumbersFit, TasksFit, TimersFit, HeardFit, PoolOf, TaskOk, Is, Holders, FlowOk,
      StaffOk, EndingOk, PromptsOk, CountsOk;
    AskFreshKept(env, s, waiter);
    Asked(env, s, waiter);
    SameWorkKeeps(env, s, Some(Replied(waiter, None)), Ask(s, waiter), None);
  }

  lemma AskKeeps(env: Env, s: Call, waiter: Waiter)
    requires Sound(env, s, Some(Replied(waiter, None))) && !s.disposed
    requires waiter.RatingQuestion? ==> s.ending
    ensures Sound(env, Ask(s, waiter), None)
    ensures Holders(Ask(s, waiter), None) == Holders(s, Some(Replied(waiter, None)))
  {
    hide Kept, Led, Holders;
    SettleKeeps(env, s, Some(Replied(waiter, None)), None);
    AskFreshKeeps(env, Settle(s, None), waiter);
  }

  // ---- Menus ----

  lemma LeaveMenuKeeps(env: Env, s: Call, hand: Option<Task>)
    requires Sound(env, s, hand)
    ensures Sound(env, LeaveMenu(s), hand)
    ensures Holders(LeaveMenu(s), hand) == Holders(s, hand) - One(s.menu.Some?)
  {
    hide Count, Graces, IdsFit, NumbersFit, TasksFit, DialedFit, TimersFit, HeardFit, PoolOf, TaskOk, Is;
    if s.menu.Some? {
      MenuCloses(s.timers, s.menu.value, s.voicemail, s.answer, s.disposed);
      IdsShrink(s, Without(s.timers, s.menu.value.timer));
    }
  }

  lemma IdsShrink(s: Call, timers: map<Id, Timer>)
    requires IdsFit(s.tasks, s.timers, s.answer, s.nextId)
    requires forall i :: i in timers ==> i in s.timers
    ensures IdsFit(s.tasks, timers, s.answer, s.nextId)
  {
  }

  lemma OpenMenuKept(env: Env, s: Call, node: FlowNode, misses: nat)
    requires Kept(s) && !s.ending && s.menu.None? && s.voicemail.None?
    requires TasksFit(env, Pool(s), s.aiActive, s.ending)
    requires 1 <= s.stepCount && misses <= MAX_MENU_REPEATS
    requires s.log.prompts <= PROMPTS_PER_MENU * (StepsTaken(s) - 1) + misses
    ensures Kept(OpenMenu(s, node, misses))
  {
    var t := MenuPrompt(s.menuToken + 1);
    assert Is(PromptFor(s.menuToken + 1), t);
    hide Count, IdsFit, NumbersFit, TasksFit, TimersFit, HeardFit, PoolOf, TaskOk, Is, CountsOk, StepsTaken;
    PlainTaskOk(env, t, s.aiActive, s.ending);
    Added(env, s, t);
    NumbersAdd(s.tasks, s.menuToken, s.nextId, s.nextId, t, s.menuToken + 1, s.nextId + 1);
    HeardGrow(s.voicemail, s.log.heard, s.log.offered, s.nextId, s.nextId + 1);
    MenuOpens(s.timers, MenuState(node, misses, s.menuToken + 1, None), s.voicemail, s.answer, s.disposed);
    OpenMenuCounts(s, node, misses);
    OpenMenuPrompts(s, node, misses);
  }

  lemma OpenMenuPrompts(s: Call, node: FlowNode, misses: nat)
    requires PromptsOk(s) && s.voicemail.None?
    requires Count(Pool(OpenMenu(s, node, misses)), PromptFor(s.menuToken + 1)) > 0
    ensures PromptsOk(OpenMenu(s, node, misses))
  {
    hide Count, PoolOf;
  }

  lemma OpenMenuCounts(s: Call, node: FlowNode, misses: nat)
    requires CountsOk(s) && !s.ending
    requires 1 <= s.stepCount && misses <= MAX_MENU_REPEATS
    requires s.log.prompts <= PROMPTS_PER_MENU * (StepsTaken(s) - 1) + misses
    ensures CountsOk(OpenMenu(s, node, misses))
  {
  }

  /** Prompts, pauses and notices carry no condition. */
  lemma PlainTaskOk(env: Env, t: Task, aiActive: bool, ending: bool)
    requires !InTransfer(t) && !t.TransferDone?
    ensures TaskOk(env, t, aiActive, ending)
  {
  }

  /** A new prompt is no work of any other kind. */
  lemma PromptWork(env: Env, s: Call, t: Task)
    requires Kept(s) && TasksFit(env, Pool(s), s.aiActive, s.ending) && (t.MenuPrompt? || t.VoicemailPrompt?)
    ensures
      var tasks' := s.tasks[s.nextId := t];
      && TasksFit(env, PoolOf(tasks', s.answer), s.aiActive, s.ending)
      && forall k :: Leading(k) || k == Driving ==> Count(PoolOf(tasks', s.answer), k) == Count(Pool(s), k)
  {
    hide Count, TasksFit, TimersFit, HeardFit, TaskOk, PromptsOk, CountsOk;
    PlainTaskOk(env, t, s.aiActive, s.ending);
    Added(env, s, t);
  }

  lemma OpenMenuKeeps(env: Env, s: Call, node: FlowNode, misses: nat)
    requires Sound(env, s, None) && !s.ending && Holders(s, None) == 0
    requires 1 <= s.stepCount && misses <= MAX_MENU_REPEATS
    requires s.log.prompts <= PROMPTS_PER_MENU * (StepsTaken(s) - 1) + misses
    ensures Sound(env, OpenMenu(s, node, misses), None)
    ensures Holders(OpenMenu(s, node, misses), None) == 1
  {
    hide Kept, Count, Graces, TasksFit, PoolOf, Is, FlowOk, StaffOk, StepsTaken;
    PromptWork(env, s, MenuPrompt(s.menuToken + 1));
    OpenMenuKept(env, s, node, misses);
    LeadKeeps(env, s, None, OpenMenu(s, node, misses), None);
  }

  // ---- Work in hand ----

  lemma TakeUp(env: Env, s: Call, t: Task)
    requires Sound(env, s, None) && Holders(s, None) == 0
    requires (Stepping(t) || Idle(t)) && TaskOk(env, t, s.aiActive, s.ending)
    ensures Sound(env, s, Some(t))
    ensures Holders(s, Some(t)) == One(Stepping(t))
  {
    hide Count, Graces, TasksFit, DialedFit, TaskOk, Pool;
    LeadKeeps(env, s, None, s, Some(t));
  }

  lemma SpawnStep(env: Env, s: Call, t: Task)
    requires Sound(env, s, None) && Holders(s, None) == 0
    requires Stepping(t) && TaskOk(env, t, s.aiActive, s.ending)
    ensures Sound(env, Spawn(s, t), None) && Holders(Spawn(s, t), None) == 1
  {
    hide Kept, Led, Holders, TaskOk;
    TakeUp(env, s, t);
    SpawnKeeps(env, s, t);
  }

  lemma SpawnIdle(env: Env, s: Call, t: Task)
    requires Sound(env, s, None) && Idle(t) && TaskOk(env, t, s.aiActive, s.ending)
    requires !t.MenuPrompt? && !t.VoicemailPrompt?
    ensures Sound(env, Spawn(s, t), None) && Holders(Spawn(s, t), None) == Holders(s, None)
  {
    assert Sound(env, s, Some(t)) && Holders(s, Some(t)) == Holders(s, None) by {
      hide Count, Graces, TasksFit, DialedFit, TaskOk, Pool, Kept;
      LeadKeeps(env, s, None, s, Some(t));
    }
    hide Kept, Led, Holders, TaskOk;
    SpawnKeeps(env, s, t);
  }

  // ---- Ending ----

  /** Counters and names that neither work nor timers depend on. */
  lemma SameKept(s: Call, s': Call)
    requires Kept(s)
    requires s'.tasks == s.tasks && s'.timers == s.timers && s'.answer == s.answer && s'.nextId == s.nextId
    requires s'.menu == s.menu && s'.voicemail == s.voicemail && s'.menuToken == s.menuToken
    requires s'.disposed == s.disposed && s'.ending == s.ending && s'.speaking == s.speaking
    requires s'.stepCount == s.stepCount
    requires s'.log.heard == s.log.heard && s'.log.offered == s.log.offered && s'.log.prompts == s.log.prompts
    requires s'.log.asked == s.log.asked && s'.log.replies == s.log.replies
    ensures Kept(s')
  {
    hide Count, IdsFit, NumbersFit, TimersFit, HeardFit, PoolOf;
  }

  lemma PartedIds(s: Call)
    requires IdsOk(s)
    ensures IdsOk(Parted(s))
  {
    hide IdsFit, NumbersFit;
    if s.voicemail.Some? {
      IdsShrink(s, Without(Without(s.timers, s.voicemail.value.timer), s.voicemail.value.maxTimer));
    }
  }

  lemma PartedTimers(s: Call)
    requires TimersOk(s)
    ensures TimersOk(Parted(s)) && Graces(Parted(s).timers) == Graces(s.timers)
  {
    hide Graces, TimersFit;
    if s.voicemail.Some? { VoicemailCloses(s.timers, s.menu, s.voicemail.value, s.answer, s.disposed); }
  }

  lemma PartedVoicemail(s: Call)
    requires VoicemailsOk(s)
    ensures VoicemailsOk(Parted(s))
  {
    hide HeardFit;
    if s.voicemail.Some? {
      var v := s.voicemail.value;
      HeardSame(v, v.(listening := false, timer := None, maxTimer := None), s.log.heard, s.log.offered, s.nextId);
    }
  }

  lemma PartedKept(s: Call)
    requires Kept(s) && s.menu.None?
    ensures Kept(Parted(s)) && Graces(Parted(s).timers) == Graces(s.timers)
  {
    hide IdsOk, TimersOk, VoicemailsOk, CountsOk, PromptsOk;
    PartedIds(s);
    PartedTimers(s);
    PartedVoicemail(s);
    SameCountsEnding(s, Parted(s));
    PartedPrompts(s);
  }

  lemma PartedPrompts(s: Call)
    requires PromptsOk(s) && s.menu.None?
    ensures PromptsOk(Parted(s))
  {
    hide Count, Pool;
  }

  lemma SameCountsEnding(s: Call, s': Call)
    requires CountsOk(s) && s'.stepCount == s.stepCount && s'.ending && s'.menu == s.menu && s'.answer == s.answer
    requires s'.log.prompts == s.log.prompts && s'.log.asked == s.log.asked && s'.log.replies == s.log.replies
    ensures CountsOk(s')
  {
  }

  /** A task of the goodbye and of nothing else. */
  ghost predicate PartingOnly(t: Task) {
    Is(Parting, t) && forall k :: k == Driving || (Leading(k) && k != Parting) ==> !Is(k, t)
  }

  lemma PartedLed(env: Env, s: Call, t: Task)
    requires Led(env, s, None) && !s.ending && s.menu.None?
    requires PartingOnly(t) && TaskOk(env, t, s.aiActive, true)
    requires Graces(Parted(s).timers) == Graces(s.timers) && TasksFit(env, Pool(s), s.aiActive, true)
    ensures Led(env, Parted(s), Some(t))
    ensures Holders(Parted(s), Some(t)) == Holders(s, None)
  {
    hide Is, TaskOk, Count, Graces, TasksFit, DialedFit, PoolOf;
  }

  lemma PartedKeeps(env: Env, s: Call, t: Task)
    requires Sound(env, s, None) && !s.ending && s.menu.None?
    requires PartingOnly(t) && TaskOk(env, t, s.aiActive, true)
    ensures Sound(env, Parted(s), Some(t))
    ensures Holders(Parted(s), Some(t)) == Holders(s, None)
  {
    assert TasksFit(env, Pool(s), s.aiActive, true) by {
      hide Count, Graces, Kept, FlowOk, EndingOk, StaffOk, Pool;
      TasksGrow(env, Pool(s), s.aiActive, s.ending, s.aiActive, true);
    }
    hide Is, TaskOk, Led, Holders, Graces, PartingOnly, TasksFit, IdsOk, TimersOk, PromptsOk, CountsOk, VoicemailsOk;
    PartedKept(s);
    PartedLed(env, s, t);
  }

  /** Facts every segment may rely on. */
  lemma Flags(env: Env, s: Call, hand: Option<Task>)
    requires Sound(env, s, hand)
    ensures (s.disposed ==> s.ending) && (s.ending ==> s.menu.None?)
    ensures s.menu.Some? ==> s.voicemail.None? && !s.aiActive
    ensures s.voicemail.Some? ==> !s.aiActive
    ensures s.disposed ==> s.answer.None?
  {
    hide Kept, Work, Graces, TransfersOk, StaffOk;
  }

  lemma EndCallKeeps(env: Env, s: Call, survey: bool)
    requires Sound(env, s, None)
    ensures Sound(env, EndCall(env, s, survey), None) && EndCall(env, s, survey).ending
    ensures Holders(EndCall(env, s, survey), None) <= Holders(s, None)
  {
    hide Kept, Led, Holders, TaskOk, Is, LeaveMenu, Parted, Ask;
    Flags(env, s, None);
    if !s.ending {
      LeaveMenuKeeps(env, s, None);
      var s1 := LeaveMenu(s);
      var s2 := Parted(s1);
      PartedShape(s);
      PartedShape(s1);
      if survey && env.csatEnabled && !s.failed && s.rating.None? {
        GoodbyeTasks(env, s1.aiActive);
        PartedKeeps(env, s1, Replied(RatingQuestion, None));
        AskKeeps(env, s2, RatingQuestion);
        AskEnding(s2, RatingQuestion);
      } else {
        GoodbyeTasks(env, s1.aiActive);
        PartedKeeps(env, s1, Goodbye);
        SpawnKeeps(env, s2, Goodbye);
      }
    }
  }

  lemma AskEnding(s: Call, w: Waiter)
    ensures Ask(s, w).ending == s.ending
  {
  }

  lemma GoodbyeTasks(env: Env, aiActive: bool)
    ensures PartingOnly(Goodbye) && TaskOk(env, Goodbye, aiActive, true)
    ensures PartingOnly(Replied(RatingQuestion, None)) && TaskOk(env, Replied(RatingQuestion, None), aiActive, true)
  {
  }

  lemma PartedShape(s: Call)
    requires !s.ending
    ensures LeaveMenu(s).menu.None? && !LeaveMenu(s).ending && LeaveMenu(s).aiActive == s.aiActive
    ensures LeaveMenu(s).disposed == s.disposed
    ensures Parted(s).ending && Parted(s).disposed == s.disposed
  {
  }

  lemma FailedKeeps(env: Env, s: Call)
    requires Sound(env, s, None)
    ensures Sound(env, s.(failed := true), None) && Holders(s.(failed := true), None) == Holders(s, None)
  {
    var s1 := s.(failed := true);
    assert Kept(s1) by {
      hide Led, IdsOk, TimersOk, PromptsOk, CountsOk, VoicemailsOk;
      SameKept(s, s1);
    }
    hide Kept, Count, Graces, TasksFit, Pool, StaffOk;
    SameWorkKeeps(env, s, None, s1, None);
  }

  lemma FailKeeps(env: Env, s: Call)
    requires Sound(env, s, None)
    ensures Sound(env, Fail(env, s), None) && Fail(env, s).ending
    ensures Holders(Fail(env, s), None) <= Holders(s, None)
  {
    hide Kept, Led, Holders, EndCall;
    FailedKeeps(env, s);
    EndCallKeeps(env, s.(failed := true), false);
  }
}
