/** How the parts of a call's state change together: pending work, identifiers, timers, voicemails. */
module CallFrames {
  import opened Options
  import opened CallEngine
  import opened CallInvariants
  import Text

  // ---- Pending work ----

  /** A new task under a fresh identifier. */
  lemma Added(env: Env, s: Call, t: Task)
    requires IdsFit(s.tasks, s.timers, s.answer, s.nextId)
    requires TasksFit(env, Pool(s), s.aiActive, s.ending) && TaskOk(env, t, s.aiActive, s.ending)
    ensures IdsFit(s.tasks[s.nextId := t], s.timers, s.answer, s.nextId + 1)
    ensures TasksFit(env, PoolOf(s.tasks[s.nextId := t], s.answer), s.aiActive, s.ending)
    ensures forall k :: Count(PoolOf(s.tasks[s.nextId := t], s.answer), k) == Count(Pool(s), k) + One(Is(k, t))
  {
    CountAdd(Pool(s), s.nextId, t);
    assert PoolOf(s.tasks[s.nextId := t], s.answer) == Pool(s)[s.nextId := t];
  }

  lemma NumbersAdd(tasks: map<Id, Task>, menuToken: nat, nextId: Id, i: Id, t: Task, menuToken': nat, nextId': Id)
    requires NumbersFit(tasks, menuToken, nextId) && menuToken <= menuToken' && nextId <= nextId'
    requires t.MenuPrompt? ==> t.token <= menuToken'
    requires t.VoicemailPrompt? ==> t.id < nextId'
    ensures NumbersFit(tasks[i := t], menuToken', nextId')
  {
  }

  /** A task that is resumed leaves the pool. */
  lemma Removed(env: Env, s: Call, i: Id)
    requires IdsFit(s.tasks, s.timers, s.answer, s.nextId) && i in s.tasks
    requires NumbersFit(s.tasks, s.menuToken, s.nextId)
    requires TasksFit(env, Pool(s), s.aiActive, s.ending)
    ensures IdsFit(s.tasks - {i}, s.timers, s.answer, s.nextId)
    ensures NumbersFit(s.tasks - {i}, s.menuToken, s.nextId)
    ensures TasksFit(env, PoolOf(s.tasks - {i}, s.answer), s.aiActive, s.ending)
    ensures TaskOk(env, s.tasks[i], s.aiActive, s.ending)
    ensures s.tasks[i].MenuPrompt? ==> s.tasks[i].token <= s.menuToken
    ensures s.tasks[i].VoicemailPrompt? ==> s.tasks[i].id < s.nextId
    ensures forall k :: Count(Pool(s), k) == Count(PoolOf(s.tasks - {i}, s.answer), k) + One(Is(k, s.tasks[i]))
  {
    CountRemove(Pool(s), i);
    assert PoolOf(s.tasks - {i}, s.answer) == Pool(s) - {i};
    assert Pool(s)[i] == s.tasks[i];
  }

  /** A question settled becomes a task that was counted already. */
  lemma Settled(env: Env, s: Call, reply: Option<Reply>)
    requires IdsFit(s.tasks, s.timers, s.answer, s.nextId) && s.answer.Some?
    requires NumbersFit(s.tasks, s.menuToken, s.nextId)
    requires TasksFit(env, Pool(s), s.aiActive, s.ending)
    ensures
      var tasks' := s.tasks[s.answer.value.id := Replied(s.answer.value.waiter, reply)];
      && IdsFit(tasks', Without(s.timers, s.answer.value.timer), None, s.nextId)
      && NumbersFit(tasks', s.menuToken, s.nextId)
      && TasksFit(env, PoolOf(tasks', None), s.aiActive, s.ending)
      && forall k :: Count(PoolOf(tasks', None), k) == Count(Pool(s), k)
  {
    var q := s.answer.value;
    CountAdd(s.tasks, q.id, Replied(q.waiter, None));
    CountAdd(s.tasks, q.id, Replied(q.waiter, reply));
    var before, after := Pool(s), s.tasks[q.id := Replied(q.waiter, reply)];
    assert before[q.id] == Replied(q.waiter, None);
    forall i | i in after ensures TaskOk(env, after[i], s.aiActive, s.ending) {
      assert TaskOk(env, before[i], s.aiActive, s.ending);
    }
  }

  lemma Asked(env: Env, s: Call, waiter: Waiter)
    requires IdsFit(s.tasks, s.timers, s.answer, s.nextId) && s.answer.None?
    requires TasksFit(env, Pool(s), s.aiActive, s.ending)
    requires TaskOk(env, Replied(waiter, None), s.aiActive, s.ending)
    ensures
      var q := Some(Question(s.nextId, waiter, true, None));
      && IdsFit(s.tasks, s.timers, q, s.nextId + 1)
      && TasksFit(env, PoolOf(s.tasks, q), s.aiActive, s.ending)
      && forall k :: Count(PoolOf(s.tasks, q), k) == Count(Pool(s), k) + One(Is(k, Replied(waiter, None)))
  {
    CountAdd(s.tasks, s.nextId, Replied(waiter, None));
  }

  /** What was allowed before the call ended, or before the assistant spoke, stays allowed. */
  lemma TasksGrow(env: Env, pool: map<Id, Task>, aiActive: bool, ending: bool, aiActive': bool, ending': bool)
    requires TasksFit(env, pool, aiActive, ending)
    requires (aiActive ==> aiActive') && (ending ==> ending')
    ensures TasksFit(env, pool, aiActive', ending')
  {
  }

  lemma IdsGrow(s: Call, timers: map<Id, Timer>, nextId: Id)
    requires IdsFit(s.tasks, s.timers, s.answer, s.nextId) && NumbersFit(s.tasks, s.menuToken, s.nextId)
    requires s.nextId <= nextId && forall i :: i in timers ==> i < nextId
    ensures IdsFit(s.tasks, timers, s.answer, nextId) && NumbersFit(s.tasks, s.menuToken, nextId)
  {
  }

  lemma TimersBelow(s: Call)
    requires IdsFit(s.tasks, s.timers, s.answer, s.nextId)
    ensures forall i :: i in s.timers ==> i < s.nextId
    ensures s.nextId !in s.timers
  {
  }

  // ---- Timers ----

  lemma GracesWithout(timers: map<Id, Timer>, timer: Option<Id>, kind: Timer)
    requires Knows(timers, timer, kind) && kind != HangUpGrace
    ensures Graces(Without(timers, timer)) == Graces(timers)
  {
    if timer.Some? { GraceRemove(timers, timer.value); }
  }

  lemma MenuCloses(
    timers: map<Id, Timer>, m: MenuState, voicemail: Option<VoicemailState>, answer: Option<Question>, disposed: bool)
    requires TimersFit(timers, Some(m), voicemail, answer, disposed)
    ensures TimersFit(Without(timers, m.timer), None, voicemail, answer, disposed)
    ensures TimersFit(Without(timers, m.timer), Some(m.(timer := None)), voicemail, answer, disposed)
    ensures Graces(Without(timers, m.timer)) == Graces(timers)
  {
    GracesWithout(timers, m.timer, MenuWait(m.token));
  }

  lemma MenuOpens(
    timers: map<Id, Timer>, m: MenuState, voicemail: Option<VoicemailState>, answer: Option<Question>, disposed: bool)
    requires TimersFit(timers, None, voicemail, answer, disposed) && m.timer.None?
    ensures TimersFit(timers, Some(m), voicemail, answer, disposed)
  {
  }

  lemma MenuTimerSet(
    timers: map<Id, Timer>, m: MenuState, voicemail: Option<VoicemailState>, answer: Option<Question>, i: Id)
    requires TimersFit(timers, Some(m), voicemail, answer, false) && i !in timers
    ensures
      var timers' := Without(timers, m.timer)[i := MenuWait(m.token)];
      TimersFit(timers', Some(m.(timer := Some(i))), voicemail, answer, false) && Graces(timers') == Graces(timers)
  {
    GracesWithout(timers, m.timer, MenuWait(m.token));
    GraceAdd(Without(timers, m.timer), i, MenuWait(m.token));
  }

  /** A voicemail that stops waiting, whether it closes or is kept with its timers gone. */
  lemma VoicemailCloses(
    timers: map<Id, Timer>, menu: Option<MenuState>, v: VoicemailState, answer: Option<Question>, disposed: bool)
    requires TimersFit(timers, menu, Some(v), answer, disposed)
    ensures
      var timers' := Without(Without(timers, v.timer), v.maxTimer);
      && TimersFit(timers', menu, None, answer, disposed)
      && TimersFit(timers', menu, Some(v.(listening := false, timer := None, maxTimer := None)), answer, disposed)
      && Graces(timers') == Graces(timers)
  {
    GracesWithout(timers, v.timer, VoicemailSilence(v.id));
    GracesWithout(Without(timers, v.timer), v.maxTimer, VoicemailMax(v.id));
  }

  lemma VoicemailOpens(
    timers: map<Id, Timer>, menu: Option<MenuState>, v: VoicemailState, answer: Option<Question>, disposed: bool)
    requires TimersFit(timers, menu, None, answer, disposed) && v.timer.None? && v.maxTimer.None?
    ensures TimersFit(timers, menu, Some(v), answer, disposed)
  {
  }

  lemma VoicemailPaused(
    timers: map<Id, Timer>, menu: Option<MenuState>, v: VoicemailState, answer: Option<Question>, disposed: bool)
    requires TimersFit(timers, menu, Some(v), answer, disposed)
    ensures TimersFit(Without(timers, v.timer), menu, Some(v.(timer := None)), answer, disposed)
    ensures Graces(Without(timers, v.timer)) == Graces(timers)
  {
    GracesWithout(timers, v.timer, VoicemailSilence(v.id));
  }

  lemma VoicemailTimerSet(
    timers: map<Id, Timer>, menu: Option<MenuState>, v: VoicemailState, answer: Option<Question>, i: Id)
    requires TimersFit(timers, menu, Some(v), answer, false) && i !in timers && v.listening
    ensures
      var timers' := Without(timers, v.timer)[i := VoicemailSilence(v.id)];
      TimersFit(timers', menu, Some(v.(timer := Some(i))), answer, false) && Graces(timers') == Graces(timers)
  {
    GracesWithout(timers, v.timer, VoicemailSilence(v.id));
    GraceAdd(Without(timers, v.timer), i, VoicemailSilence(v.id));
  }

  lemma VoicemailListens(
    timers: map<Id, Timer>, menu: Option<MenuState>, v: VoicemailState, answer: Option<Question>, i: Id)
    requires TimersFit(timers, menu, Some(v), answer, false) && i !in timers
    requires !v.listening && v.timer.None? && v.maxTimer.None?
    ensures
      var timers' := timers[i := VoicemailMax(v.id)];
      && TimersFit(timers', menu, Some(v.(listening := true, maxTimer := Some(i))), answer, false)
      && Graces(timers') == Graces(timers)
  {
    GraceAdd(timers, i, VoicemailMax(v.id));
  }

  lemma VoicemailHears(
    timers: map<Id, Timer>, menu: Option<MenuState>, v: VoicemailState, answer: Option<Question>, parts: seq<string>)
    requires TimersFit(timers, menu, Some(v), answer, false)
    ensures TimersFit(timers, menu, Some(v.(parts := parts)), answer, false)
  {
  }

  lemma QuestionCloses(
    timers: map<Id, Timer>, menu: Option<MenuState>, voicemail: Option<VoicemailState>, q: Question, disposed: bool)
    requires TimersFit(timers, menu, voicemail, Some(q), disposed)
    ensures TimersFit(Without(timers, q.timer), menu, voicemail, None, disposed)
    ensures Graces(Without(timers, q.timer)) == Graces(timers)
  {
    GracesWithout(timers, q.timer, AnswerWait(q.id));
  }

  lemma QuestionOpens(
    timers: map<Id, Timer>, menu: Option<MenuState>, voicemail: Option<VoicemailState>, q: Question, disposed: bool)
    requires TimersFit(timers, menu, voicemail, None, disposed) && q.timer.None?
    ensures TimersFit(timers, menu, voicemail, Some(q), disposed)
  {
  }

  lemma QuestionTimerSet(
    timers: map<Id, Timer>, menu: Option<MenuState>, voicemail: Option<VoicemailState>, q: Question, i: Id)
    requires TimersFit(timers, menu, voicemail, Some(q), false) && i !in timers && q.timer.None?
    ensures
      var timers' := timers[i := AnswerWait(q.id)];
      && TimersFit(timers', menu, voicemail, Some(q.(playing := false, timer := Some(i))), false)
      && Graces(timers') == Graces(timers)
  {
    GraceAdd(timers, i, AnswerWait(q.id));
  }

  /** The call limit, or the grace before hanging up. */
  lemma LooseTimerSet(s: Call, i: Id, timer: Timer)
    requires TimersOk(s) && i !in s.timers && (timer == CallLimit || (timer == HangUpGrace && !s.disposed))
    ensures TimersFit(s.timers[i := timer], s.menu, s.voicemail, s.answer, s.disposed)
    ensures Graces(s.timers[i := timer]) == Graces(s.timers) + One(timer == HangUpGrace)
  {
    GraceAdd(s.timers, i, timer);
  }

  lemma LooseTimerGone(s: Call, i: Id)
    requires TimersOk(s) && i in s.timers && (s.timers[i] == CallLimit || s.timers[i] == HangUpGrace)
    ensures TimersFit(s.timers - {i}, s.menu, s.voicemail, s.answer, s.disposed)
    ensures Graces(s.timers - {i}) == Graces(s.timers) - One(s.timers[i] == HangUpGrace)
  {
    GraceRemove(s.timers, i);
  }

  /** After dispose no timer is left, and nothing is open that could own one. */
  lemma AllTimersGone(v: Option<VoicemailState>)
    requires v.Some? ==> v.value.timer.None? && v.value.maxTimer.None?
    ensures TimersFit(map[], None, v, None, true) && Graces(map[]) == 0
  {
    assert GraceTimers(map[]) == {};
  }

  // ---- Voicemails ----

  lemma HeardGrow(
    v: Option<VoicemailState>, heard: map<Id, seq<string>>, offered: seq<(Id, string)>, nextId: Id, nextId': Id)
    requires HeardFit(v, heard, offered, nextId) && nextId <= nextId'
    ensures HeardFit(v, heard, offered, nextId')
  {
  }

  /** Only the identifier and the parts of the live voicemail matter. */
  lemma HeardSame(
    v: VoicemailState, v': VoicemailState, heard: map<Id, seq<string>>, offered: seq<(Id, string)>, nextId: Id)
    requires HeardFit(Some(v), heard, offered, nextId) && v.id == v'.id && v.parts == v'.parts
    ensures HeardFit(Some(v'), heard, offered, nextId)
  {
  }

  lemma HeardOpens(v: VoicemailState, heard: map<Id, seq<string>>, offered: seq<(Id, string)>, nextId: Id)
    requires HeardFit(None, heard, offered, nextId) && v.id == nextId && v.parts == []
    ensures HeardFit(Some(v), heard[v.id := []], offered, nextId + 1)
  {
    forall k | 0 <= k < |offered| ensures Faithful(heard[v.id := []], offered[k]) && offered[k].0 != v.id {
      assert Faithful(heard, offered[k]);
    }
    forall id | id in heard[v.id := []] && heard[v.id := []][id] != [] && !Live(Some(v), id)
      ensures OfferedId(offered, id)
    {
      assert id in heard && heard[id] != [] && !Live(None, id);
    }
  }

  lemma HeardMore(
    v: VoicemailState, spoken: string, heard: map<Id, seq<string>>, offered: seq<(Id, string)>, nextId: Id)
    requires HeardFit(Some(v), heard, offered, nextId) && spoken != "" && Text.Trimmed(spoken)
    ensures HeardFit(Some(v.(parts := v.parts + [spoken])), heard[v.id := v.parts + [spoken]], offered, nextId)
  {
    var heard' := heard[v.id := v.parts + [spoken]];
    forall k | 0 <= k < |offered| ensures Faithful(heard', offered[k]) {
      assert Faithful(heard, offered[k]);
    }
    forall id | id in heard' && heard'[id] != [] && !Live(Some(v.(parts := v.parts + [spoken])), id)
      ensures OfferedId(offered, id)
    {
      assert id in heard && !Live(Some(v), id);
    }
  }

  /** A voicemail taken is offered unless nothing was heard. */
  lemma HeardTaken(v: VoicemailState, heard: map<Id, seq<string>>, offered: seq<(Id, string)>, nextId: Id)
    requires HeardFit(Some(v), heard, offered, nextId)
    ensures Message(v.parts) == "" <==> v.parts == []
    ensures v.parts == [] ==> HeardFit(None, heard, offered, nextId)
    ensures v.parts != [] ==>
              HeardFit(
                None, heard, offered + [(v.id, FirstChars(Message(v.parts), MAX_VOICEMAIL_CHARS))], nextId)
  {
    assert Utterances(heard[v.id]);
    Text.JoinedWordsAreTrimmed(v.parts);
    assert Message(v.parts) == Text.JoinWords(v.parts);
    if v.parts != [] {
      var offer := (v.id, FirstChars(Message(v.parts), MAX_VOICEMAIL_CHARS));
      var offered' := offered + [offer];
      forall id | id in heard && heard[id] != [] && !Live(None, id) ensures OfferedId(offered', id) {
        if id == v.id {
          assert offered'[|offered|].0 == id;
        } else {
          assert !Live(Some(v), id);
          var k :| 0 <= k < |offered| && offered[k].0 == id;
          assert offered'[k].0 == id;
        }
      }
    } else {
      forall id | id in heard && heard[id] != [] && !Live(None, id) ensures OfferedId(offered, id) {
        assert !Live(Some(v), id);
      }
    }
  }
}
