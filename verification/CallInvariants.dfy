/**
 * What holds between any two events of a call. Pending work is counted by kind, so that
 * "exactly one" is arithmetic: every segment adds and removes a known number of each kind.
 */
module CallInvariants {
  import opened Options
  import opened CallFlow
  import opened CallEngine
  import opened Dialing
  import Text

  // ---- Kinds of pending work ----

  /** A transfer of the assistant's does not drive the flow: the assistant does. */
  ghost predicate OwnsFlow(o: Origin) { !o.FromAssistant? }

  /** Between the start of a transfer and its end. */
  ghost predicate InTransfer(t: Task) {
    || (t.Replied? && t.waiter.TextOffer?)
    || t.TestHold? || t.ColdHold? || t.Dialing? || t.HoldTail? || t.NoAnswerNotice? || t.FollowUp?
    || t.Connecting? || t.Leaving? || t.ClearingRoom?
  }

  ghost function TransferOf(t: Task): Transfer
    requires InTransfer(t)
  {
    if t.Replied? then t.waiter.x else t.x
  }

  datatype Kind =
    | Driving                // decides the next step of the menu
    | Transferring
    | Parting                // part of the goodbye-and-hang-up sequence
    | StaffOnHold            // staff has answered and hears the end of the hold message
    | StaffPossible          // staff may still answer
    | HangingUp              // the room is about to be closed after a goodbye
    | Departing              // the agent or the room is on its way out
    | ConnectingStaff
    | NoticePlaying
    | PromptFor(token: nat)
    | GreetingFor(id: Id)

  ghost predicate Is(k: Kind, t: Task) {
    match k
    case Driving =>
      || t.Preamble? || t.StepPause? || t.SavingVoicemail? || t.VoicemailNotice?
      || (t.TransferDone? && OwnsFlow(t.origin))
      || (InTransfer(t) && OwnsFlow(TransferOf(t).origin))
    case Transferring => InTransfer(t)
    case Parting => (t.Replied? && t.waiter.RatingQuestion?) || t.RatingThanks? || t.Goodbye? || t.HangUpNow?
    case StaffOnHold => t.HoldTail? && t.result == Answered
    case StaffPossible =>
      InTransfer(t) && !(t.HoldTail? && t.result == Answered) && !t.Connecting? && !t.Leaving? && !t.ClearingRoom?
    case HangingUp => t.HangUpNow?
    case Departing => t.Leaving? || t.ClearingRoom?
    case ConnectingStaff => t.Connecting?
    case NoticePlaying => t.Preamble?
    case PromptFor(token) => t == MenuPrompt(token)
    case GreetingFor(id) => t == VoicemailPrompt(id)
  }

  ghost function One(b: bool): nat { if b then 1 else 0 }

  ghost function Those(pool: map<Id, Task>, k: Kind): set<Id> {
    set i | i in pool && Is(k, pool[i])
  }

  ghost function Count(pool: map<Id, Task>, k: Kind): nat { |Those(pool, k)| }

  ghost function GraceTimers(timers: map<Id, Timer>): set<Id> {
    set i | i in timers && timers[i] == HangUpGrace
  }

  ghost function Graces(timers: map<Id, Timer>): nat { |GraceTimers(timers)| }

  /** The pending work, with the open question as the reply it will become. */
  ghost function PoolOf(tasks: map<Id, Task>, answer: Option<Question>): map<Id, Task> {
    if answer.None? then tasks else tasks[answer.value.id := Replied(answer.value.waiter, None)]
  }

  ghost function Pool(s: Call): map<Id, Task> { PoolOf(s.tasks, s.answer) }

  // ---- Counting ----

  lemma CountAdd(pool: map<Id, Task>, i: Id, t: Task)
    requires i !in pool
    ensures forall k :: Count(pool[i := t], k) == Count(pool, k) + One(Is(k, t))
  {
    forall k ensures Count(pool[i := t], k) == Count(pool, k) + One(Is(k, t)) {
      assert Those(pool[i := t], k) == if Is(k, t) then Those(pool, k) + {i} else Those(pool, k);
    }
  }

  lemma CountRemove(pool: map<Id, Task>, i: Id)
    requires i in pool
    ensures forall k :: Count(pool, k) == Count(pool - {i}, k) + One(Is(k, pool[i]))
  {
    CountAdd(pool - {i}, i, pool[i]);
    assert (pool - {i})[i := pool[i]] == pool;
  }

  lemma GraceAdd(timers: map<Id, Timer>, i: Id, t: Timer)
    requires i !in timers
    ensures Graces(timers[i := t]) == Graces(timers) + One(t == HangUpGrace)
  {
    assert GraceTimers(timers[i := t]) == if t == HangUpGrace then GraceTimers(timers) + {i} else GraceTimers(timers);
  }

  lemma GraceRemove(timers: map<Id, Timer>, i: Id)
    requires i in timers
    ensures Graces(timers) == Graces(timers - {i}) + One(timers[i] == HangUpGrace)
  {
    GraceAdd(timers - {i}, i, timers[i]);
    assert (timers - {i})[i := timers[i]] == timers;
  }

  // ---- The invariant, by subject ----

  ghost predicate IdsFit(tasks: map<Id, Task>, timers: map<Id, Timer>, answer: Option<Question>, nextId: Id) {
    && (forall i :: i in tasks ==> i < nextId)
    && (forall i :: i in timers ==> i < nextId)
    && (answer.Some? ==> answer.value.id < nextId && answer.value.id !in tasks)
  }

  ghost predicate NumbersFit(tasks: map<Id, Task>, menuToken: nat, nextId: Id) {
    && (forall i :: i in tasks && tasks[i].MenuPrompt? ==> tasks[i].token <= menuToken)
    && (forall i :: i in tasks && tasks[i].VoicemailPrompt? ==> tasks[i].id < nextId)
  }

  ghost predicate IdsOk(s: Call) {
    && IdsFit(s.tasks, s.timers, s.answer, s.nextId)
    && NumbersFit(s.tasks, s.menuToken, s.nextId)
    && (s.voicemail.Some? ==> s.voicemail.value.id < s.nextId)
    && (s.menu.Some? ==> s.menu.value.token <= s.menuToken)
  }

  /**
   * Pending work of a kind, together with the work in hand: that whose continuation is
   * running, or the one the running segment is about to leave behind.
   */
  ghost function Work(s: Call, hand: Option<Task>, k: Kind): nat {
    Count(Pool(s), k) + One(hand.Some? && Is(k, hand.value))
  }

  /** How many drive the flow: steps under way, the open menu, the live voicemail, the assistant. */
  ghost function Holders(s: Call, hand: Option<Task>): nat {
    Work(s, hand, Driving) + One(s.menu.Some?) + One(s.voicemail.Some?) + One(s.aiActive)
  }

  ghost predicate FlowOk(s: Call, hand: Option<Task>) {
    Holders(s, hand) <= 1 && Work(s, hand, NoticePlaying) == One(s.inPreamble)
  }

  /** While the call goes on, somebody drives it; before it began, nobody does. */
  ghost predicate Driven(s: Call) {
    && (s.started && !s.ending ==> Holders(s, None) == 1)
    && (!s.started ==> Holders(s, None) == 0)
  }

  ghost predicate TaskOk(env: Env, t: Task, aiActive: bool, ending: bool) {
    && (InTransfer(t) ==> env.canDial(TransferOf(t).target.phone))
    && (InTransfer(t) && TransferOf(t).origin.FromAssistant? ==> aiActive)
    && (t.TransferDone? && t.origin.FromAssistant? ==> aiActive)
    && (t.TransferDone? && t.outcome != Unavailable && OwnsFlow(t.origin) ==> ending)
    && (t.Connecting? || t.Leaving? || t.ClearingRoom? ==> ending)
  }

  ghost predicate TasksFit(env: Env, pool: map<Id, Task>, aiActive: bool, ending: bool) {
    forall i :: i in pool ==> TaskOk(env, pool[i], aiActive, ending)
  }

  ghost predicate DialedFit(env: Env, dialed: seq<string>) {
    forall k :: 0 <= k < |dialed| ==> env.canDial(dialed[k])
  }

  ghost predicate TransfersOk(env: Env, s: Call, hand: Option<Task>) {
    && Work(s, hand, Transferring) == One(s.transferring)
    && Work(s, hand, StaffPossible) + Work(s, hand, StaffOnHold) + Work(s, hand, ConnectingStaff)
       + Work(s, hand, Departing) == Work(s, hand, Transferring)
    && (hand.Some? ==> TaskOk(env, hand.value, s.aiActive, s.ending))
    && TasksFit(env, Pool(s), s.aiActive, s.ending)
    && DialedFit(env, s.log.dialed)
  }

  ghost function Partings(s: Call, hand: Option<Task>): nat { Work(s, hand, Parting) + Graces(s.timers) }

  /** How the call ends. */
  ghost predicate EndingOk(s: Call, hand: Option<Task>) {
    && (s.disposed ==> s.ending && s.answer.None?)
    && (s.ending ==> s.menu.None?)
    && (s.answer.Some? && s.answer.value.waiter.RatingQuestion? ==> s.ending)
    && s.log.goodbyes + s.log.connects <= 1
    && (s.log.goodbyes + s.log.connects == 1 ==> s.ending)
    && (s.ending && !s.disposed ==> s.log.goodbyes + s.log.connects == 1)
    && Partings(s, hand) + s.log.hangUps <= s.log.goodbyes
    && (!s.disposed ==> Partings(s, hand) + s.log.hangUps == s.log.goodbyes)
    && Work(s, hand, HangingUp) + s.log.hangUps == s.log.graces
    && Work(s, hand, ConnectingStaff) + s.log.leaves <= s.log.connects
    && (s.log.connects == 1 ==> Work(s, hand, StaffPossible) == 0 && Work(s, hand, StaffOnHold) == 0)
  }

  /** What becomes of staff who answered. */
  ghost predicate StaffOk(s: Call, hand: Option<Task>) {
    && s.log.recordingStops == s.log.answers
    && s.log.answers ==
       Work(s, hand, StaffOnHold) + Work(s, hand, ConnectingStaff) + s.log.leaves + s.log.clears + s.log.dropped
    && (Work(s, hand, StaffPossible) > 0 ==> s.log.answers == 0)
    && (s.log.leaves + s.log.clears + s.log.dropped > 0 ==> s.ending)
    && (s.log.clears > 0 ==> s.disposed)
    && (s.log.dropped > 0 ==> s.log.goodbyes == 1)
    && s.log.answers <= 1
  }

  ghost predicate OwnTimer(
    i: Id, timer: Timer, menu: Option<MenuState>, voicemail: Option<VoicemailState>, answer: Option<Question>)
  {
    match timer
    case MenuWait(token) => menu.Some? && menu.value.token == token && menu.value.timer == Some(i)
    case VoicemailSilence(id) =>
      voicemail.Some? && voicemail.value.id == id && voicemail.value.timer == Some(i) && voicemail.value.listening
    case VoicemailMax(id) =>
      voicemail.Some? && voicemail.value.id == id && voicemail.value.maxTimer == Some(i) && voicemail.value.listening
    case AnswerWait(id) => answer.Some? && answer.value.id == id && answer.value.timer == Some(i)
    case CallLimit => true
    case HangUpGrace => true
  }

  /** What is open knows its own timers. */
  ghost predicate Knows(timers: map<Id, Timer>, timer: Option<Id>, kind: Timer) {
    timer.Some? ==> timer.value in timers && timers[timer.value] == kind
  }

  /** Every running timer belongs to what is open now. */
  ghost predicate TimersFit(
    timers: map<Id, Timer>, menu: Option<MenuState>, voicemail: Option<VoicemailState>, answer: Option<Question>,
    disposed: bool)
  {
    && (forall i :: i in timers ==> OwnTimer(i, timers[i], menu, voicemail, answer))
    && (menu.Some? ==> Knows(timers, menu.value.timer, MenuWait(menu.value.token)))
    && (voicemail.Some? ==>
          && Knows(timers, voicemail.value.timer, VoicemailSilence(voicemail.value.id))
          && Knows(timers, voicemail.value.maxTimer, VoicemailMax(voicemail.value.id)))
    && (answer.Some? ==> Knows(timers, answer.value.timer, AnswerWait(answer.value.id)))
    && (disposed ==> forall i :: i in timers ==> timers[i] == CallLimit)
  }

  ghost predicate TimersOk(s: Call) {
    TimersFit(s.timers, s.menu, s.voicemail, s.answer, s.disposed)
  }

  /** Nothing open is left without something that will move it on. */
  ghost predicate PromptsOk(s: Call) {
    && (s.menu.Some? ==>
          s.menu.value.timer.Some? || s.speaking || Count(Pool(s), PromptFor(s.menu.value.token)) > 0)
    && (s.answer.Some? ==> s.answer.value.playing == s.answer.value.timer.None?)
    && (s.voicemail.Some? ==>
          var v := s.voicemail.value;
          && (s.ending ==> !v.listening)
          && (!v.listening ==> v.timer.None? && v.maxTimer.None?)
          && (v.listening ==> v.maxTimer.Some?)
          && (!s.ending ==> Count(Pool(s), GreetingFor(v.id)) == One(!v.listening)))
  }

  ghost predicate CountsOk(s: Call) {
    && s.log.asked == s.log.replies + One(s.answer.Some?)
    && s.stepCount <= MAX_STEPS_PER_CALL + 1
    && (s.stepCount > MAX_STEPS_PER_CALL ==> s.ending)
    && (s.menu.None? ==> s.log.prompts <= PROMPTS_PER_MENU * StepsTaken(s))
    && (s.menu.Some? ==>
          && StepsTaken(s) >= 1
          && s.menu.value.misses <= MAX_MENU_REPEATS
          && s.log.prompts <= PROMPTS_PER_MENU * (StepsTaken(s) - 1) + s.menu.value.misses + 1)
  }

  const PROMPTS_PER_MENU: nat := 1 + MAX_MENU_REPEATS

  ghost function StepsTaken(s: Call): nat {
    if s.stepCount <= MAX_STEPS_PER_CALL then s.stepCount else MAX_STEPS_PER_CALL
  }

  ghost predicate OfferedId(offered: seq<(Id, string)>, id: Id) {
    exists k :: 0 <= k < |offered| && offered[k].0 == id
  }

  ghost predicate Utterances(parts: seq<string>) {
    forall k :: 0 <= k < |parts| ==> parts[k] != "" && Text.Trimmed(parts[k])
  }

  ghost predicate Live(voicemail: Option<VoicemailState>, id: Id) { voicemail.Some? && voicemail.value.id == id }

  ghost predicate HeardFit(
    voicemail: Option<VoicemailState>, heard: map<Id, seq<string>>, offered: seq<(Id, string)>, nextId: Id)
  {
    && (voicemail.Some? ==>
          var v := voicemail.value;
          v.id in heard && heard[v.id] == v.parts && !OfferedId(offered, v.id))
    && (forall id :: id in heard ==> id < nextId && Utterances(heard[id]))
    && (forall id :: id in heard && heard[id] != [] && !Live(voicemail, id) ==> OfferedId(offered, id))
    && (forall k :: 0 <= k < |offered| ==> Faithful(heard, offered[k]))
    && (forall j, k :: 0 <= j < k < |offered| ==> offered[j].0 != offered[k].0)
  }

  /** Nothing a voicemail accepted is lost, reordered or offered twice. */
  ghost predicate VoicemailsOk(s: Call) {
    HeardFit(s.voicemail, s.log.heard, s.log.offered, s.nextId)
  }

  /** The message is what the voicemail heard, joined in order and cut to the accepted length. */
  ghost predicate Faithful(heard: map<Id, seq<string>>, offer: (Id, string)) {
    && offer.0 in heard && heard[offer.0] != []
    && offer.1 == FirstChars(Text.JoinWords(heard[offer.0]), MAX_VOICEMAIL_CHARS)
  }

  /** What is open, what is pending and what was heard fit together. */
  ghost predicate Kept(s: Call) {
    IdsOk(s) && TimersOk(s) && PromptsOk(s) && CountsOk(s) && VoicemailsOk(s)
  }

  /** Who drives the call, who transfers it and who ends it. */
  ghost predicate Led(env: Env, s: Call, hand: Option<Task>) {
    FlowOk(s, hand) && TransfersOk(env, s, hand) && EndingOk(s, hand) && StaffOk(s, hand)
  }

  /** Everything but the promise that somebody drives the call. */
  ghost predicate Sound(env: Env, s: Call, hand: Option<Task>) {
    Kept(s) && Led(env, s, hand)
  }

  /** The invariant between events, when no task is in hand. */
  ghost predicate Good(env: Env, s: Call) {
    Sound(env, s, None) && Driven(s)
  }
}
