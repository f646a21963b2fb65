/**
 * The call engine of apps/voice-agent/src/controller.ts as a state machine on values. One
 * function per atomic segment: the code that runs between two awaits. What an await leaves
 * behind is a `Task` in `tasks`, resumed later by an event, in any order.
 */
module CallEngine {
  import opened Options
  import opened CallFlow
  import opened Dialing
  import Text
  import PhoneNumbers

  const MAX_STEPS_PER_CALL := 60
  const MAX_TEXTS_PER_CALL := 2
  const MAX_VOICEMAIL_CHARS := 1000

  // ---- What the call is configured with, and the helpers it is given ----

  datatype Reply = KeyReply(key: MenuKey) | TextReply(text: string)

  datatype Target = Target(phone: string, retries: nat)

  datatype Env = Env(
    graph: FlowGraph,
    isOpen: bool,
    canDial: string -> bool,           // the rule of PhoneNumbers.RefuseToDial
    escalationPhone: Option<string>,
    transfersDisabled: bool,
    pressZeroForStaff: bool,
    resolveTransfer: Option<string> -> Option<Target>,
    matchMenuChoice: (seq<MenuOption>, string) -> Option<MenuKey>,
    offerTextWhenNoAnswer: bool,
    hasCallerPhone: bool,
    testCall: bool,
    warmDialer: Option<bool>,          // no dialer, a cold one (false) or a warm one (true)
    csatEnabled: bool,
    parseYes: Reply -> bool,
    parseRating: Reply -> Option<nat>,
    assistantStarts: bool)             // whether handing the session to the assistant succeeds

  // ---- Pending work ----

  type Id = nat

  datatype Outcome = Connected | Unavailable | Ended

  /** Who waits for a transfer: a transfer step, a menu's key 0, or the AI assistant. */
  datatype Origin = FromStep(node: FlowNode) | FromMenu | FromAssistant

  datatype Transfer = Transfer(origin: Origin, target: Target)

  /** Who waits for the answer to a question. */
  datatype Waiter = TextOffer(x: Transfer) | RatingQuestion

  datatype Question = Question(id: Id, waiter: Waiter, playing: bool, timer: Option<Id>)

  datatype Task =
    | Preamble                                          // run: the notice plays
    | StepPause(node: FlowNode, texting: bool)          // enter: a message plays or a link is texted
    | MenuPrompt(token: nat)
    | VoicemailPrompt(id: Id)
    | SavingVoicemail(node: FlowNode)
    | VoicemailNotice(node: FlowNode)
    | FlushSave
    | Replied(waiter: Waiter, reply: Option<Reply>)     // a question was settled
    | TestHold(x: Transfer, optIn: bool)
    | ColdHold(x: Transfer, optIn: bool)
    | Dialing(x: Transfer, optIn: bool, attempt: nat)
    | HoldTail(x: Transfer, optIn: bool, result: DialResult)
    | NoAnswerNotice(x: Transfer, optIn: bool)
    | FollowUp(x: Transfer)
    | Connecting(x: Transfer)
    | Leaving(x: Transfer)
    | ClearingRoom(x: Transfer)
    | TransferDone(origin: Origin, outcome: Outcome)
    | RatingThanks
    | Goodbye
    | HangUpNow

  /** A running timer; the indices say which menu, voicemail or question set it. */
  datatype Timer =
    | CallLimit
    | MenuWait(token: nat)
    | VoicemailSilence(id: Id)
    | VoicemailMax(id: Id)
    | AnswerWait(id: Id)
    | HangUpGrace

  // ---- State ----

  datatype MenuState = MenuState(node: FlowNode, misses: nat, token: nat, timer: Option<Id>)

  datatype VoicemailState = VoicemailState(
    id: Id, node: FlowNode, parts: seq<string>, listening: bool, timer: Option<Id>, maxTimer: Option<Id>)

  /** What the call has done so far, as the outside world saw it. */
  datatype Log = Log(
    visited: seq<FlowNode>,             // the steps that took effect, in order
    prompts: nat,                       // menu prompts opened
    asked: nat, replies: nat,           // questions asked and settled
    goodbyes: nat,                      // goodbye-and-hang-up sequences started
    connects: nat,                      // transfers that handed the caller over
    leaves: nat,                        // leaveRoom calls
    graces: nat,                        // grace periods before a hang-up that ran out
    hangUps: nat,                       // hangUpRoom calls that end a goodbye
    clears: nat,                        // hangUpRoom calls by a transfer whose caller has left
    answers: nat,                       // dial attempts that staff answered
    recordingStops: nat,
    dropped: nat,                       // answered transfers whose hold ended in a goodbye
    dialed: seq<string>,
    heard: map<Id, seq<string>>,        // utterances each voicemail accepted, in order
    offered: seq<(Id, string)>)         // messages handed to saveVoicemail

  datatype Call = Call(
    started: bool, ending: bool, disposed: bool, inPreamble: bool, transferring: bool, aiActive: bool,
    failed: bool, rating: Option<nat>,
    stepCount: nat, menuToken: nat,
    menu: Option<MenuState>, voicemail: Option<VoicemailState>, answer: Option<Question>,
    timers: map<Id, Timer>, tasks: map<Id, Task>, nextId: Id,
    textsSent: nat,
    speaking: bool,                     // the caller is making a sound
    log: Log)

  const NOTHING_YET := Log([], 0, 0, 0, 0, 0, 0, 0, 0, 0, 0, 0, 0, [], map[], [])

  const NEW_CALL := Call(
    false, false, false, false, false, false, false, None, 0, 0, None, None, None, map[], map[], 0, 0, false,
    NOTHING_YET)

  // ---- Tasks and timers ----

  function Spawn(s: Call, task: Task): Call {
    s.(tasks := s.tasks[s.nextId := task], nextId := s.nextId + 1)
  }

  function Retire(s: Call, id: Id): Call {
    s.(tasks := s.tasks - {id})
  }

  function SetTimer(s: Call, timer: Timer): Call {
    s.(timers := s.timers[s.nextId := timer], nextId := s.nextId + 1)
  }

  function Without(timers: map<Id, Timer>, timer: Option<Id>): map<Id, Timer> {
    if timer.None? then timers else timers - {timer.value}
  }

  // ---- Questions ----

  /** Resolves the pending question; whoever waits for it runs later. */
  function Settle(s: Call, reply: Option<Reply>): Call {
    var q := s.answer;
    s.(
      answer := None,
      timers := if q.None? then s.timers else Without(s.timers, q.value.timer),
      tasks := if q.None? then s.tasks else s.tasks[q.value.id := Replied(q.value.waiter, reply)],
      log := s.log.(replies := s.log.replies + if q.None? then 0 else 1))
  }

  /** Asks a question, cancelling one that is still pending. */
  function Ask(s: Call, waiter: Waiter): Call {
    var s1 := Settle(s, None);
    s1.(
      answer := Some(Question(s.nextId, waiter, true, None)),
      nextId := s.nextId + 1,
      log := s1.log.(asked := s.log.asked + 1))
  }

  /** The question has played (or could not be spoken): start waiting for the answer. */
  function QuestionPlayed(s: Call, id: Id, spoken: bool): Call {
    match s.answer
    case None => s
    case Some(q) =>
      if q.id != id || !q.playing then s
      else if !spoken then Settle(s, None)
      else
        s.(
          timers := s.timers[s.nextId := AnswerWait(id)],
          nextId := s.nextId + 1,
          answer := Some(q.(playing := false, timer := Some(s.nextId))))
  }

  // ---- Ending ----

  function LeaveMenu(s: Call): Call {
    s.(timers := Without(s.timers, if s.menu.Some? then s.menu.value.timer else None), menu := None)
  }

  /** A voicemail still open when the call ends stops listening but keeps its parts. */
  function Quiet(voicemail: Option<VoicemailState>): Option<VoicemailState> {
    match voicemail
    case None => None
    case Some(v) => Some(v.(listening := false, timer := None, maxTimer := None))
  }

  function WithoutVoicemail(timers: map<Id, Timer>, voicemail: Option<VoicemailState>): map<Id, Timer> {
    match voicemail
    case None => timers
    case Some(v) => Without(Without(timers, v.timer), v.maxTimer)
  }

  function QuietVoicemail(s: Call): Call {
    s.(timers := WithoutVoicemail(s.timers, s.voicemail), voicemail := Quiet(s.voicemail))
  }

  /** The flags and the voicemail at the start of the goodbye, once the menu is left. */
  function Parted(s: Call): Call {
    QuietVoicemail(s.(ending := true, log := s.log.(goodbyes := s.log.goodbyes + 1)))
  }

  function EndCall(env: Env, s: Call, survey: bool): Call {
    if s.ending then s
    else if survey && env.csatEnabled && !s.failed && s.rating.None? then Ask(Parted(LeaveMenu(s)), RatingQuestion)
    else Spawn(Parted(LeaveMenu(s)), Goodbye)
  }

  function Fail(env: Env, s: Call): Call {
    EndCall(env, s.(failed := true), false)
  }

  // ---- Transfers ----

  function CanOfferText(env: Env, s: Call): bool {
    env.offerTextWhenNoAnswer && s.textsSent < MAX_TEXTS_PER_CALL && (env.hasCallerPhone || env.testCall)
  }

  function PressZeroTarget(env: Env): Option<Target> {
    if !env.pressZeroForStaff then None else
    var target := env.resolveTransfer(None);
    if target.Some? && env.canDial(target.value.phone) then target else None
  }

  function StepTarget(env: Env, node: FlowNode): Option<Target> {
    var phone := if PhoneNumbers.IsE164(node.phone) then Some(node.phone) else env.escalationPhone;
    if phone.Some? && phone.value != "" && !env.transfersDisabled then Some(Target(phone.value, 0)) else None
  }

  /** The synchronous start of `transfer`. */
  function BeginTransfer(env: Env, s: Call, origin: Origin, target: Option<Target>): Call {
    if s.ending || s.transferring then Spawn(s, TransferDone(origin, Ended))
    else if target.None? || !env.canDial(target.value.phone) then Spawn(s, TransferDone(origin, Unavailable))
    else if env.warmDialer.None? && !env.testCall then Spawn(s, TransferDone(origin, Unavailable))
    else
      var x := Transfer(origin, target.value);
      var s1 := s.(transferring := true);
      if CanOfferText(env, s1) then Ask(s1, TextOffer(x)) else StartDialing(env, s1, x, false)
  }

  function StartDialing(env: Env, s: Call, x: Transfer, optIn: bool): Call {
    match env.warmDialer
    case None => Spawn(s, TestHold(x, optIn))
    case Some(warm) => if warm then DialOrGiveUp(env, s, x, optIn, 0) else Spawn(s, ColdHold(x, optIn))
  }

  function Attempts(env: Env, x: Transfer): nat {
    if env.warmDialer == Some(true) then 1 + x.target.retries else 1
  }

  /** The head of the dial loop. */
  function DialOrGiveUp(env: Env, s: Call, x: Transfer, optIn: bool, attempt: nat): Call {
    if attempt < Attempts(env, x) && !s.ending
    then Spawn(s, Dialing(x, optIn, attempt)).(log := s.log.(dialed := s.log.dialed + [x.target.phone]))
    else AfterDial(s, x, optIn, NoAnswer)
  }

  function AfterDial(s: Call, x: Transfer, optIn: bool, result: DialResult): Call {
    var s1 :=
      if result == Answered
      then s.(log := s.log.(recordingStops := s.log.recordingStops + 1, answers := s.log.answers + 1))
      else s;
    Spawn(s1, HoldTail(x, optIn, result))
  }

  function Finish(s: Call, x: Transfer, outcome: Outcome): Call {
    Spawn(s.(transferring := false), TransferDone(x.origin, outcome))
  }

  /** What follows the last dial attempt once the hold message is over. */
  function PostDial(s: Call, x: Transfer, optIn: bool, result: DialResult): Call {
    if s.ending then
      if result == Answered && s.disposed then
        Spawn(s, ClearingRoom(x)).(log := s.log.(clears := s.log.clears + 1))
      else
        Finish(if result == Answered then s.(log := s.log.(dropped := s.log.dropped + 1)) else s, x, Ended)
    else if result == NoAnswer then Spawn(s, NoAnswerNotice(x, optIn))
    else
      var s1 := LeaveMenu(s.(ending := true, log := s.log.(connects := s.log.connects + 1)));
      if result == Answered then Spawn(s1, Connecting(x)) else Finish(s1, x, Connected)
  }

  /** Key 0 in a menu, or one of the assistant's transfer tools. */
  function StartTransfer(env: Env, s: Call, origin: Origin, target: Target): Call {
    BeginTransfer(env, LeaveMenu(s), origin, Some(target))
  }

  // ---- Menus ----

  function OpenMenu(s: Call, node: FlowNode, misses: nat): Call {
    var token := s.menuToken + 1;
    s.(
      tasks := s.tasks[s.nextId := MenuPrompt(token)],
      nextId := s.nextId + 1,
      menuToken := token,
      menu := Some(MenuState(node, misses, token, None)),
      log := s.log.(prompts := s.log.prompts + 1))
  }

  function Timed(menu: Option<MenuState>, timer: Option<Id>): Option<MenuState> {
    if menu.None? then None else Some(menu.value.(timer := timer))
  }

  function ArmMenuTimer(s: Call): Call {
    s.(
      timers := if s.menu.None? then s.timers
                else Without(s.timers, s.menu.value.timer)[s.nextId := MenuWait(s.menu.value.token)],
      nextId := if s.menu.None? then s.nextId else s.nextId + 1,
      menu := Timed(s.menu, Some(s.nextId)))
  }

  // ---- Voicemail ----

  function StartVoicemail(s: Call, node: FlowNode): Call {
    var id := s.nextId;
    s.(
      tasks := s.tasks[id + 1 := VoicemailPrompt(id)],
      nextId := id + 2,
      voicemail := Some(VoicemailState(id, node, [], false, None, None)),
      log := s.log.(heard := s.log.heard[id := []]))
  }

  function ArmVoicemailTimer(s: Call): Call {
    var v, arm := s.voicemail, s.voicemail.Some? && !s.ending;
    s.(
      timers := if arm then Without(s.timers, v.value.timer)[s.nextId := VoicemailSilence(v.value.id)] else s.timers,
      nextId := if arm then s.nextId + 1 else s.nextId,
      voicemail := if arm then Some(v.value.(timer := Some(s.nextId))) else v)
  }

  /** The greeting is over: listen, for a limited time. */
  function Listen(s: Call, v: VoicemailState): Call {
    s.(
      timers := s.timers[s.nextId := VoicemailMax(v.id)],
      nextId := s.nextId + 1,
      voicemail := Some(v.(listening := true, maxTimer := Some(s.nextId))))
  }

  function Message(parts: seq<string>): string {
    Text.Trim(Text.JoinWords(parts))
  }

  function Offer(voicemail: Option<VoicemailState>): seq<(Id, string)> {
    if voicemail.None? || Message(voicemail.value.parts) == "" then []
    else [(voicemail.value.id, FirstChars(Message(voicemail.value.parts), MAX_VOICEMAIL_CHARS))]
  }

  /** `takeVoicemail` and the hand-over of a non-empty message to `saveVoicemail`. */
  function TakeVoicemail(s: Call): Call {
    s.(
      timers := WithoutVoicemail(s.timers, s.voicemail),
      voicemail := None,
      log := s.log.(offered := s.log.offered + Offer(s.voicemail)))
  }

  function FirstChars(s: string, n: nat): string {
    if |s| <= n then s else s[..n]
  }

  function FinishVoicemail(s: Call): Call {
    match s.voicemail
    case None => s
    case Some(v) =>
      Spawn(TakeVoicemail(s), if Message(v.parts) == "" then VoicemailNotice(v.node) else SavingVoicemail(v.node))
  }

  function FlushVoicemail(s: Call): Call {
    match s.voicemail
    case None => s
    case Some(v) => if Message(v.parts) == "" then TakeVoicemail(s) else Spawn(TakeVoicemail(s), FlushSave)
  }

  // ---- Flow ----

  function StartAssistant(env: Env, s: Call): Call {
    var s1 := s.(aiActive := true);
    if env.assistantStarts then s1 else Fail(env, s1)
  }

  function Enter(env: Env, s: Call, step: Option<string>): Call
    decreases MAX_STEPS_PER_CALL - s.stepCount, 0
  {
    if s.ending then s else
    match if step.None? then None else FindNode(env.graph.nodes, step.value)
    case None => EndCall(env, s, false)
    case Some(node) =>
      if s.stepCount + 1 > MAX_STEPS_PER_CALL
      then EndCall(env, s.(stepCount := s.stepCount + 1), false)
      else TakeStep(env, Visit(s, node), node)
  }

  function Visit(s: Call, node: FlowNode): Call {
    s.(stepCount := s.stepCount + 1, log := s.log.(visited := s.log.visited + [node]))
  }

  /** What a step does, once it is counted. */
  function TakeStep(env: Env, s: Call, node: FlowNode): Call
    decreases MAX_STEPS_PER_CALL - s.stepCount, 1
  {
    match node.kind
    case Start => Enter(env, s, NextNode(env.graph, node.id, None))
    case HoursCheck => Enter(env, s, NextNode(env.graph, node.id, Some(if env.isOpen then "open" else "closed")))
    case PlayMessage => Spawn(s, StepPause(node, false))
    case KeypadMenu => OpenMenu(s, node, 0)
    case TextLink =>
      Spawn(s, StepPause(node, (env.hasCallerPhone || env.testCall) && s.textsSent < MAX_TEXTS_PER_CALL))
    case TransferCall => BeginTransfer(env, s, FromStep(node), StepTarget(env, node))
    case Voicemail => StartVoicemail(s, node)
    case AiAgent => StartAssistant(env, s)
    case HangUp => EndCall(env, s, true)
  }

  /** Follows an output if it leads anywhere, else ends the call. */
  function FollowOrEnd(env: Env, s: Call, id: string, handle: Option<string>): Call {
    var next := NextNode(env.graph, id, handle);
    if next.Some? then Enter(env, s, next) else EndCall(env, s, false)
  }

  function RetryMenu(env: Env, s: Call): Call {
    match s.menu
    case None => s
    case Some(m) =>
      if m.misses < MenuRepeats(m.node)
      then OpenMenu(LeaveMenu(s), m.node, m.misses + 1)
      else FollowOrEnd(env, LeaveMenu(s), m.node.id, Some("no_input"))
  }

  function Choose(env: Env, s: Call, key: MenuKey): Call {
    match s.menu
    case None => s
    case Some(m) =>
      if FindOption(m.node.options, key).Some? then
        FollowOrEnd(env, LeaveMenu(s), m.node.id, Some(KeyHandle(key)))
      else
        var staff := if key == '0' then PressZeroTarget(env) else None;
        if staff.Some? then StartTransfer(env, LeaveMenu(s), FromMenu, staff.value) else RetryMenu(env, s)
  }

  // ---- Input from the caller ----

  function OnKeypad(env: Env, s: Call, key: MenuKey): Call {
    if !IsMenuKey(key) || s.inPreamble || s.disposed then s
    else if s.answer.Some? then Settle(s, Some(KeyReply(key)))
    else if s.ending then s
    else if s.voicemail.Some? then (if key == '#' then FinishVoicemail(s) else s)
    else if s.aiActive then
      if key != '0' || s.transferring then s else
      var staff := PressZeroTarget(env);
      if staff.Some? then StartTransfer(env, s, FromAssistant, staff.value) else s
    else Choose(env, s, key)
  }

  function OnCallerSpeech(env: Env, s: Call, text: string): Call {
    var spoken := Text.Trim(text);
    if spoken == "" || s.inPreamble then s
    else if s.answer.Some? then Settle(s, Some(TextReply(spoken)))
    else if s.ending then s
    else if s.voicemail.Some? then
      var v := s.voicemail.value;
      var s1 := s.(
        voicemail := Some(v.(parts := v.parts + [spoken])),
        log := s.log.(heard := s.log.heard[v.id := v.parts + [spoken]]));
      if v.listening then ArmVoicemailTimer(s1) else s1
    else if s.menu.Some? then
      var key := env.matchMenuChoice(s.menu.value.node.options, spoken);
      if key.Some? then Choose(env, s, key.value) else RetryMenu(env, s)
    else s
  }

  /** A turn taken while the assistant is active: only a pending question hears it here. */
  function OnAssistantTurn(s: Call, text: string): Call {
    var spoken := Text.Trim(text);
    if spoken == "" then s else Settle(s, Some(TextReply(spoken)))
  }

  function StopMenuTimer(s: Call): Call {
    s.(
      timers := Without(s.timers, if s.menu.Some? then s.menu.value.timer else None),
      menu := Timed(s.menu, None))
  }

  function StopVoicemailTimer(s: Call): Call {
    s.(
      timers := Without(s.timers, if s.voicemail.Some? then s.voicemail.value.timer else None),
      voicemail := if s.voicemail.None? then None else Some(s.voicemail.value.(timer := None)))
  }

  function OnCallerStartedSpeaking(s: Call): Call {
    StopVoicemailTimer(StopMenuTimer(s.(speaking := true)))
  }

  function OnCallerStoppedSpeaking(s: Call): Call {
    if s.ending then s.(speaking := false) else
    var s1 := if s.menu.Some? && s.menu.value.timer.None? then ArmMenuTimer(s) else s;
    var s2 :=
      if s1.voicemail.Some? && s1.voicemail.value.listening && s1.voicemail.value.timer.None?
      then ArmVoicemailTimer(s1) else s1;
    s2.(speaking := false)
  }

  // ---- Begin and dispose ----

  function Begin(s: Call): Call {
    if s.started then s else Spawn(s.(started := true, inPreamble := true), Preamble)
  }

  function Dispose(s: Call): Call {
    if s.disposed then s else
    QuietVoicemail(Settle(s, None)).(disposed := true, ending := true, timers := map[], menu := None)
  }

  /** The assistant's end_call tool. */
  function ToolEndCall(env: Env, s: Call): Call {
    if s.transferring then s else EndCall(env, s, true)
  }

  /** The assistant's transfer tools. */
  function ToolTransfer(env: Env, s: Call, caseId: Option<string>): Call {
    var target := env.resolveTransfer(caseId);
    if s.transferring || target.None? || s.ending || !env.canDial(target.value.phone) then s
    else StartTransfer(env, s, FromAssistant, target.value)
  }

  // ---- What an await was waiting for has happened ----

  /**
   * `ok`: the words were heard, the message was saved, the text was sent.
   * `dial`: what the dialer answered. Each task looks at one of them at most.
   */
  datatype Result = Result(ok: bool, dial: DialResult)

  /** The rest of the segment after the await of `task`, which is no longer pending. */
  function Resume(env: Env, s: Call, task: Task, r: Result): Call {
    match task
    case Preamble =>
      var s1 := s.(inPreamble := false);
      var start := FindStart(env.graph.nodes);
      if start.None? then Fail(env, s1) else Enter(env, s1, Some(start.value.id))
    case StepPause(node, texting) =>
      Enter(env, if texting && r.ok then s.(textsSent := s.textsSent + 1) else s, NextNode(env.graph, node.id, None))
    case MenuPrompt(token) =>
      if s.menu.Some? && s.menu.value.token == token then ArmMenuTimer(s) else s
    case VoicemailPrompt(id) =>
      if s.voicemail.None? || s.voicemail.value.id != id || s.ending then s else
      ArmVoicemailTimer(Listen(s, s.voicemail.value))
    case SavingVoicemail(node) => Spawn(s, VoicemailNotice(node))
    case VoicemailNotice(node) => FollowOrEnd(env, s, node.id, None)
    case FlushSave => s
    case Replied(waiter, reply) =>
      (match waiter
       case TextOffer(x) =>
         if s.ending then Finish(s, x, Ended)
         else StartDialing(env, s, x, reply.Some? && env.parseYes(reply.value))
       case RatingQuestion =>
         var rating := if reply.Some? then env.parseRating(reply.value) else None;
         if rating.None? then Spawn(s, Goodbye) else Spawn(s.(rating := rating), RatingThanks))
    case TestHold(x, optIn) => PostDial(s, x, optIn, NoAnswer)
    case ColdHold(x, optIn) => DialOrGiveUp(env, s, x, optIn, 0)
    case Dialing(x, optIn, attempt) =>
      if r.dial == NoAnswer then DialOrGiveUp(env, s, x, optIn, attempt + 1) else AfterDial(s, x, optIn, r.dial)
    case HoldTail(x, optIn, result) => PostDial(s, x, optIn, result)
    case NoAnswerNotice(x, optIn) =>
      if optIn then Spawn(s, FollowUp(x)) else Finish(s, x, if s.ending then Ended else Unavailable)
    case FollowUp(x) =>
      Finish(if r.ok then s.(textsSent := s.textsSent + 1) else s, x, if s.ending then Ended else Unavailable)
    case Connecting(x) => Spawn(s, Leaving(x)).(log := s.log.(leaves := s.log.leaves + 1))
    case Leaving(x) => Finish(s, x, Connected)
    case ClearingRoom(x) => Finish(s, x, Ended)
    case TransferDone(origin, outcome) =>
      if outcome != Unavailable then s
      else if origin.FromStep? then Enter(env, s, NextNode(env.graph, origin.node.id, Some("no_answer")))
      else if s.ending || s.aiActive then s
      else EndCall(env, s, false)
    case RatingThanks => Spawn(s, Goodbye)
    case Goodbye => if s.disposed then s else SetTimer(s, HangUpGrace)
    case HangUpNow => s.(log := s.log.(hangUps := s.log.hangUps + 1))
  }

  function GraceOver(s: Call): Call {
    s.(log := s.log.(graces := s.log.graces + 1))
  }

  /** The callback of a timer that just fired. */
  function Fire(env: Env, s: Call, timer: Timer): Call {
    match timer
    case CallLimit => EndCall(env, s, false)
    case MenuWait(_) => RetryMenu(env, s)
    case VoicemailSilence(_) => FinishVoicemail(s)
    case VoicemailMax(_) => FinishVoicemail(s)
    case AnswerWait(id) => if s.answer.Some? && s.answer.value.id == id then Settle(s, None) else s
    case HangUpGrace => Spawn(GraceOver(s), HangUpNow)
  }

  // ---- Runs ----

  datatype Event =
    | BeginCall
    | StartCallLimit
    | Keypad(key: MenuKey)
    | CallerSpeech(text: string)
    | AssistantTurn(text: string)
    | CallerStarted
    | CallerStopped
    | TimerFires(id: Id)
    | Resumes(id: Id, result: Result)
    | Played(id: Id, spoken: bool)
    | EndCallTool
    | TransferTool(caseId: Option<string>)
    | Disposed
    | Flushed

  /** One event. One that cannot happen in this state changes nothing. */
  function Step(env: Env, s: Call, e: Event): Call {
    match e
    case BeginCall => Begin(s)
    case StartCallLimit => SetTimer(s, CallLimit)
    case Keypad(key) => OnKeypad(env, s, key)
    case CallerSpeech(text) => OnCallerSpeech(env, s, text)
    case AssistantTurn(text) => if s.aiActive then OnAssistantTurn(s, text) else s
    case CallerStarted => OnCallerStartedSpeaking(s)
    case CallerStopped => OnCallerStoppedSpeaking(s)
    case TimerFires(id) =>
      if id !in s.timers then s else
      var s1 := s.(timers := s.timers - {id});
      if s.disposed then s1 else Fire(env, s1, s.timers[id])
    case Resumes(id, result) => if id !in s.tasks then s else Resume(env, Retire(s, id), s.tasks[id], result)
    case Played(id, spoken) => QuestionPlayed(s, id, spoken)
    case EndCallTool => if s.aiActive then ToolEndCall(env, s) else s
    case TransferTool(caseId) => if s.aiActive then ToolTransfer(env, s, caseId) else s
    case Disposed => Dispose(s)
    case Flushed => if s.disposed then FlushVoicemail(s) else s
  }

  function Run(env: Env, events: seq<Event>): Call {
    if events == [] then NEW_CALL
    else Step(env, Run(env, events[..|events| - 1]), events[|events| - 1])
  }
}
