/**
 * What an event comes to, said of what can be seen before and after it and of the graph
 * alone, without any operation of the call engine.
 */
module CallMeaning {
  import opened Options
  import opened CallFlow
  import opened CallEngine
  import opened Dialing
  import PhoneNumbers
  import Text

  // ---- What can be seen of a call ----

  datatype Standing = Standing(
    started: bool, disposed: bool, inPreamble: bool, transferring: bool, aiActive: bool, failed: bool,
    rating: Option<nat>, textsSent: nat)

  /** What the outside world has had of the call. */
  datatype Outward = Outward(
    goodbyes: nat, connects: nat, leaves: nat, hangUps: nat, clears: nat, recordingStops: nat,
    dialed: seq<string>, offered: seq<(Id, string)>)

  datatype Scene = Scene(
    stands: Standing, shows: Outward, visited: seq<FlowNode>, ending: bool,
    tasks: map<Id, Task>, answer: Option<Question>, menuToken: nat)

  ghost function Stands(s: Call): Standing {
    Standing(s.started, s.disposed, s.inPreamble, s.transferring, s.aiActive, s.failed, s.rating, s.textsSent)
  }

  ghost function Shows(s: Call): Outward {
    Outward(
      s.log.goodbyes, s.log.connects, s.log.leaves, s.log.hangUps, s.log.clears, s.log.recordingStops,
      s.log.dialed, s.log.offered)
  }

  ghost function Seen(s: Call): Scene {
    Scene(Stands(s), Shows(s), s.log.visited, s.ending, s.tasks, s.answer, s.menuToken)
  }

  // ---- What changes and what does not ----

  /** This piece of work is pending now and was not before; all the others still are. */
  ghost predicate Adds(tasks: map<Id, Task>, tasks': map<Id, Task>, t: Task) {
    exists j: Id :: j !in tasks && tasks' == tasks[j := t]
  }

  ghost predicate Same(s: Scene, s': Call) {
    s'.ending == s.ending && s'.log.visited == s.visited && Stands(s') == s.stands && Shows(s') == s.shows
  }

  ghost predicate NoStep(s: Scene, s': Call) {
    s'.log.visited == s.visited && s'.ending == s.ending
  }

  /** Nothing changes but that this is pending next. */
  ghost predicate ComesNext(s: Scene, t: Task, s': Call) {
    Same(s, s') && s'.answer == s.answer && Adds(s.tasks, s'.tasks, t)
  }

  /** A question is asked, in place of any that is open; it is read out first. */
  ghost predicate Asks(s: Scene, waiter: Waiter, s': Call) {
    && s'.answer.Some? && s'.answer.value.waiter == waiter && s'.answer.value.playing && s'.answer.value.timer.None?
    && s'.tasks ==
       if s.answer.None? then s.tasks else s.tasks[s.answer.value.id := Replied(s.answer.value.waiter, None)]
  }

  /** The goodbye begins: with the rating question if there is to be a survey, else with the closing line. */
  ghost predicate GoodbyeBegins(env: Env, s: Scene, survey: bool, s': Call) {
    && s'.ending && s'.menu.None? && s'.log.visited == s.visited
    && Stands(s') == s.stands && Shows(s') == s.shows.(goodbyes := s.shows.goodbyes + 1)
    && if survey && env.csatEnabled && !s.stands.failed && s.stands.rating.None? then Asks(s, RatingQuestion, s')
       else Adds(s.tasks, s'.tasks, Goodbye) && s'.answer == s.answer
  }

  // ---- Transfers ----

  ghost predicate CanText(env: Env, textsSent: nat) {
    textsSent < 2 && (env.hasCallerPhone || env.testCall)
  }

  /** How often staff is rung at most. */
  ghost function MostRings(env: Env, x: Transfer): nat {
    if env.warmDialer == Some(true) then 1 + x.target.retries else 1
  }

  /** One more dial attempt, unless there have been enough or the call is ending: then the hold message ends. */
  ghost predicate RingsAgain(env: Env, s: Scene, x: Transfer, optIn: bool, attempt: nat, s': Call) {
    if attempt < MostRings(env, x) && !s.ending
    then ComesNext(s.(shows := s.shows.(dialed := s.shows.dialed + [x.target.phone])), Dialing(x, optIn, attempt), s')
    else ComesNext(s, HoldTail(x, optIn, NoAnswer), s')
  }

  /** The hold message, and with a warm dialer the first attempt beside it. */
  ghost predicate HoldBegins(env: Env, s: Scene, x: Transfer, optIn: bool, s': Call) {
    if env.warmDialer == Some(true) then RingsAgain(env, s, x, optIn, 0, s')
    else ComesNext(s, if env.warmDialer.None? then TestHold(x, optIn) else ColdHold(x, optIn), s')
  }

  /** A transfer cannot be made, or begins with the offer of a text, or with the hold message. */
  ghost predicate TransferBegins(env: Env, s: Scene, origin: Origin, target: Option<Target>, s': Call) {
    && NoStep(s, s') && s'.menu.None?
    && if target.None? || !env.canDial(target.value.phone) || (env.warmDialer.None? && !env.testCall) then
         ComesNext(s, TransferDone(origin, Unavailable), s')
       else
         var x, s1 := Transfer(origin, target.value), s.(stands := s.stands.(transferring := true));
         if env.offerTextWhenNoAnswer && CanText(env, s.stands.textsSent)
         then Asks(s, TextOffer(x), s') && Same(s1, s')
         else HoldBegins(env, s1, x, false, s')
  }

  /** A transfer step rings its own number if that is an international one, else the escalation number. */
  ghost predicate RingsFor(env: Env, node: FlowNode, target: Option<Target>) {
    var phone := if PhoneNumbers.IsE164(node.phone) then Some(node.phone) else env.escalationPhone;
    if env.transfersDisabled || phone.None? || phone.value == "" then target.None?
    else target == Some(Target(phone.value, 0))
  }

  /** The line key 0 rings, if it may. */
  ghost predicate StaffLine(env: Env, target: Target) {
    env.pressZeroForStaff && env.resolveTransfer(None) == Some(target) && env.canDial(target.phone)
  }

  // ---- Steps of the flow ----

  /** The output by which a step that does nothing itself passes on. */
  ghost function PassesBy(env: Env, node: FlowNode): Option<string> {
    if node.kind == HoursCheck then Some(if env.isOpen then "open" else "closed") else None
  }

  ghost predicate Passing(node: FlowNode) { node.kind == Start || node.kind == HoursCheck }

  ghost predicate LeadsNowhere(env: Env, node: FlowNode, handle: Option<string>) {
    forall n :: !LeadsTo(env.graph, node.id, handle, n)
  }

  /** Steps taken at once, one after the other: all but the last pass on, to where their output leads. */
  ghost predicate TakenAtOnce(env: Env, steps: seq<FlowNode>) {
    forall k :: 0 <= k < |steps| - 1 ==>
      Passing(steps[k]) && LeadsTo(env.graph, steps[k].id, PassesBy(env, steps[k]), steps[k + 1])
  }

  /** What a step leaves behind. `s` is what could be seen when it was taken. */
  ghost predicate Leaves(env: Env, s: Scene, node: FlowNode, s': Call) {
    match node.kind
    case PlayMessage => ComesNext(s, StepPause(node, false), s')
    case KeypadMenu =>
      && ComesNext(s, MenuPrompt(s'.menuToken), s')
      && s'.menuToken > s.menuToken && s'.menu == Some(MenuState(node, 0, s'.menuToken, None))
    case TextLink => ComesNext(s, StepPause(node, CanText(env, s.stands.textsSent)), s')
    case TransferCall => exists target ::
      RingsFor(env, node, target) && TransferBegins(env, s, FromStep(node), target, s')
    case Voicemail =>
      && s'.voicemail.Some?
      && var v := s'.voicemail.value;
         && v.node == node && v.parts == [] && !v.listening && v.timer.None? && v.maxTimer.None?
         && ComesNext(s, VoicemailPrompt(v.id), s')
    case AiAgent =>
      var s1 := s.(stands := s.stands.(aiActive := true));
      if env.assistantStarts then Same(s1, s') && s'.tasks == s.tasks && s'.answer == s.answer
      else GoodbyeBegins(env, s1.(stands := s1.stands.(failed := true)), false, s')
    case HangUp => GoodbyeBegins(env, s, true, s')
    case _ =>
      // there are no steps left, or its output leads nowhere
      && (|s.visited| == 60 || LeadsNowhere(env, node, PassesBy(env, node)))
      && GoodbyeBegins(env, s, false, s')
  }

  /** The flow goes to this step; without one, or without steps left, the call ends. */
  ghost predicate Walks(env: Env, s: Scene, next: Option<FlowNode>, s': Call) {
    if next.None? || |s.visited| >= 60 then GoodbyeBegins(env, s, false, s')
    else
      && s.visited < s'.log.visited
      && var steps := s'.log.visited[|s.visited|..];
         steps[0] == next.value && TakenAtOnce(env, steps)
         && Leaves(env, s.(visited := s'.log.visited), steps[|steps| - 1], s')
  }

  /** The flow follows this output of that step, if it leads anywhere; else the call ends. */
  ghost predicate Follows(env: Env, s: Scene, node: FlowNode, handle: Option<string>, s': Call) {
    && (forall n :: LeadsTo(env.graph, node.id, handle, n) ==> Walks(env, s, Some(n), s'))
    && (LeadsNowhere(env, node, handle) ==> Walks(env, s, None, s'))
  }

  // ---- Menus ----

  ghost predicate IsKey(key: MenuKey) {
    key in {'0', '1', '2', '3', '4', '5', '6', '7', '8', '9', '*', '#'}
  }

  /** The output of a menu for a key. */
  ghost function OutputOf(key: MenuKey): string {
    if key == '*' then "key_star" else if key == '#' then "key_hash" else "key_" + [key]
  }

  ghost predicate Offers(menu: MenuState, key: MenuKey) {
    exists k :: 0 <= k < |menu.node.options| && menu.node.options[k].key == key
  }

  /** The menu is asked again, at most three times and by default twice; then its "no input" output is followed. */
  ghost predicate AskedAgain(env: Env, s: Scene, menu: MenuState, s': Call) {
    var wanted := if menu.node.repeat.Some? then menu.node.repeat.value else 2;
    if menu.misses < wanted && menu.misses < 3 then
      && ComesNext(s, MenuPrompt(s'.menuToken), s')
      && s'.menuToken > s.menuToken && s'.menu == Some(MenuState(menu.node, menu.misses + 1, s'.menuToken, None))
    else Follows(env, s, menu.node, Some("no_input"), s')
  }

  /** An offered key's output is followed; key 0 may ring staff; any other key is none. */
  ghost predicate Chosen(env: Env, s: Scene, menu: MenuState, key: MenuKey, s': Call) {
    if Offers(menu, key) then Follows(env, s, menu.node, Some(OutputOf(key)), s')
    else
      && (forall target :: key == '0' && StaffLine(env, target) ==> TransferBegins(env, s, FromMenu, Some(target), s'))
      && ((key != '0' || forall target :: !StaffLine(env, target)) ==> AskedAgain(env, s, menu, s'))
  }

  // ---- Work of the flow that is done ----

  /** What could be seen, without this piece of work. */
  ghost function SeenWithout(s: Call, id: Id): Scene { Seen(s).(tasks := s.tasks - {id}) }

  ghost predicate Flowing(t: Task) {
    t.Preamble? || t.StepPause? || t.SavingVoicemail? || t.VoicemailNotice? || t.TransferDone?
  }

  /** The first start step, or rather the first step that bears its id. */
  ghost predicate StartsAt(graph: FlowGraph, node: FlowNode) {
    exists k, m ::
      && 0 <= k < |graph.nodes| && graph.nodes[k].kind == Start
      && (forall j :: 0 <= j < k ==> graph.nodes[j].kind != Start)
      && FirstWith(graph.nodes, graph.nodes[k].id, m) && graph.nodes[m] == node
  }

  ghost predicate NoStart(graph: FlowGraph) { forall n :: n in graph.nodes ==> n.kind != Start }

  /** While the call goes on, the flow follows the output of the step whose work is done. */
  ghost predicate GoesOn(env: Env, s: Scene, t: Task, ok: bool, s': Call) {
    match t
    case Preamble =>
      var s1 := s.(stands := s.stands.(inPreamble := false));
      && (forall n :: StartsAt(env.graph, n) ==> Walks(env, s1, Some(n), s'))
      && (NoStart(env.graph) ==> GoodbyeBegins(env, s1.(stands := s1.stands.(failed := true)), false, s'))
    case StepPause(node, texting) =>
      var texts := s.stands.textsSent + if texting && ok then 1 else 0;
      Follows(env, s.(stands := s.stands.(textsSent := texts)), node, None, s')
    case SavingVoicemail(node) => ComesNext(s, VoicemailNotice(node), s')
    case VoicemailNotice(node) => Follows(env, s, node, None, s')
    case TransferDone(origin, outcome) =>
      if outcome != Unavailable || origin.FromAssistant? then Seen(s') == s
      else if origin.FromMenu? then GoodbyeBegins(env, s, false, s')
      else Follows(env, s, origin.node, Some("no_answer"), s')
    case _ => true
  }

  // ---- A transfer under way ----

  /** The transfer is over; whoever waits for it hears of it. */
  ghost predicate TransferOver(s: Scene, x: Transfer, outcome: Outcome, s': Call) {
    ComesNext(s.(stands := s.stands.(transferring := false)), TransferDone(x.origin, outcome), s')
  }

  /** The ringing and the hold message are both over. */
  ghost predicate HoldOver(s: Scene, x: Transfer, optIn: bool, result: DialResult, s': Call) {
    if s.ending then
      // an answer found the call ending: the room is cleared if the caller has left
      if result == Answered && s.stands.disposed
      then ComesNext(s.(shows := s.shows.(clears := s.shows.clears + 1)), ClearingRoom(x), s')
      else TransferOver(s, x, Ended, s')
    else if result == NoAnswer then ComesNext(s, NoAnswerNotice(x, optIn), s')
    else
      var s1 := s.(ending := true, shows := s.shows.(connects := s.shows.connects + 1));
      && s'.menu.None?
      && if result == Answered then ComesNext(s1, Connecting(x), s') else TransferOver(s1, x, Connected, s')
  }

  /** Staff who answers is never recorded; staff who does not is rung again. */
  ghost predicate TransferGoesOn(env: Env, s: Scene, t: Task, r: Result, s': Call)
    requires t.Replied? ==> t.waiter.TextOffer?
  {
    var nobody := if s.ending then Ended else Unavailable;
    match t
    case Replied(waiter, reply) =>
      if s.ending then TransferOver(s, waiter.x, Ended, s')
      else HoldBegins(env, s, waiter.x, reply.Some? && env.parseYes(reply.value), s')
    case TestHold(x, optIn) => HoldOver(s, x, optIn, NoAnswer, s')
    case ColdHold(x, optIn) => RingsAgain(env, s, x, optIn, 0, s')
    case Dialing(x, optIn, attempt) =>
      if r.dial == NoAnswer then RingsAgain(env, s, x, optIn, attempt + 1, s')
      else
        var stops := s.shows.recordingStops + if r.dial == Answered then 1 else 0;
        ComesNext(s.(shows := s.shows.(recordingStops := stops)), HoldTail(x, optIn, r.dial), s')
    case HoldTail(x, optIn, result) => HoldOver(s, x, optIn, result, s')
    case NoAnswerNotice(x, optIn) => if optIn then ComesNext(s, FollowUp(x), s') else TransferOver(s, x, nobody, s')
    case FollowUp(x) =>
      var texts := s.stands.textsSent + if r.ok then 1 else 0;
      TransferOver(s.(stands := s.stands.(textsSent := texts)), x, nobody, s')
    case Connecting(x) => ComesNext(s.(shows := s.shows.(leaves := s.shows.leaves + 1)), Leaving(x), s')
    case Leaving(x) => TransferOver(s, x, Connected, s')
    case ClearingRoom(x) => TransferOver(s, x, Ended, s')
    case _ => true
  }

  // ---- The goodbye ----

  ghost predicate Starts(timers: map<Id, Timer>, timers': map<Id, Timer>, t: Timer) {
    exists j: Id :: j !in timers && timers' == timers[j := t]
  }

  /** The rating is thanked for, the closing line said, a moment waited, and the call hung up. */
  ghost predicate GoodbyeGoesOn(env: Env, s: Scene, t: Task, timers: map<Id, Timer>, s': Call) {
    match t
    case Replied(_, reply) =>
      var rating := if reply.Some? then env.parseRating(reply.value) else None;
      if rating.None? then ComesNext(s, Goodbye, s')
      else ComesNext(s.(stands := s.stands.(rating := rating)), RatingThanks, s')
    case RatingThanks => ComesNext(s, Goodbye, s')
    case Goodbye =>
      Seen(s') == s && if s.stands.disposed then s'.timers == timers else Starts(timers, s'.timers, HangUpGrace)
    case HangUpNow => Seen(s') == s.(shows := s.shows.(hangUps := s.shows.hangUps + 1))
    case _ => true
  }

  // ---- Questions ----

  /** The open question has its reply; whoever asked hears it. */
  ghost predicate Replies(s: Scene, reply: Option<Reply>, s': Call) {
    && s.answer.Some? && s'.answer.None?
    && Seen(s') == s.(answer := None, tasks := s.tasks[s.answer.value.id := Replied(s.answer.value.waiter, reply)])
  }

  // ---- Voicemail ----

  /** The first thousand characters of everything that was said, in order. */
  ghost function Said(parts: seq<string>): string {
    var all := Text.Trim(Text.JoinWords(parts));
    if |all| <= 1000 then all else all[..1000]
  }

  /** The voicemail is over: what was said is handed over to be saved, or the caller hears that nothing was. */
  ghost predicate Taken(s: Scene, v: VoicemailState, s': Call) {
    && s'.voicemail.None?
    && if Said(v.parts) == "" then ComesNext(s, VoicemailNotice(v.node), s')
       else
         var s1 := s.(shows := s.shows.(offered := s.shows.offered + [(v.id, Said(v.parts))]));
         ComesNext(s1, SavingVoicemail(v.node), s')
  }
}
