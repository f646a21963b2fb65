/** What a transfer, a question, a voicemail and the goodbye come to, event by event. */
module CallExchanges {
  import opened Options
  import opened CallFlow
  import opened CallEngine
  import opened Dialing
  import opened CallInvariants
  import opened CallMeaning
  import opened CallSegments
  import opened CallProgress
  import opened CallEvents
  import opened CallTheorems
  import opened CallWalk
  import opened CallFollows
  import opened CallConsequences
  import Text

  lemma FreshIds(env: Env, s: Call)
    requires Good(env, s)
    ensures IdsFit(s.tasks, s.timers, s.answer, s.nextId) && NewIds(s)
  {
    hide Led, Driven, TimersOk, PromptsOk, CountsOk, VoicemailsOk, NumbersFit;
  }

  lemma SpawnMeans(s: Call, t: Task)
    requires NewIds(s)
    ensures ComesNext(Seen(s), t, Spawn(s, t))
  {
    SpawnAdds(s, t);
    SeenParts();
    hide Spawn, Adds, Seen;
  }

  // ---- A transfer under way ----

  lemma FinishMeans(s: Call, x: Transfer, outcome: Outcome)
    requires NewIds(s)
    ensures TransferOver(Seen(s), x, outcome, Finish(s, x, outcome))
  {
    var s1, b := s.(transferring := false), Seen(s);
    assert Seen(s1) == b.(stands := b.stands.(transferring := false));
    SpawnMeans(s1, TransferDone(x.origin, outcome));
    hide Spawn, ComesNext;
  }

  lemma NotedMeans(s: Call, log: Log, t: Task)
    requires NewIds(s)
    ensures ComesNext(Seen(s.(log := log)), t, Spawn(s, t).(log := log))
  {
    SpawnMeans(s.(log := log), t);
    assert Spawn(s, t).(log := log) == Spawn(s.(log := log), t);
    hide Spawn, ComesNext;
  }

  lemma ClearedSeen(s: Call)
    ensures
      var cleared, dropped := s.log.(clears := s.log.clears + 1), s.(log := s.log.(dropped := s.log.dropped + 1));
      var b := Seen(s);
      && Seen(s.(log := cleared)) == b.(shows := b.shows.(clears := b.shows.clears + 1))
      && Seen(dropped) == b && (NewIds(s) ==> NewIds(dropped))
      && b.stands.disposed == s.disposed && b.ending == s.ending
  {
  }

  lemma EndedHoldMeans(s: Call, x: Transfer, optIn: bool, r: DialResult)
    requires NewIds(s) && s.ending
    ensures HoldOver(Seen(s), x, optIn, r, PostDial(s, x, optIn, r))
  {
    var cleared, dropped := s.log.(clears := s.log.clears + 1), s.(log := s.log.(dropped := s.log.dropped + 1));
    ClearedSeen(s);
    EndedPostDialState(s, x, optIn, r);
    hide Spawn, Finish, ComesNext, LeaveMenu, PostDial, Seen, NewIds, TransferOver;
    if r != Answered {
      FinishMeans(s, x, Ended);
    } else if s.disposed {
      NotedMeans(s, cleared, ClearingRoom(x));
      SpawnLog(s, ClearingRoom(x));
    } else {
      FinishMeans(dropped, x, Ended);
    }
  }

  lemma JoinedSeen(s: Call)
    ensures
      var b := Seen(s);
      Seen(Joined(s)) == b.(ending := true, shows := b.shows.(connects := b.shows.connects + 1))
    ensures NewIds(s) ==> NewIds(Joined(s))
    ensures forall t :: Spawn(Joined(s), t).menu.None?
    ensures forall x, outcome :: Finish(Joined(s), x, outcome).menu.None?
  {
  }

  lemma HoldAnswered(s: Call, x: Transfer, optIn: bool)
    requires NewIds(s) && !s.ending
    ensures HoldOver(Seen(s), x, optIn, Answered, PostDial(s, x, optIn, Answered))
  {
    PostDialState(s, x, optIn, Answered);
    JoinedSeen(s);
    assert !Seen(s).ending;
    hide Spawn, Finish, ComesNext, Joined, PostDial, Seen, NewIds, TransferOver, LeaveMenu;
    SpawnMeans(Joined(s), Connecting(x));
  }

  lemma HoldReferred(s: Call, x: Transfer, optIn: bool)
    requires NewIds(s) && !s.ending
    ensures HoldOver(Seen(s), x, optIn, Referred, PostDial(s, x, optIn, Referred))
  {
    PostDialState(s, x, optIn, Referred);
    JoinedSeen(s);
    assert !Seen(s).ending;
    hide Spawn, Finish, ComesNext, Joined, PostDial, Seen, NewIds, TransferOver, LeaveMenu;
    FinishMeans(Joined(s), x, Connected);
  }

  lemma HoldMeans(s: Call, x: Transfer, optIn: bool, r: DialResult)
    requires NewIds(s) && !s.ending
    ensures HoldOver(Seen(s), x, optIn, r, PostDial(s, x, optIn, r))
  {
    if r == NoAnswer {
      PostDialState(s, x, optIn, r);
      assert !Seen(s).ending;
      hide Spawn, Finish, ComesNext, Joined, PostDial, Seen, NewIds, TransferOver, LeaveMenu;
      SpawnMeans(s, NoAnswerNotice(x, optIn));
    } else {
      hide PostDial, HoldOver, Seen, NewIds;
      if r == Answered { HoldAnswered(s, x, optIn); } else { HoldReferred(s, x, optIn); }
    }
  }

  lemma RingingMeans(env: Env, s: Call, t: Task, r: Result)
    requires NewIds(s) && (t.TestHold? || t.ColdHold? || t.Dialing? || t.HoldTail?)
    ensures TransferGoesOn(env, Seen(s), t, r, Resume(env, s, t, r))
  {
    RingState(env, s, t, r);
    SeenParts();
    hide PostDial, DialOrGiveUp, AfterDial, Resume, RingsAgain, HoldOver, Seen, ComesNext;
    if t.Dialing? {
      DialMeans(env, s, t.x, t.optIn, t.attempt + 1);
      AnswerMeans(s, t.x, t.optIn, r.dial);
    } else if t.ColdHold? {
      DialMeans(env, s, t.x, t.optIn, 0);
    } else if s.ending {
      EndedHoldMeans(s, t.x, t.optIn, if t.HoldTail? then t.result else NoAnswer);
    } else {
      HoldMeans(s, t.x, t.optIn, if t.HoldTail? then t.result else NoAnswer);
    }
  }

  lemma AnswerMeans(s: Call, x: Transfer, optIn: bool, r: DialResult)
    requires NewIds(s)
    ensures
      var b := Seen(s);
      var stops := b.shows.recordingStops + if r == Answered then 1 else 0;
      ComesNext(b.(shows := b.shows.(recordingStops := stops)), HoldTail(x, optIn, r), AfterDial(s, x, optIn, r))
  {
    AfterDialMeans(s, x, optIn, r);
    SeenParts();
    hide AfterDial, Adds, Seen;
  }

  lemma MissedMeans(env: Env, s: Call, t: Task, r: Result)
    requires NewIds(s) && t.NoAnswerNotice?
    ensures TransferGoesOn(env, Seen(s), t, r, Resume(env, s, t, r))
  {
    MissedState(env, s, t, r);
    assert Seen(s).ending == s.ending;
    SpawnMeans(s, FollowUp(t.x));
    FinishMeans(s, t.x, if s.ending then Ended else Unavailable);
    hide Spawn, Finish, Resume, TransferOver, ComesNext, Seen, NewIds, HoldOver, HoldBegins, RingsAgain;
  }

  lemma FollowedUpMeans(env: Env, s: Call, t: Task, r: Result)
    requires NewIds(s) && t.FollowUp?
    ensures TransferGoesOn(env, Seen(s), t, r, Resume(env, s, t, r))
  {
    var sent := Texted(s, r.ok);
    MissedState(env, s, t, r);
    TextedSeen(s, r.ok);
    assert Seen(s).ending == s.ending;
    FinishMeans(sent, t.x, if s.ending then Ended else Unavailable);
    hide Spawn, Finish, Resume, TransferOver, ComesNext, Seen, Texted, NewIds, HoldOver, HoldBegins, RingsAgain;
  }

  lemma LeavingMeans(env: Env, s: Call, t: Task, r: Result)
    requires NewIds(s) && (t.Connecting? || t.Leaving? || t.ClearingRoom?)
    ensures TransferGoesOn(env, Seen(s), t, r, Resume(env, s, t, r))
  {
    LeavingState(env, s, t, r);
    LeftRoomSeen(s);
    hide Spawn, Finish, Resume, TransferOver, ComesNext, Seen, NewIds;
    if t.Connecting? {
      SpawnLog(s, Leaving(t.x));
      NotedMeans(s, s.log.(leaves := s.log.leaves + 1), Leaving(t.x));
    } else {
      FinishMeans(s, t.x, if t.Leaving? then Outcome.Connected else Ended);
    }
  }

  lemma LeftRoomSeen(s: Call)
    ensures
      var b := Seen(s);
      Seen(s.(log := s.log.(leaves := s.log.leaves + 1))) == b.(shows := b.shows.(leaves := b.shows.leaves + 1))
  {
  }

  lemma OfferMeans(env: Env, s: Call, t: Task, r: Result)
    requires NewIds(s) && t.Replied? && t.waiter.TextOffer?
    ensures TransferGoesOn(env, Seen(s), t, r, Resume(env, s, t, r))
  {
    SeenParts();
    FinishMeans(s, t.waiter.x, Ended);
    StartDialingMeans(env, s, t.waiter.x, t.reply.Some? && env.parseYes(t.reply.value));
    hide StartDialing, Finish, TransferOver, HoldBegins, Seen;
  }

  /** A transfer goes on: the offer, the ringing, the hold message, the connection and what follows a missed one. */
  lemma TransfersGoOn(env: Env, events: seq<Event>, id: Id, r: Result)
    requires id in Run(env, events).tasks && InTransfer(Run(env, events).tasks[id])
    ensures
      var s := Run(env, events);
      TransferGoesOn(env, SeenWithout(s, id), s.tasks[id], r, Run(env, events + [Resumes(id, r)]))
  {
    var s := Run(env, events);
    var t, s1 := s.tasks[id], Retire(s, id);
    RunKeeps(env, events);
    RunAppend(env, events, Resumes(id, r));
    StepResumes(env, s, id, r);
    FreshIds(env, s);
    Retired(env, s, id);
    hide Run, Step, Good, Resume, TransferGoesOn, Retire, Seen, SeenWithout;
    if t.Replied? { OfferMeans(env, s1, t, r); }
    else if t.NoAnswerNotice? { MissedMeans(env, s1, t, r); }
    else if t.FollowUp? { FollowedUpMeans(env, s1, t, r); }
    else if t.Connecting? || t.Leaving? || t.ClearingRoom? { LeavingMeans(env, s1, t, r); }
    else { RingingMeans(env, s1, t, r); }
  }

  // ---- The goodbye ----

  lemma RatedMeans(env: Env, s: Call, t: Task, r: Result)
    requires NewIds(s) && ((t.Replied? && t.waiter.RatingQuestion?) || t.RatingThanks?)
    ensures GoodbyeGoesOn(env, Seen(s), t, s.timers, Resume(env, s, t, r))
  {
    var rating := if t.Replied? && t.reply.Some? then env.parseRating(t.reply.value) else None;
    RatedSeen(s, rating);
    RatingState(env, s, t, r);
    hide Spawn, ComesNext, Resume, Seen, NewIds;
    if rating.None? { SpawnMeans(s, Goodbye); } else { SpawnMeans(s.(rating := rating), RatingThanks); }
  }

  lemma RatedSeen(s: Call, rating: Option<nat>)
    ensures
      var s1, b := s.(rating := rating), Seen(s);
      Seen(s1) == b.(stands := b.stands.(rating := rating)) && (NewIds(s) ==> NewIds(s1))
  {
  }

  lemma SaidMeans(env: Env, s: Call, t: Task, r: Result)
    requires IdsFit(s.tasks, s.timers, s.answer, s.nextId) && (t.Goodbye? || t.HangUpNow?)
    ensures GoodbyeGoesOn(env, Seen(s), t, s.timers, Resume(env, s, t, r))
  {
    assert s.nextId !in s.timers;
    assert SetTimer(s, HangUpGrace).timers == s.timers[s.nextId := HangUpGrace];
  }

  /** The goodbye goes on: the rating, the thanks, the closing line, the wait and the hang-up. */
  lemma GoodbyesGoOn(env: Env, events: seq<Event>, id: Id, r: Result)
    requires id in Run(env, events).tasks && Is(Parting, Run(env, events).tasks[id])
    ensures
      var s := Run(env, events);
      GoodbyeGoesOn(env, SeenWithout(s, id), s.tasks[id], s.timers, Run(env, events + [Resumes(id, r)]))
  {
    var s := Run(env, events);
    var t, s1 := s.tasks[id], Retire(s, id);
    RunKeeps(env, events);
    RunAppend(env, events, Resumes(id, r));
    StepResumes(env, s, id, r);
    FreshIds(env, s);
    Retired(env, s, id);
    assert s1.timers == s.timers && IdsFit(s1.tasks, s1.timers, s1.answer, s1.nextId);
    hide Run, Step, Good, Resume, GoodbyeGoesOn, Retire, Seen, SeenWithout;
    if t.Goodbye? || t.HangUpNow? { SaidMeans(env, s1, t, r); } else { RatedMeans(env, s1, t, r); }
  }

  /** The wait after the closing line is over: the call is hung up. */
  lemma GraceRunsOut(env: Env, events: seq<Event>, id: Id)
    requires id in Run(env, events).timers && Run(env, events).timers[id] == HangUpGrace
    ensures ComesNext(Seen(Run(env, events)), HangUpNow, Run(env, events + [TimerFires(id)]))
  {
    var s := Run(env, events);
    var s1 := s.(timers := s.timers - {id});
    RunKeeps(env, events);
    RunAppend(env, events, TimerFires(id));
    TimersAreCurrent(env, events, id);
    FreshIds(env, s);
    assert Seen(GraceOver(s1)) == Seen(s) && NewIds(GraceOver(s1));
    StepFires(env, s, id);
    hide Run, Step, Good, Seen, Spawn, GraceOver, ComesNext;
    SpawnMeans(GraceOver(s1), HangUpNow);
  }

  /** The longest a call may take is over: it says goodbye, unless it already does. */
  lemma LimitRunsOut(env: Env, events: seq<Event>, id: Id)
    requires id in Run(env, events).timers && Run(env, events).timers[id] == CallLimit
    ensures
      var s, s' := Run(env, events), Run(env, events + [TimerFires(id)]);
      if s.ending then Seen(s') == Seen(s) else GoodbyeBegins(env, Seen(s), false, s')
  {
    var s := Run(env, events);
    var s1 := s.(timers := s.timers - {id});
    RunKeeps(env, events);
    RunAppend(env, events, TimerFires(id));
    Flags(env, s, None);
    FreshIds(env, s);
    assert Seen(s1) == Seen(s) && NewIds(s1);
    StepFires(env, s, id);
    if !s.ending { EndCallMeans(env, s1, false); }
    assert s.ending ==> EndCall(env, s1, false) == s1 by { hide Parted, Ask, Spawn, LeaveMenu; }
    hide Run, Step, Good, Seen, EndCall, GoodbyeBegins;
  }

  // ---- Questions ----

  lemma SettleMeans(s: Call, reply: Option<Reply>)
    requires s.answer.Some?
    ensures Replies(Seen(s), reply, Settle(s, reply))
  {
  }

  /** What an event says to the open question: a reply, or that there is none. */
  ghost predicate Says(s: Call, e: Event, reply: Option<Reply>)
    requires s.answer.Some?
  {
    match e
    case Keypad(key) => IsKey(key) && !s.inPreamble && reply == Some(KeyReply(key))
    case CallerSpeech(text) => Text.Trim(text) != "" && !s.inPreamble && reply == Some(TextReply(Text.Trim(text)))
    case AssistantTurn(text) => Text.Trim(text) != "" && s.aiActive && reply == Some(TextReply(Text.Trim(text)))
    case TimerFires(id) => id in s.timers && s.timers[id].AnswerWait? && reply == None
    case Played(id, spoken) => id == s.answer.value.id && s.answer.value.playing && !spoken && reply == None
    case _ => false
  }

  lemma SilenceIsHeard(env: Env, events: seq<Event>, id: Id)
    requires id in Run(env, events).timers && Run(env, events).timers[id].AnswerWait?
    ensures Replies(Seen(Run(env, events)), None, Run(env, events + [TimerFires(id)]))
  {
    var s := Run(env, events);
    var s1 := s.(timers := s.timers - {id});
    RunAppend(env, events, TimerFires(id));
    TimersAreCurrent(env, events, id);
    assert Seen(s1) == Seen(s);
    StepFires(env, s, id);
    SettleMeans(s1, None);
    hide Run, Settle, Replies, Seen, Step, EndCall, RetryMenu, FinishVoicemail;
  }

  /** A key, an utterance, a turn of the assistant's or silence settles the open question, with just that reply. */
  lemma RepliesAreHeard(env: Env, events: seq<Event>, e: Event, reply: Option<Reply>)
    requires Run(env, events).answer.Some? && Says(Run(env, events), e, reply)
    ensures Replies(Seen(Run(env, events)), reply, Run(env, events + [e]))
  {
    if e.TimerFires? {
      SilenceIsHeard(env, events, e.id);
    } else {
      var s := Run(env, events);
      RunKeeps(env, events);
      RunAppend(env, events, e);
      Flags(env, s, None);
      SettleMeans(s, reply);
      if e.Keypad? { KeyIsKnown(e.key); }
      hide Run, Good, Settle, Replies, Seen, Text.Trim, IsMenuKey, IsKey, FinishVoicemail, StartTransfer, Choose,
        RetryMenu, ArmVoicemailTimer, PressZeroTarget;
    }
  }

  /** Nothing else a caller says or presses touches an open question, or anything. */
  lemma OnlyRepliesCount(env: Env, events: seq<Event>, e: Event)
    requires Run(env, events).answer.Some? && (e.Keypad? || e.CallerSpeech? || e.AssistantTurn?)
    requires forall reply :: !Says(Run(env, events), e, reply)
    ensures Run(env, events + [e]) == Run(env, events)
  {
    var s := Run(env, events);
    RunAppend(env, events, e);
    if e.Keypad? {
      KeyIsKnown(e.key);
      assert !Says(s, e, Some(KeyReply(e.key)));
    } else {
      assert !Says(s, e, Some(TextReply(Text.Trim(e.text))));
    }
    hide Run, Settle, Text.Trim, IsMenuKey, IsKey, FinishVoicemail, StartTransfer, Choose, RetryMenu;
  }

  /** Once a question has been read out its answer is waited for. */
  lemma AnswerIsWaitedFor(env: Env, events: seq<Event>)
    requires Run(env, events).answer.Some? && Run(env, events).answer.value.playing
    ensures
      var s := Run(env, events);
      var q := s.answer.value;
      var s' := Run(env, events + [Played(q.id, true)]);
      && s'.answer.Some? && s'.answer.value.timer.Some?
      && var j, q' := s'.answer.value.timer.value, q.(playing := false, timer := s'.answer.value.timer);
         && s'.answer.value == q' && Seen(s') == Seen(s).(answer := Some(q'))
         && j !in s.timers && s'.timers == s.timers[j := AnswerWait(q.id)]
  {
    RunKeeps(env, events);
    FreshIds(env, Run(env, events));
    RunAppend(env, events, Played(Run(env, events).answer.value.id, true));
    hide Run, Good, Settle;
  }
}
