/** What each event of a call comes to, whatever has happened before it. */
module CallConsequences {
  import opened Options
  import opened CallFlow
  import opened CallEngine
  import opened CallInvariants
  import opened CallMeaning
  import opened CallSegments
  import opened CallProgress
  import opened CallEvents
  import opened CallTheorems
  import opened CallWalk
  import opened CallFollows
  import CallTransfers
  import Text

  lemma Reached(env: Env, events: seq<Event>)
    ensures Good(env, Run(env, events)) && Placed(env, Run(env, events))
  {
    RunKeeps(env, events);
    RunPlaced(env, events);
  }

  // ---- At a menu ----

  lemma KeyIsKnown(key: MenuKey)
    ensures IsKey(key) <==> IsMenuKey(key)
  {
  }

  /**
   * A key pressed at an open menu is taken for that key: when the menu offers it, the flow goes
   * where the first edge from that menu's output for it leads.
   */
  lemma KeyDecides(env: Env, events: seq<Event>, key: MenuKey)
    requires Run(env, events).menu.Some?
    ensures
      var s, s' := Run(env, events), Run(env, events + [Keypad(key)]);
      if IsKey(key) then Chosen(env, Seen(s), s.menu.value, key, s') else s' == s
  {
    var s := Run(env, events);
    Reached(env, events);
    RunAppend(env, events, Keypad(key));
    KeyIsKnown(key);
    MenuIsReady(env, s);
    ChooseMeans(env, s, key);
    hide Run, Good, Placed, AtMenu, Chosen, Choose, IsKey, IsMenuKey, Settle, FinishVoicemail, StartTransfer,
      PressZeroTarget;
  }

  /** So an offered key whose output is connected goes there, as long as there are steps left. */
  lemma KeyLeads(env: Env, events: seq<Event>, key: MenuKey, node: FlowNode)
    requires Run(env, events).menu.Some? && IsKey(key) && |Run(env, events).log.visited| < 60
    requires
      var menu := Run(env, events).menu.value;
      Offers(menu, key) && LeadsTo(env.graph, menu.node.id, Some(OutputOf(key)), node)
    ensures
      var taken, taken' := Run(env, events).log.visited, Run(env, events + [Keypad(key)]).log.visited;
      taken < taken' && taken'[|taken|] == node
  {
    hide Run, LeadsTo, Leaves, TakenAtOnce, IsKey, Offers, OutputOf;
    KeyDecides(env, events, key);
    var s, s' := Run(env, events), Run(env, events + [Keypad(key)]);
    assert s'.log.visited[|s.log.visited|..][0] == s'.log.visited[|s.log.visited|];
  }

  /** An utterance at a menu is taken for the key it is matched to, or the menu is asked again. */
  lemma WordsDecide(env: Env, events: seq<Event>, text: string)
    requires Run(env, events).menu.Some?
    ensures
      var s, s' := Run(env, events), Run(env, events + [CallerSpeech(text)]);
      var key := env.matchMenuChoice(s.menu.value.node.options, Text.Trim(text));
      if Text.Trim(text) == "" then s' == s
      else if key.Some? then Chosen(env, Seen(s), s.menu.value, key.value, s')
      else AskedAgain(env, Seen(s), s.menu.value, s')
  {
    var s := Run(env, events);
    Reached(env, events);
    RunAppend(env, events, CallerSpeech(text));
    MenuIsReady(env, s);
    RetryMeans(env, s);
    var key := env.matchMenuChoice(s.menu.value.node.options, Text.Trim(text));
    if key.Some? { ChooseMeans(env, s, key.value); }
    SpeechAtMenu(env, s, text);
    hide Run, Good, Placed, AtMenu, Chosen, AskedAgain, Choose, RetryMenu, OnCallerSpeech, Text.Trim, Seen, NewIds,
      Step;
    StepSpeaks(env, s, text);
  }

  lemma SpeechAtMenu(env: Env, s: Call, text: string)
    requires s.menu.Some? && s.answer.None? && s.voicemail.None? && !s.inPreamble && !s.ending
    ensures
      var key := env.matchMenuChoice(s.menu.value.node.options, Text.Trim(text));
      OnCallerSpeech(env, s, text) ==
      if Text.Trim(text) == "" then s
      else if key.Some? then Choose(env, s, key.value) else RetryMenu(env, s)
  {
    hide Choose, RetryMenu, Text.Trim;
  }

  /** When the wait at a menu runs out, the menu is asked again, as long as it may be. */
  lemma SilenceDecides(env: Env, events: seq<Event>, id: Id)
    requires id in Run(env, events).timers && Run(env, events).timers[id].MenuWait?
    ensures
      var s, s' := Run(env, events), Run(env, events + [TimerFires(id)]);
      s.menu.Some? && AskedAgain(env, Seen(s), s.menu.value, s')
  {
    var s := Run(env, events);
    var s1 := s.(timers := s.timers - {id});
    Reached(env, events);
    RunAppend(env, events, TimerFires(id));
    TimersAreCurrent(env, events, id);
    MenuIsReady(env, s);
    assert AtMenu(s1) && Seen(s1) == Seen(s);
    StepFires(env, s, id);
    RetryMeans(env, s1);
    hide Run, Good, Placed, AtMenu, AskedAgain, RetryMenu, Step, Seen, NewIds, OwnTimer;
  }

  // ---- Work of the flow ----

  lemma Retired(env: Env, s: Call, i: Id)
    requires i in s.tasks && NewIds(s)
    ensures Seen(Retire(s, i)) == SeenWithout(s, i) && NewIds(Retire(s, i)) && Retire(s, i).menu == s.menu
  {
  }

  lemma ReadyWhenDone(env: Env, s: Call, i: Id)
    requires Good(env, s) && Placed(env, s) && i in s.tasks && Stepping(s.tasks[i]) && !s.ending
    ensures Ready(Retire(s, i)) && Seen(Retire(s, i)) == SeenWithout(s, i)
  {
    var s1, t := Retire(s, i), s.tasks[i];
    CountedAndNew(env, s);
    Retired(env, s, i);
    RetireKeeps(env, s, i);
    AloneInHand(env, s1, t);
    HandPutDown(env, s1, t);
    hide Good, Placed, Sound, Holders, Free, Retire;
    CallTransfers.NotTransferring(env, s1, FromMenu);
    RetiredFields(s, i);
  }

  lemma RetiredFields(s: Call, i: Id)
    ensures
      var s1 := Retire(s, i);
      s1.ending == s.ending && s1.log == s.log && s1.stepCount == s.stepCount && s1.menu == s.menu
  {
  }

  lemma PauseMeans(env: Env, s: Call, t: Task, r: Result)
    requires Ready(s) && t.StepPause?
    ensures GoesOn(env, Seen(s), t, r.ok, Resume(env, s, t, r))
  {
    var s1 := Texted(s, t.texting && r.ok);
    TextedSeen(s, t.texting && r.ok);
    PauseState(env, s, t, r);
    hide Seen, Resume, Enter, NextNode, Follows, Ready, Texted, GoesOn;
    EnterFollows(env, s1, t.node, None);
    PauseGoesOn(env, Seen(s), t, r.ok, Resume(env, s, t, r));
  }

  lemma PauseGoesOn(env: Env, s: Scene, t: Task, ok: bool, s': Call)
    requires t.StepPause?
    requires
      var texts := s.stands.textsSent + if t.texting && ok then 1 else 0;
      Follows(env, s.(stands := s.stands.(textsSent := texts)), t.node, None, s')
    ensures GoesOn(env, s, t, ok, s')
  {
    hide Follows;
  }

  lemma TextedSeen(s: Call, ok: bool)
    ensures
      var b := Seen(s);
      && Seen(Texted(s, ok)) == b.(stands := b.stands.(textsSent := b.stands.textsSent + if ok then 1 else 0))
      && (Ready(s) ==> Ready(Texted(s, ok))) && (NewIds(s) ==> NewIds(Texted(s, ok)))
  {
  }

  /** Going to the step an output leads to, if any. */
  lemma EnterFollows(env: Env, s: Call, node: FlowNode, handle: Option<string>)
    requires Ready(s)
    ensures Follows(env, Seen(s), node, handle, Enter(env, s, NextNode(env.graph, node.id, handle)))
  {
    NextIsLedTo(env, node, handle);
    EnterMeans(env, s, NextNode(env.graph, node.id, handle));
    hide Seen, Enter, NextNode, LeadsTo, Walks, Ready, FindNode;
  }

  lemma DoneTransferMeans(env: Env, s: Call, t: Task, r: Result)
    requires Ready(s) && t.TransferDone? && OwnsFlow(t.origin) && !s.aiActive
    ensures GoesOn(env, Seen(s), t, r.ok, Resume(env, s, t, r))
  {
    EndCallMeans(env, s, false);
    if t.origin.FromStep? { EnterFollows(env, s, t.origin.node, Some("no_answer")); }
    hide Seen, Enter, NextNode, Follows, Ready, EndCall, GoodbyeBegins;
  }

  lemma SavedMeans(env: Env, s: Call, t: Task, r: Result)
    requires Ready(s) && (t.SavingVoicemail? || t.VoicemailNotice?)
    ensures GoesOn(env, Seen(s), t, r.ok, Resume(env, s, t, r))
  {
    SpawnAdds(s, VoicemailNotice(t.node));
    FollowMeans(env, s, t.node, None);
    SeenParts();
    hide Seen, Spawn, FollowOrEnd, Adds, Follows;
  }

  lemma NoticeMeans(env: Env, s: Call, r: Result)
    requires Ready(s.(inPreamble := false))
    ensures GoesOn(env, Seen(s), Preamble, r.ok, Resume(env, s, Preamble, r))
  {
    var s1 := s.(inPreamble := false);
    NoticeSeen(s);
    assert NewIds(s1.(failed := true)) && !s.ending;
    StartIsFound(env.graph);
    var start := FindStart(env.graph.nodes);
    hide Seen, Enter, EndCall, Walks, GoodbyeBegins, StartsAt, Ready, NewIds, FindNode;
    if start.Some? {
      EnterMeans(env, s1, Some(start.value.id));
    } else {
      EndCallMeans(env, s1.(failed := true), false);
    }
  }

  lemma NoticeSeen(s: Call)
    ensures
      var s1, b := s.(inPreamble := false), Seen(s);
      var b1 := b.(stands := b.stands.(inPreamble := false));
      Seen(s1) == b1 && Seen(s1.(failed := true)) == b1.(stands := b1.stands.(failed := true))
  {
  }

  lemma StartIsFound(graph: FlowGraph)
    ensures
      var start := FindStart(graph.nodes);
      && (start.None? <==> NoStart(graph))
      && (forall n :: StartsAt(graph, n) ==> start.Some? && FindNode(graph.nodes, start.value.id) == Some(n))
  {
    var nodes := graph.nodes;
    forall n | StartsAt(graph, n)
      ensures FindStart(nodes).Some? && FindNode(nodes, FindStart(nodes).value.id) == Some(n)
    {
      var k, m :|
        && 0 <= k < |nodes| && nodes[k].kind == Start && (forall j :: 0 <= j < k ==> nodes[j].kind != Start)
        && FirstWith(nodes, nodes[k].id, m) && nodes[m] == n;
      FirstStartIsFound(nodes, k);
      NodeIsFirst(nodes, nodes[k].id);
    }
  }

  lemma ReadyAfterNotice(env: Env, s: Call, i: Id)
    requires Good(env, s) && Placed(env, s) && i in s.tasks && s.tasks[i].Preamble? && !s.ending
    ensures Ready(Retire(s, i).(inPreamble := false))
  {
    var s1 := Retire(s, i);
    CountedAndNew(env, s);
    Retired(env, s, i);
    RetireKeeps(env, s, i);
    AloneInHand(env, s1, Preamble);
    NoticeOver(env, s1);
    hide Good, Placed, Sound, Holders, Free, Retire;
    CallTransfers.NotTransferring(env, s1.(inPreamble := false), FromMenu);
    RetiredFields(s, i);
  }

  lemma NoAssistant(env: Env, s: Call, i: Id)
    requires Good(env, s) && i in s.tasks && Stepping(s.tasks[i])
    ensures !Retire(s, i).aiActive
  {
    RetireKeeps(env, s, i);
    hide Good, Sound, Retire;
    AssistantAbsent(env, Retire(s, i), s.tasks[i]);
  }

  lemma AssistantWaits(env: Env, s: Call, i: Id)
    requires Good(env, s) && i in s.tasks && s.tasks[i].TransferDone? && s.tasks[i].origin.FromAssistant?
    ensures Retire(s, i).aiActive
  {
    RetireKeeps(env, s, i);
    hide Good, Sound, Retire;
    CallTransfers.HandOk(env, Retire(s, i), s.tasks[i]);
  }

  lemma AssistantGoesOn(env: Env, s: Call, t: Task, r: Result)
    requires s.aiActive && t.TransferDone? && t.origin.FromAssistant?
    ensures GoesOn(env, Seen(s), t, r.ok, Resume(env, s, t, r))
  {
    hide Seen, Enter, EndCall;
  }

  /** The call goes on when the work of a step is done: where that step's output leads. */
  lemma StepsGoOn(env: Env, events: seq<Event>, id: Id, r: Result)
    requires id in Run(env, events).tasks && Flowing(Run(env, events).tasks[id]) && !Run(env, events).ending
    ensures
      var s := Run(env, events);
      GoesOn(env, SeenWithout(s, id), s.tasks[id], r.ok, Run(env, events + [Resumes(id, r)]))
  {
    var s := Run(env, events);
    var t, s1 := s.tasks[id], Retire(s, id);
    Reached(env, events);
    RunAppend(env, events, Resumes(id, r));
    StepResumes(env, s, id, r);
    CountedAndNew(env, s);
    Retired(env, s, id);
    hide Run, Step, Good, Placed, Resume, GoesOn, Retire, Ready, Seen, SeenWithout;
    if t.Preamble? {
      ReadyAfterNotice(env, s, id);
      NoticeMeans(env, s1, r);
    } else if t.TransferDone? && t.origin.FromAssistant? {
      AssistantWaits(env, s, id);
      AssistantGoesOn(env, s1, t, r);
    } else {
      ReadyWhenDone(env, s, id);
      if t.StepPause? { PauseMeans(env, s1, t, r); }
      else if t.TransferDone? {
        NoAssistant(env, s, id);
        DoneTransferMeans(env, s1, t, r);
      } else {
        SavedMeans(env, s1, t, r);
      }
    }
  }
}
