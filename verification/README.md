# Verification of the voice agent and its neighbours

A Dafny model of the hard cores of this repository, and proofs about it. `dafny verify dfyconfig.toml` checks all of it.

**The call engine** (`CallFlow`, `CallEngine`, `CallController`). The voice agent's controller walks a published,
possibly cyclic call graph while keys, speech, timers, playouts, dial results, tool calls and disposal arrive in any
order. `CallEngine` is that controller as a state machine on values: one function per stretch of code between two
awaits; what an await leaves behind is a pending task that any later event may resume. `CallController.Controller` is
the object with its fields, updated in place; each method is proved to do what the machine does. `CallInvariants` says
what holds between any two events, counting pending work by kind; `CallFrames`, `CallSegments`, `CallWaiting`,
`CallTransfers`, `CallSteps`, `CallProgress` and `CallEvents` prove that every stretch keeps it; `CallTheorems`,
`CallWalk`, `CallOutcomes`, `CallEndings` and `CallTermination` state what follows on every run. `CallMeaning` says
what each event should come to, in terms of the graph and of what can be seen before and after it, without the
machine's operations; `CallFollows`, `CallConsequences`, `CallExchanges` and `CallInputs` prove that it does, in every
reachable state.

**The call recording** (`CallRecording`), a race of one start against a timeout and a stop.
**The marketing journey** (`JourneyWorkflow`), a durable walk over any graph.
**Configuration loading and log saving** (`RuntimeConfig`), a cache that follows the history of App's answers.
**The pronunciation stream** (`Pronunciation`), a chunked form of a whole-text replacement.
**The POS organization lookup** (`PosLookup`), a bounded cache with a limiter, and a capped reader.
**Call start and phone numbers** (`CallStart`, `PhoneNumbers`), and which numbers can ever be dialed.

## What does not hold, and exactly when it does

- "No recording is started after stop" fails when stop() comes after start() but before the microtask that asks the
  egress service (`CallRecording.StopDoesNotAlwaysPreventStart`); it holds otherwise
  (`CallRecording.AskedAfterStopExactlyWhen`). Such an egress is stopped as soon as it has started.
- "Staff who answered are never left alone" fails when staff have answered, the hold message ends while a goodbye is
  under way, and the session closes before that goodbye's grace is over, whether they answered during the goodbye
  (`CallEndings.StaffCanBeStranded`) or before it (`CallEndings.StaffWhoAnsweredFirstCanBeStranded`);
  `CallEndings.StaffIsAbandonedExactlyWhen` says, over the events of the run, that it fails then and only then.
- "Text is held until a phrase boundary to keep multi-word terms whole" (`apps/voice-agent/src/speech.ts:38-41`) fails
  for every term that itself contains punctuation followed by white space (`Pronunciation.SplitTermIsLost`), and, by
  the 300-character rule, for every term with a plain space at the end of a long text without such punctuation
  (`Pronunciation.LongPhraseLosesTerm`, `Pronunciation.LongPhraseExample`). `Pronunciation.StreamRefinesExactlyWhen`
  says for each text and chunking when it holds, `Pronunciation.StreamKeepsTermsExactlyWhen` for which terms it holds
  on all of them.
- "A journey begins with its start node" fails when nodes share an id (`JourneyWorkflow.TriggerCanBeShadowed`);
  `JourneyWorkflow.StartNodeIsVisitedExactlyWhen` says when it holds.

## Model

| member | source | states |
|---|---|---|
| CallEvents.RunKeeps | apps/voice-agent/src/controller.ts:650-829 | every state reachable by any events in any order satisfies the whole invariant (who drives, transfers, ends; timers; prompts; counts; voicemails) |
| CallEvents.StepKeeps | apps/voice-agent/src/controller.ts:389-445 | every single event keeps that invariant, whatever it interrupts |
| CallEvents.NewCallIsGood | apps/voice-agent/src/controller.ts:200-217 | a fresh controller satisfies the invariant |
| CallTheorems.OneDriver | apps/voice-agent/src/controller.ts:650-829 | at any moment at most one holder drives the flow: a pending step, the open menu, the live voicemail, the assistant, or a transfer the menu waits for |
| CallTheorems.SomebodyDrives | apps/voice-agent/src/controller.ts:620-707 | from its start until it is ending, a call always has such a holder |
| CallTheorems.TimersAreCurrent | apps/voice-agent/src/controller.ts:389-412 | every running timer is the current one of the menu, voicemail or question open now; after dispose only a call limit can be left |
| CallTheorems.TokensNameMenus | apps/voice-agent/src/controller.ts:709-729 | a menu token seen again at any later time still means the same visit to the same menu, so an old playout callback never arms a newer menu |
| CallTheorems.OneTransfer | apps/voice-agent/src/controller.ts:1195-1207 | two pieces of transfer work are the same piece, and exist only while a transfer is under way |
| CallTheorems.EndsOnce | apps/voice-agent/src/controller.ts:1195-1272 | goodbyes and connected transfers together happen at most once per call; so do goodbyes and leaveRoom; the room is closed at most once per goodbye |
| CallTheorems.WalkIsBounded | apps/voice-agent/src/controller.ts:650-776 | at most 60 steps take effect and at most 60 * (1 + MAX_MENU_REPEATS) menu prompts are opened, on any graph |
| CallTheorems.QuestionsAreSettledOnce | apps/voice-agent/src/controller.ts:1325-1356 | questions asked equal questions settled plus the one still open; none is open after dispose; an open one is playing or timed |
| CallTheorems.DialedNumbersAreSafe | apps/voice-agent/src/controller.ts:1119-1128 | with the worker's dial rule, every number the controller ever hands to the dialer is a US or Canada number that is none of the agent's lines |
| CallTheorems.RunMoves | apps/voice-agent/src/controller.ts:650-945 | along any run the call never un-ends, counters never fall, and what a voicemail has heard only grows |
| CallWalk.StepsFollowTheGraph | apps/voice-agent/src/controller.ts:650-707 | the steps taken form a path of the graph from its start step, each by an output the step really has in its situation (hours, offered key, no input, no answer), at most 60 of them |
| CallWalk.RunPlaced | apps/voice-agent/src/controller.ts:709-941 | pending work, the open menu and the voicemail always belong to the last step taken |
| CallOutcomes.MenuTurnsMakeProgress | apps/voice-agent/src/controller.ts:732-776 | whenever a visit to a menu ends, the call is ending, key 0 has started a transfer, or (steps left, repeats left) has become smaller in lexicographic order |
| CallOutcomes.NothingSaidIsLost | apps/voice-agent/src/controller.ts:863-945 | any utterance said to a live voicemail is, after any further events, dispose and flush, part of the one message offered for it, in order; it arrives whole exactly when all said up to it joins to at most 1000 characters, the whole message exactly when all of it does |
| CallOutcomes.MessagesAreFaithful | apps/voice-agent/src/controller.ts:894-920 | each offered message is all its voicemail heard, joined in order and cut to 1000 characters; no voicemail is offered twice |
| CallOutcomes.UtteranceIsHeard | apps/voice-agent/src/controller.ts:812-827 | a live voicemail accepts every non-empty utterance at its end, listening or not |
| CallOutcomes.InputReachesOnePlace | apps/voice-agent/src/controller.ts:779-836 | one key press or utterance changes at most one of: the open question, the voicemail, the menu visit |
| CallOutcomes.VoicemailIsNotReplaced | apps/voice-agent/src/controller.ts:863-932 | in any one event a live voicemail keeps its identity and what it heard, or is finished with; it never gives way to another |
| CallOutcomes.ReplacedMenuIsLeft | apps/voice-agent/src/controller.ts:709-776 | a menu visit that gives way to another has had its turn, and no timer waits for it any more |
| CallEndings.CallsNeverHang | apps/voice-agent/src/controller.ts:620-1418 | from start to dispose something is always pending that moves the call on; what is open is waited for by its own timer or prompt, or, at a menu, by a caller who is still making a sound |
| CallTermination.LeftAloneItEnds | apps/voice-agent/src/controller.ts:620-1418 | after any run, with nobody interfering, only a known number of timers, awaits and playouts can still come; and once none can, the caller was hung up on or handed over, unless the call is not ending because the assistant has the flow or the caller is still speaking at a menu |
| CallTermination.WholeCallEnds | apps/voice-agent/src/controller.ts:415-1418 | from its first moment, with the limit set at any time after that, a call left alone takes at most 742 events, on any graph |
| CallTermination.LimitedCallEnds | apps/voice-agent/src/controller.ts:415-1418 | the same when the limit is set before the call begins |
| CallEndings.StaffIsLookedAfter | apps/voice-agent/src/controller.ts:1212-1272 | staff answers at most once and the recording stops then; at rest, each answer was followed by leaving, by closing the room, or by a hold that ended in a goodbye, and every grace period that ran out closed the room |
| CallEndings.StaffIsAbandonedExactlyWhen | apps/voice-agent/src/controller.ts:1235-1272 | at rest, staff who answered were neither left with the caller nor had the room closed exactly when, in the order of events, the hold message for staff who had answered ended while a goodbye was under way, and the session closed before that goodbye came to the end of its grace |
| CallEndings.LedgerOfDeeds | apps/voice-agent/src/controller.ts:1240-1418 | the counters used for this agree with the events: a hold that ended in a goodbye, the end of a grace period and the closing of the session are recorded exactly when they happened |
| CallEndings.StaffCanBeStranded | apps/voice-agent/src/controller.ts:1240-1248 | a concrete call in which staff answers during a goodbye and the agent neither leaves nor closes the room |
| CallEndings.StaffWhoAnsweredFirstCanBeStranded | apps/voice-agent/src/controller.ts:1235-1248 | the same for staff who answer before anything has ended the call, during their hold message |
| CallConsequences.KeyDecides | apps/voice-agent/src/controller.ts:752-809 | a key at an open menu, in every reachable state: offered, the flow goes where the first edge from that menu's output for that key leads, or the call ends when it leads nowhere; not offered, key 0 begins a transfer to the staff line if there is one to ring; any other key asks the menu again, at most three times, and then follows "no_input"; anything that is no key changes nothing |
| CallConsequences.KeyLeads | apps/voice-agent/src/controller.ts:752-776 | an offered key whose output is connected: that step is the next one taken, while steps are left |
| CallConsequences.WordsDecide | apps/voice-agent/src/controller.ts:812-836 | an utterance at a menu comes to what the key it is matched to comes to; one that is matched to none asks the menu again, an empty one changes nothing |
| CallConsequences.SilenceDecides | apps/voice-agent/src/controller.ts:719-750 | when a menu's wait runs out it is asked again while repeats are left, else its "no_input" output is followed |
| CallConsequences.StepsGoOn | apps/voice-agent/src/controller.ts:626-707 | when the notice, a message, a texted link, a saved voicemail or a transfer is done and the call goes on, the flow follows the output the graph gives for it: start and opening-hours steps are passed at once, and the step where that ends leaves its own work behind; the call ends there only when the output leads nowhere, when 60 steps were taken, or when that step ends it |
| CallExchanges.TransfersGoOn | apps/voice-agent/src/controller.ts:1208-1272 | what each stage of a transfer comes to: the text is owed exactly when the caller said yes, staff is rung at most once per allowed attempt and no more once the call is ending, an answer stops the recording, and the outcome told to whoever waits is connected, unavailable or ended as the source has it |
| CallExchanges.GoodbyesGoOn | apps/voice-agent/src/controller.ts:1367-1418 | rating, thanks, closing line, grace timer and hang-up follow each other; a closed session gets no grace timer |
| CallExchanges.GraceRunsOut | apps/voice-agent/src/controller.ts:1410-1418 | after the grace the room is closed |
| CallExchanges.LimitRunsOut | apps/voice-agent/src/controller.ts:414-421 | the call limit begins the goodbye without a survey, unless the call is ending already |
| CallExchanges.RepliesAreHeard | apps/voice-agent/src/controller.ts:1325-1365 | a key, an utterance, an assistant turn or silence settles the open question with exactly that reply |
| CallExchanges.OnlyRepliesCount | apps/voice-agent/src/controller.ts:779-818 | other input leaves an open question, and everything else, as it is |
| CallExchanges.AnswerIsWaitedFor | apps/voice-agent/src/controller.ts:1346-1354 | a question that has been read out waits under a timer of its own |
| CallInputs.KeysElsewhere | apps/voice-agent/src/controller.ts:779-803 | with neither menu nor question open, "#" ends a voicemail and key 0 rings the staff line for the assistant, if there is one to ring; every other key changes nothing |
| CallInputs.WordsElsewhere | apps/voice-agent/src/controller.ts:812-827 | with neither menu nor question open, words count only at a voicemail: they join what it heard and restart its silence if it listens |
| CallInputs.TransferToolRings | apps/voice-agent/src/controller.ts:1150-1165 | the assistant's transfer tool rings the line of that case exactly when it may, else nothing changes |
| CallInputs.EndToolEnds | apps/voice-agent/src/tools.ts:109-120 | the assistant's end_call tool begins the goodbye with a survey, and does nothing while a transfer is under way |
| CallInputs.VoicemailRunsOut | apps/voice-agent/src/controller.ts:863-932 | when its silence or longest time runs out a voicemail is taken: the first 1000 characters of all it heard are offered to be saved, or the caller hears that it was empty |
| CallInputs.MenuWaitsAfterPrompt | apps/voice-agent/src/controller.ts:709-724 | a played prompt starts the wait of the menu it belongs to and of no other |
| CallInputs.VoicemailListensAfterGreeting | apps/voice-agent/src/controller.ts:863-892 | a played greeting makes its own voicemail listen, under both its timers |
| CallInputs.SoundsStopTheWaits | apps/voice-agent/src/controller.ts:839-848 | a sound stops the waits of menu and voicemail, and no other timer |
| CallInputs.SilenceStartsTheWaits | apps/voice-agent/src/controller.ts:851-859 | its end starts the waits that do not run |
| CallInputs.CallsBeginOnce | apps/voice-agent/src/controller.ts:620-627 | a call begins once, with the notice |
| CallInputs.DisposeStopsAll | apps/voice-agent/src/controller.ts:427-448 | the end of the session stops every timer, closes the menu, answers the open question with null and keeps what the voicemail heard |
| CallInputs.FlushHandsOver | apps/voice-agent/src/controller.ts:942-945 | after that the first 1000 characters of what it heard are handed over, if it heard anything |
| CallInputs.LimitIsSet | apps/voice-agent/src/controller.ts:415-421 | one limit timer more |
| CallInputs.EndIsFinal | apps/voice-agent/src/controller.ts:650-651 | once the call is ending, finished work of the flow takes no step, opens no menu and begins no second goodbye |
| CallInputs.StraysAreIgnored | apps/voice-agent/src/controller.ts:389-402 | a timer that was cleared, work that is not pending, a playout or a turn nobody waits for changes nothing |
| CallController.Controller.constructor | apps/voice-agent/src/controller.ts:200-217 | starts in the initial state of the machine, which is valid |
| CallController.Controller.SetTimer | apps/voice-agent/src/controller.ts:389-406 | adds one timer under a new name |
| CallController.Controller.ClearTimer | apps/voice-agent/src/controller.ts:408-412 | forgets that timer and no other |
| CallController.Controller.StartCallLimit | apps/voice-agent/src/controller.ts:415-421 | sets the limit timer |
| CallController.Controller.Dispose | apps/voice-agent/src/controller.ts:427-448 | exactly the machine's dispose: flags, no timers, the question cancelled, the menu gone, the voicemail kept but quiet |
| CallController.Controller.StartAiAssistant | apps/voice-agent/src/controller.ts:577-616 | hands the flow to the assistant, or fails the call |
| CallController.Controller.Begin | apps/voice-agent/src/controller.ts:620-624 | starts once, with the notice playing |
| CallController.Controller.PreambleSpoken | apps/voice-agent/src/controller.ts:626-638 | after the notice: the start step, or a failed call |
| CallController.Controller.Fail | apps/voice-agent/src/controller.ts:640-644 | marks the call failed and ends it |
| CallController.Controller.Enter | apps/voice-agent/src/controller.ts:650-663 | the guards and the step counter |
| CallController.Controller.TakeStep | apps/voice-agent/src/controller.ts:664-705 | each kind of step does what the machine's step does |
| CallController.Controller.StepDone | apps/voice-agent/src/controller.ts:669-677 | after a message or a texted link, the step's only output |
| CallController.Controller.OpenMenu | apps/voice-agent/src/controller.ts:709-717 | a new visit with a new token, its prompt pending |
| CallController.Controller.ArmMenuTimer | apps/voice-agent/src/controller.ts:719-724 | replaces the menu's timer by a new one |
| CallController.Controller.LeaveMenu | apps/voice-agent/src/controller.ts:726-729 | closes the menu and its timer |
| CallController.Controller.RetryMenu | apps/voice-agent/src/controller.ts:732-750 | the next repeat, the no-input output, or the end |
| CallController.Controller.Choose | apps/voice-agent/src/controller.ts:752-776 | an offered key's output, key 0's transfer, or a retry |
| CallController.Controller.OnKeypad | apps/voice-agent/src/controller.ts:779-809 | who gets a key: the question, the voicemail, the assistant or the menu |
| CallController.Controller.OnCallerSpeech | apps/voice-agent/src/controller.ts:812-836 | who gets an utterance |
| CallController.Controller.OnCallerStartedSpeaking | apps/voice-agent/src/controller.ts:839-848 | pauses the waits of menu and voicemail |
| CallController.Controller.OnCallerStoppedSpeaking | apps/voice-agent/src/controller.ts:851-859 | restarts them |
| CallController.Controller.StartVoicemail | apps/voice-agent/src/controller.ts:863-885 | a new voicemail with its greeting pending |
| CallController.Controller.PromptPlayed | apps/voice-agent/src/controller.ts:714-716 | a played prompt arms only the menu or voicemail it belongs to |
| CallController.Controller.ArmVoicemailTimer | apps/voice-agent/src/controller.ts:887-892 | replaces the silence timer |
| CallController.Controller.TakeVoicemail | apps/voice-agent/src/controller.ts:894-901 | closes the voicemail and offers what it heard unless that is nothing |
| CallController.Controller.FinishVoicemail | apps/voice-agent/src/controller.ts:922-932 | takes the message and has it saved or says it is empty |
| CallController.Controller.FlushVoicemail | apps/voice-agent/src/controller.ts:942-945 | takes what an ended call left behind |
| CallController.Controller.TransferFromAssistant | apps/voice-agent/src/controller.ts:1150-1160 | the assistant's transfer with its refusals |
| CallController.Controller.StartTransfer | apps/voice-agent/src/controller.ts:1162-1165 | leaves the menu and begins a transfer |
| CallController.Controller.Transfer | apps/voice-agent/src/controller.ts:1195-1212 | the refusals, the flag, and the text offer |
| CallController.Controller.StartDialing | apps/voice-agent/src/controller.ts:1214-1224 | cold, warm and test calls |
| CallController.Controller.DialOrGiveUp | apps/voice-agent/src/controller.ts:1224-1234 | one dial attempt of the allowed ones, unless the call is ending |
| CallController.Controller.AfterDial | apps/voice-agent/src/controller.ts:1235-1237 | staff who answered stop the recording at once |
| CallController.Controller.PostDial | apps/voice-agent/src/controller.ts:1240-1268 | what follows the last attempt: ended, nobody answered, connected |
| CallController.Controller.TransferMoves | apps/voice-agent/src/controller.ts:1214-1253 | every continuation inside a transfer |
| CallController.Controller.Leave | apps/voice-agent/src/controller.ts:1262-1268 | the agent leaves after connecting, or the room is closed |
| CallController.Controller.Finish | apps/voice-agent/src/controller.ts:1269-1271 | the transfer flag is cleared and whoever waits is told |
| CallController.Controller.TransferEnded | apps/voice-agent/src/controller.ts:687-697 | what a finished transfer lets its origin do |
| CallController.Controller.Ask | apps/voice-agent/src/controller.ts:1325-1344 | cancels an open question and opens the new one |
| CallController.Controller.Settle | apps/voice-agent/src/controller.ts:1332-1345 | resolves the open question once and clears its timer |
| CallController.Controller.QuestionPlayed | apps/voice-agent/src/controller.ts:1346-1354 | starts the wait for the answer, or settles what could not be spoken |
| CallController.Controller.TakeSpokenAnswer | apps/voice-agent/src/controller.ts:1359-1365 | an assistant turn answers only an open question |
| CallController.Controller.AnswerSettled | apps/voice-agent/src/controller.ts:1208-1211 | who waited for the question goes on |
| CallController.Controller.EndCall | apps/voice-agent/src/controller.ts:1385-1408 | the goodbye sequence, once |
| CallController.Controller.GoodbyeMoves | apps/voice-agent/src/controller.ts:1398-1418 | rating, closing line, grace, hang-up |
| CallController.Controller.Handle | apps/voice-agent/src/controller.ts:389-1418 | one event does to the object exactly what the machine's step does, and keeps the invariant |
| CallRecording.EgressStopsOnce | apps/voice-agent/src/recording.ts:109-171 | in every order of start, launch, answer, timeout, return and stop: one request at most, and an egress that has started is stopped exactly once if and only if stop was called (an empty egress id counts as none) |
| CallRecording.KeyIsReportedOnce | apps/voice-agent/src/recording.ts:120-166 | the key is reported at most once, never without a started egress, and exactly once when it started and start() returned, as its result or late but not both |
| CallRecording.StartedIsStoppedAndReported | apps/voice-agent/src/recording.ts:121-168 | whatever else happens and in whatever order, from the first start() on: once the service has answered with an id, exactly that egress is stopped, once, if and only if stop() was called before or after the answer; its key is reported late exactly when the timeout came before the answer, else as the result of start() exactly when that has returned; the request was made after stop() exactly when stop() came before the launch |
| CallRecording.FailedIsNotReported | apps/voice-agent/src/recording.ts:142-161 | a request that fails reports no key and stops nothing; start() still returns |
| CallRecording.UnaskedIsNotReported | apps/voice-agent/src/recording.ts:130-148 | no client, or one that throws, comes to the same |
| CallRecording.NothingIsRecorded | apps/voice-agent/src/recording.ts:121-129 | when storage is not configured, or stop() comes first, nothing is ever requested |
| CallRecording.StartReturns | apps/voice-agent/src/recording.ts:152-162 | once the service answered or the timeout passed, start() can return |
| CallRecording.AskedAfterStopExactlyWhen | apps/voice-agent/src/recording.ts:121-133 | the service is asked after stop() exactly when stop() fell between start() and the microtask that asks |
| CallRecording.StopDoesNotAlwaysPreventStart | apps/voice-agent/src/recording.ts:130-133 | a run in which that happens |
| CallRecording.RunKeeps | apps/voice-agent/src/recording.ts:102-171 | the invariant behind these holds on every run |
| CallRecording.Recording.Start | apps/voice-agent/src/recording.ts:121-129 | answers null at once when called before or stopped, else leaves the launch pending |
| CallRecording.Recording.Launches | apps/voice-agent/src/recording.ts:130-134 | asks the service, or fails |
| CallRecording.Recording.Settles | apps/voice-agent/src/recording.ts:135-150 | keeps the id, stops it if stop came first, reports it if late |
| CallRecording.Recording.TimesOut | apps/voice-agent/src/recording.ts:152-158 | loses the race for the key |
| CallRecording.Recording.Returns | apps/voice-agent/src/recording.ts:159-163 | resolves with the winner of the race |
| CallRecording.Recording.Stop | apps/voice-agent/src/recording.ts:165-168 | marks stopped and stops what runs |
| CallRecording.Recording.StopEgress | apps/voice-agent/src/recording.ts:109-118 | one stop request at most |
| JourneyWorkflow.Run | apps/jobs-cron/src/marketing-journey-workflow.ts:59-355 | the path visited is a journey of this graph; the steps recorded are those of its nodes and then complete, fail or both; the run completes, with as many executed steps as nodes visited, exactly when no step was given up and the closing one succeeded |
| JourneyWorkflow.Walk | apps/jobs-cron/src/marketing-journey-workflow.ts:114-305 | the node loop ends, after a path that the graph and the recorded results allow, for the reason it reports |
| JourneyWorkflow.JourneyIsShort | apps/jobs-cron/src/marketing-journey-workflow.ts:116-127 | no node id is visited twice, so at most 500 and at most as many nodes as there are ids |
| JourneyWorkflow.JourneyFollowsEdges | apps/jobs-cron/src/marketing-journey-workflow.ts:258-299 | consecutive nodes are joined by an edge |
| JourneyWorkflow.BranchesAreFollowed | apps/jobs-cron/src/marketing-journey-workflow.ts:258-299 | after a condition recorded true a journey takes the first outgoing edge whose handle, in any case, is true, yes, 1 or success, after false that with false, no, 0 or failure; without such an edge, and after every other node, the first outgoing edge |
| JourneyWorkflow.EndsAreTrue | apps/jobs-cron/src/marketing-journey-workflow.ts:116-305 | a journey ends because its last node's step was given up, no edge leaves it or the one to take has no target, that target was visited, does not exist, or would be the 501st: each reason exactly then |
| JourneyWorkflow.StepsAreRecordedInOrder | apps/jobs-cron/src/marketing-journey-workflow.ts:131-256 | the durable steps of a journey are those of its nodes in order, under the names the source gives them |
| JourneyWorkflow.StepsAreNamedOnce | apps/jobs-cron/src/marketing-journey-workflow.ts:131-315 | no two steps of a run, closing ones included, have the same durable name |
| JourneyWorkflow.ReplayAgrees | apps/jobs-cron/src/marketing-journey-workflow.ts:119-305 | two runs whose first k steps were recorded alike visit the same first k + 1 nodes |
| JourneyWorkflow.JourneyIsDetermined | apps/jobs-cron/src/marketing-journey-workflow.ts:119-305 | path and reason to end are determined by the graph and the recorded results |
| JourneyWorkflow.StartNode | apps/jobs-cron/src/marketing-journey-workflow.ts:102-112 | the first trigger if there is one, else the first node no edge leads to, else the first node |
| JourneyWorkflow.StartNodeIsVisitedExactlyWhen | apps/jobs-cron/src/marketing-journey-workflow.ts:114-124 | another node is visited in place of the start node exactly when a node before the first trigger has its id; a start that is no trigger is always visited |
| JourneyWorkflow.TriggerCanBeShadowed | apps/jobs-cron/src/marketing-journey-workflow.ts:114-124 | a graph in which another node runs in the trigger's place |
| RuntimeConfig.Loader.Load | apps/voice-agent/src/services.ts:285-318 | a config or a passthrough is answered as it comes; a failure by the kept config or by itself, as KeptAnswersExactlyWhen says of everything App has said before; the store again holds, for every number, exactly what App's last decision left |
| RuntimeConfig.KeptAnswersExactlyWhen | apps/voice-agent/src/services.ts:209-222 | a failure is answered by a kept config exactly when it is no response, status 0 or status 500 and above, the number is not empty, and App's last decision about the number was that config, less than 24 hours before; every other failure is thrown |
| RuntimeConfig.StaleWasGiven | apps/voice-agent/src/services.ts:306-315 | a stale config was given by App for this number less than 24 hours before, with only failures that are no refusals since |
| RuntimeConfig.DecisionsEndTheFallback | apps/voice-agent/src/services.ts:289-305 | after a passthrough or a refusal nothing stale is served until App gives a config again |
| RuntimeConfig.LastDefinitive | apps/voice-agent/src/services.ts:270-275 | the last lookup of a number that App decided |
| RuntimeConfig.FinishCallWithRetry | apps/voice-agent/src/services.ts:236-267 | after no response, status 0, 429 or 500 and above it waits and tries again while delays are left, and stops at the first success or any other failure; it has slept exactly the delays before its last attempt; true exactly when an attempt succeeded |
| RuntimeConfig.WaitsAreBounded | apps/voice-agent/src/services.ts:224-267 | for any delays, the waits of any number of attempts add up to no more than all the delays, by default five seconds |
| Pronunciation.FindReleasePoint | apps/voice-agent/src/speech.ts:9-18 | the left-to-right scan finds the end of the last boundary, or the last space of a long text |
| Pronunciation.NothingIsLost | apps/voice-agent/src/speech.ts:63-77 | the pieces put out are consecutive and together exactly the input, for any chunking |
| Pronunciation.NoBoundaryIsHeld | apps/voice-agent/src/speech.ts:68-74 | after each chunk the held text contains no boundary |
| Pronunciation.LongestTermsAreReplaced | packages/phone-agent/src/speech.ts:14-37 | in a whole text the leftmost whole-word occurrences of terms are replaced, each of the longest term that occurs there, none overlapping, and nothing else is changed |
| Pronunciation.StreamRefinesExactlyWhen | apps/voice-agent/src/speech.ts:46-80 | for every text and every chunking, the pieces have the same terms replaced as the whole text exactly when none of them crosses the end of a piece; the voice then hears the whole text's spoken form |
| Pronunciation.StreamRefinesWholeText | apps/voice-agent/src/speech.ts:46-80 | that is so whatever the chunks when no term contains a boundary and, moreover, no term contains a plain space or every 301 characters of the text contain a boundary |
| Pronunciation.CutKeepsTermsExactlyWhen | packages/phone-agent/src/speech.ts:14-37 | a text cut after white space has the same terms replaced as the whole exactly when no replaced term crosses the cut |
| Pronunciation.StreamKeepsTermsExactlyWhen | apps/voice-agent/src/speech.ts:38-45 | all streams replace exactly the whole text's terms if and only if no term contains a boundary or a plain space; all streams of texts with a boundary in every 301 characters do if and only if no term contains a boundary |
| Pronunciation.LongPhraseLosesTerm | apps/voice-agent/src/speech.ts:8-18 | a term with a plain space at the end of a long text without a boundary is cut at its last space and not replaced |
| Pronunciation.LongPhraseExample | apps/voice-agent/src/speech.ts:8-18 | 300 letters and "New York" come out as two pieces, the second being "York", and the term is lost |
| Pronunciation.SplitTermIsLost | apps/voice-agent/src/speech.ts:5-18 | a term with a boundary inside is not replaced even when it is the whole text |
| Pronunciation.Transform.Put | apps/voice-agent/src/speech.ts:57-73 | everything put out so far is the spoken form of the released pieces, or, after a verbatim first chunk, every chunk unchanged |
| Pronunciation.Transform.Flush | apps/voice-agent/src/speech.ts:74-78 | the held rest is spoken last, and all that was put out is the whole text's spoken form whenever no replaced term crosses the end of a piece |
| PosLookup.Router.Begin | apps/tenant-api/workers/org-router.ts:571-579 | a hit is the control plane's last answer, within its time to live, never "unavailable" and never counted; every other lookup is counted at this moment, may ask exactly when it is let through, and is refused exactly when its address has used up its window |
| PosLookup.Router.LookupLimited | apps/tenant-api/workers/org-router.ts:559-569 | refuses exactly from the 31st lookup of a window on; counts every lookup; forgets all windows exactly when a new one would follow 5000 |
| PosLookup.Router.Answered | apps/tenant-api/workers/org-router.ts:579-584 | every answer but "unavailable" is remembered, "unavailable" forgets the organization, and a full cache of 500 forgets its oldest key, nothing else |
| PosLookup.Router.Remember | apps/tenant-api/workers/org-router.ts:551-556 | a full cache forgets the key put in first; the order of insertion is kept |
| PosLookup.LookupsPerMinute | apps/tenant-api/workers/org-router.ts:542-569 | whenever its lookups come, an address is let through at most 30 times in one window and at most 59 times in any 60 seconds |
| PosLookup.RefusedExactlyWhen | apps/tenant-api/workers/org-router.ts:559-569 | a lookup is refused exactly when the running window has already let 30 through |
| PosLookup.Router.LetThroughPerMinute | apps/tenant-api/workers/org-router.ts:542-579 | in every state of the router these bounds hold of the lookups it has let through since the last clear |
| PosLookup.FiftyNineAreReached | apps/tenant-api/workers/org-router.ts:542-569 | 59 within a minute do occur: one lookup opens a window, 29 come at its end and 30 at the start of the next |
| PosLookup.BeginCheck | apps/tenant-api/workers/org-router.ts:594-634 | a terminal is told 401 at once exactly when the cache still holds, within its time to live, the control plane's last word that there is nothing to serve; a used-up window answers 429 |
| PosLookup.FinishCheck | apps/tenant-api/workers/org-router.ts:594-634 | after the answer, 401 exactly when that answer says there is nothing to serve, 503 exactly when the control plane could not be asked |
| PosLookup.ReadCappedText | apps/tenant-api/workers/org-router.ts:187-220 | the text is the decoding of all chunks in order exactly when the body neither declares, nor has, more than the cap, nor fails; no more than the cap is ever kept |
| PosLookup.Assemble | apps/tenant-api/workers/org-router.ts:214-219 | the copied bytes are the chunks one behind the other |
| CallStart.HandOffIsSafe | apps/voice-agent/src/call-start.ts:149-170 | a number is handed on exactly when it is safe to dial; the result is its normal form and handing it on again changes nothing |
| CallStart.PrepareCall | apps/voice-agent/src/call-start.ts:195-335 | which plan a caller gets, exactly: agent plans mean the log was opened once and the caller is no agent line; blocked plans carry no number; planned numbers are safe and are the ones dialed |
| CallStart.LoopsAreRecognized | apps/voice-agent/src/call-start.ts:77-86 | a call counts as the agent's own exactly when caller and called number have one normal form that is an agent line |
| CallStart.RunFallbackCall | apps/voice-agent/src/call-start.ts:341-385 | dials only safe numbers, the planned one exactly; hangs up exactly when nothing was handed off |
| CallStart.RecoverFromOutage | apps/voice-agent/src/call-start.ts:395-424 | dials a safe number at most; hangs up exactly when nothing was handed off, and logs which |
| CallStart.OnlyNormalFormsMatter | apps/voice-agent/src/call-start.ts:149-170 | the hand-off depends only on the normal form of the number and on the set of normal forms of the lines |
| PhoneNumbers.SeparatorsDoNotMatter | apps/voice-agent/src/job-metadata.ts:50-72 | any separators that are neither letters nor digits, with or without a leading 1, give the same +1 form, under both normalizations unless the trimmed text is an international number already |
| PhoneNumbers.UsNumbersExactlyWhen | apps/voice-agent/src/job-metadata.ts:50-61 | a number in digits and separators has the +1 form exactly when its digits, without a leading 1 of eleven, are ten with area code and exchange from 2 to 9 on and no N11 area code |
| PhoneNumbers.SpokenNumbersNormalize | apps/voice-agent/src/job-metadata.ts:27-61 | digits spelled as words (zero, oh, o, one to nine) in any case, mixed with figures, with any separators around them, give that form too, as long as two words in a row are separated |
| PhoneNumbers.OtherWordsAreRefused | apps/voice-agent/src/job-metadata.ts:53-55 | a text with any other word of letters is no number |
| PhoneNumbers.InternationalIsKept | apps/voice-agent/src/job-metadata.ts:67-72 | a plus and 8 to 15 digits that begin with no 0 are kept but for white space around them; any other number must be North American |
| PhoneNumbers.NormalFormsAreFixed | apps/voice-agent/src/job-metadata.ts:50-72 | both normalizations are idempotent on their results |
| PhoneNumbers.DialedExactlyWhenSafe | apps/voice-agent/src/job-metadata.ts:95-104 | a number is not refused exactly when it is a US or Canada line, outside the listed Caribbean and premium area codes, and shares no agent line's normal form; refused as invalid exactly when it has no normal form, and as an agent line exactly when it has that of one |
| PhoneNumbers.AgentLineByNormalForm | apps/voice-agent/src/job-metadata.ts:79-104 | agent lines and refusals depend only on the normal form of the number and on the set of normal forms of the lines |
| CallFlow.FirstStartIsFound | packages/phone-agent/src/runtime.ts:11-16 | the flow starts at the first of its start steps |
| CallFlow.FirstEdgeIsFollowed | packages/phone-agent/src/runtime.ts:18-29 | an output leads to a step exactly when the first edge from that step and output targets it and it exists |
| Text.OnlySpaceIsTrimmed | apps/voice-agent/src/controller.ts:813 | trimming a caller's words takes the white space at both ends and nothing else |
| Text.WordsAreJoinedByBlanks | apps/voice-agent/src/controller.ts:900 | the parts of a message are joined by one blank each |
| Text.LettersAreLowered | apps/voice-agent/src/job-metadata.ts:53-54 | lower-casing turns A-Z into a-z, character by character |
| CallFlow.LeadsToIsFound | packages/phone-agent/src/runtime.ts:18-29 | the step an output leads to is the first with the id that the first edge from that output targets |

## Left out

- Speech, language models, SIP, egress and the durable workflow platform: each answer of theirs is a parameter of an event or a method.
- Durations: timers fire in any order; only the caches, the limiter and the retry delays compare times.
- `matchMenuChoice`, `resolveTransfer`, `parseYes` and `parseRating`: arbitrary functions of their inputs.
- CallEngine: texting a link and the follow-up after a missed transfer are one await each, with one result; exceptions
  thrown inside them, and inside the vertical's own hooks, are not modelled apart from the assistant failing to start.
- CallEngine: transcripts, menu choices shown to the assistant, languages and wording.
- CallTermination.LeftAloneItEnds: counts timers, awaits and playouts, not time; what the assistant itself does is not counted.
- CallEngine: `speaking` is added to the state to say that the caller is making a sound; the code never reads it.
- CallEngine: the cap of two texts is read where the code reads it, but overlapping sends are not counted.
- CallTheorems.DialedNumbersAreSafe: takes the worker's dial rule as the meaning of the controller's `canDial`.
- RuntimeConfig.Loader.Load: loads of one number follow each other, and the store never fails; the file-backed store is not modelled.
- PosLookup.LookupsPerMinute: takes a clock that does not go back; what was let through before a clearing of the window table is not added to what comes after it.
- PosLookup.ReadCappedText: the parsed content length, the stream's chunks and the text decoder are parameters.
- Characters outside the basic plane, such as emoji: a character of the model stands for one UTF-16 code unit, and the two halves of a surrogate pair are not among Dafny's characters.
- Pronunciation: case folding, letters and digits are parameters.
- PhoneNumbers: lower-casing is modelled as far as it can produce the letters a to z.
- JourneyWorkflow: HTTP calls, delay strings, retries inside a step and the parsing of the graph; a step's recorded result is a function of its name.
- CallStart: messages, languages, voices and the recomputation of opening hours; failures of hang-up and leave.
- HTTP, JSON and schema parsing, JWT and secret handling, user interfaces, migrations and seed scripts.
- Route dispatch, tenant registry, bridge and the simple caps of the call state: each is settled by reading one body.
