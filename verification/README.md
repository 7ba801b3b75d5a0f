# Verification of the bridge's protocols

The bridge runs Codex tasks on behalf of Feishu users. This project models the
parts of it where several goroutines, a database and two remote services have to
agree, and proves what they promise:

- **Run lifecycle** (`Tables`, `Lifecycle*`): the router, the runtime controller and
  the SQLite store as one step system. Every mutex region, SQL transaction, API call
  and channel operation is one atomic step, every goroutine has a program counter,
  and any of them may step at any time; API and store calls may fail, notifications
  may come twice, and the process may crash and restart anywhere.
  `TaskStore`, `Controller` and `Router` are the objects themselves, updated in
  place, each method proved to compute the functions those steps are made of.
- **Card delivery** (`Progress`, `Delivery*`): the progress coalescer with its flush
  worker, and the delivery of the result card, again as a step system; the queue is
  also a class.
- **Cards and streams** (`Cards`, `CardStream`, `Sender`): the sender with its
  CardKit fast path against a service whose calls fail at will.
- **Sequence numbers** (`Sequences`): the durable block allocator and its streams.
- **JSON-RPC** (`Rpc`, `RpcProofs`, `Client`): calls, read loop and shutdown racing on
  the pending table.
- **Fragments** (`Fragments`, `FragmentProofs`): WebSocket reassembly.
- **Streaming preview** (`Utf8`, `Preview`): bytes, lines and runes under repeated appends.

Main results are statements about every run: a run is a sequence of states linked by
steps from the start state, and the theorems hold of each of its states (the
predicate `At` says that a state is one of those). What a call or notification
achieves is stated from the action that starts its goroutine to the state in which
the goroutine is gone (`LifecycleCalls.Spans`), and where a run's status comes from
is read off the actions, not off the steps (`LifecycleCauses.PastOf`). `Lifecycle.IsRun`,
`Delivery.IsRun` and `Rpc.IsRun` define the runs; the `ReachableInv` lemmas carry
the invariants along them.

## How to read the model

- Identifiers are compared for equality only, so they are numbers; 0 is the empty
  string.
- History fields (who won the termination, which terminal statuses were committed,
  the log of a card's calls) are written by the steps and never read by them.
- A reply argument of a step (`Reply`, `Choice`, `Ready`, `Input`) is what the
  environment answers. The theorems hold for all answers. In methods, `*` plays that
  part, and `fault` names the statement at which the database driver fails.
- A method that changes an object ends with its whole new state; what that state
  is worth is proved by the lemmas on the function it equals.

Three properties one might expect are false of the code, and are stated as exact
conditions instead: `Tables.FinishRunKeepsConsistentIff` and `Tables.FinishRunGrowsIff`
(finishing a run that is no longer active), which the lifecycle proof then discharges
for every caller, and `FragmentProofs.HandedOnCompleteIffEmptyPartsOnce` (an empty
fragment sent twice), with `FragmentProofs.EmptyPartTwiceHandsOnTooEarly` as the
concrete input. A fourth, that the fallback text is a prefix of what was streamed, is
refuted by `Preview.FallbackMaySkipARune`; what holds instead is
`Preview.FallbackOnlyGrows`.

## Model

| member | source | states |
|---|---|---|
| LifecycleTheorems.TablesAlwaysAgree | internal/store/store.go:240-458 | in every reachable state of router, controller and store, through crashes and recovery, a task is queued or running exactly when one of its runs is, that run is the only one and the statuses agree |
| LifecycleTheorems.TerminationIsExactlyOnce | internal/runtime/controller.go:671-763 | however many finishers race, a run gets at most one commit, with the verdict of the winner, only the winner finalizes it, and it leaves the indexes only after that commit; what that verdict is, `LifecycleCauses` says |
| LifecycleTheorems.WonTerminationIsPursued | internal/runtime/controller.go:688-763 | while the controller is open, a won termination is in the hands of its winner until the run is unregistered |
| LifecycleTheorems.NoStopIsLost | internal/runtime/controller.go:333-375 | for any interleaving of Stop calls, launch and events, once no goroutine works on a run whose stop was requested, it is terminal, stored and out of the indexes (while the controller is open) |
| LifecycleTheorems.StopIsAlwaysCarried | internal/runtime/controller.go:433-524 | a requested stop is always in the hands of a goroutine bound to act on it; Interrupt is called at most once per run, by the goroutine that took the request |
| LifecycleCalls.EveryStopIsHeard | internal/runtime/controller.go:333-375 | a Stop call that has returned met a closed or unavailable controller or a task without a registered run, or found a run that was over by then, or the run it found has its stop requested; read off the action that started it, whatever the others did meanwhile |
| LifecycleCalls.AcceptedStopEndsItsRun | internal/runtime/controller.go:333-375 | no accepted stop is lost: a Stop call that met neither a refusal nor a finished run ends the run it found, once nobody works on it, with its end stored and its indexes cleared |
| LifecycleCauses.WinnerBringsItsStatus | internal/runtime/controller.go:433-524 | the status a run ends with, from the actions alone: that of the turn/completed notification, failed after the loss of the app-server, for a stop canceled unless Interrupt failed, for a launch canceled if it took the stop request (through Interrupt once its turn was started) or its call was canceled or failed after a stop request, else failed; Interrupt is called exactly by a goroutine that took the request |
| LifecycleCauses.EveryVerdictWasWon | internal/runtime/controller.go:671-694 | every terminal run was made so by one step of one goroutine of this process, whose verdict still stands |
| LifecycleCauses.CompletedTurnDecidesTheStatus | internal/runtime/controller.go:625-646 | when the goroutine of a turn/completed notification wins a run, the run ends with the status of the notification and is stored with it |
| LifecycleEvents.EveryStartedTurnIsTaken | internal/runtime/controller.go:588-597 | a turn/started notification that leads to a run gives it the turn and files it under the turn, unless the run is over by then |
| LifecycleEvents.EveryCompletedTurnEndsItsRun | internal/runtime/controller.go:625-646 | a turn/completed notification that leads to a run ends it |
| LifecycleEvents.EveryRegisteredRunIsFailed | internal/runtime/controller.go:237-247 | once `FailActiveRuns` has returned, every run registered when it began is over |
| LifecycleSteer.EverySteerIsAnswered | internal/runtime/controller.go:380-416 | a Steer call that has returned was refused for a reason it met, or the turn the app-server answered with was given to the run and filed for it |
| LifecycleStarts.ContinuationOpensItsThread | internal/runtime/controller.go:433-459 | from its admission to its launch, whatever happens in between, a continuation carries the thread of its task: the call that resumes it names that thread, which is not empty |
| LifecycleStarts.NewTaskOpensNoThread | internal/runtime/controller.go:433-446 | the run of a new task has no thread when its launch starts one |
| LifecycleStarts.NoRunStartsAfterALoss | internal/runtime/controller.go:304-312 | once the app-server is lost or the controller closed, no run is registered any more in this process |
| LifecycleTheorems.IndexesAreConsistent | internal/runtime/controller.go:947-1009 | registered runs are in byRun and byTask; after `unregister` only entries of superseded turn ids lead to a run, which is then terminal; thread and turn entries are filed under the run's thread |
| LifecycleTheorems.NothingIsResurrected | internal/store/store.go:386-458 | between any two states of a run: a run's status only moves queued, running, terminal; a task keeps its creator and never loses its thread; a dedup key stays taken |
| LifecycleTheorems.RestartIsSafe | internal/router/router.go:162-185 | `restart()` is invoked only while no task is queued or running and every run of this process has its end stored |
| LifecycleTheorems.EveryTaskCanResumeAfterACrash | internal/store/store.go:579-600 | after any crash and recovery nothing is active, and any task that ever had a thread is admitted for its creator with a fresh key and run id |
| LifecycleRows.StartedTaskCanResumeAfterACrash | internal/store/store.go:386-427 | a running run and its task have a thread stored; so after any crash and recovery the creator can continue the task |
| LifecycleRows.EndsAreStored | internal/store/store.go:429-458 | a finished run is stored with the thread and turn it ended with, and with exit code 0 exactly if it succeeded, else -1 |
| LifecycleRows.LaunchedRunIsRunning | internal/runtime/controller.go:433-524 | a live run whose launch is over is stored as running, on its thread and with a turn |
| LifecycleRows.FinishedRowsNeverChange | internal/store/store.go:429-458 | the row of a finished run never changes again, through crashes and recoveries |
| LifecycleRows.EveryTaskBelongsToItsCreator | internal/store/store.go:240-306 | the owner stored with a task is the user of the one action that created it, in every later state |
| LifecycleDedup.EventsFollowTheirRuns | internal/store/store.go:429-458 | an event is in progress exactly as long as the run it started is queued or running, and completed once this process finished that run |
| LifecycleLog.EveryRowHasOneAdmission | internal/store/store.go:240-384 | over histories with restarts every task and run was created by exactly one admission, no dedup key is admitted twice, and none restarts the service twice |
| LifecycleSteps.StepKeepsInv | internal/runtime/controller.go:280-524 | every step of every goroutine, the router, a crash and the recovery keeps the invariant behind these theorems |
| LifecycleInvariant.RunStepKeepsBargain | internal/runtime/controller.go:433-763 | what a goroutine may do to a run's record, by program counter: flags only rise, one winner, one taker, one commit |
| LifecycleSafety.UnregisterKeepsIndexes | internal/runtime/controller.go:997-1009 | `unregister` keeps the index invariant under interleaved `setThread` and `setTurn` |
| LifecycleSteps.EnqueueKeepsInv | internal/runtime/controller.go:280-331 | handing an admitted run over keeps the joint invariant of tables, records and indexes |
| LifecycleSteps.FailKeepsInv | internal/router/router.go:448-465 | the router's failing of a run it could not hand over finds the run still active, whatever the controller did meanwhile |
| Tables.FinishRunKeepsConsistentIff | internal/store/store.go:429-458 | `FinishRun` has no status guard: it keeps the tables consistent if and only if the run is active or its task is not |
| Tables.FinishRunGrowsIff | internal/store/store.go:429-458 | `FinishRun` moves the status forward if and only if the run is still active or already has that status |
| Tables.AdmitNewTaskKeepsConsistent | internal/store/store.go:240-275 | a new task and its run are admitted together, or not at all, from consistent tables to consistent tables |
| Tables.AdmitResumeKeepsConsistent | internal/store/store.go:328-384 | keeps consistency, and admits exactly for a fresh key and run id, the creator, a task with a thread and no active run |
| Tables.PartialIndexNeverFires | internal/store/schema.go:74-75 | from consistent tables the unique index on active runs never rejects a task that passed the status test |
| Tables.StartRunKeepsConsistent | internal/store/store.go:386-427 | keeps consistency and starts a run exactly when it is queued or running |
| Tables.StartRunGrows | internal/store/store.go:386-427 | `StartRun` never moves a status backwards |
| Tables.AttachThreadKeepsConsistent | internal/store/store.go:277-306 | attaching a desktop thread keeps the tables consistent |
| Tables.RecoverMakesConsistent | internal/store/store.go:579-600 | recovery makes any tables with intact foreign keys consistent and leaves nothing active or processing |
| Tables.RecoveredTaskCanResume | internal/store/store.go:328-384 | after recovery a task with a thread is admitted for its creator |
| Tables.NoTraceUnlessAdmitted | internal/store/store.go:610-636 | an admission that errs or replays leaves no trace, a refused one none in tasks and runs |
| Tables.AdmitNewTaskStores | internal/store/store.go:240-275 | the rows of an admitted task: queued under its creator without a thread, one queued run, its event in progress |
| Tables.AttachThreadStores | internal/store/store.go:277-306 | an attached task is idle under its creator with its thread, and can be continued at once |
| Tables.AdmitResumeStores | internal/store/store.go:328-384 | which refusal a continuation gets, in order, and what it leaves; an admitted one is queued on the thread of its task |
| Tables.StartRunStores | internal/store/store.go:386-427 | a started run and its task are running; a thread or turn that is given is stored in the run, the thread in its task too, an empty one leaves what was there; nothing else changes |
| Tables.FinishRunStores | internal/store/store.go:429-458 | the same for a finished run, with its status, exit code and event |
| Tables.RecoveryStores | internal/store/store.go:579-600 | recovery fails exactly the queued and running rows, with exit code -1, rejects the events in progress and changes nothing else |
| TaskStore.Store.AdmitNewTask | internal/store/store.go:240-275 | the statements in order, with rollback at any failing one, compute the transaction |
| TaskStore.Store.AttachThread | internal/store/store.go:277-306 | likewise |
| TaskStore.Store.AdmitRestart | internal/store/store.go:308-326 | likewise |
| TaskStore.Store.AdmitResumeRun | internal/store/store.go:328-384 | likewise, with the refusals that commit |
| TaskStore.Store.StartRun | internal/store/store.go:386-427 | likewise |
| TaskStore.Store.FinishRun | internal/store/store.go:429-458 | likewise, for run, task and dedup row together |
| TaskStore.Store.RecoverRunning | internal/store/store.go:579-600 | likewise, on all three tables |
| TaskStore.Store.HasActiveTask | internal/store/store.go:552-556 | true exactly when some task is queued or running |
| TaskStore.Store.ReserveCardStreamSequence | internal/store/card_stream_sequence.go:16-56 | computes the reservation, or fails without a trace |
| Controller.Controller.Register | internal/runtime/controller.go:304-326 | refuses when closed, unavailable or the task is taken; otherwise files the run under its run and task ids |
| Controller.Controller.SetThread | internal/runtime/controller.go:947-963 | sets and indexes the thread unless it is empty or the run terminal |
| Controller.Controller.SetTurn | internal/runtime/controller.go:965-984 | sets the turn and indexes it under the effective thread unless it is empty or the run terminal |
| Controller.Controller.ActiveFor | internal/runtime/controller.go:986-995 | finds the run by turn, else by thread whatever the turn |
| Controller.Controller.Unregister | internal/runtime/controller.go:997-1009 | removes the run's own entries and only those, comparing references |
| Controller.Controller.Stop | internal/runtime/controller.go:333-375 | which of its five ends a stop takes, and that it touches one run only |
| Controller.ActiveRun.MarkTerminal | internal/runtime/controller.go:1229-1237 | exactly the first call wins |
| Controller.ActiveRun.TakeStopRequest | internal/runtime/controller.go:1084-1092 | exactly one taker of a request |
| Controller.ActiveRun.RequestStop | internal/runtime/controller.go:1078-1082 | raises the request and changes nothing else |
| Controller.ActiveRun.Ids | internal/runtime/controller.go:1025-1033 | the run's own thread, or the one stored with its task |
| Controller.ActiveRun.PutThread | internal/runtime/controller.go:947-956 | the first region of `setThread`: no effect on a terminal run |
| Controller.ActiveRun.PutTurn | internal/runtime/controller.go:965-976 | the second region of `setTurn`: no effect on a terminal run |
| Controller.SetTurnIsItsRegions | internal/runtime/controller.go:965-984 | the three regions of `setTurn`, run in a row as steps of the system, do what the method does |
| Controller.SetThreadIsItsRegions | internal/runtime/controller.go:947-963 | the same for `setThread` |
| Controller.StopIsItsRegions | internal/runtime/controller.go:333-375 | the regions of `Stop`, run in a row as steps of the system, take the five ends the method names and leave the same record |
| Controller.UnregisterTakesOwnEntries | internal/runtime/controller.go:997-1009 | entry by entry, what `unregister` takes out of the four indexes and what it leaves |
| Router.Router.StartTask | internal/router/router.go:255-297 | ends refused without a trace, handed over and indexed, failed in the store, or, only if the store fails, left queued |
| Router.Router.ResumeTask | internal/router/router.go:307-355 | the same for a continuation; a refused event keeps its dedup row |
| Router.Router.HandleRestart | internal/router/router.go:162-185 | reaches `restart()` only with no active task and a dedup key that was free and is taken now |
| Router.Router.FailQueuedRun | internal/router/router.go:448-465 | fails the run or leaves everything as it was |
| Router.Router.Enqueue | internal/runtime/controller.go:280-331 | registers a fresh record exactly when the controller is open, available and the task free |
| Router.Router.HandOver | internal/router/router.go:291-296 | an admitted run ends with the controller, failed, or, only if the store fails, as it was |
| Router.Router.InsertRouteWithRetry | internal/router/router.go:467-480 | between one and the configured number of attempts, all of them before giving up |
| Router.FailedRunFreesItsTask | internal/router/router.go:351-353 | a continuation that could not be handed over leaves consistent tables, a finished event and a task its creator can continue |
| Router.StepsAdmit | internal/router/router.go:209-355 | the system admits a new task, a continuation and an attached thread as the store does, and keeps what it then hands over |
| Router.StepsHandOver | internal/router/router.go:291-296 | the system hands a run over, or fails it in its next step, as `HandOver` does |
| Router.StepsRestart | internal/router/router.go:162-185 | asked with nothing active and a fresh key, the restart is invoked when store and notifier work |
| DeliveryTheorems.OneWorkerFlushes | internal/runtime/controller.go:853-930 | at most one flush worker at any time; a pending presentation has one unless the run is over, canceled or the controller closed |
| DeliveryTheorems.NoWakeUpIsLost | internal/runtime/controller.go:880-899 | a worker asleep in front of a forced presentation has a wake-up waiting; wake-up, timer and cancellation each end its sleep |
| DeliveryTheorems.CanceledWorkerStops | internal/runtime/controller.go:866-901 | a canceled worker, or one of a finished run, stops and gives its place up |
| DeliveryTheorems.LatestWins | internal/runtime/controller.go:1145-1213 | every take takes what was offered last by then, and so does what is waiting: a retry never overwrites a newer one |
| DeliveryTheorems.NothingIsForgotten | internal/runtime/controller.go:853-930 | when no worker is left on a live run, what was offered last was taken last, was sent, and the call for it did not fail transiently |
| DeliveryTheorems.FailedUpdatesAreTakenAgain | internal/runtime/controller.go:1201-1213 | after an update was put back, a presentation waits with a worker for it until the next take, and that take takes the update that failed unless another was offered since |
| DeliveryTheorems.EveryTakeIsSeenThrough | internal/runtime/controller.go:866-930 | before the next take, what was taken was sent, the call ended, and a transient failure was put back |
| DeliveryTheorems.ProgressSendsTheLastTaken | internal/runtime/controller.go:903-921 | a progress call carries the presentation taken last |
| DeliveryTheorems.ResultComesLast | internal/runtime/controller.go:696-839 | no progress call follows a terminal call; at most `terminalRetryAttempts` + 2 terminal calls; one that creates a card is the last |
| DeliveryTheorems.CallsFollowTheirOutcomes | internal/runtime/controller.go:773-839 | each terminal call follows the outcome of the one before: the state is stored first, the first call patches if there is a card, a further one follows only a failure, and it creates a card exactly after a permanent one or when the attempts are used up |
| DeliveryTheorems.ResultIsPursued | internal/runtime/controller.go:696-839 | when the winner is done, the state was never stored, or the last call succeeded, or a new card was tried, or the controller closed |
| DeliveryTheorems.RateIsBounded | internal/runtime/controller.go:1175-1199 | in any window of length L at most L / interval + 1 takes plus the forced ones |
| DeliveryTheorems.ForcedTakesWereOffered | internal/runtime/controller.go:1145-1173 | a take is forced only by a forced offer since the take before |
| DeliveryTheorems.RetryTimeIsKept | internal/runtime/controller.go:1183-1188 | no unforced take before the last retry time |
| DeliveryTheorems.FailedUpdatesWait | internal/runtime/controller.go:903-930 | after a transient failure no unforced take happens until the retry delay since the failure is over |
| DeliveryProofs.StepKeepsInv | internal/runtime/controller.go:671-930 | every step of offerers, worker and finishers keeps the invariant behind these theorems |
| Progress.NewestIsTheLastOffered | internal/runtime/controller.go:1145-1213 | taking and putting back keep the newest presentation; an offer replaces it |
| Progress.ForcedOfferIsTakenAtOnce | internal/runtime/controller.go:1145-1173 | an accepted forced offer is taken at the next look; a coalesced one does not force |
| Progress.TakenExactlyWhenDue | internal/runtime/controller.go:1175-1199 | a pending presentation is taken if and only if forced or past retry time and interval, and waits end when one of them does |
| Progress.RetryPutsBack | internal/runtime/controller.go:1201-1213 | a live queue is dirty after a retry, with what waited or else the failed presentation, and waits until the retry time unless forced |
| Progress.OfferWaits | internal/runtime/controller.go:1145-1173 | what an accepted offer changes, and that it wakes the worker or asks for one |
| Progress.TakeRecords | internal/runtime/controller.go:1175-1199 | what a take hands out, records and clears |
| Progress.ProgressQueue.QueueProgress | internal/runtime/controller.go:1145-1173 | computes `Offer` |
| Progress.ProgressQueue.NextProgress | internal/runtime/controller.go:1175-1199 | computes `Next` |
| Progress.ProgressQueue.RetryProgress | internal/runtime/controller.go:1201-1213 | computes `Retry` |
| Progress.ProgressQueue.StopProgressWorker | internal/runtime/controller.go:1223-1227 | gives the worker's place up and nothing else |
| Progress.ProgressQueue.MarkTerminal | internal/runtime/controller.go:1229-1237 | exactly the first call wins |
| Cards.RunningCardDependsOnKeyAndDetail | internal/transport/feishu/sender.go:582-609 | streamed messages with equal keys render to the same card up to the detail element, and overwriting that element turns one into the other |
| Cards.RenderIsCardFor | internal/transport/feishu/sender.go:759-784 | the running card is a function of the key's fields and the detail |
| Cards.SetDetail | internal/transport/feishu/sender.go:255-278 | overwriting the detail element changes the detail and nothing else |
| Cards.RunningCardShowsItsParts | internal/transport/feishu/sender.go:759-784 | a running card shows stage and counts, activity, inputs and milestones if there are any, and its detail |
| Cards.CardOffersItsActions | internal/transport/feishu/sender.go:855-880 | every action can be taken from the card: the last follow-up in a form, the others as buttons |
| Sender.Sender.Send | internal/transport/feishu/sender.go:298-350 | for any sequence of sends and any failures: success leaves the card of a full patch and a stream that shows it (or is given up), failure that card or the old one; it fails only if something did, and never for refusals of streaming calls alone; no other card changes, a card already shown costs no call, and a change of detail no patch while the stream is up |
| Sender.Sender.StreamTaskProgress | internal/transport/feishu/sender.go:384-457 | the fast path agrees with full patching, through pause, resume and fallback; success leaves an active stream that shows the message unless it is given up, which needs a fault |
| Sender.Sender.UpdateDetail | internal/transport/feishu/sender.go:441-456 | the element update shows the new message, or falls back to a patch |
| Sender.Sender.WriteDetail | internal/transport/feishu/sender.go:441-456 | the element write shows the message exactly on success and changes no card otherwise; only a refusal of the service leads on to the patch |
| Sender.Sender.PatchTaskProgress | internal/transport/feishu/sender.go:459-466 | the stream remembers exactly the card that was patched in |
| Sender.Sender.PatchAndEnable | internal/transport/feishu/sender.go:400-413 | patch first, then streaming: with no fault the stream is active and shows the message; one that cannot be enabled is given up |
| Sender.Sender.EnableTaskStream | internal/transport/feishu/sender.go:468-485 | active exactly on success, with the remembered card shown |
| Sender.Sender.ResolveCard | internal/transport/feishu/sender.go:468-476 | the card id is asked for once and kept |
| Sender.Sender.PauseTaskStream | internal/transport/feishu/sender.go:487-500 | inactive and switched off at the service exactly on success |
| Sender.Sender.DisableTaskStreamForFallback | internal/transport/feishu/sender.go:502-508 | gives the stream up for good |
| Sender.Sender.StartTaskStream | internal/transport/feishu/sender.go:360-382 | a new card's stream remembers it, and is active exactly if nothing failed |
| Sender.Sender.CloseTaskStream | internal/transport/feishu/sender.go:510-524 | removes the stream, switches streaming off unless something fails, and leaves every card and every other stream alone |
| Sender.Sender.TaskStream | internal/transport/feishu/sender.go:526-538 | one stream object per message, made on first use |
| Sender.Sender.SendProgress | internal/transport/feishu/sender.go:306-309 | a progress card through its stream, keeping all streams valid |
| Sender.Sender.SendUpdate | internal/transport/feishu/sender.go:310-314 | any other update closes the stream first and then patches |
| Sender.Sender.SendNew | internal/transport/feishu/sender.go:316-350 | a new card, and its stream if it is one to stream into |
| Sender.Sender.PatchWithRetry | internal/transport/feishu/sender.go:615-643 | the card changes only on success, which is the last attempt; one attempt more than failures; transient failures use up exactly `maxRetries` + 1 attempts unless the context ends |
| Sender.Sender.SendWithRetry | internal/transport/feishu/sender.go:316-349 | the same for a new card |
| Sender.Sender.MaxRetries | internal/transport/feishu/sender.go:668-679 | the attempts asked for by the message, else by the sender, else the sender's retries, else 2 |
| Sender.Sender.FallBack | internal/transport/feishu/sender.go:502-508 | a stream given up is patched and remembers what it shows |
| Sender.Sender.NextTaskStreamSequence | internal/transport/feishu/sender.go:548-580 | hands out a number above all sent before for the message, as a `Take` of `Sequences` |
| CardStream.DetailReplaced | internal/transport/feishu/sender.go:441-456 | an element update on an active stream keeps what the stream remembers true |
| CardStream.CardReplaced | internal/transport/feishu/sender.go:459-466 | so does a full patch |
| CardStream.OtherStreamsStay | internal/transport/feishu/sender.go:526-538 | operations on one message leave the streams of all others valid |
| Sequences.ReservedBlockIsNew | internal/store/card_stream_sequence.go:16-56 | a reservation succeeds if and only if its arguments are in range and the block fits below 2147483647; the block is the first above everything reserved before and the minimum |
| Sequences.SequencesNeverRepeat | internal/transport/feishu/sender.go:548-580 | over all streams, restarts and clock values the numbers used for a message are pairwise distinct and in range |
| Sequences.SequencesIncrease | internal/transport/feishu/sender.go:548-580 | with the sends on a message serialised, its numbers strictly increase through restarts |
| Sequences.TakesANumberIff | internal/transport/feishu/sender.go:548-580 | when a stream gets a number and which: the next of its block, else the first of a new block if store, clock and range allow; else nothing changes |
| RpcProofs.CallsGetTheirOwnAnswer | internal/appserver/client.go:103-138 | a call returns exactly the message sent into its channel: a response has its id and was read from the server with this payload, a failure stays a failure; shutdown errors only after `done` closed; only a shutdown leaves an entry behind |
| RpcProofs.AnswerReachesItsCall | internal/appserver/client.go:346-358 | a message for a waiting call goes from the server through the table and the channel to the call, with its payload |
| RpcProofs.WaitEnds | internal/appserver/client.go:121-137 | how each of the three ends of a wait returns |
| RpcProofs.WriteEnds | internal/appserver/client.go:325-344 | how each outcome of the write ends the call: not encoded, closed, or failed through the shutdown |
| RpcProofs.ShutdownAdvances | internal/appserver/client.go:302-323 | the shutdown never blocks: some step always brings it nearer to its end |
| RpcProofs.ShutdownIsAwaitedOnceCalled | internal/appserver/client.go:265-344 | nobody waits for a shutdown that was not called; `Close` returns after its end and the reader's |
| RpcProofs.ChannelsNeverBlock | internal/appserver/client.go:346-374 | a response channel gets at most one message, so neither reader nor shutdown blocks on it |
| RpcProofs.NobodyWaitsForNothing | internal/appserver/client.go:302-374 | a waiting call is in the table, with the reader, in the sweep or answered; after shutdown only the reader can still owe it |
| RpcProofs.TableStaysEmpty | internal/appserver/client.go:366-374 | once the pending calls were failed, the table is empty in every later state |
| RpcProofs.StepKeepsInv | internal/appserver/client.go:103-374 | every step of callers, reader and shutdown keeps the invariant behind these theorems |
| Client.Client.Register | internal/appserver/client.go:103-113 | a fresh id and channel, unless `done` is closed: the first three steps of a call |
| Client.Client.DeliverResponse | internal/appserver/client.go:346-358 | the call under the key gets the message once, anything else is dropped |
| Client.Client.RemovePending | internal/appserver/client.go:360-364 | forgets one call and keeps the rest of the table |
| Client.Client.FailPending | internal/appserver/client.go:366-374 | every call in the table is failed once, no other channel is touched, the table is empty |
| Client.DeliveryIsTakeAndSend | internal/appserver/client.go:346-358 | the reader's two steps do what the method does |
| Client.SweepFailsAll | internal/appserver/client.go:366-374 | the sweep's steps, in any order, do what `FailPending` does |
| Fragments.Reassembler.CompleteFrame | internal/transport/feishu/ws_client.go:516-560 | expiry, placement and concatenation loops compute `Complete` |
| Fragments.Reassembler.Expire | internal/transport/feishu/ws_client.go:531-535 | deletes exactly the expired buffers |
| Fragments.Reassembler.Combine | internal/transport/feishu/ws_client.go:549-556 | concatenates the parts in order; the first loop gives the exact length |
| Fragments.ConcatKeepsOrder | internal/transport/feishu/ws_client.go:553-556 | every part lies in the payload right behind those before it |
| FragmentProofs.HandedOnWhenComplete | internal/transport/feishu/ws_client.go:536-560 | for any interleaving, order and repetition within the time to live, with no empty part twice, a message is handed on first exactly when its last missing part arrives, with its parts in order |
| FragmentProofs.HandedOnCompleteIffEmptyPartsOnce | internal/transport/feishu/ws_client.go:540-543 | a message handed on is complete if and only if no empty part of it came twice |
| FragmentProofs.EmptyPartTwiceHandsOnTooEarly | internal/transport/feishu/ws_client.go:540-543 | the concrete input: an empty first part sent twice completes a two-part message |
| FragmentProofs.TableHoldsTheRound | internal/transport/feishu/ws_client.go:536-547 | until then the table holds exactly the parts seen, whatever else arrives |
| FragmentProofs.OnlyFragmentsAreKept | internal/transport/feishu/ws_client.go:516-526 | a frame that is not split passes as it is, a malformed fragment is dropped, the table untouched |
| FragmentProofs.StaleRoundsAreForgotten | internal/transport/feishu/ws_client.go:531-547 | a buffer that expired or has another number of parts counts for nothing, and no other message changes |
| FragmentProofs.TallyCountsParts | internal/transport/feishu/ws_client.go:540-543 | the received counter is the number of parts seen if and only if no empty part came twice |
| Utf8.TrimTextPrefix | internal/runtime/presentation.go:285-298 | computes `TrimPrefix` rune by rune |
| Utf8.TrimPrefixOfValid | internal/runtime/presentation.go:285-298 | of valid UTF-8 it keeps the longest valid prefix within the limit, at most 3 bytes short |
| Utf8.FittingRunesAreValid | internal/runtime/presentation.go:291-297 | of any bytes a trimmed prefix is valid UTF-8 within the limit |
| Utf8.TrimPrefixOfAny | internal/runtime/presentation.go:291-297 | of any bytes over the limit it keeps the longest valid prefix of the text with invalid bytes replaced by U+FFFD |
| Utf8.RunesAreEncodings | internal/runtime/presentation.go:291-297 | what is read as a rune is the encoding of a code point by section 3 of RFC 3629, and `Utf8.EncodedIsRead` every such encoding is read back |
| Utf8.TrimTextSuffix | internal/runtime/presentation.go:300-309 | computes `TrimSuffix` |
| Utf8.TrimSuffixOfValid | internal/runtime/presentation.go:300-309 | of valid UTF-8 it keeps the longest valid suffix within the limit, at most 3 bytes short |
| Utf8.BoundariesAreRuneStarts | internal/runtime/presentation.go:305-307 | in valid UTF-8 a cut is valid if and only if it does not stand before a continuation byte |
| Preview.TrimTextTailLines | internal/runtime/presentation.go:311-326 | computes `TailLines` scanning backwards |
| Preview.TailLinesIsLongest | internal/runtime/presentation.go:311-326 | the result is the longest suffix with at most `limit` lines |
| Preview.RolledPreviewIsShort | internal/runtime/presentation.go:266-279 | a preview of at most 1800 bytes and 18 lines is kept whole; a rolled one is the marker and the end of the redacted text, at most 1205 bytes and 14 lines, and of valid UTF-8 as much of it as 1200 bytes and 12 lines hold |
| Preview.PreviewTailIsLongest | internal/runtime/presentation.go:276-279 | the end kept is the longest valid one within 12 lines and 1200 bytes |
| Preview.PreviewIsBounded | internal/runtime/presentation.go:266-279 | after any deltas and for any redaction at most 1800 bytes and 18 lines, and valid UTF-8 if redaction keeps it |
| Preview.FallbackIsBounded | internal/runtime/presentation.go:281-283 | never more than 8192 bytes, and all of the deltas until they exceed that |
| Preview.FallbackOnlyGrows | internal/runtime/presentation.go:281-283 | of valid deltas it stays valid, never loses what it has, and holds at least 8189 bytes once the deltas exceed 8192 |
| Preview.FallbackMaySkipARune | internal/runtime/presentation.go:281-283 | the concrete input for which it is no prefix of the deltas: a rune that does not fit is dropped and a shorter one after it kept |
| Preview.StreamedText.AppendProcessingDetail | internal/runtime/presentation.go:241-255 | updates preview and fallback unless the delta is blank or the run terminal, within the bounds |
| Preview.AppendBoundedUnique | internal/runtime/presentation.go:217-228 | computes `Bounded` |
| Preview.CollectedIsBoundedAndUnique | internal/runtime/presentation.go:217-228 | collected lists stay within the bound, without repetition, with nothing invented and the newest item always there |
| Preview.OldestIsDropped | internal/runtime/presentation.go:217-228 | a new item goes to the end and a full list loses its oldest |

## Left out

- Ambiguous failures: a failed commit or card call is taken to have had no effect. If it could take effect and still report an error, the joint store invariant and the skip of an unchanged detail would not hold.
- What an event affects: `activeFor` falls back to the thread whatever the turn, so no theorem says that an event reaches only the run that owns its turn id.
- Freshness of a presentation: progress is stated over presentations as offered to the queue; the snapshot is taken before the queue's lock.
- Cards of two runs that share a card: the terminal card is sent after `unregister`, so a following run may interleave; the order of cards is stated per run.
- Columns without influence on the protocols: prompts, final texts, timestamps, display labels, chat ids, message routes and the root message id. Sending a card, storing its id and inserting its route are one step of the router that may fail.
- Users, authorization, intent parsing, thread selection, approvals and the request loop: they add no state to these protocols.
- Steered inputs: `Steer` is modelled for its effect on turns and indexes, not for the text it appends.
- Real time: timers fire when they like; the clock of card delivery only has to be monotone, the clock that seeds sequence numbers may say anything.
- The infinite loops `flushProgress`, `eventLoop`, `readLoop` and the retry loops of `finalize` are steps of the systems and not methods; what they guarantee is stated over runs.
- Aliasing of fragment buffers: the parts slice is kept as a value in its buffer; the source never lets two buffers share one.
- Card JSON, labels, colours and icons: a header is kept as the values they are looked up with, a list as its items, and the body of a result or generic card whole; only the running card is modelled element by element. Strings are taken to be valid Unicode where keys are compared, as JSON replaces invalid bytes.
- The sender without an allocator (a compatibility branch) and the request and response bodies of the card APIs.
- Concurrent sends on one message: sends are serialised, as they are by the card lock of a run.
- FragmentProofs.HandedOnWhenComplete: requires that no empty part comes twice, because the code counts such a part again; the exact condition is the lemma beside it.
- Preview.FallbackIsBounded: does not say that the fallback is a prefix of all deltas, because the code does not keep it one (`Preview.FallbackMaySkipARune`).
- Splitting a final answer into sections, command classification, milestones and redaction patterns: string tables; redaction is an arbitrary function.
