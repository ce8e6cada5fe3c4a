# Stackhour: verified models of its three cores

Stackhour records coding activity and runs coding agents on remote machines. This project
models, in Dafny 4.11, the three parts of it whose correctness is hardest to see from the
code, and proves what each of them promises for every input and every run.

**The control plane** (`Events`, `Store`, `HubStore`, `Ledger`, `LiveFeed`, `NodeRegistry`,
`HubLinks`, `NodeOutbox`, `ControlPlane`, and the proofs in `StoreRuns`, `DispatchRuns`,
`DeliveryRuns`, `DeliverySteps`, `NodeSteps`, `WorkerRuns`, `ControlPlaneTheorems`,
`SkippedWork`, `Statuses`, `CommandWork`, `HubWork`, `WorkProgress`, `EventProgress`,
`ClientProgress`, `FlagRuns`).
The hub keeps an append-only event log with two idempotent append paths, command receipts,
a durable dispatch table, materialised statuses and assistant wakes. Clients follow the log
over a bounded bus and resynchronise when they lag. Nodes connect, are replaced, replay
their unacknowledged work, and resend events until acknowledged.
`HubStore.Hub`, `HubLinks.NodeTable`, `LiveFeed.ClientLink`, `NodeOutbox.EngineOutbox` and
`NodeOutbox.Engine` are the objects that the code updates in place, each method proved
against a function on values (`Store`, `NodeRegistry`, `LiveFeed`, `ControlPlane`).
`ControlPlane.Next` composes those functions into one labelled step function: a label is one
critical section of the hub, one turn of a connection task, one frame, or one action of a
node, and it carries every choice that the environment makes. `ControlPlane.Run` folds any
sequence of labels, so a statement about `Run(labels)` is a statement about every reachable
state. Links may drop, repeat, delay and reorder frames; the hub may restart at any moment.
Some theorems say what never goes wrong in any run (`ControlPlaneTheorems`, `FlagRuns`,
`Statuses`), some what a command or a worker amounts to, told from the event kinds and fields
alone (`CommandWork`, `HubWork`), and some that things get on: from any state that a run can
reach, a few named steps bring a client to the head of the log, finish all the work of a node,
and get an event through (`ClientProgress`, `WorkProgress`, `EventProgress`).
What the properties speak of but the code does not keep (what was delivered, emitted,
promised, rejected, skipped, acted on, answered) is recorded in history fields that no step
reads.

**The collection pipeline** (`JsonLines`, `Tail`, `Queue`, `Tick`, `CrashSafety`,
`CrashTheorems`, `CrashStrays`, `CrashSkips`, `CrashOutcomes`, `Ingest`, `TokenCharge`,
`TokenTheorems`, `TokenEvictions`, `TokenStore`, `CrashCharges`, `RowCodec`, `KilledTick`,
`SecondTry`).
The agent tails files by byte offset, persists rows before offsets, drains a queue file in
bounded batches, and charges each message's tokens once; the server's table keeps one row
for each key. `Tick.Agent.Tick` runs a tick that may be cut off after any of its four writes,
with each read and write failing or not, and `CrashSafety.Run` folds any sequence of such
ticks. The watcher is a parameter: any function from the time, what it remembers and a line
to what it remembers next and some rows, where what it remembers is saved together with the
offsets. `CrashCharges` takes the session-log watcher of `TokenCharge` for it, window and all,
and follows its rows into the table of `Ingest`. What is stated of any codec that reads back
what it wrote is stated of the one of `RowCodec`, too.
A tick that is cut off before it saves its state leaves rows behind that no saved tick need
make again; these are the strays of `CrashStrays`.

**Exact algorithms** (`Arithmetic`, `CivilDates`, `Decimals`, `IsoDates`, `Base64`,
`NumberText`, `NumberRounding`, `Paths`). Civil-date conversion, ISO dates, two base64
decoders, number printing and decimal recognition, and path normalisation. Machine division is written out as
division towards zero, and 32-bit shifts as arithmetic modulo 2^32.

`Basics` and `Wrappers` hold what several modules share. `dafny verify dfyconfig.toml` checks
the whole project.

## Where the code does not do what it says

Each of these is proved in the exact form the code has: when it holds, as an equivalence
over all inputs or runs, and an input or a run at which it fails.

- A client handler that cannot send the receipt ends before it routes the dispatch
  (`SkippedWork`). `ClientWorkIsStrandedOrHeld`: in any run, the work of such a command is
  under way after the handler's last step exactly if the receipt could be sent and the node
  is connected, and stranded otherwise. `StrandedUntilReplay`: however the run goes on, stranded work reaches
  neither a connection nor the engine until a new connection of the node reads its pending
  rows, and then it does. `StrandedRun` is a run of seven steps that gets there. Work of other
  origin is never stranded: `ControlPlaneTheorems.InProcessWorkIsNeverStranded`.
- A failed append to the queue is only logged; the offsets are saved all the same. And a queue
  that cannot be read counts as empty, and is rewritten without its rows once a send is
  confirmed. So the promise that rows are stored before the offsets move past them fails
  exactly then: `CrashTheorems.TickLosesOnlyDrops` for one tick and
  `CrashTheorems.CollectionIsCrashSafe` for any run give the condition in both directions,
  `CrashTheorems.FailedAppendLosesRows` and `CrashTheorems.FailedReadForgetsRows` the failing
  inputs, and `CrashTheorems.LostForGood` that nothing brings such a row back.
- A tick that is killed after its append is tried again, which the code calls harmless. But
  lines older than an hour are passed over, and what a line is charged depends on the lines
  before it, so the second try may make other rows. What is queued or delivered is what the
  saved ticks made if and only if they also made every row that an unsaved one left there:
  `CrashStrays.HeldIsDerived`, and `CrashOutcomes.ServerHoldsTheSource` for the server.
  `CrashStrays.RetriedTickFindsThem` says when the next tick makes them again, and
  `SecondTry.EarlierFileLeavesAStray` is a run of three ticks that meets every condition of it
  but that an earlier file has grown meanwhile, and there it does not, within the hour either.
- So a message may be charged more than the most it ever reported:
  `CrashCharges.CrashesChargeOnce` gives the condition in both directions, on the tokens that
  the server's table holds, `KilledTick.KilledTickChargesTwice` a run of four ticks in which
  nothing else of that condition fails, and `KilledTick.KilledTickHappens` its numbers.
- Of several rows with the same time, place and actor the table keeps the first, whatever
  tokens the others carry: `Ingest.KeptUnlessTaken` gives the condition,
  `CrashCharges.ChargesReachTheTable` what it means for a message, and
  `TokenStore.SameInstantUndercharges` an input.
- A state file that cannot be read counts as empty, which is meant to end in a full rescan. But
  a file is sighted anew at its end, so what was written since is passed over:
  `CrashSkips.CollectionSkipsNothing` gives the condition in both directions, and
  `CrashSkips.LostStateSkipsLines` the failing input, with what follows from it for good.
- A message's tokens are charged when its counters grow, but a line that yields no agent row
  (a prompt, or neither a user's nor an assistant's line and no file) drops them:
  `TokenTheorems.RowsAddUpToThePeak` and `TokenTheorems.SystemLineSwallowsTokens`.
- A message that is evicted from the cache, or lost with it, and reported again is charged
  again. A counter is charged more than the most it ever reported exactly if the message was
  forgotten while that counter was above zero and later reports it above zero:
  `TokenEvictions.OverchargedIffItComesBack`, and `TokenEvictions.OverchargedRun` for an input.
- A client that asks for events after a sequence the log has not reached is moved back to the
  head: `ControlPlaneTheorems.ClientsMissNothing` says when delivery starts at the cursor, and
  `ControlPlaneTheorems.CursorAheadStartsAtTheHead` gives the runs in which it does not.
- `posix_normalize` is documented as keeping a trailing slash, but `./` becomes `.`:
  `Paths.TrailingSlashKept`.
- `posix_join` with an empty first path takes an absolute second one from the root:
  `Paths.JoinWalksOn` and `Paths.EmptyJoin`, and `Paths.ExpandHomeWalksFromHome` for an empty
  home directory.
- The day bucket of an instant rounds the product with 1000, and then truncates to
  milliseconds towards zero before it takes the day. So within the last millisecond of a day
  before 1970 it names the next day, and so it does when the product is rounded up to
  midnight: `IsoDates.BucketIsTheDay`, and `IsoDates.JustBeforeTheEpoch` for inputs.

## Model

| member | source | states |
|---|---|---|
| HubStore.Hub.AppendCommandBundle | crates/stackhour-domain/src/store.rs:394-474 | Statement by statement with rollback, the transaction does what the one-step specification does: replay from the receipt, all of event, receipt, entity and dispatch together, or an error that changes nothing |
| HubStore.Hub.AppendNodeEvent | crates/stackhour-domain/src/store.rs:573-605 | The same for a node event: a second delivery finds the first; a new one is logged with its status and wake, or nothing happens |
| HubStore.Hub.ApplyTerminal | crates/stackhour-domain/src/store.rs:1098-1154 | A terminal event with a run sets run and task status and wakes the assistant only for a registered task that completed or failed; a key clash is reported |
| HubStore.Hub.AcknowledgeDispatchFrom | crates/stackhour-domain/src/store.rs:522-532 | Marks exactly the unacknowledged rows of this command and this node, and says whether there was one |
| HubStore.Hub.PendingDispatches | crates/stackhour-domain/src/store.rs:477-506 | The messages of exactly the node's unacknowledged rows, each once and in row order |
| Store.OneRowOrder | crates/stackhour-domain/src/store.rs:477-506 | The query has one answer: a list is it if and only if it is the messages of all those rows in row order |
| HubStore.Hub.RegisterAssistantWorker | crates/stackhour-domain/src/store.rs:795-808 | The task belongs to the channel that registered it last |
| HubStore.Hub.CompleteAssistantWake | crates/stackhour-domain/src/store.rs:838-848 | Sets the flag of this wake and touches no other, and says whether it was still open |
| Store.GaplessNext | crates/stackhour-domain/src/store.rs:1056-1061 | MAX(sequence)+1 is the length of the log plus one in every reachable log |
| Store.EventsAfterIsSuffix | crates/stackhour-domain/src/store.rs:610-633 | The catch-up query returns exactly the log from the cursor on |
| Ledger.PerformGrows | crates/stackhour-domain/src/store.rs:394-605 | No operation takes back an event, receipt, task, run binding, dispatch, registration or wake |
| Ledger.PerformKeepsInv | crates/stackhour-domain/src/store.rs:394-605 | Every operation keeps sequences 1..n, unique event ids, receipts one to one with command events, one dispatch per receipt, status equal to the replayed log, and wakes exactly due |
| Ledger.LogAndReceiptIntegrity | crates/stackhour-domain/src/store.rs:551-605 | After any operations: sequences 1..n, event and command ids unique, receipts exactly the command ids in the log |
| Ledger.ReplayedCommandIsANoOp | crates/stackhour-hub/src/lib.rs:1139-1163 | A command replayed after anything else, however its copy was planned, returns the first outcome and changes nothing, also when both copies passed the precheck |
| Ledger.ReplayedNodeEventIsANoOp | crates/stackhour-domain/src/store.rs:573-605 | The same for an event delivered twice |
| Ledger.NodeAppendKeepsInv | crates/stackhour-domain/src/store.rs:573-605 | In a reachable state a node event is never refused: its wake breaks no key |
| Ledger.PlanReplays | crates/stackhour-domain/src/store.rs:442-453 | The rows a command's bundle writes are those that its own event replays to |
| Ledger.TerminalEffect | crates/stackhour-domain/src/store.rs:1098-1154 | The status columns a terminal event sets are those it replays to, and the wake is inserted exactly when due |
| LiveFeed.SnapshotIsExact | crates/stackhour-hub/src/lib.rs:869-884 | The snapshot is the head and exactly the log after the cursor |
| LiveFeed.TakeSnapshotKeepsInv | crates/stackhour-hub/src/lib.rs:1953-1996 | Subscribing before the snapshot leaves neither a gap nor a duplicate between catch-up and live delivery |
| LiveFeed.PumpKeepsInv | crates/stackhour-hub/src/lib.rs:1998-2063 | One turn of the client loop (catch-up, live, lagged, resync) keeps what was delivered a contiguous segment of the log, and misses nothing still to come |
| LiveFeed.BroadcastKeepsInv | crates/stackhour-hub/src/lib.rs:619-656 | Appending and broadcasting inside one lock keeps it for every client, also when the bounded bus overwrites |
| LiveFeed.DeliveryIsContiguous | crates/stackhour-hub/src/lib.rs:1991-2063 | Whatever its phase, a client holds one contiguous segment of the log |
| LiveFeed.IdleClientIsCurrent | crates/stackhour-hub/src/lib.rs:2020-2035 | A live client with nothing left on the bus has reached the head |
| LiveFeed.ClientLink.ResyncFrom | crates/stackhour-hub/src/lib.rs:2036-2060 | Streaming the missed tail sends each event not yet delivered once, in order, or a prefix if the socket breaks |
| LiveFeed.ResyncLoopIsPumping | crates/stackhour-hub/src/lib.rs:2036-2060 | That loop is the resync turns of the step function, run to the end |
| HubLinks.NodeTable.RegisterNode | crates/stackhour-hub/src/lib.rs:1188-1199 | A newer socket takes the slot with a new connection id |
| HubLinks.NodeTable.UnregisterNode | crates/stackhour-hub/src/lib.rs:1201-1214 | Only the connection that still owns the slot empties it |
| HubLinks.NodeTable.RouteToNode | crates/stackhour-hub/src/lib.rs:1216-1222 | A message goes to the connection in the slot, or nowhere, and the answer says which |
| HubLinks.NodeTable.ReplayPending | crates/stackhour-hub/src/lib.rs:1224-1231 | The slot's channel grows by the messages of the node's unacknowledged rows, all of them and in row order, and no other connection is touched |
| HubLinks.ReplayLoopIsTurns | crates/stackhour-hub/src/lib.rs:1224-1231 | That loop is the reading of the rows and the replay turns of the step function, between which the runs let anything else happen |
| NodeRegistry.RegisterKeepsCover | crates/stackhour-hub/src/lib.rs:1188-1199 | A new connection starts with the duty to replay, so no unacknowledged row is left uncovered |
| NodeRegistry.UnregisterKeepsCover | crates/stackhour-hub/src/lib.rs:1201-1214 | An emptied slot owes nothing until the node registers again; a stale socket empties no slot |
| NodeRegistry.RouteKeepsCover | crates/stackhour-hub/src/lib.rs:1216-1222 | A message on its way is covered by the channel it reaches |
| NodeRegistry.ReadPendingKeepsCover | crates/stackhour-hub/src/lib.rs:1224-1231 | Reading the pending rows takes all that is not covered otherwise |
| NodeRegistry.ReplayTurnKeepsCover | crates/stackhour-hub/src/lib.rs:1224-1231 | Each replayed message reaches the node's channel even if another socket took the slot meanwhile |
| NodeRegistry.RowsGrowKeepsCover | crates/stackhour-hub/src/lib.rs:851-866 | A committed dispatch is covered by its route step that is still to come |
| NodeOutbox.EngineOutbox.Attach | crates/stackhour-node/src/engine.rs:79-94 | A new session resends everything unacknowledged, oldest first, as far as the link takes it |
| NodeOutbox.EngineOutbox.Detach | crates/stackhour-node/src/engine.rs:96-98 | The session is gone; what was not acknowledged stays |
| NodeOutbox.EngineOutbox.ResendPending | crates/stackhour-node/src/engine.rs:100-118 | The same on the present link; the outbox itself is untouched |
| NodeOutbox.EngineOutbox.AcknowledgeEvent | crates/stackhour-node/src/engine.rs:120-132 | Removes the first entry with this id and no other |
| NodeOutbox.EngineOutbox.EmitDraft | crates/stackhour-node/src/engine.rs:134-152 | An event is queued before it is sent, with or without a link |
| NodeOutbox.EngineOutbox.Ack | crates/stackhour-node/src/engine.rs:171-181 | An acknowledgement is sent, or the link is gone and the answer says so |
| NodeOutbox.Engine.Dispatch | crates/stackhour-node/src/engine.rs:258-296 | Every delivery is recorded and acknowledged; one whose id was not recorded before is acted on, and no other |
| StoreRuns.StepIsOneOp | crates/stackhour-hub/src/lib.rs:619-656 | Every step of the hub, a node or a link makes exactly one durable operation, of the kind that belongs to it, or leaves store and bus alone |
| StoreRuns.OneOpMoves | crates/stackhour-hub/src/lib.rs:619-656 | Such a step only extends the tables, and broadcasts exactly the events that it logged |
| StoreRuns.StepKeepsStore | crates/stackhour-hub/src/lib.rs:619-656 | Every step, those of clients and a restart included, keeps the store's and every client's invariant, and takes nothing durable back |
| DispatchRuns.StepKeepsDispatch | crates/stackhour-hub/src/lib.rs:1188-1231 | Every step keeps every unacknowledged dispatch covered, and every slot the newest connection |
| NodeSteps.StepKeepsNet | crates/stackhour-hub/src/lib.rs:2121-2149 | Every step keeps each frame justified, each promised event in an outbox or the log, and each acknowledged row done by its own node |
| WorkerRuns.StepKeepsWorkers | crates/stackhour-hub/src/lib.rs:754-823 | Every step keeps a channel's worker registered before any end of its run can be admitted |
| ControlPlaneTheorems.EveryReachableState | crates/stackhour-hub/src/lib.rs:886-1169 | All of it holds in every reachable state |
| ControlPlaneTheorems.LogReceiptsAndAnswers | crates/stackhour-hub/src/lib.rs:892-899 | In every run all receipts ever returned for a command, to any number of racing copies, name the one event of that command |
| CommandWork.CommandsDoWhatTheyAsk | crates/stackhour-hub/src/lib.rs:892-1130 | In any run and under any interleaving, for each kind of command: it is refused exactly when it must be, or its commit logs the event and queues the work that it asks for, at the node it asks for, and nothing else, unless it was committed before or a minted id is taken; and the client is answered with the event |
| CommandWork.RepeatsAreAnswered | crates/stackhour-hub/src/lib.rs:892-899 | In any run a command with a receipt is answered with the one event of its id, and nothing else happens |
| CommandWork.EveryRowIsTold | crates/stackhour-hub/src/lib.rs:904-1078 | In any run every dispatch is the work of the event logged under its command: start, prompt or interrupt with that event's run, task, node and text |
| CommandWork.EffectsAreLogged | crates/stackhour-hub/src/lib.rs:904-1078 | So whatever an engine acts on is the work of exactly one event in the log, logged for its node |
| HubWork.WorkersAreCreated | crates/stackhour-hub/src/lib.rs:754-823 | In any run, creating a worker logs its task and its run, registers the channel before the run can end, queues the start and hands it to the node's connection, and goes on with the prompt as a command |
| HubWork.TrackedWorkersAreRegistered | crates/stackhour-hub/src/lib.rs:510-523 | A task is registered for a channel exactly if the run named with it is one of this task on a node; nothing else changes |
| HubWork.AssistantWorkStaysHome | crates/stackhour-hub/src/lib.rs:525-582 | The assistant's own runs and messages are logged for the hub, and no node is sent anything |
| HubWork.HubEventsAreLogged | crates/stackhour-hub/src/lib.rs:584-616 | An event the hub emits itself is logged under the next sequence |
| HubWork.RestartKeepsWhatIsStored | crates/stackhour-hub/src/lib.rs:1243-1264 | A restart takes every client, connection and process with it, but neither tables nor nodes, and the hub still knows the node and task of every run |
| ControlPlaneTheorems.StatusIsTheFoldOfTheLog | crates/stackhour-hub/src/lib.rs:892-1081 | In every run each task and run row is the left fold of the log, the last terminal event winning |
| Statuses.RunStatusIsTheLastWord | crates/stackhour-domain/src/store.rs:1098-1154 | In any run a run has a row exactly if a command started it, with the task and node of its start; it is completed, failed or interrupted exactly if the last event on it is that end, and started exactly if it is its start |
| Statuses.TaskStatusIsTheLastWord | crates/stackhour-domain/src/store.rs:1098-1154 | The same for tasks: open, running, completed, failed or interrupted exactly as the kind of the last event on the task says |
| ControlPlaneTheorems.ClientsMissNothing | crates/stackhour-hub/src/lib.rs:1950-2063 | In every run a client holds exactly the contiguous log from its start to its last delivery, across any number of lags, and one that drained the bus has the whole log; it starts at its cursor exactly if that was not ahead of the log |
| ControlPlaneTheorems.CursorAheadStartsAtTheHead | crates/stackhour-hub/src/lib.rs:1966-1996 | The failing runs: after any run a client that subscribes with a cursor past the head is served from the head, and not from its cursor |
| ClientProgress.ClientsCatchUp | crates/stackhour-hub/src/lib.rs:1991-2063 | In any run a client with a snapshot reaches the head of the log within a bounded number of turns of its own, from catch-up, live, lagged or resync alike, and has then been sent everything from its start on |
| ClientProgress.SlowClientsAreTold | crates/stackhour-hub/src/lib.rs:2020-2040 | In any run a live client more than 1024 events behind is told that it lags, and any other is sent the log's next event unless it has it |
| ClientProgress.SubscribersGetTheLog | crates/stackhour-hub/src/lib.rs:1953-2063 | A client that joins is sent exactly the log from its cursor on: all of it for a negative cursor, nothing old for one ahead of the log |
| ClientProgress.LeavingIsFinal | crates/stackhour-hub/src/lib.rs:1991-2063 | A client that has left is sent nothing more, whatever happens |
| ControlPlaneTheorems.NoStrandedDispatch | crates/stackhour-hub/src/lib.rs:1188-1231 | In every run, once the connection in a slot has replayed, each unacknowledged dispatch of the node is in its channel, handed over, about to be routed, or was skipped by a client handler that ended |
| ControlPlaneTheorems.InProcessWorkIsNeverStranded | crates/stackhour-hub/src/lib.rs:676-682 | For work of `submit_command` and `create_worker_task` the last exception cannot occur |
| SkippedWork.ClientWorkIsStrandedOrHeld | crates/stackhour-hub/src/lib.rs:2007-2015 | In any run, the work of a client's command is under way after the handler's last step if and only if the receipt was sent and the node is connected; otherwise no connection, frame, process or engine has it, and its row is unacknowledged |
| SkippedWork.StrandedUntilReplay | crates/stackhour-hub/src/lib.rs:1224-1231 | However the run goes on, it stays so exactly until a new connection of the node reads its pending rows |
| SkippedWork.StrandedRun | crates/stackhour-hub/src/lib.rs:2007-2015 | The failing run: seven steps after which the connection in the slot has replayed and an unacknowledged dispatch is nowhere |
| ControlPlaneTheorems.SlotHoldsTheNewest | crates/stackhour-hub/src/lib.rs:1188-1214 | A slot is empty or holds the connection its node registered last |
| ControlPlaneTheorems.EmittedEventsArriveOnce | crates/stackhour-node/src/engine.rs:79-152 | In every run an event that the hub's check admits when it is emitted is in the outbox or in the log, and in the log at most once, as emitted |
| ControlPlaneTheorems.NothingElseIsDropped | crates/stackhour-hub/src/lib.rs:1279-1289 | An event leaves an outbox only into the log, or because the check turned it away, and then it was never admissible |
| EventProgress.EmittedEventsWait | crates/stackhour-node/src/engine.rs:134-152 | In any run an emitted event is at the end of the outbox, and counts as promised exactly if the run it names is one of this node and task |
| EventProgress.WaitingEventsGetThrough | crates/stackhour-node/src/engine.rs:100-152 | From any reachable state, a few steps get an event of a connected node out of its outbox, alone: logged exactly if the run it names is one of this node and task, and turned away otherwise |
| EventProgress.OutboxesHoldOnce | crates/stackhour-node/src/engine.rs:120-152 | In any run no outbox holds an event twice |
| ControlPlaneTheorems.WorkHasOneEffect | crates/stackhour-node/src/engine.rs:258-296 | However often a dispatch is routed or replayed the engine acts on its id once, on its own row's message, and a row is acknowledged only after that |
| WorkProgress.DeliveredWorkIsDone | crates/stackhour-node/src/engine.rs:258-296 | In any run, work that reaches its node is acted on, now or before: exactly one effect has its command id, and it is this work |
| EventProgress.WorkStaysDone | crates/stackhour-node/src/engine.rs:258-296 | And so it stays over any continuation |
| WorkProgress.Reconnected | crates/stackhour-hub/src/lib.rs:1188-1231 | In any run a node that connects anew has its unacknowledged work in its channel after the replay, all of it and oldest first |
| WorkProgress.ReconnectingFinishesTheWork | crates/stackhour-hub/src/lib.rs:1188-1231 | From any reachable state, whatever was lost, stranded or cut off, steps of the node and its link alone finish: every dispatch of the node is acknowledged, no other row is touched, and each was acted on exactly once |
| FlagRuns.AckedIffTold | crates/stackhour-domain/src/store.rs:522-532 | In any run a dispatch is acknowledged if and only if, since it was queued, the hub received an acknowledgement of its command from its own node |
| ControlPlaneTheorems.WakesAreExactlyDue | crates/stackhour-domain/src/store.rs:1098-1154 | In every run the wakes are one to one with completed and failed run events from nodes whose task was registered when they were logged |
| ControlPlaneTheorems.WorkerEndsAlwaysWake | crates/stackhour-hub/src/lib.rs:754-823 | The end of a run that `create_worker_task` started for a channel always has its wake |
| FlagRuns.ProcessedIffCompleted | crates/stackhour-domain/src/store.rs:838-848 | In any run a wake is processed if and only if it was completed since it was due |
| ControlPlaneTheorems.DurableForever | crates/stackhour-domain/src/store.rs:394-605 | Nothing durable is lost over any further steps, hub restarts included |
| JsonLines.LinesConcat | crates/stackhour-agent/src/tail.rs:85-105 | Cutting a file at a line end splits its complete lines there and nowhere else |
| JsonLines.SplitIsLines | crates/stackhour-agent/src/tail.rs:93-94 | Splitting what precedes the last newline gives exactly the complete lines |
| Tail.Tailer.FillBuffer | crates/stackhour-agent/src/tail.rs:65-79 | However the reads are cut up the buffer is the contiguous bytes from the start, as far as the reads got |
| Tail.Tailer.ReadNewLines | crates/stackhour-agent/src/tail.rs:37-105 | Rows and new offset are those of the specification: first sight, clamping, lossy start, unreadable files and unfinished lines included |
| Tail.PollResult | crates/stackhour-agent/src/tail.rs:58-105 | One poll returns exactly the complete lines between the old and new offset, moves through the last newline it saw, and never past the size |
| Tail.TailIsExact | crates/stackhour-agent/src/tail.rs:37-105 | Over any polls of a growing file the lines read are exactly the complete lines from first sight to the offset, once each and in order |
| Tail.NothingCompleteIsLeft | crates/stackhour-agent/src/tail.rs:85-91 | After a full read no complete line is left unread |
| Tail.OffsetNeverDecreases | crates/stackhour-agent/src/tail.rs:50-53 | The offset never moves back or past the file |
| Tail.ChunkingDoesNotMatter | crates/stackhour-agent/src/tail.rs:29-37 | Two histories of the same file, however writes and reads were split, read the same lines and stop at the same offset |
| Tail.CutFilesAreSightedAnew | crates/stackhour-agent/src/tail.rs:50-53 | A file shorter than its offset is taken as if it were sighted anew |
| Tail.FarBehindSkipsAhead | crates/stackhour-agent/src/tail.rs:55-64 | A file grown by more than one read may take is read from that far before its end on, and the rest skipped |
| Queue.QueueFile.Encode | crates/stackhour-agent/src/queue.rs:34-44 | Joining with newlines and ending with one puts every row on a line of its own |
| Queue.QueueFile.Read | crates/stackhour-agent/src/queue.rs:22-30 | Every line that is not empty and parses, in order; nothing when the file cannot be read |
| Queue.QueueFile.Append | crates/stackhour-agent/src/queue.rs:47-56 | Appends whole lines; nothing for no rows |
| Queue.QueueFile.Save | crates/stackhour-agent/src/queue.rs:59-73 | Rewrites the file, and deletes it for no rows |
| Queue.AppendReadsBack | crates/stackhour-agent/src/queue.rs:22-56 | An append adds exactly its rows to those read back |
| Queue.AppendsReadBack | crates/stackhour-agent/src/queue.rs:22-56 | Any sequence of appends reads back as all their rows in order |
| Queue.SaveReadsBack | crates/stackhour-agent/src/queue.rs:59-73 | A rewrite reads back as exactly its rows |
| Queue.TakeSendBatch | crates/stackhour-agent/src/queue.rs:81-96 | The running byte count finds the longest prefix whose serialised JSON array fits the budget, or one row |
| Queue.BatchesDrain | crates/stackhour-agent/src/lib.rs:270-301 | Repeated batches end, and concatenate to the queue |
| Queue.BatchesAreLongest | crates/stackhour-agent/src/queue.rs:81-96 | None of them could have taken the row that follows it |
| Tick.Agent.Tick | crates/stackhour-agent/src/lib.rs:234-301 | What the disk holds and the server was given after a tick cut off anywhere is given by the specification: load the state or start empty, watch, append, save the offsets and what the watcher remembers, post, rewrite |
| Tick.Agent.LoadState | crates/stackhour-agent/src/state.rs:24-33 | The saved state, or an empty one when it cannot be read |
| Tick.Agent.RunWatchers | crates/stackhour-agent/src/watch_claude.rs:147-165 | The rows of all files met, in order, and the offsets and the memory after them |
| Tick.Agent.WatchFile | crates/stackhour-agent/src/watch_claude.rs:151-165 | A file that did not grow is passed over with its offset left alone, any other is tailed and each of its lines watched |
| Tick.Agent.Persist | crates/stackhour-agent/src/lib.rs:256-301 | The writes and their order, each reached or not, each working or not |
| Tick.Agent.Send | crates/stackhour-agent/src/lib.rs:270-301 | The first batch is posted; only a confirmed post rewrites the queue, with all that follows the batch |
| CrashSafety.LookAllPasses | crates/stackhour-agent/src/tail.rs:37-105 | One tick reads of each file exactly the complete lines between its old and new offset, first sights and unreadable files included |
| CrashSafety.TickStaysConsistent | crates/stackhour-agent/src/lib.rs:234-268 | After a tick cut off anywhere, state read or not, offsets, memory and what was read agree: since the state was last lost the saved ticks read each file's complete lines below its offset, once and in order, and the memory is the one they leave |
| CrashSafety.QueueAfter | crates/stackhour-agent/src/lib.rs:261-301 | The rows in the queue file after any such tick |
| CrashSafety.HeldAfter | crates/stackhour-agent/src/lib.rs:254-301 | Which rows are queued or at the server after it: what it held or had in hand and persisted or delivered, and nothing else |
| CrashTheorems.TickInventsNothing | crates/stackhour-agent/src/lib.rs:234-301 | Nothing is ever in the queue or at the server that the watcher does not make of lines next in line, after some of the saved ticks |
| CrashTheorems.TickLosesOnlyDrops | crates/stackhour-agent/src/lib.rs:254-301 | After a tick every row that a saved tick made is queued or delivered if and only if no row fell to a failed append whose offsets were saved, and none to a rewrite of a queue that was not read |
| CrashTheorems.CollectionIsCrashSafe | crates/stackhour-agent/src/lib.rs:234-301 | The same, in both directions, over any run of ticks, crashes and failures, for any watcher with a memory |
| CrashTheorems.WorkingDiskIsHarmless | crates/stackhour-agent/src/lib.rs:254-268 | While the queue is read, and appends work or the offsets are not saved, no tick does harm, wherever the crashes are |
| CrashTheorems.LostForGood | crates/stackhour-agent/src/lib.rs:234-301 | A row that is neither queued nor delivered stays so over any ticks until one of them finds it again |
| CrashTheorems.FailedAppendLosesRows | crates/stackhour-agent/src/lib.rs:261-268 | The failing input: from any state that is caught up, one new line whose append fails is lost, over all later ticks that do not find its row again |
| CrashTheorems.FailedReadForgetsRows | crates/stackhour-agent/src/queue.rs:22-30 | The failing input: from any such state with a row queued, one tick that cannot read the queue and gets a new line through forgets that row |
| CrashTheorems.FirstSightCatchesUp | crates/stackhour-agent/src/tail.rs:44-49 | Such a state is reached: the first tick that sights a file catches up with it and reads no row |
| CrashTheorems.OutageQueuesRows | crates/stackhour-agent/src/lib.rs:292-300 | And one with a row queued: a tick that cannot reach the server leaves the rows of a new line in the queue |
| CrashStrays.HeldIsDerived | crates/stackhour-agent/src/lib.rs:256-260 | After any run everything queued or delivered is what the saved ticks made, if and only if they also made each row that an unsaved tick left there |
| CrashStrays.RetriedRowsAreTheSame | crates/stackhour-agent/src/lib.rs:256-260 | From one saved memory, the rows of several files' lines are found again, first and alike, when the two times make no difference to these lines and of the files only the last that gave lines has more |
| CrashStrays.RetriedTickFindsThem | crates/stackhour-agent/src/lib.rs:256-260 | Two ticks from one saved state: under these conditions the second finds every row of the first, whatever else was written to the files |
| CrashStrays.RetriedTickLeavesNoStray | crates/stackhour-agent/src/lib.rs:256-260 | So a tick cut off before it saved leaves nothing behind that the next saved one does not make |
| CrashStrays.UnfoundRowStays | crates/stackhour-agent/src/lib.rs:256-260 | And a row it put there that neither the next tick finds nor a saved one had made before is a stray that nobody makes |
| CrashSkips.CollectionSkipsNothing | crates/stackhour-agent/src/state.rs:24-33 | Over any run the saved ticks have read every complete line from the first sight of a file to where they have come, each once, if and only if no tick that could not read the state saved another place in a file than was reached |
| CrashSkips.LostStateSkipsLines | crates/stackhour-agent/src/state.rs:24-33 | The failing input: from any state that is caught up, a line written before a tick that cannot read the state is found by no one, and no later tick reads from before its end |
| CrashOutcomes.ServerHoldsTheSource | crates/stackhour-agent/src/lib.rs:256-301 | Once caught up and drained, for any watcher: the saved ticks read every complete line once and in order, and the server was given exactly what they made of these if and only if they also made all that unsaved ticks left behind |
| CrashOutcomes.StatelessServerHoldsTheSource | crates/stackhour-agent/src/lib.rs:256-301 | For a watcher whose rows depend on the line alone that always holds: the server has exactly the source's rows |
| CrashOutcomes.ServerHoldsTheDerivedRows | crates/stackhour-agent/src/lib.rs:256-301 | Drained, for any watcher, the server was given exactly the rows of the saved ticks under the same condition |
| CrashOutcomes.QueueDrains | crates/stackhour-agent/src/lib.rs:270-301 | Idle ticks with confirmed sends empty the queue after exactly as many ticks as it had batches, and the server was then given all of it, in order |
| Ingest.Table.Insert | crates/stackhour-store/src/db.rs:364-422 | A row is inserted unless its key is there, one after the other, and the answer counts the new ones |
| Ingest.BatchesDoNotMatter | crates/stackhour-store/src/db.rs:334-422 | However the rows are cut into batches, the table ends up the same |
| Ingest.KeptHasEveryKey | crates/stackhour-store/src/db.rs:109-110 | The table has the keys of what it was given, and no others |
| Ingest.KeptKeysAreDistinct | crates/stackhour-store/src/db.rs:109-110 | And one row for each |
| Ingest.KeptUnlessTaken | crates/stackhour-store/src/db.rs:334-337 | A row that was given is in the table if and only if no other with its key was given before it |
| TokenStore.RowsHoldTheEmitted | crates/stackhour-agent/src/watch_claude.rs:249-318 | What the rows made for a message hold is what its lines were charged on lines with an agent row |
| TokenStore.RowsHoldTheCharge | crates/stackhour-agent/src/watch_claude.rs:204-318 | When a message only grew on lines with a row and no two of its paying rows are the same, they hold its charge, and the most it ever reported if and only if no counter came back |
| TokenStore.TableHoldsTheRows | crates/stackhour-store/src/db.rs:109-110 | A table with one row for each key that has all paying rows of a message holds what the distinct ones hold or more, and that exactly if and only if it has no other row made for it |
| TokenStore.TableHoldsThePeak | crates/stackhour-store/src/db.rs:109-110 | So it holds the most the message ever reported, when the distinct rows hold no less, if and only if they hold that and there is no other row; in terms of the lines, if and only if no counter comes back after it was forgotten and there is no other row |
| TokenStore.SameInstantUndercharges | crates/stackhour-store/src/db.rs:109-110 | The failing input: a message that grows twice at one instant and place is charged the first growth only, though its rows add up |
| CrashCharges.WorldIsSteps | crates/stackhour-agent/src/watch_claude.rs:147-325 | What the saved ticks leave in the session watcher's cache, and all rows they made, are those of the accounting of what they read, the window and lost states included |
| CrashCharges.SavedTicksChargeOnce | crates/stackhour-agent/src/watch_claude.rs:204-227 | After any run, the saved ticks alone charged a message the most it ever reported if and only if no counter of it came back after it was forgotten |
| CrashCharges.ChargesReachTheTable | crates/stackhour-store/src/db.rs:334-337 | While no tick does harm, every row with tokens that the saved ticks made for a message is in the table once the queue is drained, if and only if no different row with its key came before it |
| CrashCharges.FindsForIsFound | crates/stackhour-agent/src/watch_claude.rs:147-325 | The rows that a tick is said to make for a message are among those it finds, from the state that was saved or lost |
| CrashCharges.CrashesChargeOnce | crates/stackhour-agent/src/lib.rs:256-260 | Then the table holds what the distinct rows of a message charged it or more, and that exactly if and only if each of its rows that an unsaved tick left there was made by a saved one too; and where these rows fall on all its growth and no two are the same, it holds the most the message ever reported if and only if moreover no counter came back |
| RowCodec.RowCodecIsValid | crates/stackhour-agent/src/queue.rs:22-44 | There is a codec that reads back every row of the session watcher's, on one line: what is stated of all such codecs is stated of some |
| KilledTick.SameWindow | crates/stackhour-agent/src/watch_claude.rs:171-175 | The time makes no difference to the session watcher for lines that are in the window at both times, or at neither |
| KilledTick.KilledTickChargesTwice | crates/stackhour-agent/src/lib.rs:256-260 | The failing run: a tick killed after its append, tried again an hour later, and one more; no tick does harm, no key is taken, all growth falls on different rows, the saved ticks charge once, and the table holds both charges |
| KilledTick.KilledTickHappens | crates/stackhour-agent/src/lib.rs:256-260 | That run with everything given: 250 tokens in the table for a message that reported 150 at most |
| SecondTry.EarlierFileTakesTheCharge | crates/stackhour-agent/src/watch_claude.rs:147-227 | A line added to an earlier file takes the charge of a later file's line, so that its row is not made again |
| SecondTry.EarlierFileLeavesAStray | crates/stackhour-agent/src/lib.rs:256-260 | The failing run: a killed tick tried again from the same saved state, with the same files in the same order and no line on the other side of the window, but an earlier file has grown; its row stays a stray that no saved tick made |
| SecondTry.StrayHappens | crates/stackhour-agent/src/lib.rs:256-260 | That run with everything given: what is queued there is not what the saved ticks made |
| TokenCharge.ClaudeWatcher.Account | crates/stackhour-agent/src/watch_claude.rs:204-227 | Charges the growth over the recorded maximum, and records the new maximum at the message's old place |
| TokenCharge.ClaudeWatcher.ReadLine | crates/stackhour-agent/src/watch_claude.rs:167-318 | A line outside the window changes nothing; any other is charged, recorded and emitted |
| TokenCharge.ClaudeWatcher.EmitRows | crates/stackhour-agent/src/watch_claude.rs:249-318 | One row for a prompt; else one for each file, the tokens on the first; else one for a user's or assistant's line |
| TokenCharge.ClaudeWatcher.Run | crates/stackhour-agent/src/watch_claude.rs:130-326 | The rows and the trimmed cache after any lines |
| TokenCharge.ClaudeWatcher.Trim | crates/stackhour-agent/src/state.rs:79-87 | Removing the first key until within the cap keeps exactly the last insertions |
| TokenTheorems.ChargesTelescope | crates/stackhour-agent/src/watch_claude.rs:204-227 | A message that is never evicted is charged, counter by counter, the most it ever reported |
| TokenTheorems.NeverUndercharged | crates/stackhour-agent/src/watch_claude.rs:204-227 | Evicted or not, never less |
| TokenTheorems.PeakIsTheMaximum | crates/stackhour-agent/src/watch_claude.rs:219-226 | What is meant by most: an upper bound of all reports, zero or attained |
| TokenEvictions.OverchargedIffItComesBack | crates/stackhour-agent/src/watch_claude.rs:204-227 | A counter of a message is charged more than the most it ever reported if and only if the message is evicted, or lost with the state, while that counter is above zero and later reports it above zero |
| TokenEvictions.ChargedIsForgottenAndKnown | crates/stackhour-agent/src/watch_claude.rs:204-227 | By how much: what is charged is what the evictions forgot of the counter and what the cache knows of it |
| TokenEvictions.ManyMessagesOvercharge | crates/stackhour-agent/src/state.rs:79-87 | The failing inputs: after any history, as many new messages as the cap, a trim, and the message again |
| TokenEvictions.OverchargedRun | crates/stackhour-agent/src/state.rs:79-87 | One of them, from the empty cache |
| TokenTheorems.RecordAppends | crates/stackhour-agent/src/watch_claude.rs:219-227 | A report never moves or removes an earlier key, so keys stand in the order of insertion |
| TokenTheorems.TrimEvictsTheEarliest | crates/stackhour-agent/src/state.rs:79-87 | Only keys inserted before every key that is kept, and none within the cap |
| TokenTheorems.FewIdsAreNeverEvicted | crates/stackhour-agent/src/state.rs:79-87 | While no more distinct ids were reported than the cap and the state is not lost, none is ever evicted |
| TokenTheorems.EmittedOrMissed | crates/stackhour-agent/src/watch_claude.rs:249-318 | Every charge is on exactly one row, or on a line that has none |
| TokenTheorems.RowsAddUpToThePeak | crates/stackhour-agent/src/watch_claude.rs:257-318 | A message's rows add up to the most it reported if and only if its counters only grew on lines that yield an agent row |
| TokenTheorems.SystemLineSwallowsTokens | crates/stackhour-agent/src/watch_claude.rs:306-318 | The failing input: a system line takes a message's tokens with it |
| TokenTheorems.AnonymousReportsChargeInFull | crates/stackhour-agent/src/watch_claude.rs:210-227 | A report without an id is charged in full each time |
| TokenTheorems.RunIsItsSteps | crates/stackhour-agent/src/watch_claude.rs:147-325 | A run of the watcher is its lines and one trim |
| TokenTheorems.LinesTell | crates/stackhour-agent/src/watch_claude.rs:249-318 | A prompt is one row of the human's without tokens; any other line is a row of the machine's for each file used, in order, or one for its directory, with the tokens on the first |
| TokenTheorems.RowsChargeTheGrowth | crates/stackhour-agent/src/watch_claude.rs:204-256 | A row charges what input and both cache counters, and apart from them output, are above what was known of the message |
| CivilDates.CivilInvertsDays | crates/stackhour-core/src/timeparse.rs:116-142 | Every valid date comes back from its day number |
| CivilDates.DaysInvertCivil | crates/stackhour-core/src/timeparse.rs:116-142 | Every integer is the day number of the valid date it is turned into |
| CivilDates.NextDayIsNext | crates/stackhour-core/src/timeparse.rs:97-128 | The day after, by the table of month lengths, has the next day number |
| CivilDates.EpochIsDayZero | crates/stackhour-core/src/timeparse.rs:130-142 | Day zero is the first of January 1970 |
| CivilDates.DaysCountTheCalendar | crates/stackhour-core/src/timeparse.rs:130-142 | Going from any day number to a later one is stepping through the calendar that many days |
| IsoDates.ParseBareDateDays | crates/stackhour-core/src/timeparse.rs:73-95 | Digit loops, separators and calendar check: the specification's parse of ten characters |
| IsoDates.PrintedInstantParsesBack | crates/stackhour-core/src/timeparse.rs:148-161 | The first ten characters of any printed instant parse to its day rounded down, if its year has four digits, and do not parse otherwise |
| IsoDates.ParsedIsPrinted | crates/stackhour-core/src/timeparse.rs:73-95 | A string is accepted only if it is the printed form of the day returned |
| IsoDates.PrintedInstantTells | crates/stackhour-core/src/timeparse.rs:148-161 | Every printed instant tells its date and time of day, in all years and before the epoch: read back field by field they add up to the instant |
| IsoDates.BucketIsTheDay | crates/stackhour-core/src/timeparse.rs:170-182 | However the product of the seconds and 1000 is rounded, the day bucket of an instant is its day if and only if neither that rounding nor the truncation takes it to midnight |
| IsoDates.JustBeforeTheEpoch | crates/stackhour-core/src/timeparse.rs:170-182 | The failing inputs: every instant in the last millisecond before 1970 is in day -1 and is put into day 0, unless the product is rounded down to a whole millisecond |
| IsoDates.NoNumberIsTheEpoch | crates/stackhour-core/src/timeparse.rs:173-175 | What is not a number is put into the epoch's day |
| IsoDates.InfinitiesAreTheEnds | crates/stackhour-core/src/timeparse.rs:170-182 | What is infinite is put where the finite instants beyond the range of dates are |
| Base64.LenientBase64Decode | crates/stackhour-core/src/tokens.rs:370-401 | The decoder by groups returns the bytes that the payload's sextets stand for |
| Base64.DecodeBase64Lenient | crates/stackhour-server/src/auth.rs:70-98 | So does the rolling decoder, whose accumulator overflows and is never masked |
| Base64.BytesGrow | crates/stackhour-server/src/auth.rs:85-96 | One more sextet completes at most one byte: the incremental reading of the grouped definition |
| Base64.DecodeInvertsEncode | crates/stackhour-core/src/tokens.rs:363-401 | Decoding inverts encoding for every byte string, spelled in the standard alphabet, the URL-safe one or both, with other characters inserted anywhere and with or without padding |
| Base64.SextetIsItsPlace | crates/stackhour-core/src/tokens.rs:370-401 | A character stands for a sextet if and only if it is there in one of the two alphabets |
| Base64.DecodeBoth | crates/stackhour-server/src/auth.rs:70-98 | The two decoders agree on every input |
| NumberText.IsValidJsDecimal | crates/stackhour-core/src/jsnum.rs:69-105 | Accepts a text if and only if it is a literal of the grammar |
| NumberText.LiteralIsScanned | crates/stackhour-core/src/jsnum.rs:69-105 | The grammar is unambiguous: every literal is read as itself |
| NumberText.JsF64ToString | crates/stackhour-core/src/jsnum.rs:160-211 | The loops and branches produce the specified text |
| NumberText.PrintedIsItsText | crates/stackhour-core/src/jsnum.rs:178-205 | Every layout spells a literal of the grammar |
| NumberText.PrintedDenotesTheNumber | crates/stackhour-core/src/jsnum.rs:178-205 | And that literal denotes the number's own value |
| NumberText.PrintedIsPlain | crates/stackhour-core/src/jsnum.rs:160-211 | And it is the plain literal: no zero that could be left out but for those of the digits, an exponent only below a millionth or from 1e21 on, and one digit for zero |
| NumberRounding.SameValueIsSameNumber | crates/stackhour-core/src/jsnum.rs:111-138 | What is meant by the same value: the same sign and the same real number |
| NumberRounding.PrintedRoundsBack | crates/stackhour-core/src/jsnum.rs:111-138 | Whatever rounding ends the parse, if the digits printed from spell a number that rounds to a double then the text reads back as that double; zeros, infinities and NaN too |
| Paths.PosixNormalize | crates/stackhour-core/src/paths.rs:122-158 | The stack loop computes the specified normal form |
| Paths.NormalizeAbs | crates/stackhour-core/src/project.rs:60-76 | The other loop computes the path of the place that the text leads to from the root |
| Paths.NormalizeKeepsTheWay | crates/stackhour-core/src/paths.rs:120-158 | Walking the normalised path from any directory reaches where walking the path does |
| Paths.NormalizeIsIdempotent | crates/stackhour-core/src/paths.rs:120-158 | Normalising twice is normalising once |
| Paths.TrailingSlashKept | crates/stackhour-core/src/paths.rs:150-157 | Exactly when the normal form ends in a slash; `./` does not keep its own |
| Paths.NormalizersAgree | crates/stackhour-core/src/project.rs:60-76 | On absolute paths the two normalisers differ by a trailing slash at most |
| Paths.JoinWalksOn | crates/stackhour-core/src/paths.rs:109-118 | From every directory joining walks the second path from where the first leads, if and only if there is a first path or the second is not absolute |
| Paths.EmptyJoin | crates/stackhour-core/src/paths.rs:109-118 | The failing input: no first path, and an absolute second one |
| Paths.ExpandHomeWalksFromHome | crates/stackhour-core/src/paths.rs:100-105 | A tilde leads home, whatever follows it, if and only if the home directory is not empty or what follows is not absolute |
| Paths.JsResolve1 | crates/stackhour-core/src/project.rs:80-86 | Resolving is walking from the working directory |
| Paths.JsResolve2 | crates/stackhour-core/src/project.rs:89-97 | Resolving against a base is walking the base first |
| Paths.DirnameIsParent | crates/stackhour-core/src/project.rs:101-111 | The directory name of a place is its parent, strictly shorter until the root |
| Paths.RepositoryRoot | crates/stackhour-core/src/project.rs:165-181 | The upward loop ends, and finds the nearest repository at or above the location if there is one |

## Left out

- ControlPlaneTheorems.EmittedEventsArriveOnce: the node process does not crash, because outbox and seen set live in its memory only; the order of emission is not claimed, because a resend may overtake it.
- HubLinks.NodeTable.ReplayPending: nothing comes between its reading and routing; the interleavings are in `ControlPlane.Next`, where the two are separate steps.
- ControlPlaneTheorems.NoStrandedDispatch: speaks of the dispatch table only; node updates are sent without a durable row.
- ControlPlaneTheorems.ClientsMissNothing: storage reads do not fail; a failed read after a commit would skip a broadcast.
- Tail.TailIsExact: the file grows, by at most 5 MiB past the offset between polls; one poll outside of that is in `Tail.CutFilesAreSightedAnew` and `Tail.FarBehindSkipsAhead`.
- CrashTheorems.CollectionIsCrashSafe: each append, replace and remove is atomic under a crash, one agent runs, and files grow by at most 5 MiB past the offset between ticks.
- CrashCharges.CrashesChargeOnce: is about messages whose charges all reach the table; those that do not are in `CrashTheorems.CollectionIsCrashSafe` and `CrashCharges.ChargesReachTheTable`. In terms of the lines it speaks of messages that only grew on lines with a row, no two of them the same; of the others it says what the table holds of their rows, and `TokenTheorems.RowsAddUpToThePeak` what these add up to. The table's key leaves out the machine, which is one and the same.
- TokenCharge.ClaudeWatcher.Account: counters are whole numbers of any unit, as fine as a double can be, so sums and differences are not rounded; times are whole milliseconds.
- TokenCharge.ClaudeWatcher.EmitRows: a row is its key and its tokens; branch, category, write flag, cost and metadata come from the line and decide nothing here.
- IsoDates.BucketIsTheDay: the rounding of the product is any that passes no whole number, which doubles satisfy throughout the range of dates; dates outside four-digit years are in `IsoDates.PrintedInstantParsesBack`.
- NumberRounding.PrintedRoundsBack: a double is its shortest digits and exponent, so how those digits are chosen is not modelled, and how a number rounds to a double is a parameter; white space is trimmed before, and the value of a radix literal is left as its digits.
- CivilDates.DaysInvertCivil: integers are unbounded; overflow of 64-bit arithmetic at the ends of its range is not modelled.
- HubWork.WorkersAreCreated: the five steps follow one another, and the title and run configuration of the worker are the empty text.
- WorkProgress.ReconnectingFinishesTheWork: says that the work can be finished, not that the network will; frames may be lost for ever.
- The execution gate that serialises some commands: without it the model has more interleavings, so what is proved holds with it.
- Node eligibility, run configuration and payload checks: a rejection is a free choice of the step that plans a command, and payloads are opaque text.
- The in-memory map from tasks to nodes: the node a message falls back to is a free choice.
- The approvals table and its resolution status: a resolved approval is logged like any other command.
- Wake retry delays: a wake is pending until it is completed.
- Heartbeats, timeouts and wall-clock time: they only trigger steps that the labels already allow at any moment.
- Order on a link: frames form a set that may be delivered in any order, which includes the order the sockets keep.
- HTTP, WebSocket and JSON encodings, SQLite and its migrations: tables are maps and sequences, and transactions are atomic.
- Process launching, installers, updates, the dashboard, token comparison and settings: input and output, or single checks.
- The coercions of the server's ingest: fractions of a token are cut there, and rows without a finite time are skipped.
- The files, macOS, SSH, Zed and Codex watchers, pricing and the cost field: they depend on foreign systems or add easy members.
- Pruning of the offsets of files that vanished, and the agent's lock file: a pruned file would be sighted anew, and a stale lock does not exclude a second agent.
