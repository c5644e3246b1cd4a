# pi4_AP: the capture node, verified

pi4_AP runs on a Raspberry Pi beside a device under test. It writes every byte of the device's serial console to a raw
log, and fans the same bytes out: to TCP clients, to console views in browsers, and through a parser whose snapshots and
deltas are folded back together by a store on the node and by a reducer in every browser.

This project models that pipeline in Dafny and proves what it is for:

- **Snapshots converge.** Parser, store, fan-out and browser are one replicated-state protocol with a producer thread,
  two bounded drop-oldest buffers, a join step and a documented duplicate delivery. In every interleaving, a browser that
  joins at any moment ends with the store's snapshot, and that is the parser's open snapshot, and that is "the last value
  per key since the last header" read off the console lines. Every reachable state can be drained, and where the code's
  shortcuts break convergence the exact condition is proved.
- **The raw log is exact.** Whatever the chunking, the short writes and the failures, a session's segments are the
  slices of its stream, whatever the device; with increasing segment times, what pruning leaves over any sequence of
  sessions is a suffix of everything ever logged; as long as no deletion fails the disk stays within its bound.
- **Nothing below the raw log can harm it**: two nodes that read the same and whose log devices answer alike have the
  same logs, whoever listens. The lines the console shows do not depend on chunking or on captures.
- **The small concurrent protocols** (batcher, bridge queues, rings, command captures, the reset between sessions) lose
  and reorder nothing they do not say they lose.

`dafny verify dfyconfig.toml` checks everything.

## How it is laid out

| file | what it holds |
|---|---|
| `Common.dfy` | options, "last N", joining, subsequences |
| `Snapshots.dfy` | snapshots, deltas, the two appliers, the delta builder, and the algebra of event runs |
| `SnapshotStore.dfy` | the node's history and the browser's copy of it |
| `SysMonParser.dfy`, `ParserStoreAgreement.dfy`, `CapabilityWait.dfy`, `ParserEvents.dfy` | the parser; what the store holds in terms of lines; the capability wait; every other event in terms of lines |
| `WebSocketManager.dfy`, `NodeProtocol.dfy` | the fan-out: its critical sections, and all their interleavings |
| `Convergence.dfy`, `Draining.dfy`, `EndToEnd.dfy` | what every step keeps; progress and the exact price of skips and restarts; from line to browser |
| `ConsoleConvergence.dfy`, `SessionReset.dfy` | the console in every interleaving; what can surface after a reset |
| `NodeApp.dfy` | the wiring of one node: line to consumers, replay, and the reset between sessions |
| `LogDirectory.dfy`, `LogLayout.dfy` | names, times and deletion order; segments and streams |
| `LogMachine.dfy`, `LogInvariant.dfy`, `LogOutcomes.dfy`, `LogRuns.dfy`, `RawLog.dfy` | the log writer as functions of its device's answers; what each keeps; when each succeeds; all runs; the class that is those functions |
| `LineAssembly.dfy`, `SerialReader.dfy` | lines from chunks; the read loop |
| `Lifecycle.dfy`, `Capture.dfy` | open, close, release, reacquire, write; command captures |
| `ConsoleBatcher.dfy`, `ConsoleViews.dfy`, `TcpBridge.dfy` | the timer protocol; ring and console view; the per-client queue |

Objects whose methods update fields are classes, and each method is tied by its `ensures` to a function of the old state
(`Accept`, `Drain`, `ParseStep`, `Reduce`, `Dispatch`, `Wrote`, ...). The theorems are about those functions. Where
threads interleave, each lock-protected section, or stretch of loop code without an await, is one step of a relation
built from the same functions, and theorems quantify over all runs. The outside world is explicit: the log's device is an
oracle (`LogMachine.Device`) that answers the n-th write, creation, sync, file operation and clock reading; other failures
are in-parameters or steps.

## Where the code needs a hypothesis

- **Repeated header.** A delta has no list of removed memory keys, so a header that repeats the one before it (same
  count, same time stamp) leaves old memory keys in the store. `DeltaRoundTrip` and `StoreIsOpenSnapshotIff` say exactly
  when the copies agree; `RepeatedHeaderKeepsStaleMemory` is a concrete log on which they do not. Without the hypothesis
  count, time stamp, cpu and wifi still agree and the store's memory holds more (`StoreAfterContent`). The comment in
  the parser that memory keys never disappear is true of one snapshot, not of two with the same header.
- **Equal modification times.** Pruning sorts by (time, name), and by name a later part comes before the first segment.
  `DeletionKeepsTailIff` says exactly when deletion along that order keeps a suffix: when the sort key puts the closed
  files in the order of their birth. `EqualTimesBreakTheTail` is a directory of one session for which it does not.
  `LogRuns.RetainedTail` carries that over whole runs: the tail is kept if the sort key followed the births at every
  prune that had something to delete. `SegmentTimesSuffice` says what is enough for that: a directory in order to start
  with, and segment times, each the time of its segment's last change, that strictly increase. The clock may stand still
  over any number of changes of one segment, and over a rotation, but it must not fall.
- **The no-listener shortcut.** With no sockets, events are skipped although older ones may still be queued.
  `SkipConvergesIff` and `SkipConvergesForEveryFullIff` say exactly when that is harmless: when only inert events are on
  their way. Otherwise `SkipMisleadsNewcomer` leads the next browser to a snapshot that is not the store's, with the
  pipeline drained and no drop counted, and `NoListenerShortcutRegresses` does so from the start for any two snapshots.
- **A restart with a browser connected.** `open_serial` empties the store but neither the sockets' queues nor the
  browsers. `RestartConvergesIff` says exactly when that is harmless: when no full update is on its way and no connected
  browser holds a snapshot; `RestartLeavesOldSnapshot` is a run in which one does. The first full update of the new
  session repairs it (`RecoveryAfterLoss`, `FirstSnapshotEventIsFull`).
- **A reset while something is on its way.** A timer may have swapped a batch out and not emitted it yet when
  `open_serial` clears the ring. `ResetIsCleanIff` says exactly when nothing of the old session can surface in the new one;
  `OldBatchSurfaces` and `OldSnapshotReachesNewcomer` are the failing runs.
- **Overtaking flushes.** The batcher emits outside its lock. `DeliveryInOrderIff` says that batches are delivered in
  swap order exactly when none overtakes an older one; `ScreensConverge` asks for one thread at a time between ring and
  pipeline, for a ring read while no batch is in flight (`DoubledBatchUnseenIff` says what one in flight costs), and for no
  batch to be shed. A browser that stays connected over a clear keeps its old lines (`ClearHarmlessIff`).
- **Terminated parts longer than the cap** make the console depend on chunking, and nothing else does
  (`ChunkingDoesNotMatterIff`).
- **The reader thread cannot be started, or the old device cannot be closed.** `SerialWorker.Open` and
  `SerialWorker.Reacquire` say, from the entry state and what the world does, exactly when a failed call leaves a device or
  a log behind; `FailedOpenLeavesDevice` and `FailedReacquireHoldsPort` are such calls.

## Model

| member | source | states |
|---|---|---|
| Convergence.JoinConvergence | backend/app/websocket/ws_manager.py:62-169 | in every interleaving of observing, emitting, draining, broadcasting socket by socket, joining, leaving and restarting in which no snapshot event that matters is lost and no restart finds an old snapshot to show, a drained pipeline leaves every connected browser, whenever it joined, with the store's snapshot |
| Convergence.ZeroDropsMeansConvergence | backend/app/websocket/ws_manager.py:55-148 | the same from what can be observed: drop counter zero, no snapshot event skipped while an older one was on its way, and every restart finding no full update on its way and no browser with a snapshot |
| Convergence.UncountedRunIsLossless | backend/app/websocket/ws_manager.py:127-147 | in runs without such skips and restarts the drop counter never falls, and if it does not rise nothing that matters is lost |
| Convergence.RestartConvergesIff | backend/app/api/serial_api.py:68-71 | a restart keeps convergence if and only if no full update is on its way and no connected browser holds a snapshot |
| Convergence.RecoveryAfterLoss | backend/app/websocket/ws_manager.py:67-76 | from any reachable state, whatever was lost, one full update that is stored and not lost later brings every browser back to the store |
| Convergence.StepKeepsConverging | backend/app/websocket/ws_manager.py:84-148 | the invariant behind it: each step that loses nothing that matters keeps "baseline plus what this socket is still owed folds to the store" |
| Convergence.CutIsHarmless | backend/app/websocket/ws_manager.py:127-129 | a stretch may go missing from a backlog if it holds no snapshot event, if a full follows it, or if nothing older is on its way and nobody listens |
| Convergence.LaterEventKeepsFixpoint | backend/app/main.py:51-56 | because the store folds an event before it is emitted, the new event at the end of the backlog brings every follower to the new store |
| Convergence.SendKeepsConverging | backend/app/websocket/ws_manager.py:99-105 | sending the event to one socket settles that socket's debt and nobody else's, in the middle of a broadcast as well; a socket whose send raises drops out |
| Convergence.JoinReadKeepsConverging | backend/app/websocket/ws_manager.py:84-94 | a socket added before its replay is read is owed what is still on its way, which the replay absorbs |
| Convergence.SubmitKeepsConverging | backend/app/websocket/ws_manager.py:126-134 | accepting an event, with the oldest shed if the ingress is full, keeps convergence unless the shed event matters |
| Convergence.DrainKeepsConverging | backend/app/websocket/ws_manager.py:150-169 | moving the ingress to the bounded queue keeps convergence unless an event shed there matters |
| Convergence.CheckKeepsConverging | backend/app/websocket/ws_manager.py:121-128 | skipping an event for want of listeners keeps convergence if nothing older that matters is on its way |
| Convergence.LoopClosedKeepsConverging | backend/app/websocket/ws_manager.py:139-148 | so does giving up the ingress when the loop is closed |
| Convergence.ObservedFullConverges | frontend/src/api/websocket.ts:152-156 | a full update just stored makes any state whatever convergent |
| Draining.Drainable | backend/app/websocket/ws_manager.py:62-169 | from every reachable state the node's own steps lead to one with nothing on its way, with the same store and drop counter, in which every connected browser has been sent exactly what it was owed |
| Draining.ConvergingIsExact | backend/app/websocket/ws_manager.py:84-148 | the invariant says no more than needed: it holds if and only if the drained node leaves every connected browser, and one that joins now, with the store |
| Draining.NewcomerEndsWith | backend/app/websocket/ws_manager.py:83-94 | a browser that joins now can end, nothing lost any more, with what the backlog makes of the store |
| Draining.SkipConvergesIff | backend/app/websocket/ws_manager.py:124-128 | skipping one event for want of listeners is harmless if and only if what is still on its way leaves the new store alone |
| Draining.SkipConvergesForEveryFullIff | backend/app/websocket/ws_manager.py:124-128 | skipping whatever full update comes next is harmless if and only if only inert events are on their way |
| Draining.SkipMisleadsNewcomer | backend/app/websocket/ws_manager.py:124-128 | from any state with anything else on its way, some next full update is skipped so that a browser that joins then ends with something other than the store, drained, with no drop counted |
| Draining.RestartLeavesOldSnapshot | backend/app/api/serial_api.py:68-71 | for any snapshot a run after which store and pipeline are empty, nothing was dropped, and a browser shows that snapshot of the old session |
| EndToEnd.NoListenerShortcutRegresses | backend/app/websocket/ws_manager.py:124-128 | for any two snapshots a run from the start after which a browser shows the older one with the pipeline drained and no drop counted; the exact condition is in the rows of `SkipConvergesIff` and its neighbours |
| EndToEnd.BrowserShowsOpenSnapshot | backend/app/main.py:45-84 | from lines to browser: after a full update got through, a drained pipeline leaves every browser with the parser's open snapshot in header, cpu and wifi, with at least its memory, and exactly it if and only if no memory key is left over from a repeated header |
| EndToEnd.StoreIsSession | backend/app/main.py:51-56 | under every interleaving the store is the fold of what the reader observed since the last restart |
| Snapshots.HarmlessToAllIffInert | backend/app/services/snapshot_store.py:32-51 | a stretch of events is without effect on every consumer exactly when it holds only empty deltas and non-snapshot events |
| Snapshots.HarmlessToFullsIffInert | backend/app/services/snapshot_store.py:32-51 | the same for every consumer that holds a snapshot |
| Snapshots.FoldNoneIff | backend/app/services/snapshot_store.py:69-73 | a consumer without a snapshot stays without one exactly as long as no full update comes |
| Snapshots.SuffixReplayAbsorbed | backend/app/websocket/ws_manager.py:76-82 | delivering any suffix of the folded events once more changes nothing: the documented duplicate is harmless for snapshots |
| Snapshots.FoldBand | backend/app/services/snapshot_store.py:32-51 | what an event run does makes the same run before it superfluous, whatever lies between, no-baseline case included |
| Snapshots.FoldIsEffect | backend/app/services/snapshot_store.py:32-75 | any run of fulls and deltas does what one composed full or delta does |
| Snapshots.FullForgets | frontend/src/api/websocket.ts:148-156 | after a full update two consumers agree whatever they held before |
| Snapshots.DeltaRoundTrip | backend/app/parser/sysmon_parser.py:307-344 | applying the delta to the old snapshot gives the new one if and only if the new one has all old memory keys |
| Snapshots.DeltaIsMinimal | backend/app/parser/sysmon_parser.py:301-344 | a delta carries no unchanged key, never removes what it sets, and is empty exactly when it would change nothing |
| Snapshots.MergeSectionInPlace | backend/app/services/snapshot_store.py:43-50 | one section: incoming keys win, removed ones are gone unless incoming, all others stay |
| Snapshots.ApplySnapshotDelta | backend/app/services/snapshot_store.py:32-51 | the node's applier computes the common meaning of a delta |
| Snapshots.ApplyInBrowser | frontend/src/api/websocket.ts:204-237 | the browser's applier, written differently, computes the same snapshot |
| ParserStoreAgreement.StoreIsOpenSnapshotIff | backend/app/parser/sysmon_parser.py:290-331 | after a content line the store is the open snapshot if and only if every stored memory key was reported again since the last header |
| ParserStoreAgreement.StoreAfterContent | backend/app/parser/sysmon_parser.py:110-176 | after every content line of any log the store is what the lines say key by key: cpu and wifi since the last header, memory since the last header that differs from its predecessor |
| ParserStoreAgreement.StoreIsOpenSnapshot | backend/app/services/snapshot_store.py:62-86 | without a header that repeats the one before it, store and open snapshot agree after every content line |
| ParserStoreAgreement.RepeatedHeaderKeepsStaleMemory | backend/app/parser/sysmon_parser.py:325-331 | four lines after which the store holds a memory key the open snapshot does not |
| ParserStoreAgreement.AgreementAlways | backend/app/parser/sysmon_parser.py:284-305 | over every line sequence the parser's memory of what it sent mirrors the store, and its open snapshot is the lines' last values |
| ParserStoreAgreement.FeedKeepsOpenMatching | backend/app/parser/sysmon_parser.py:127-176 | each line changes the open snapshot as "last value per key since the last header" demands |
| CapabilityWait.WaitIsTransparent | backend/app/parser/sysmon_parser.py:113-125 | all other events and the rest of the parser's state are those of the same lines without the markers and the payloads the wait consumed |
| CapabilityWait.CounterInRange | backend/app/parser/sysmon_parser.py:113-125 | while waiting the counter is in 1..100 |
| CapabilityWait.WaitEndsOnTime | backend/app/parser/sysmon_parser.py:123-125 | the wait lasts for exactly as many unconsumed non-marker lines as the counter says, counting down one by one |
| CapabilityWait.FirstSnapshotEventIsFull | backend/app/api/serial_api.py:65-71 | after a reset no delta is emitted before a full update |
| CapabilityWait.CapabilityEventsAreInert | backend/app/parser/sysmon_parser.py:183-193 | capability events never reach the stored snapshot |
| ParserEvents.SessionAnnounces | backend/app/parser/sysmon_parser.py:110-280 | over a whole session the identities announced are those told by hinted lines no radio claims, consecutive repeats dropped; the client lists are the readable ones with the radio announced for them; the capabilities are the payloads that answer a marker in time; and the parser keeps the last identity |
| ParserEvents.IdentityEventsAreTheNews | backend/app/parser/sysmon_parser.py:195-233 | identity events, in order, are exactly the changes among the identities told |
| ParserEvents.ClientEventsAreTheLists | backend/app/parser/sysmon_parser.py:237-267 | client events, in order, are exactly the readable lists whose radio was announced |
| ParserEvents.CapabilityEventsAreTheAnswers | backend/app/parser/sysmon_parser.py:113-125 | capability events, in order, are exactly the payloads awaited, and the parser keeps the last |
| ParserEvents.RadioIsAnnounced | backend/app/parser/sysmon_parser.py:137-147 | a radio is pending if and only if some line announced it and no header, announcement or brace line came since |
| ParserEvents.WaitIsAwaited | backend/app/parser/sysmon_parser.py:113-125 | the parser waits if and only if a marker came, fewer than 100 lines since, and among them no marker and no payload |
| ParserEvents.EventsAreEconomical | backend/app/parser/sysmon_parser.py:290-305 | a full update comes exactly when the header is new to the store, and a delta never touches the header and never is empty |
| SysMonParser.SysMonParser.Feed | backend/app/parser/sysmon_parser.py:110-176 | the parser with its early returns and nested branches is the step function, in state and in emitted events |
| SysMonParser.SysMonParser.ConsumeClientsJson | backend/app/parser/sysmon_parser.py:237-280 | the radio is cleared in every case; a readable list is announced, and stored and published if a snapshot is open |
| SysMonParser.SysMonParser.EmitSnapshotUpdate | backend/app/parser/sysmon_parser.py:290-305 | full at a boundary, delta for a difference, nothing otherwise; what was sent is remembered only if something was |
| SysMonParser.SysMonParser.EmitCurrentSnapshot | backend/app/parser/sysmon_parser.py:284-288 | the open snapshot is published and then closed |
| SysMonParser.SysMonParser.Reset | backend/app/parser/sysmon_parser.py:80-89 | the parser is as at its start and nothing is emitted |
| NodeProtocol.PipelineAlwaysOk | backend/app/websocket/ws_manager.py:99-169 | in every reachable state ingress and queue hold at most 64 events each, what is broadcast is an in-order selection of what was accepted, accepted = broadcast + on its way + dropped, a non-empty ingress has a drain coming, and joining and broadcasting exclude each other |
| NodeProtocol.StepKeepsWakeup | backend/app/websocket/ws_manager.py:132-148 | the scheduled flag is set exactly while one callback is posted or one thread is about to post it, on the closed-loop path as well |
| NodeProtocol.StepKeepsOrder | backend/app/websocket/ws_manager.py:110-119 | no step reorders or repeats an accepted event |
| NodeProtocol.RoundDelivers | backend/app/websocket/ws_manager.py:99-108 | a broadcast nobody disturbs, send by send and in whatever order, does what the method `Broadcast` states |
| WebSocketManager.WebSocketManager.AcceptLocked | backend/app/websocket/ws_manager.py:126-134 | the newest 64 events stay, a shed one is counted, and whoever finds nothing scheduled must schedule |
| WebSocketManager.WebSocketManager.EmitFromThread | backend/app/websocket/ws_manager.py:121-148 | nothing happens without listeners; otherwise the event is accepted, or everything is counted as dropped when the loop is closed |
| WebSocketManager.OfferedThen | backend/app/websocket/ws_manager.py:121-148 | emitting events one after the other does to the pipe what its closed form says of all of them: nothing without listeners, all counted with a closed loop, else the newest 64 kept and each shed one counted |
| WebSocketManager.WebSocketManager.DrainIngress | backend/app/websocket/ws_manager.py:150-169 | the loop that pushes events one by one leaves the newest 64 of queue and ingress and counts each shed event once |
| WebSocketManager.WebSocketManager.Broadcast | backend/app/websocket/ws_manager.py:99-108 | every socket gets the event once, except those whose send raises, which are gone afterwards |
| WebSocketManager.WebSocketManager.Connect | backend/app/websocket/ws_manager.py:83-94 | the new socket has exactly the replay, or is gone if a send failed; the others are untouched |
| SnapshotStore.SnapshotStore.Observe | backend/app/services/snapshot_store.py:62-89 | after any event sequence the current snapshot is its fold and the history is the last N of the state sequence with each run of equal counts collapsed to its last state |
| SnapshotStore.SnapshotStore.Recent | backend/app/services/snapshot_store.py:91-96 | the newest entries of that history, all of it for a non-positive limit |
| SnapshotStore.SnapshotStore.Latest | backend/app/services/snapshot_store.py:98-100 | the fold of everything observed since the last clear |
| SnapshotStore.SnapshotStore.Clear | backend/app/services/snapshot_store.py:102-105 | history and baseline are empty, as if nothing had been observed |
| SnapshotStore.HistoryStep | backend/app/services/snapshot_store.py:79-86 | replace-last-or-append on the bounded list is one more state in the collapsed sequence |
| SnapshotStore.BoundedNeighboursDiffer | backend/app/services/snapshot_store.py:81-86 | adjacent entries never share a test count |
| SnapshotStore.HistoryEndsInCurrent | backend/app/services/snapshot_store.py:77-86 | the history ends in the current snapshot, in every update of it |
| SnapshotStore.NoTestTimeIsMissing | backend/app/services/snapshot_store.py:77-86 | what the store held before it went on to other test times for good is in the collapsed history, as it was last |
| SnapshotStore.BrowserHistoryIsNodeHistory | frontend/src/monitoring/useDutMonitor.ts:103-109 | a browser that backfilled the history and upserts every later state holds the node's history |
| SnapshotStore.ReplayedStateIsAbsorbed | backend/app/main.py:163-165 | the snapshot replayed at connect time adds nothing to a backfilled history |
| SessionReset.ResetIsCleanIff | backend/app/api/serial_api.py:61-71 | after the reset, and before the port delivers anything new, nothing of the old session can reach ring, store or a connected browser, whatever threads, loop and browsers do, if and only if no batch is between swap and emission and no event is on its way that a connected or joining browser can still be sent |
| SessionReset.OldBatchSurfaces | backend/app/services/console_batcher.py:43-54 | for any line a run in which a timer's batch, swapped out before the reset, enters the new session's ring |
| SessionReset.OldSnapshotReachesNewcomer | backend/app/api/serial_api.py:68-71 | with an old full update still queued and the store empty, a browser that joins ends with an old snapshot |
| ConsoleConvergence.ScreensConverge | backend/app/main.py:172-174 | in every interleaving that keeps to the guards named above, over any number of sessions, once no batch is on its way every browser that was replayed the ring since the last clear, or showed nothing at it, shows exactly the ring, whenever it joined |
| ConsoleConvergence.ClearHarmlessIff | backend/app/services/console_ring.py:53-55 | clearing the ring leaves a connected browser in step if and only if it shows nothing and no console line is on its way to it |
| ConsoleConvergence.StepKeepsScreens | backend/app/websocket/ws_manager.py:99-169 | each step keeps, for every replayed browser, that ring = what it was replayed, sent and is owed, and what the one emitting thread holds, cut to the newest lines |
| ConsoleViews.ViewsAgree | frontend/src/monitoring/useDutMonitor.ts:137-143 | a browser seeded from the ring and one connected throughout show the same lines after the same live events, and so does the ring |
| ConsoleViews.InFlightBatchShowsTwice | backend/app/websocket/ws_manager.py:76-82 | what is in the ring and still on its way is shown twice, exactly that and nothing else |
| ConsoleViews.DoubledBatchUnseenIff | backend/app/websocket/ws_manager.py:76-82 | the doubled batch goes unseen, whatever came before and after and however many lines are kept, if and only if it has no lines |
| ConsoleViews.ShownIsLastN | frontend/src/monitoring/useDutMonitor.ts:137-143 | trimming after each batch shows the last N of all lines |
| ConsoleViews.ConsoleRing.Observe | backend/app/services/console_ring.py:29-43 | the ring is always the last N lines of all batches since the last clear |
| ConsoleViews.ConsoleRing.Recent | backend/app/services/console_ring.py:45-51 | the newest lines of it, all for a non-positive limit |
| ConsoleViews.ConsoleRing.Clear | backend/app/services/console_ring.py:53-55 | nothing is left, as if nothing had been observed |
| ConsoleBatcher.AlwaysOk | backend/app/services/console_batcher.py:37-84 | under every interleaving of feed, flush, emission, reset and timers that fire too late to be cancelled, the lines fed since the last reset are the batches in swap order and then the pending list, no batch is empty, pending is non-empty exactly while a timer is armed that will still run, and every batch is emitted once or still being emitted |
| ConsoleBatcher.DeliveryInOrderIff | backend/app/services/console_batcher.py:45-52 | batches are delivered in swap order if and only if none is emitted while an older one still is |
| ConsoleBatcher.DeliveredOnce | backend/app/services/console_batcher.py:43-54 | once nothing is being emitted every batch was delivered exactly once, and in order if none was overtaken |
| ConsoleBatcher.NoOverlapNoOvertaking | backend/app/services/console_batcher.py:45-52 | flushes that do not overlap do not overtake |
| ConsoleBatcher.TimersDrain | backend/app/services/console_batcher.py:72-84 | whichever timer gets its turn empties the list into one batch, and pending lines always have one coming |
| ConsoleBatcher.ConsoleBatcher.Feed | backend/app/services/console_batcher.py:37-41 | the line is appended and a timer armed unless one is |
| ConsoleBatcher.ConsoleBatcher.Flush | backend/app/services/console_batcher.py:43-54 | the whole pending list becomes one batch, or nothing is emitted |
| ConsoleBatcher.ConsoleBatcher.Reset | backend/app/services/console_batcher.py:56-61 | pending lines are dropped and the timer is cancelled |
| NodeApp.NodeApp.OnEvent | backend/app/main.py:51-56 | one event is handed to the ring, then to the store, then to the sockets; ring and store fold it, and the pipe skips it, accepts it or gives it up with the ingress, depending on listeners and loop |
| NodeApp.NodeApp.FlushConsole | backend/app/services/console_batcher.py:43-54 | an undisturbed flush empties the pending list, its batch reaches ring, store and sockets whole and in this order, and batches other threads are emitting stay with them |
| NodeApp.NodeApp.RetireSession | backend/app/api/serial_api.py:65-71 | the trailing line's events and the last batch still go out, then the reset order leaves ring, history, pending list, timer, store and parser as at the start; what it leaves on its way is the subject of `SessionReset` |
| NodeApp.NodeApp.DispatchLine | backend/app/main.py:61-77 | one line goes to the batcher once, and the parser's events for it go to ring, store and sockets, each event to all three in this order before the next; with listeners the pipe keeps the newest 64 and counts the rest, without it is untouched, and with a closed loop everything is counted; store and parser stay in step with the session's lines |
| NodeApp.NodeApp.EmitAll | backend/app/main.py:51-56 | a series of events passes ring, store and sockets one by one, and the pipe takes it as a whole would be taken |
| NodeApp.NodeApp.ReplayEvents | backend/app/main.py:150-175 | a joining browser is sent the node's snapshot, identity, capabilities and console, each only if there is one |
| NodeApp.ReplayHolds | backend/app/main.py:150-175 | the replay holds snapshot, identity, capabilities and console lines exactly if there are any, each once, and nothing else |
| NodeApp.ReplayCarriesSnapshot | backend/app/main.py:153-156 | a browser that folds the replay and then live events holds what one starting from the node's snapshot holds |
| NodeApp.ReplayCarriesConsole | backend/app/main.py:172-174 | the same for the console lines it shows |
| NodeApp.StoreShowsOpenSnapshot | backend/app/main.py:61-77 | for the wired node: after a content line the store is the parser's open snapshot if and only if no memory key is left over |
| LogRuns.RetainedTail | backend/app/serial/serial_worker.py:465-483 | at any moment of any sequence of sessions, chunks, short writes, rotations, failing operations and prunes, the files left, joined as listed, are a suffix of every byte ever logged, if the sort key follows the births now and followed them for the closed files at every prune with something to delete |
| LogRuns.SegmentTimesSuffice | backend/app/serial/serial_worker.py:465-483 | strictly increasing segment times over the whole run, from a directory in order, give that condition; the clock may stand still within a segment and over a rotation |
| LogRuns.DiskBound | backend/app/serial/serial_worker.py:465-493 | in a session, as long as no file operation of a prune fails, the total is at most the cap right after the start, each rotation and the close, and at most the cap plus one segment at any moment of it and after it, whatever the times and the failing syncs, writes and creations |
| LogRuns.DiskBoundBetween | backend/app/serial/serial_worker.py:380-493 | and it stays at most the cap plus one segment over any further sessions, startable or not |
| LogRuns.SessionAddsItsStream | backend/app/serial/serial_worker.py:380-438 | a session adds exactly its stream to everything logged before it, or nothing if it could not start |
| LogRuns.SameBytesSameSegments | backend/app/serial/serial_worker.py:421-463 | two sessions given the same bytes, in whatever chunks and through whatever short writes of their devices, have the same segments if nothing was raised |
| LogOutcomes.WriteSucceedsIff | backend/app/serial/serial_worker.py:421-448 | a log write raises nothing if and only if the log is open, every write it asked for was answered with at least one byte and no more than was offered, every sync and creation was granted, every part name was free, and the periodic sync succeeded if due; short writes are progress |
| LogOutcomes.SlowDeviceLogsAll | backend/app/serial/serial_worker.py:426-436 | a device that takes one byte at a time and denies nothing has all of the data in the log, through any number of rotations |
| LogOutcomes.RotateSucceedsIff | backend/app/serial/serial_worker.py:450-463 | a rotation succeeds if and only if both syncs and the creation are granted and the next name is free, and then it asked for exactly these |
| LogOutcomes.StartSucceedsIff | backend/app/serial/serial_worker.py:391-418 | a session starts if and only if one of the 99 names is free and the creation and the first sync are granted |
| LogOutcomes.ClaimSucceedsIff | backend/app/serial/serial_worker.py:391-402 | the name claimed is the first free one in order |
| LogOutcomes.CloseSucceedsIff | backend/app/serial/serial_worker.py:485-493 | a close raises nothing if and only if the log is not open or its sync is granted, and prunes exactly in the second case |
| LogOutcomes.PartNamesDiffer | backend/app/serial/serial_worker.py:457 | a session's parts never get each other's names |
| LogOutcomes.TriedNamesDiffer | backend/app/serial/serial_worker.py:391-393 | the names a session tries are all different |
| LogRuns.SessionKeeps | backend/app/serial/serial_worker.py:380-493 | over a whole session layout, files and bound hold, the order of times survives increasing segment times, and what is logged is a prefix of what was read |
| LogRuns.WroteAllBound | backend/app/serial/serial_worker.py:421-438 | while a chunk is written at most one segment's worth of bytes is on disk that no prune has seen |
| LogRuns.PrunedInOrder | backend/app/serial/serial_worker.py:465-483 | a prune keeps the files the youngest ones ever created, and their times in order |
| LogRuns.EmptyDiskIsInOrder | backend/app/serial/serial_worker.py:69-84 | a node that starts on an empty directory meets the hypothesis |
| LogInvariant.PruneDeletesPrefix | backend/app/serial/serial_worker.py:465-483 | deleted is the shortest oldest-first prefix of the closed files that brings the total under the cap, the current file spared |
| LogInvariant.PruneFailsIff | backend/app/serial/serial_worker.py:480-483 | a prune falls short exactly if the listing or one of its deletions failed |
| LogInvariant.PruneMeetsCap | backend/app/serial/serial_worker.py:80-81 | a prune that does not fail meets the cap, because even alone the current segment fits it |
| LogInvariant.WroteAllKeeps | backend/app/serial/serial_worker.py:421-438 | a chunk is logged as an exact prefix, all of it unless an error is raised, and layout, files and bound survive |
| LogInvariant.GrownKeeps | backend/app/serial/serial_worker.py:431-436 | accepted bytes extend the last segment, the stream and the counters by the same amount |
| LogInvariant.RotatedKeeps | backend/app/serial/serial_worker.py:450-463 | a rotation adds one empty segment behind full ones, or fails, and changes no logged byte |
| LogInvariant.SwitchedFiles | backend/app/serial/serial_worker.py:456-459 | the next part gets the session's next number and a name no file has, or nothing is created; no existing file is touched |
| LogInvariant.ClaimedKeeps | backend/app/serial/serial_worker.py:391-402 | a session claims a name no file has, or changes nothing |
| LogInvariant.StartedKeeps | backend/app/serial/serial_worker.py:380-419 | a session starts with one empty new segment, or there is no open log |
| LogInvariant.ClosedKeeps | backend/app/serial/serial_worker.py:485-493 | a close keeps every byte and leaves no open log, and prunes unless the sync raised |
| LogLayout.LayoutIsDetermined | backend/app/serial/serial_worker.py:421-438 | two canonical layouts of the same bytes are the same: chunking and short writes cannot be seen in the log |
| LogLayout.SegmentIsSlice | backend/app/serial/serial_worker.py:426-436 | segment i of a canonical layout holds exactly bytes i*S to (i+1)*S of the stream |
| LogDirectory.ListingIsUnique | backend/app/serial/serial_worker.py:468-469 | the sort key is total on names: there is one listing |
| LogDirectory.StrictTimesSortByBirth | backend/app/serial/serial_worker.py:469 | strictly increasing modification times suffice for the condition |
| LogDirectory.DeletionKeepsTailIff | backend/app/serial/serial_worker.py:469-479 | deleting along the listing leaves a suffix wherever it stops if and only if the sort key puts the closed files in the order of their birth |
| LogDirectory.RetainedTailIsSuffix | backend/app/serial/serial_worker.py:468-479 | the contents of a retained tail in listing order are the last part of everything written |
| LogDirectory.ListingIsBirthOrder | backend/app/serial/serial_worker.py:469 | a listing that follows births has no gap: position i holds the file born i after the oldest left |
| LogDirectory.PartSortsBeforeFirstSegment | backend/app/serial/serial_worker.py:457 | by name every later part of a session comes strictly before its first segment |
| LogDirectory.EqualTimesBreakTheTail | backend/app/serial/serial_worker.py:469 | a session's directory with two equal times in which the first deletion leaves a gap |
| LogDirectory.ListLogs | backend/app/serial/serial_worker.py:468-469 | the listing holds every file once, sorted by time and then name |
| RawLog.SessionLayout | backend/app/serial/serial_worker.py:421-463 | of any valid writer: each segment of the session is its slice, all but the last are full, every file of it still on disk holds that slice, and the byte counter is the length of the stream, pruned segments included |
| RawLog.RawLogWriter.constructor | backend/app/serial/serial_worker.py:80-84 | the limits are forced to at least one byte and to cap at least segment |
| RawLog.RawLogWriter.WriteLogRaw | backend/app/serial/serial_worker.py:421-438 | the method is the function `Wrote` of the old state and the device; it raises nothing exactly if the log is open and all it asked the device for was granted, short writes included; what is logged is an exact prefix, all of it then; order and bound survive; the loop terminates |
| RawLog.RawLogWriter.WriteSome | backend/app/serial/serial_worker.py:426-436 | one round of rotation and short write is the function the invariants are about |
| RawLog.RawLogWriter.Rotate | backend/app/serial/serial_worker.py:450-463 | so is a rotation, in state and in whether it raises |
| RawLog.RawLogWriter.ClaimName | backend/app/serial/serial_worker.py:391-402 | so is the loop over a time stamp and its 98 suffixes |
| RawLog.RawLogWriter.StartSession | backend/app/serial/serial_worker.py:380-419 | the method is the function `Started`; it succeeds exactly if a name is free and creation and first sync are granted; the new file is no older one, the cap is met unless a file operation of the prune failed, and the order survives |
| RawLog.RawLogWriter.Prune | backend/app/serial/serial_worker.py:465-483 | listing, summing and deleting in place is the function `Pruned` |
| RawLog.RawLogWriter.DeleteOldest | backend/app/serial/serial_worker.py:470-479 | the loop with its running total stops where the function over directory totals stops |
| RawLog.RawLogWriter.CloseSession | backend/app/serial/serial_worker.py:485-493 | the log is closed in every case and its bytes stay; it raises exactly if the sync is denied; the cap is met unless the sync or a file operation of the prune failed |
| SerialReader.SerialReader.ReadLoop | backend/app/serial/serial_worker.py:284-332 | the loop goes on over time-outs and empty reads until a read fails or the log raises, and if the log does not, it holds everything read before the first failure; log, turns, outcome and partial chunk are a function of what is read and what the log's device answers, without any consumer in it; bridge and console only ever get what is logged already; the lines are a function of the chunks and of when the consumer raises, without any capture in it |
| SerialReader.ReadRunEnds | backend/app/serial/serial_worker.py:285-318 | no read before the end failed, and the loop ends at the end of the input, at a failing read, or at a chunk whose log write raised |
| SerialReader.SameLogWhoeverListens | backend/app/serial/serial_worker.py:309-332 | two nodes that read the same and whose log devices answer alike end with equal logs, pending lines and hand-overs, however their bridges, consoles and captures behave; with consoles that raise alike the lines are equal too |
| SerialReader.ConsoleIsAssembly | backend/app/serial/serial_worker.py:351-358 | what is pending never depends on the consumer, and one that never raises gets exactly the assembled lines |
| SerialReader.SerialReader.HandleChunk | backend/app/serial/serial_worker.py:309-332 | log, bridge, console in this order; if the log write fails the others see nothing of the chunk |
| SerialReader.SerialReader.DispatchLines | backend/app/serial/serial_worker.py:334-358 | pending is settled before a consumer runs; the lines go out up to the first that raises |
| SerialReader.SerialReader.DeliverLines | backend/app/serial/serial_worker.py:351-358 | the number of lines handed over is determined by the lines and the raising consumer alone; a capture copies exactly those that pass while it is active |
| SerialReader.HandedOverEnds | backend/app/serial/serial_worker.py:351-358 | no line but the last one handed over raised, and lines are kept back only because that one did |
| SerialReader.CapturedExtremes | backend/app/serial/serial_worker.py:351-356 | a capture active throughout copies every line, and without one nothing is copied |
| SerialReader.SerialReader.CutFragments | backend/app/serial/serial_worker.py:345-349 | the fragment loop cuts off cap-sized pieces in order and keeps at most one cap |
| SerialReader.SerialReader.FlushPendingLine | backend/app/serial/serial_worker.py:367-376 | a trailing line is shown once at the end of a session without its trailing carriage returns, an empty one not at all |
| LineAssembly.SessionAccounts | backend/app/serial/serial_worker.py:334-376 | over a whole session, however it is cut into reads, the pieces behind the lines shown and what is pending spell exactly the bytes that came in, and each line accounts for its piece |
| LineAssembly.DispatchAccounts | backend/app/serial/serial_worker.py:336-349 | after one dispatch at most one cap is pending; every byte is in a terminated part, a fragment or pending, and only the tail of a terminated part over the cap is not shown |
| LineAssembly.ChunkingDoesNotMatterIff | backend/app/serial/serial_worker.py:334-376 | every way of cutting the stream into reads shows the same lines if and only if every terminated part fits the cap |
| LineAssembly.CutLongPart | backend/app/serial/serial_worker.py:345-349 | for every stream with a longer part there is a cut that shows more lines |
| LineAssembly.LinesAreTheParts | backend/app/serial/serial_worker.py:334-376 | if no newline-free run exceeds the cap, a session shows exactly the stream's newline-separated parts, each without its trailing carriage returns and with everything else, whatever the chunking |
| LineAssembly.SplitConcat | backend/app/serial/serial_worker.py:336-338 | splitting a stream in two steps, carrying the rest over, is splitting it at once |
| LineAssembly.JoinSplit | backend/app/serial/serial_worker.py:337-338 | the parts with their newlines put back are the stream, and no part holds a newline |
| LineAssembly.StripIsStripped | backend/app/serial/serial_worker.py:339 | exactly the trailing carriage returns go: what is left does not end in one, and every byte behind it is one |
| Lifecycle.SerialWorker.Open | backend/app/serial/serial_worker.py:132-161 | it succeeds exactly if the old device closes and its log syncs, the port opens, a log session can start and a thread can; a failed open leaves neither device nor log exactly unless the old device could not be closed with its log open, or all went well but the reader thread |
| Lifecycle.SerialWorker.Reacquire | backend/app/serial/serial_worker.py:202-216 | it succeeds exactly if the port was released and is known, and everything an open needs is granted; a failed reacquire stays released with port and baud rate, and the released port is in nobody's hands exactly unless all went well but the reader thread |
| Lifecycle.FailedOpenLeavesDevice | backend/app/serial/serial_worker.py:160-161 | a first open that leaves device and log behind |
| Lifecycle.FailedReacquireHoldsPort | backend/app/serial/serial_worker.py:209-216 | after a handoff, a reacquire that calls the port released and holds it |
| Lifecycle.SerialWorker.Release | backend/app/serial/serial_worker.py:189-200 | it succeeds exactly if the port is held, the device closes and the open log syncs, and then neither device nor open log is left; refused exactly when not open, and then nothing changes |
| Lifecycle.SerialWorker.Close | backend/app/serial/serial_worker.py:163-187 | it succeeds exactly if the held device closes and the open log syncs; the device is let go in every case, and the log stays open exactly if the device's close raised |
| Lifecycle.SerialWorker.Connect | backend/app/serial/serial_worker.py:136-161 | it succeeds exactly if port, log session and thread can be had; a session without its raw log does not stay: the device is unwound if the log cannot be started |
| Lifecycle.SerialWorker.WriteRaw | backend/app/serial/serial_worker.py:225-237 | refused exactly when released or closed; otherwise the device gets a prefix of the payload, in order and once, and all of it exactly if every write took at least a byte and no more than was left |
| Lifecycle.SerialWorker.CaptureCommand | backend/app/serial/serial_worker.py:239-280 | one call: a taken gate is waited for; the output is what was delivered while armed, without the sentinel's and the command's own lines, if the sentinel came, and a time-out otherwise; it succeeds exactly if the port is open at both checks, the device takes the whole command in whatever pieces and the sentinel comes; state and gate are given back on every exit |
| Capture.OneCaptureAtATime | backend/app/serial/serial_worker.py:239-280 | however callers, reader and port interleave, at most one call is between arming and clearing, what the capture holds is exactly the lines delivered since it was armed, and once it has written, its command is the last one sent |
| Capture.ClearWhenFree | backend/app/serial/serial_worker.py:270-280 | whenever the gate is free the capture state is clear |
| Capture.CollectReturnsTheLinesSince | backend/app/serial/serial_worker.py:266-278 | a call returns the lines delivered between its arming and its collecting, or times out if the sentinel is not among them |
| Capture.CallGoesThrough | backend/app/serial/serial_worker.py:239-280 | a call that finds the gate free and the port open can always go through, whatever lines come: it ends with their selection if the sentinel is among them, and with a time-out if not |
| Capture.OutputIsSelection | backend/app/serial/serial_worker.py:275-278 | the output is the in-order selection of exactly the lines that neither hold the sentinel nor are the command |
| Capture.GateIsGivenBack | backend/app/serial/serial_worker.py:250-280 | from every reachable state the holder alone, in at most six steps, gives the gate back |
| Capture.StepKeepsCapture | backend/app/serial/serial_worker.py:245-274 | each step keeps that the capture is active exactly while the gate's holder is between arming and clearing, and that done says whether a captured line holds the sentinel |
| TcpBridge.QueueIsContiguousTail | backend/app/serial/tcp_bridge.py:86-106 | however publisher and writer interleave, every chunk the publisher is called with is put into a client's queue in order, the one in hand excepted; the queue is the newest at most 64 of them, the client is sent an in-order selection without repeats, taken + discarded + queued = published, the second Full branch is never reached, and the counter covers every finished discard |
| TcpBridge.StepKeepsOk | backend/app/serial/tcp_bridge.py:91-106 | each step of publisher or writer keeps first-in-first-out, the bound, and the room made for a chunk |
| TcpBridge.TakenInOrder | backend/app/serial/tcp_bridge.py:157-169 | what the writer takes is an in-order selection of what left the queue |
| TcpBridge.TcpSerialBridge.Publish | backend/app/serial/tcp_bridge.py:86-106 | undisturbed, every client keeps its newest 64 chunks and each full queue is counted once |

## Left out

- Regular expressions, JSON and UTF-8 decoding: a console line arrives classified, with what the three JSON readers would make of it; capped and stripped bytes stand for the decoded text.
- Malformed events: an event without a proper snapshot, delta or line list is not representable.
- Floating-point comparison and Python's equality of numbers across types: metrics and identities are opaque values compared for equality.
- Real files, fsync, pyserial, sockets, pseudo-terminals and clocks: their answers are an oracle, in-parameters or steps; the directory is a map from name to bytes, modification time and order of birth, and only matching log files are in it.
- LogRuns.RetainedTail: files deleted, renamed or touched by anybody else are not part of this model.
- LogRuns.DiskBound: promises nothing while the last prune had a failing file operation; the next one that has none brings the bound back.
- SerialReader.SerialReader.ReadLoop: the stop flag is the end of the input, and a failing write of a kind other than an operating-system error is not distinguished.
- Thread-join timeouts and a reader that outlives its session: the old reader is assumed to have stopped.
- Capture.CollectReturnsTheLinesSince: that these lines are all of the command's output is not stated, since an echoing terminal prints the sentinel inside the command line; blanks are space, tab and line ends.
- Lifecycle.SerialWorker.CaptureCommand: one caller's view, with the other callers' effect as in-parameters; the interleavings are `Capture`.
- ConsoleBatcher.AlwaysOk: a timer thread that cannot be started.
- ConsoleConvergence.ScreensConverge: the guards are sufficient; what a ring read with a batch in flight costs is `InFlightBatchShowsTwice`, and both sides have the same cap.
- NodeApp.NodeApp.DispatchLine: a batcher that raises is not modelled; raising consumers are, in `SerialReader`. That the batcher is fed before the parser cannot be seen in it.
- NodeProtocol.PipelineAlwaysOk: the replay's sends are one step, which the send lock justifies, and carry the snapshot only; what else they carry is `NodeApp.ReplayEvents`. Starting and closing the manager are not modelled.
- TcpBridge.QueueIsContiguousTail: accepting and dropping clients, and the bytes they send to the device (which go through `WriteRaw`).
- TcpBridge.TcpSerialBridge.Publish: one call without a writer in between; the interleavings are `QueueIsContiguousTail`.
- Removed-key lists are sets: nothing reads their order.
- The efficiency reports, status calls, the Wi-Fi scan reset in `open_serial`, REST and YAML shapes, React state, charts, reconnect delays, and the line scrapers for Wi-Fi tables: plumbing, or one-step arithmetic.
