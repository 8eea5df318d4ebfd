# Verified model of the receive engine, its stores, its projection and its outbox

A group task list is kept by replaying accepted events. Every device runs, per
group, a receive engine that reads protocol facts (MLS envelopes and one
bootstrap snapshot) from a relay, keeps them in a raw log, turns them into
accepted events in a second log, parks what it cannot decrypt yet, and
remembers a watermark in a checkpoint. A hook folds accepted events into the
projection that is shown, and an outbox publishes local edits and recognises
them when the relay echoes them. The stores have no common transaction, and
almost every operation can be interrupted, so what is proved here is about
every run: crashes between any two durable writes, any interleaving of
suspended continuations, any order of relay replies.

`dafny verify dfyconfig.toml` checks the whole project.

## How the pieces fit

- `TaskDomain`, `TaskProjector`, `StampConvergence`, `BootstrapMerge`: records,
  events, the tie-break order, the fold, the legacy reducer, and the two merges
  of bootstrap snapshots.
- `Stores`, `IngestPolicy`: the raw log, the accepted log, the checkpoint cell,
  the parked ids, and the in-memory queue, as objects updated in place.
- `EngineSpec`: what each handler does, as a function from a state to its
  *trace*, the states at its awaits. A crash may strike at any state of a trace.
  `ReceiveEngine` is the engine object; each of its methods is proved to go
  through exactly the trace of the specification.
- `EngineSafety`, `EngineRuns`, `EngineHistory`: the invariants of the handlers,
  of whole sessions, and of histories (any number of sessions, each cut by a
  crash or ended by a stop, and resets that may be cut short).
  `EngineSessions` ties them to the object. `EngineLimits` and `EngineGivenUp`
  show by exactly how much each assumption is needed. `EngineOnce` and `EngineRetry` treat
  exactly-once acceptance and the end of the retry loop. `EventIdentity`,
  `EngineVerdicts`, `EngineMirrors` and `EngineLatch` say what does happen: which event a
  message becomes and that it shows, what each signal is answered, which way a start
  goes, and that a requested retry is made.
- `CutoverProtocol`, `CutoverSafety`, `CutoverFlow`, `CutoverReentry`: the engine's
  concurrency as a step machine with any number of suspended continuations.
  `CutoverProgress` and `CutoverTicks` say what it gets done.
  `WriteRetries` and `CheckpointSaves` do the same for concurrent writes.
- `ProjectionRebuild`: the hook and its racing rebuilds.
- `OutboxStore`, `OutboxBridge`, `OutboxProtocol`, `OutboxEcho`: the outbox.

## Assumptions, stated once

- A persistence call is one of `Landed`, `HalfLanded` (it reports failure after
  its first durable step) and `GaveUp`. No-loss statements assume `Landed`
  everywhere; exactly-once statements assume nothing.
- The reply to a resubmission holds one fact signal per submitted fact, in
  order, with epoch advances anywhere. `EngineLimits.OutOfTurnIsSafeExactly`
  says what another order costs.
- A restart that joins forgets the watermark and the parked ids, so histories
  let a session join only over facts with no work left, such as none at all.
  `EngineGivenUp.JoiningForgetsExactly` says what happens otherwise.
- Handlers, and the retry pass that reaching `live` may start, run one at a
  time in `EngineSpec`. In the code that pass runs outside the serial queue,
  although the comment above `runDeferredRetryPass` says it never does. In
  `CutoverProtocol` it interleaves freely, and `AcceptanceOverlap` says when that
  announces an id twice.
- One bootstrap fact carries several messages, so "its event is in the accepted
  log" is a per-fact statement for MLS facts; bootstrap completion is
  `CutoverFlow.BootstrapCompletesLast`.

## Where the code does less than its documentation says

- A call that gives up and leaves its fact stored but undecided (a message's accept
  write, the save of newly parked ids, an append that landed all the same) is not
  recovered once a later fact succeeds: the watermark is a maximum and passes it
  (`EngineGivenUp.GivenUpIsLostExactly`), although the comment at
  src/engine/receive-engine.ts:520-525 says that the watermark never advances over
  it. After a failed save even a redelivery of the same fact moves the watermark
  over it, because a fact that is merely queued counts as durable
  (`EngineGivenUp.RedeliveryLoses`), against the comment at
  src/engine/receive-engine.ts:844-851.
- Refunded attempts make the retry loop unbounded if an accept write keeps
  giving up (`EngineRetry.RepeatedPassesStopExactly`, `EngineRetry.RefundsNeverStop`);
  the comment at src/engine/receive-engine.ts:1168-1191 calls it bounded. What it
  costs is one pass for each that carries a refund (`EngineRetry.RefundsCostAPassEach`).
- Three things happen after a wait without a second look at the generation
  (`CutoverSafety.FenceBreaksExactly`). A handler that has just given up on a
  write still emits its rejection when its session ends at that moment; the
  comment at src/engine/receive-engine.ts:468-476 says that it stays silent. The
  second write of an acceptance is issued after a stop
  (`CutoverSafety.AcceptanceOvertaken`). And `reset()` issues the removals of the
  logs after the checkpoint's, even if `start()` has opened a new session on them
  meanwhile (`CutoverSafety.ResetOvertaken`).
- If the bootstrap drain has ended normally before its timer and the retry pass
  that `enterLive` then runs throws, the handler around the drain enters
  `catching_up` again, and live signals are lost (`CutoverReentry.ReentryExactly`,
  `CutoverReentry.ReentryLosesASignal`). If `openLive` throws there, it does so too,
  and nothing is lost (`CutoverReentry.ReopeningLosesNothing`). Starts that recover
  and drains that fail have no handler around them.
- A joining start over a stored watermark writes it back to zero
  (`CheckpointSaves.NeverGoesBackExactly`, `CheckpointSaves.StartsBelowExactly`).
- A phase change while a periodic save is under way arms a second timer beside the
  one the save then arms, and nothing can clear the older (`CutoverTicks.TimerDoubles`).
- A bootstrap entry with a mistyped field is skipped by one merge and read by the
  other (`BootstrapMerge.FetchesAgreeExactly`).
- `start()` takes over the failure count of the time before it and nothing but
  the session's end gives it back (`WriteRetries.StartCarriesExactly`).
- A local edit whose durable append is still running when `start()` bumps the
  generation is stored but never announced (`CutoverSafety.LocalEditsExactly`,
  `CutoverSafety.EditOvertaken`), although the interface at
  src/engine/receive-engine.ts:222-226 promises that such an edit is never silently dropped.
- A failed send has its expectation removed before its window is closed, so the
  window attributes nothing then (`OutboxProtocol.AttributionExactly`), although
  the comment at src/integration/publish-outbox.ts:441-445 says that it may.

## Model

| member | source | states |
|---|---|---|
| TaskDomain.WinsOverTotal | src/domain/task-crdt.ts:72-83 | two different stamps never tie: one beats the other |
| TaskDomain.WinsOverTransitive | src/domain/task-crdt.ts:72-83 | the three-level order is transitive, its string levels included |
| TaskDomain.WinsOverIrreflexive | src/domain/task-crdt.ts:72-83 | a fully tied candidate does not win, which makes re-application a no-op |
| TaskDomain.BeforeExactly | src/domain/task-crdt.ts:72-83 | the string levels: a string comes before another if and only if it is a proper prefix of it or has the lower character at the first place where they differ |
| TaskDomain.WinsOverExactly | src/domain/task-crdt.ts:72-83 | a candidate wins if and only if it is later, or as late with the lower author, or with the same author and the lower device |
| TaskProjector.ApplyTwiceIsApplyOnce | src/domain/task-projector.ts:90-167 | an event applied twice in a row changes nothing the second time |
| TaskProjector.ApplyTwiceApartResurrects | src/domain/task-projector.ts:179-190 | a duplicated creation after a deletion brings the record back: the unique-id precondition is needed |
| TaskProjector.StableSortIsTwoPhases | src/domain/task-projector.ts:51-58 | any stable sort by phase, whatever its algorithm, is the bootstrap subsequence followed by the MLS subsequence, each in log order |
| TaskProjector.ReplayOrderIsTwoPhases | src/domain/task-projector.ts:51-58 | replayOrder is exactly those two subsequences |
| TaskReducer.ComparatorsAgree | src/store/task-reducer.ts:17-95 | the reducer's written-out comparator decides like the shared cascading one |
| TaskReducer.StepsAgree | src/store/task-reducer.ts:5-97 | one reducer step equals one projector step on every state and event |
| TaskReducer.ReplayEvents | src/store/task-reducer.ts:99-105 | the legacy loop reduces its events one by one, starting from nothing |
| TaskReducer.ProjectorRefinesReducer | src/domain/task-projector.ts:179-190 | for every log, buildProjection is what the legacy loop makes of the log's payloads |
| StampConvergence.SettleIsProjection | src/domain/task-projector.ts:106-152 | edits of one record change the projection at that key only, and there fold one by one |
| StampConvergence.SettledStampIsMaximal | src/domain/task-projector.ts:106-152 | the final stamp is one of those offered and none of them beats it |
| StampConvergence.StampsConverge | src/domain/task-crdt.ts:72-83 | every permutation of the same update, status and assign events ends with the same stamp |
| StampConvergence.ProjectedStampsConverge | src/domain/task-projector.ts:90-167 | two logs with the same edits in any order leave the record with one stamp and every other record untouched |
| StampConvergence.WinnersFieldsSurvive | src/domain/task-projector.ts:106-152 | the fields written by the unique winner, and its stamp, survive every order |
| StampConvergence.WinnersFieldsConverge | src/domain/task-projector.ts:106-152 | two permutations agree on the winner's fields |
| StampConvergence.OneKindConverges | src/domain/task-projector.ts:122-152 | whole records agree for status-only and assign-only histories with distinct stamps |
| StampConvergence.OrdersAgreeExactly | src/domain/task-projector.ts:106-152 | for any mix of updates, status changes and assignments all orders leave the same record if and only if the unbeaten edits write the same and no beaten edit that could come first shows under them |
| StampConvergence.StatusLosesToAssignment | src/domain/task-projector.ts:122-152 | the smallest case: a status change that loses to an assignment shows if and only if it changes something |
| BootstrapMerge.MergeKeepsMaximum | src/integration/marmot-adapter.ts:907-934 | per id the merge holds an entry that no entry beats, and every offered id has one |
| BootstrapMerge.OrderFreeExactly | src/integration/marmot-adapter.ts:904-934 | the result is independent of entry order if and only if unbeaten entries of one id are equal |
| BootstrapMerge.SnapshotOrderIsIrrelevant | src/integration/marmot-adapter.ts:904-934 | under that condition relay order of whole snapshots is irrelevant |
| BootstrapMerge.Representative | src/integration/marmot-adapter.ts:947-949 | the first event with the greatest creation time |
| BootstrapMerge.FetchBootstrap | src/integration/marmot-adapter.ts:877-972 | one message per winning id on the representative's fact; nothing without NIP-44 or a reply |
| BootstrapMerge.FetchAndApplyTaskBootstrap | src/marmot/device-sync.ts:851-964 | one event per merged winner that beats the current state, entries with a mistyped field included; a null entry makes the whole fetch return nothing |
| BootstrapMerge.EmittedExactly | src/marmot/device-sync.ts:910-951 | an id is emitted exactly when one of its entries beats the current record, and then with an unbeaten entry |
| BootstrapMerge.LooseShowsExactly | src/integration/marmot-adapter.ts:926-934 | skipping mistyped entries leaves the winners as they are if and only if no such entry beats every earlier entry of its id and is beaten by no later one |
| BootstrapMerge.FetchesAgreeExactly | src/marmot/device-sync.ts:889-957 | on an empty state the two merges agree if and only if no entry that only the second one reads comes out on top, or, where a null entry stops the second one, nothing valid was offered |
| EventLog.NumberingIsExact | src/persistence/raw-event-log-store.ts:115-150 | under any interleaving of appends with duplicates the stored facts are numbered 1..n in order, ids are unique, nothing stored moves, nothing appended is missing |
| EventLog.AppendKeepsNumbering | src/persistence/raw-event-log-store.ts:115-150 | one append extends the log by at most its own id |
| EventLog.AppendKeepsUnique | src/persistence/raw-event-log-store.ts:176-205 | the accepted log keeps unique ids and grows at its end |
| EventLog.GapIsSuffix | src/engine/receive-engine.ts:1519-1520 | loadFacts' sort is the identity and the facts behind the watermark are exactly the end of the log |
| Persistence.PersistenceAdapter.AppendFact | src/persistence/raw-event-log-store.ts:115-151 | returns the stored fact and whether it was a duplicate; empty ids throw and change nothing; other groups are untouched |
| Persistence.PersistenceAdapter.LoadFacts | src/persistence/raw-event-log-store.ts:157-160 | the group's facts in ascending order of number |
| Persistence.PersistenceAdapter.AppendAcceptedEvent | src/persistence/raw-event-log-store.ts:176-205 | idempotent on the event id; empty ids throw; other groups are untouched |
| Persistence.PersistenceAdapter.LoadAcceptedEvents | src/persistence/raw-event-log-store.ts:212-217 | the accepted events in append order |
| Persistence.PersistenceAdapter.SaveCheckpoint | src/persistence/checkpoint-store.ts:66-83 | the group's one cell is replaced, nothing else; an empty group throws |
| Persistence.PersistenceAdapter.LoadCheckpoint | src/persistence/checkpoint-store.ts:91-95 | what was saved last, or nothing |
| Persistence.PersistenceAdapter.ClearCheckpoint | src/persistence/checkpoint-store.ts:105-110 | the cell is gone, nothing else changes |
| Persistence.PersistenceAdapter.SaveDeferredIds | src/persistence/deferred-store.ts:83-91 | the whole list is replaced |
| Persistence.PersistenceAdapter.LoadDeferredIds | src/persistence/deferred-store.ts:96-99 | the stored list, empty if there is none |
| Persistence.PersistenceAdapter.AcceptDeferredFact | src/persistence/deferred-store.ts:139-161 | accepted first, un-parked second: what is durable in between, and after a failure half way |
| Persistence.PersistenceAdapter.ClearGroupState | src/persistence/deferred-store.ts:194-204 | the checkpoint goes first; every intermediate image has no checkpoint and each store either whole or empty; the end is the empty disk |
| DeferredQueue.ParkKeeps | src/engine/ingest-policy.ts:188-195 | a new entry is last, ids stay unique, and only the eldest can be pushed out, at the cap only |
| DeferredQueue.UnparkedAllMembers | src/engine/ingest-policy.ts:199-201 | removing a batch one by one leaves exactly the entries not in it |
| DeferredQueue.ChargedAllExactly | src/engine/ingest-policy.ts:210-213 | charging a batch adds one attempt to each of its members and to nobody else |
| IngestPolicies.IngestPolicy.EnqueueDeferred | src/engine/ingest-policy.ts:188-195 | the eviction loop leaves the newest entries up to the cap; false for a parked id |
| IngestPolicies.IngestPolicy.HasDeferred | src/engine/ingest-policy.ts:196-198 | whether an entry with the id is parked |
| IngestPolicies.IngestPolicy.RetryBatch | src/engine/ingest-policy.ts:205-209 | exactly the entries under budget |
| IngestPolicies.IngestPolicy.ExhaustedEntries | src/engine/ingest-policy.ts:222-226 | exactly the entries out of budget |
| IngestPolicies.IngestPolicy.RecordAttempt | src/engine/ingest-policy.ts:210-213 | one more attempt for the id, in place |
| IngestPolicies.IngestPolicy.RefundAttempt | src/engine/ingest-policy.ts:214-217 | one attempt fewer for the id, never below zero |
| IngestPolicies.IngestPolicy.PruneDeferred | src/engine/ingest-policy.ts:227-236 | both halves of the prune, each in insertion order |
| ReceiveEngines.ReceiveEngine.TransitionTo | src/engine/receive-engine.ts:703-715 | announce, then write the checkpoint |
| ReceiveEngines.ReceiveEngine.AppendFactWithRetry | src/engine/receive-engine.ts:550-558 | on success the stored fact with its number; otherwise nothing but the rejection |
| ReceiveEngines.ReceiveEngine.AppendAcceptedEventWithRetry | src/engine/receive-engine.ts:560-567 | durable and silent, or rejected, with or without the event in the log |
| ReceiveEngines.ReceiveEngine.AcceptDeferredFactWithRetry | src/engine/receive-engine.ts:569-579 | both durable steps in order, or rejected before or between them |
| ReceiveEngines.ReceiveEngine.HandleMessage | src/engine/receive-engine.ts:753-827 | the object goes through exactly the specified awaits of a message, for every outcome of its writes |
| ReceiveEngines.ReceiveEngine.HandleDeferred | src/engine/receive-engine.ts:829-866 | the same for an unreadable fact, eviction at the cap included |
| ReceiveEngines.ReceiveEngine.HandleSkipped | src/engine/receive-engine.ts:868-889 | the same for a consumed fact |
| ReceiveEngines.ReceiveEngine.HandleMalformed | src/engine/receive-engine.ts:891-925 | the same for an undecodable fact, its defensive un-park included |
| ReceiveEngines.ReceiveEngine.HandleEpochAdvanced | src/engine/receive-engine.ts:927-960 | retry at once while live, latch the request otherwise |
| ReceiveEngines.ReceiveEngine.HandleDeferredRetrySignal | src/engine/receive-engine.ts:966-1099 | the same for each signal of a retry pass |
| ReceiveEngines.ReceiveEngine.RunDeferredRetryPass | src/engine/receive-engine.ts:1101-1125 | charge the batch, then handle the replies in order |
| ReceiveEngines.ReceiveEngine.PruneAndReportTtlExpired | src/engine/receive-engine.ts:1134-1147 | expired entries leave, the rest is saved, each is rejected |
| ReceiveEngines.ReceiveEngine.ReportAndRemoveExhausted | src/engine/receive-engine.ts:1155-1168 | entries out of budget leave, the rest is saved, each is rejected |
| ReceiveEngines.ReceiveEngine.EnterRetryingDeferred | src/engine/receive-engine.ts:1192-1238 | the whole loop, pass after pass |
| ReceiveEngines.ReceiveEngine.EnterLive | src/engine/receive-engine.ts:1326-1340 | announce, then take the retry that was asked for on the way |
| ReceiveEngines.ReceiveEngine.AcceptLocal | src/engine/receive-engine.ts:1683-1711 | a local edit becomes durable, then is announced, unless its id is processed already; the session may be cut in between |
| ReceiveEngines.ReceiveEngine.RebuildFromStores | src/engine/receive-engine.ts:1474-1520 | R1, R2a and R2, and the gap that R3 resubmits |
| ReceiveEngines.ReceiveEngine.EnterRecovering | src/engine/receive-engine.ts:1425-1532 | R1 to R4 with a checkpoint or without one |
| ReceiveEngines.ReceiveEngine.Start | src/engine/receive-engine.ts:1547-1595 | the routing of a restored start and everything it then does |
| EngineSafety.OnMessageInv | src/engine/receive-engine.ts:753-827 | a message handled in turn covers its fact, keeps every await safe and keeps queue and store in agreement |
| EngineSafety.OnDeferredInv | src/engine/receive-engine.ts:829-866 | parking does the same, whatever the cap pushes out |
| EngineSafety.OnMalformedInv | src/engine/receive-engine.ts:891-925 | a terminal verdict does the same |
| EngineRuns.OnRetrySignalInv | src/engine/receive-engine.ts:966-1099 | no await of a retried signal leaves a fact in neither store |
| EngineRuns.RetryLoopInv | src/engine/receive-engine.ts:1192-1238 | the same for the whole loop with any nested epoch advances |
| EngineHistory.LoadInv | src/engine/receive-engine.ts:1474-1517 | the rebuilt queue covers every fact up to the watermark that is not concluded, nothing is evicted, and it equals the stored list when every id has its fact |
| EngineHistory.NoFactIsLost | src/engine/receive-engine.ts:717-925 | after any history of crashes, stops and resets, every stored fact up to the watermark has its event in the log, is parked or has a terminal verdict, and all others are exactly what R3 resubmits |
| EngineHistory.ResetIsSound | src/persistence/deferred-store.ts:194-204 | a reset cut short at any point leaves a disk from which nothing is lost |
| EngineHistory.QueueAgreesWithStore | src/engine/receive-engine.ts:1487-1517 | between handlers the stored id list equals the queue's ids in order, after any history, resets included, if the session starts in agreement |
| EngineHistory.RebuiltAgreesExactly | src/engine/receive-engine.ts:1487-1517 | the rebuilt queue agrees with the stored list if and only if every parked id that R2a keeps has its fact in the log |
| EngineHistory.WithoutResetAgrees | src/persistence/deferred-store.ts:139-161 | after every history without a reset it does |
| EngineHistory.StoredFactsStayCovered | src/persistence/deferred-store.ts:112-138 | no crash inside a later handler finds a stored fact in neither place |
| EngineLimits.OutOfTurnIsSafeExactly | src/engine/receive-engine.ts:1519-1528 | handling a fact before those in front of it is safe if and only if each of those was covered already |
| EngineLimits.GivenUpMessageIsLostExactly | src/engine/receive-engine.ts:717-719 | a message whose accept write ran out of retries is lost behind the next success if and only if the write had not landed |
| EngineGivenUp.GivenUpIsLostExactly | src/engine/receive-engine.ts:717-925 | for every signal of a new fact, every outcome of its calls and every landed signal after it: nothing is lost if and only if the fact was left decided, or the next signal is of an old fact, or it settles this one or has the queue that holds it written |
| EngineGivenUp.RedeliveryLoses | src/engine/receive-engine.ts:844-855 | two inputs: after a failed save a redelivery of the fact, or a skipped fact, loses it |
| EngineLimits.JoinForgetsExactly | src/engine/receive-engine.ts:1343-1349 | after a joining restart that parks once, an earlier fact survives if and only if it was concluded |
| EngineGivenUp.JoiningForgetsExactly | src/engine/receive-engine.ts:1343-1349 | after any joining session of landed signals that does not meet a stored fact again, the fact is covered if and only if it was concluded, or was parked and no signal had the queue written |
| EngineSessions.RunSession | src/engine/receive-engine.ts:1547-1595 | the engine object on a sound disk is safe at every await of a session and ends with queue and store in agreement |
| EventIdentity.BootstrapIdsTellRecordsApart | src/domain/domain-events.ts:140-145 | two bootstrap ids of one group are equal only for one record |
| EventIdentity.MlsIdsTellRumorsApart | src/domain/domain-events.ts:117-125 | two MLS ids are equal only for one rumor |
| EventIdentity.MessageJoins | src/engine/receive-engine.ts:753-827 | a landed new message leaves one event at the log's end with its payload, fact, group, epoch and time, of kind bootstrap just if it came from a snapshot, and announces that event after the receipt |
| EventIdentity.RetriedMessageJoins | src/engine/receive-engine.ts:966-1039 | so does a retried one, which leaves the queue |
| EventIdentity.LocalEditJoins | src/engine/receive-engine.ts:1683-1711 | a landed local edit is an MLS event with its payload and the current epoch, and is announced |
| EventIdentity.MessageShows | src/engine/receive-engine.ts:753-827 | over any log, the replay after a landed MLS message is the replay before it with the edit applied last |
| EventIdentity.LocalEditShows | src/engine/receive-engine.ts:1683-1711 | so it is after a landed local edit |
| EventIdentity.FetchJoins | src/integration/marmot-adapter.ts:951-969 | the landed messages of a fetch with distinct records leave exactly one bootstrap event per winner, in order, with the winner's record |
| EventIdentity.FetchIsShown | src/engine/receive-engine.ts:774-781 | from an empty log the replay then holds exactly the winners |
| EngineVerdicts.RetriesAnswerAlike | src/engine/receive-engine.ts:753-924 | for every outcome of the writes a fact is received first and then answered once, or not at all if its event is known, in the same words on first delivery and in a retry |
| EngineVerdicts.RetryTakesOut | src/engine/receive-engine.ts:966-1099 | a retried message, skip or malformed fact is parked no more, in memory or on disk, and every other entry stays |
| EngineVerdicts.RedeliveryTakesOut | src/engine/receive-engine.ts:753-924 | so is a parked fact that is delivered again as a new message or as malformed |
| EngineVerdicts.ParksAsNew | src/engine/receive-engine.ts:829-866 | a fact that cannot be read yet is parked last, with no attempt made, the fact as stored and the time of its arrival, and the stored list is the queue's |
| EngineVerdicts.RebuildParksAsNew | src/engine/receive-engine.ts:1425-1545 | a rebuilt queue holds such entries only |
| EngineVerdicts.WatermarkReaches | src/engine/receive-engine.ts:717-719 | a fact whose calls have landed is behind the watermark, which has moved to its number and no further |
| EngineMirrors.StartAnnounces | src/engine/receive-engine.ts:1547-1596 | for every disk a start announces joining and nothing else if and only if its checkpoint says that the bootstrap is not complete, or nothing is stored; any other announces recovering first and ends in catching_up |
| EngineMirrors.CompleteOnlyIfResolved | src/engine/receive-engine.ts:1387-1408 | short of the end of its bootstrap, memory and checkpoint say at every await of a session what its start said, so on an empty disk the bootstrap is complete only after that end |
| EngineMirrors.ResolvedIsKept | src/engine/receive-engine.ts:1387-1408 | once the end of the bootstrap has been handled, memory and checkpoint say that it is complete, whatever the session is given next |
| EngineMirrors.SessionMirrors | src/engine/receive-engine.ts:654-664 | at every await of any session the lifecycle, the epoch and the last accepted id are the latest announced ones, or those it recovered |
| EngineMirrors.StopThenRecover | src/engine/receive-engine.ts:654-664 | a stop and then a recovering start bring back each cell of the checkpoint |
| EngineSessions.StartRoute | src/engine/receive-engine.ts:1547-1596 | the object's outputs after start(), by the same condition, and its bootstrapCompleted |
| EngineSessions.GoLive | src/engine/receive-engine.ts:1326-1340 | the object, after an epoch advance while not live and then the entry into live: its outputs go on with live, recovered and a retry of a batch, in which every due entry has one attempt more |
| EngineLatch.RequestIsKept | src/engine/receive-engine.ts:927-960 | an epoch advance handled while not live is asked for, whatever is handled next, until live |
| EngineLatch.LiveMakesThePass | src/engine/receive-engine.ts:1326-1340 | the entry into live after a request hands over a batch with every entry that has attempts left and is not too old, announces it after live and recovered, and charges each one attempt |
| EngineLatch.RequestIsHonoured | src/engine/receive-engine.ts:927-960 | from the epoch advance to that batch, over any commands in between |
| EngineLatch.LiveEpochMakesThePass | src/engine/receive-engine.ts:927-960 | an epoch advance while live hands over the batch at once |
| EngineLatch.NothingDueEmpties | src/engine/receive-engine.ts:1192-1238 | a turn of the loop without a batch leaves nothing parked |
| EngineLatch.NoRequestIsDropped | src/engine/receive-engine.ts:1192-1238 | wherever the loop takes a request back, nothing is parked, or a batch is announced later, or nothing is parked at its end |
| EngineLatch.PruneLeavesFresh | src/engine/receive-engine.ts:1134-1153 | a prune removes exactly the entries that are too old and rejects each of them, in order |
| EngineLatch.RetiresExactly | src/engine/receive-engine.ts:1155-1166 | the end of a pass removes exactly the entries without attempts left and rejects each of them, in order |
| EngineOnce.ExactlyOnce | src/engine/receive-engine.ts:753-827 | at every await, whatever the writes do: no id announced twice, each announced id durable, the log unique, and nothing announced by a recovery that the log held before |
| EngineOnce.JoinAnnouncesAgain | src/engine/receive-engine.ts:1343-1349 | a joining start announces an id of the log again, and the log keeps one copy |
| AcceptanceOverlap.TwiceOnlyByOverlap | src/engine/receive-engine.ts:1326-1340 | with handlers that run beside each other an id is announced twice only if two wait for its accept write at the same time |
| AcceptanceOverlap.AloneNeverOverlaps | src/engine/receive-engine.ts:386-401 | handlers that run one at a time never do |
| AcceptanceOverlap.OverlapAnnouncesTwice | src/engine/receive-engine.ts:966-1039 | two that do announce it twice when both writes land, and the log keeps one copy |
| EngineRetry.IterationTries | src/engine/receive-engine.ts:1195-1226 | a pass leaves only entries with one attempt more and still under budget |
| EngineRetry.AtMostBudgetPasses | src/engine/receive-engine.ts:1192-1238 | at most maxRetryAttempts passes run, however many nested epoch advances the replies carry |
| EngineRetry.ExitState | src/engine/receive-engine.ts:1227-1238 | on exit the latch is clear, every entry is under budget, and the engine is live if any pass ran |
| EngineRetry.RefundsCostAPassEach | src/engine/receive-engine.ts:1013-1036 | with refunds, at most one per fact and pass, the loop stops within maxRetryAttempts passes and one more for each pass that carries a refund |
| EngineRetry.RepeatedPassesStopExactly | src/engine/receive-engine.ts:1192-1238 | with one parked fact and one reply repeated the loop stops if and only if the accept write lands, or is not reached, or no nested advance follows |
| EngineRetry.RefundsNeverStop | src/engine/receive-engine.ts:1013-1036 | otherwise no number of passes ends the loop |
| CutoverSafety.EveryRunIsFenced | src/engine/receive-engine.ts:403-408 | in every run no continuation (drain, timer, handler, periodic or detached checkpoint save) acts in a later generation than its own, save for three kinds of act |
| CutoverSafety.FenceBreaksExactly | src/engine/receive-engine.ts:540-579 | an act is out of its generation if and only if it is the rejection after a give-up, the second write of an acceptance, or the later removals of a reset, and the generation has changed since |
| CutoverSafety.ResetOvertaken | src/persistence/deferred-store.ts:194-204 | a start right after a reset: the old generation's removals are issued in the new one |
| CutoverSafety.AcceptanceOvertaken | src/persistence/deferred-store.ts:139-161 | a stop between the two writes of an acceptance: the second is issued all the same |
| CutoverSafety.GenerationMovesExactly | src/engine/receive-engine.ts:1547-1650 | which calls end a generation: start() from uninitialized with no other start under way, stop() unless uninitialized or stopped, and reset() |
| CutoverSafety.LocalEditsExactly | src/engine/receive-engine.ts:1683-1711 | in every run a local edit whose handler has ended was announced if and only if its append had landed and the generation was still the one taken at its start, and that never changes |
| CutoverSafety.EditOvertaken | src/engine/receive-engine.ts:1547-1555 | an edit whose append is running at start() is stored and never announced, whatever follows |
| CutoverSafety.WinnerStep | src/engine/receive-engine.ts:1368-1422 | every step keeps at most one holder of the right to cut over, the drain while the timer is pending |
| CutoverFlow.CutoverLosesNothing | src/engine/receive-engine.ts:1241-1324 | in every run: arrived is handled, then in hand or queued, then buffered; nothing historical is handled after something live; the buffer is empty once live |
| CutoverFlow.DrainsOnce | src/engine/receive-engine.ts:1270-1285 | catchUp is opened at most once per start for every order of drain end, drain failure and timer, and its guard is never reached without a re-entry |
| CutoverFlow.BootstrapCompletesLast | src/engine/receive-engine.ts:1387-1408 | bootstrapCompleted becomes true exactly when a bootstrap drain ends or a recovery begins, and then every message the drain yielded has been handled |
| CutoverReentry.ReentryExactly | src/engine/receive-engine.ts:1387-1418 | in every run catching_up is entered a second time exactly when the bootstrap drain has ended normally before its timer and then the retry pass of enterLive, or openLive, throws for the first time |
| CutoverReentry.OpenLiveThrows | src/engine/receive-engine.ts:1261-1262 | a run in which openLive does |
| CutoverReentry.RetryPassThrows | src/engine/receive-engine.ts:1326-1340 | a run in which the retry pass does |
| CutoverReentry.RecoveringNeverReenters | src/engine/receive-engine.ts:1547-1596 | a start that recovers never enters catching_up twice, whatever fails |
| CutoverReentry.FailedDrainNeverReenters | src/engine/receive-engine.ts:1409-1418 | neither does one whose bootstrap drain fails before its timer |
| CutoverReentry.ReopeningLosesNothing | src/engine/receive-engine.ts:1261-1269 | after a failed openLive nothing has arrived and nothing can until the second attempt opens live input and the sole drain |
| CutoverReentry.ReentryLosesASignal | src/engine/receive-engine.ts:1261-1262 | what that second entry does to the next arriving signal |
| CutoverProgress.JoinGoesLive | src/engine/receive-engine.ts:1241-1340 | a whole join, for any snapshot, history and live input that arrives before live: all of it is handled in this order, and the engine is live with its bootstrap complete |
| CutoverProgress.SlowJoinGoesLive | src/engine/receive-engine.ts:1343-1422 | a join overtaken by its timer anywhere in the snapshot: live with the bootstrap incomplete, and the rest of the snapshot then completes it |
| CutoverProgress.RecoveryGoesLive | src/engine/receive-engine.ts:1425-1545 | a recovering start: the replayed facts, the history and the live input in this order, and no bootstrap |
| CutoverProgress.StopEnds | src/engine/receive-engine.ts:1597-1628 | a stop closes live input and clears both timers at once, and what arrives afterwards changes nothing |
| CutoverProgress.ResetThenStart | src/engine/receive-engine.ts:1630-1665 | from any state a reset left alone leaves nothing of its session, and the next start joins unless an earlier one is under way |
| CutoverProgress.EditIsAnnounced | src/engine/receive-engine.ts:1683-1711 | the next local edit on the queue, whichever generation it was queued in, is written and then announced if its append lands with no end of the generation in between |
| CutoverTicks.AlwaysTicksWhileLive | src/engine/receive-engine.ts:666-714 | in every run, while the current generation is live, the periodic save's timer is armed or its save is under way |
| CutoverTicks.TimerDoubles | src/engine/receive-engine.ts:666-688 | a retry pass during a periodic save leaves two timers armed, and no later phase change clears the first |
| WriteRetries.DegradationIsCounted | src/engine/receive-engine.ts:498-532 | the failure count is the outstanding writes plus what the start carried over; the reason is set whenever it is positive; at most eight attempts each, and exactly eight before giving up |
| WriteRetries.FailedWritesGoOn | src/engine/receive-engine.ts:498-532 | a failed write of the current generation waits and tries again until its eighth attempt |
| WriteRetries.FloorIsNeverNeeded | src/engine/receive-engine.ts:507-510 | a counted write that succeeds finds the count positive |
| WriteRetries.StartCarriesExactly | src/engine/receive-engine.ts:1547-1555 | a session is degraded to its end if a write failed before it, and its count is exact if and only if none did |
| WriteRetries.CarriedFailure | src/engine/receive-engine.ts:1547-1555 | a run: a write fails before start(), and the session is degraded with none of its own writes outstanding |
| CheckpointSaves.CheckpointsNeverGoBack | src/engine/receive-engine.ts:630-652 | from a start at or above its stored checkpoint, with any overlap of saves and background retries, the stored watermark never falls and bootstrapCompleted never turns back |
| CheckpointSaves.NeverGoesBackExactly | src/engine/receive-engine.ts:630-652 | no run of a session takes the store back if and only if it starts there; otherwise the first save does |
| CheckpointSaves.OnlyTheFirstGoesBack | src/engine/receive-engine.ts:630-652 | and only the first save: once the store has changed it never goes back, from any start |
| CheckpointSaves.StartsBelowExactly | src/engine/receive-engine.ts:1559-1594 | every restored start is one, except a joining one over a checkpoint whose watermark is above zero |
| CheckpointSaves.FinishedSavesAreDurable | src/engine/receive-engine.ts:630-652 | a finished save, or one that stood back for a newer one, has made at least its own state durable |
| CheckpointSaves.GivesUpLate | src/engine/receive-engine.ts:630-652 | in every run a save has given up only after eight failed retries |
| CheckpointSaves.FailuresAreRetried | src/engine/receive-engine.ts:630-652 | before that each failure of a save that is not superseded leads to another write of the state of that moment, at once the first time |
| CheckpointSaves.OvertakenSavesStop | src/engine/receive-engine.ts:638-650 | in every run no write is issued for a save that a newer committed one has overtaken |
| CheckpointSaves.OverTakenWriteGoesBackExactly | src/engine/receive-engine.ts:640-647 | if a write lands after a later one the store goes back unless both carry the same |
| ProjectionHooks.ProjectionHook.FoldAccepted | src/integration/react-engine-hooks.ts:403-408 | fold now, and queue while a rebuild is in flight |
| ProjectionHooks.ProjectionHook.ResolveRebuild | src/integration/react-engine-hooks.ts:430-480 | a failed, superseded or successful read, with the queued events the snapshot lacks |
| ProjectionRaces.FoldingIsReplaying | src/integration/react-engine-hooks.ts:403-408 | folding one more event equals replaying the longer log unless it is a bootstrap event of a record an MLS event has touched |
| ProjectionRaces.LateBootstrapDiffersExactly | src/domain/task-projector.ts:51-58 | the shortest log: for a record created by an MLS event and then by a bootstrap event, folding and replaying agree if and only if both carry the same record |
| ProjectionRaces.LateBootstrapOfHeldExactly | src/domain/task-projector.ts:51-58 | any log: for a bootstrap creation of a record that its bootstrap phase holds, they agree if and only if no MLS event has deleted the record |
| ProjectionRaces.CaughtIsRest | src/integration/react-engine-hooks.ts:459-476 | skipping what the snapshot holds leaves exactly the log after the snapshot |
| ProjectionRaces.RebuildsRefineReplay | src/integration/react-engine-hooks.ts:392-480 | once any rebuild has committed, in every interleaving the hook shows the replay of the emitted events, or of those and the one persisted but not yet emitted |
| ProjectionRaces.OnlyTheNewestCommits | src/integration/react-engine-hooks.ts:449-457 | a superseded rebuild changes nothing, the newest commits |
| ProjectionRaces.ResolvedIsOver | src/integration/react-engine-hooks.ts:430-480 | in every run a rebuild whose read has failed, or succeeded while mounted, is over once it resolves, and nothing is queued unless another is under way |
| ProjectionRaces.RunHook | src/integration/react-engine-hooks.ts:392-480 | the hook object, driven through any interleaving, shows one of the two replays once a rebuild has committed |
| OutboxStore.PersistEntry | src/integration/publish-outbox.ts:334-348 | the transaction that upserts and bounds the durable list |
| OutboxStore.PersistedKeepsNewest | src/integration/publish-outbox.ts:334-348 | one write keeps rumors unique, at most 256, and drops only what is no newer than everything kept |
| OutboxStore.DurableListKeepsNewest | src/integration/publish-outbox.ts:334-348 | after any sequence of writes nothing unlisted is newer than anything listed |
| OutboxStore.EnforceOutboxCap | src/integration/marmot-adapter.ts:455-473 | evicts the eldest beyond the bound and reports them eldest first |
| OutboxStore.CapKeepsNewest | src/integration/marmot-adapter.ts:455-473 | the group is bounded, every other group is untouched, nothing evicted is newer than anything kept |
| OutboxBridges.OutboxBridge.RegisterOutboxEntry | src/integration/marmot-adapter.ts:480-484 | track, then cap the entry's group |
| OutboxBridges.OutboxBridge.MarkOutboxAttemptStarted | src/integration/marmot-adapter.ts:572-580 | the one place where an attempt is counted and the entry is pending again |
| OutboxBridges.OutboxBridge.MarkOutboxSent | src/integration/marmot-adapter.ts:589-596 | only a pending entry is attributed |
| OutboxBridges.OutboxBridge.MarkOutboxSentFallback | src/integration/marmot-adapter.ts:605-611 | only a pending entry, and no attribution |
| OutboxBridges.OutboxBridge.MarkOutboxFailed | src/integration/marmot-adapter.ts:621-628 | unconditional, and the attribution stays |
| OutboxBridges.OutboxBridge.BeginOutboxPublishWindow | src/integration/marmot-adapter.ts:694-706 | opens or nests the window and queues the rumor |
| OutboxBridges.OutboxBridge.EndOutboxPublishWindow | src/integration/marmot-adapter.ts:716-740 | closes it and attributes a sole event to the front of the queue |
| OutboxBridges.OutboxBridge.RemoveOutboxExpectation | src/integration/marmot-adapter.ts:748-755 | drops the first such expectation |
| OutboxBridges.OutboxBridge.ObservePublish | src/integration/marmot-adapter.ts:778-799 | counts a group event in an open window and keeps the first id |
| OutboxBridges.OutboxBridge.ReconcileOwnEcho | src/integration/marmot-adapter.ts:654-672 | the first unreconciled entry of the group with exactly that event id, which then leaves the registry |
| OutboxProtocol.LockExcludesInOrder | src/integration/publish-outbox.ts:82-104 | in every run an attempt past the lock has every earlier attempt of its group released: exclusion and arrival order |
| OutboxProtocol.NeverMisattributed | src/integration/publish-outbox.ts:404-461 | under every interleaving an attributed event is a publish of the entry's own rumor |
| OutboxProtocol.AttributionExactly | src/integration/marmot-adapter.ts:716-740 | without any assumption on sends: an attempt's end attributes an event exactly when it returned normally and its window saw one event, and then that one |
| OutboxProtocol.RunBridge | src/integration/marmot-adapter.ts:694-799 | the bridge object, driven through any interleaving, attributes to an entry only publishes of its own rumor |
| OutboxEchoes.EchoReconcilesItsEdit | src/integration/marmot-adapter.ts:654-672 | in every run: an attempt ends normally with one event seen; then anything that spares the attribution, failing retries included; then the echo takes exactly that edit out, if no other live entry of the group carries the event |
| OutboxEchoes.FailedEditIsReconciled | src/integration/marmot-adapter.ts:654-672 | an attributed edit whose later attempt fails is taken out by the echo as well |
| OutboxEchoes.OtherEchoesAreIdle | src/integration/marmot-adapter.ts:654-672 | in every run an echo changes nothing if and only if no live entry of the group carries its event |
| OutboxEchoes.SoleEventGoesToTheFirst | src/integration/marmot-adapter.ts:694-740 | without the lock, however many windows of a group overlap: a sole event goes, at the last end, to the first that began, and the others stay expected in order |
| OutboxEchoes.DropsTheFirst | src/integration/marmot-adapter.ts:748-755 | what a failed send gives up is the first expectation of its rumor and nothing else |
| OutboxEchoes.AttemptsAreCounted | src/integration/marmot-adapter.ts:572-580 | in every run a tracked edit's attempts are those it was registered with and the turns its sends have had since |
| OutboxEchoes.EndIsTold | src/integration/publish-outbox.ts:404-461 | an attempt's end leaves its entry sent, or failed with the error, and counts no attempt |
| OutboxEchoes.NextHasItsTurn | src/integration/publish-outbox.ts:82-104 | the lock is never stuck: who waits for released attempts alone has its turn |

## Left out

- MLS, ratchet, NIP-44, relay and IndexedDB internals: the adapter is an arbitrary producer of signals and one store update is one atomic step.
- Time, timers and randomness: the clock is a parameter of each call, a timer is a step that may happen until it is cleared.
- Timestamps that are fractional or not a number, and string order by UTF-16 units: stamps are integers and strings of characters.
- Extra keys inside a `changes` object, and unknown event types: an update carries a title and a description.
- Bootstrap entries whose id or stamp is itself mistyped: an entry is valid, null, or has a mistyped field that the order does not read.
- Partial writes inside one key, and quota errors: a call lands, half lands or gives up.
- `savedAt`, health strings and console output: they decide nothing.
- In-flight writes of an old session that land after a reset has cleared the stores: writes of one group land in the order they were issued.
- Local accepts still queued on the serial chain that a reset has replaced: in `EngineSpec` a session ends with its reset; `CutoverProtocol` keeps them and proves that they take the generation they find.
- Adapter streams that throw inside a retry pass started by a handler: the lifecycle then stays at retrying_deferred.
- A start with origin "welcome": it is the joining route of a restored start.
- Rehydration of outbox entries, the persist and eviction hooks, and the older publish tracker of device sync: plumbing around what is modelled.
- Several h-tags for one group: windows are keyed by the group.
- Persistence.PersistenceAdapter.AcceptDeferredFact: stated for an event of the same group, which is the only use.
- EngineHistory.NoFactIsLost: restarts that join do so over concluded facts, no write gives up, and resubmission is in order, because each of the three is needed, as EngineLimits shows.
- EngineHistory.QueueAgreesWithStore: sessions that start in agreement, because a reset cut short may leave parked ids without a fact, which recovery skips in memory only; EngineHistory.RebuiltAgreesExactly says when.
- CheckpointSaves.CheckpointsNeverGoBack: starts at or above the stored checkpoint, because only those have the property, as CheckpointSaves.NeverGoesBackExactly shows.
- EngineLimits.JoinForgetsExactly: one joining session, which parks once and completes its bootstrap; EngineGivenUp.JoiningForgetsExactly is about any.
- EngineGivenUp.JoiningForgetsExactly: sessions without epoch advances, in which every call lands.
- ProjectionRaces.RunHook: an event that became durable and is never announced (a half-landed append, say) shows only after the next rebuild, which is not part of these runs.
- ReceiveEngines.ReceiveEngine.TransitionTo: does not model the skip option, a failing save or the periodic save, which are in CheckpointSaves and CutoverProtocol.
- ReceiveEngines.ReceiveEngine.Start: does not model the welcome origin or a checkpoint that cannot be read.
- ReceiveEngines.ReceiveEngine.AcceptLocal: does not model a generation that changes during the append, which is CutoverSafety.LocalEditsExactly.
- CutoverSafety.FenceBreaksExactly: what an act out of its generation does to the stores, because the stores are not part of CutoverProtocol.
- CutoverReentry.ReopeningLosesNothing: an openLive that throws has subscribed to nothing.
- CutoverFlow.CutoverLosesNothing: runs without a re-entry, whose exact condition is CutoverReentry.ReentryExactly.
- ProjectionRaces.RebuildsRefineReplay: logs in which no bootstrap event follows an MLS event of its record, because otherwise folding and replaying differ.
- EngineLatch.NoRequestIsDropped: loops whose replies refund no attempt and that are not cut short, because with refunds the loop need not end, as EngineRetry.RepeatedPassesStopExactly shows.
- EventIdentity.FetchIsShown: an empty log, and one record per id, which BootstrapMerge.FetchBootstrap gives.
- CutoverProgress.JoinGoesLive: every input in one interleaving, with no failing call; what all interleavings keep is CutoverFlow.CutoverLosesNothing.
- OutboxEchoes.EchoReconcilesItsEdit: runs that keep the edit tracked and its attribution, because an evicted edit has no entry for the echo to find.
- OutboxProtocol.NeverMisattributed: a send that returns normally has published exactly once inside its window; the exact rule without that is OutboxProtocol.AttributionExactly.
