# SAFE2GO backend: a verified model

A Dafny model of the protocols and fast-form computations of the SAFE2GO backend, with proofs of what
they keep. Floats are reals, a committed transaction is one atomic step, and everything the outside
world decides (crashes, lost acknowledgements, link state, clock readings, model predictions, fresh
ids) is a parameter or a nondeterministic step. `dafny verify dfyconfig.toml` checks the project.

| module | what it models | main results |
|---|---|---|
| `TaskService` | operator actions on a task and the working-minutes formula | `TimeIsConserved`, `MinutesLostExactly` |
| `CloudEdgeTasks`, `TaskConvergence`, `TaskRedelivery` | two-way sync of tasks between cloud and edge | `Convergence`, `DivergesExactly`, `ConflictRecordedExactly`, `NewestReportWins` |
| `Delivery`, `DeadLetters`, `Renumbering`, `EntityOrder` | outbox delivery with several deliverers, dead letters, retries | `AppliedAtMostOnce`, `DeadLetteredExactly`, `AppliedIsPrefixOfOutbox`, `RenumbersExactly`, `StaleExactly` |
| `Replicas` | sequence-guarded rows and snapshots | `OrderDoesNotMatter`, `ReplicasAfterAnyRun` |
| `Spool` | the bounded edge spool and the acknowledged prefix | `LimitDropsOldestTicks`, `ClearNumbersExactly` |
| `Analytics` | de-duplicating archive and recomputed minute rollups | `ApplyRecords`, `BatchingDoesNotMatter` |
| `StreamPipeline`, `StreamWorkers` | spool to archive end to end; one pass of the forwarder and one poll of the consumer as runs of it | `NoSilentLoss`, `ArchiveIsComplete`, `RunOnce`, `PollOnce` |
| `RuleMachine` | the timed rule state machine | `OpensExactly`, `ClosesExactly`, `SeverityExactly`, `OpeningsAreSpaced` |
| `Escalation`, `RepeatRuns` | rolling-window repeat escalation, per call and over engine runs | `RecordAndCheck`, `OpensAsCriticalExactly` |
| `SafetyEngine`, `OperatorMessages`, `AutoSlow`, `EdgePipeline` | rule slots, incidents, checkpoint and restore, effects, acknowledgement, shift hand-over, clock driver | `CounterIsExact`, `ClampNeverFires`, `IncidentLifecycle`, `HandOverStrands`, `ResolvableExactly` |
| `EtaAggregates` | leave-one-out statistics and the deployed table | `LeaveOneOut`, `ResolvedFromHistory`, `DeployedTableAgrees` |
| `IdleTotals` | streaming idle totals against the shift summary query | `StreamingEqualsBatchExactly` |
| `SnapshotHandover` | WebSocket snapshot and held updates | `EveryUpdateOnce`, `SnapshotThenUpdatesInOrder`, `BroadcastJumblesExactly` |
| `HourMeter`, `SummaryOrder` | incremental hour meter against the full recompute; which summary stays | `MetersStayExact`, `StoredSummaryIsLatest` |
| `Assignment`, `Staffing` | shift and task planning rules | `StepKeepsPlanExactly`, `RunKeepsPlan`, `DefaultStartNeverClashes`, `AdminsKeepStaffed` |

`Prelude` and `Sums` hold shared types and order-independent sums.

Classes carry the source's mutable state (tables, engines, workers). Their methods are proved against
specification functions or against the step relation of a protocol, and the properties are proved of
those.

Where the code does not meet a property its documentation promises, the model follows the code and
states exactly when the property holds:

- Task actions are checked by target status only (`backend/app/edge/tasks/service.py:69-72`), so
  `resume`/`unblock` on an assigned task and `start` on a held one pass. Which minutes that loses:
  `MinutesLostExactly`, `SecondStartShowsTooLittle`, `ResumedUnstartedShowsNothing`. When it lets the
  tiers end apart: `DivergesExactly`; otherwise a cancel is lost without a conflict: `CancelIsLost`.
- A second dead-lettering copies the row sequence and not the replay sequence
  (`backend/app/sync/worker.py:191-193`): `RenumbersExactly`, `SecondBurialIsReached`, `SecondDeadLetterOverwritesNewer`.
- Shift summaries have no sequence guard (`backend/app/sync/handlers/edge_to_cloud.py:152-170`), so one that comes
  back from the dead letters can replace a newer one: `StaleExactly`, `BurialIsReached`, `StoredSummaryIsLatest`.
- A task moved away and back before its first report keeps the newer plan on the cloud
  (`backend/app/sync/handlers/edge_to_cloud.py:64-69`): `MovedAwayAndBackIsMissed`, `RollsBackExactly`.
- A second start on hold overwrites the start on the edge (`backend/app/edge/tasks/service.py:80-81`), while a conflict
  records the first one reported: `ConflictCarriesFirstStart`.
- `backend/app/edge/shift_summary.py:7-10` says both totals use one rule; the streaming form does not
  cap the first tick (`backend/app/edge/behavior/engine.py:131-132`): `StreamingEqualsBatchExactly`.
- A new shift's engine adopts unresolved incident ids but none of its rules ends them
  (`backend/app/edge/telemetry/pipeline.py:107-110`): `HandOverStrands`, `HandOverIsReached`, `ResolvableExactly`.
- Nothing serializes broadcasts of one machine (`backend/app/api/ws/manager.py:45-63`), so one can
  overtake another on its way to a client: `BroadcastJumblesExactly`.
- A conflict roll-back and a report that overwrites a cancel do not look at the assignment rules
  (`backend/app/sync/handlers/edge_to_cloud.py:72-116`) and can double-book a shift:
  `StepKeepsPlanExactly`, `RollBackDoubleBooks`, `FirstShiftDoubleBooks`.

## Model

| member | source | states |
|---|---|---|
| TaskService.TaskRow.ApplyAction | backend/app/edge/tasks/service.py:58-119 | An action is accepted exactly by its target status; the row becomes the specified one, or stays as it was on an error |
| TaskService.BookkeepingExactly | backend/app/edge/tasks/service.py:69-100 | An accepted action keeps the hold bookkeeping exactly when it is not `resume`/`unblock` on an assigned task or `start` on a held one, which the target-status check also lets through |
| TaskService.LedgerOverAction | backend/app/edge/tasks/service.py:43-102 | Accepted documented actions and rejected ones keep span = worked + paused + blocked (+ open hold) |
| TaskService.TimeIsConserved | backend/app/edge/tasks/service.py:58-102 | For every run on a non-decreasing clock: elapsed span = in-progress time + paused + blocked + open hold |
| TaskService.WorkingMinutesAreInProgressMinutes | backend/app/edge/eta/revision.py:51-56 | The working-time formula equals the sum of the in-progress intervals, so its clamp never fires for an in-progress or finished task |
| TaskService.SecondStartLosesExactly | backend/app/edge/tasks/service.py:69-83 | Whatever the books, a second start on hold sets the span to 0 and loses exactly the minutes worked, paused and blocked so far; they still add up exactly when the task was started at that moment |
| TaskService.SecondStartShowsTooLittle | backend/app/edge/eta/revision.py:51-56 | After a second start on hold, at every later time: what the formula shows, that its clamp fires until the old pauses and blocks have passed again, and that it is right exactly for a task not worked on before and with no old hold to subtract |
| TaskService.MinutesLostExactly | backend/app/edge/tasks/service.py:69-102 | For every run on a non-decreasing clock, undocumented transitions included: the minutes the timestamps miss are those from the first accepted action to the recorded start (all of them without one), none exactly when the two coincide |
| TaskService.ResumedUnstartedShowsNothing | backend/app/edge/eta/revision.py:51-56 | A task set going by resume or unblock shows no working time, however long it runs, until it is started |
| TaskService.StatusFollowsActions | backend/app/edge/tasks/service.py:33-41 | After every run the status is the one the last accepted action names, and the next action is accepted exactly when it may follow that action (start, resume, unblock at first or after a pause or block; pause, block, complete after one of these; nothing after complete) |
| TaskService.TimeFollowsActions | backend/app/edge/tasks/service.py:78-97 | The time in each status is the time from such an accepted action to the next accepted one |
| TaskService.StoredMinutesFollowActions | backend/app/edge/tasks/service.py:82-91 | The stored paused minutes are those between a pause and the next accepted action, the blocked ones those after a block, as far as they are over |
| TaskService.StoredMinutesNeverFall | backend/app/edge/tasks/service.py:43-47 | Whatever the clock does, stored minutes never fall |
| CloudEdgeTasks.CloudTaskTable.ApplyTaskStatus | backend/app/sync/handlers/edge_to_cloud.py:64-116 | Row and conflict list after one status report: sequence guard, edge-owned fields, roll-back; cancel_after_start for a cancelled row, reassign_after_start for one on another shift |
| CloudEdgeTasks.EdgeTaskTable.ApplyTaskAssignment | backend/app/sync/handlers/cloud_to_edge.py:135-162 | Edge row after an assignment: inserted, replaced, or left alone when started or newer |
| CloudEdgeTasks.EdgeTaskTable.ApplyTaskCancelled | backend/app/sync/handlers/cloud_to_edge.py:165-174 | Edge row after a cancel: absent, started and newer rows are left alone |
| TaskConvergence.DivergesExactly | backend/app/edge/tasks/service.py:34-72 | From every reachable state, a step can end, with everything delivered and no further such step, in tiers that differ, exactly when it resumes a task that never started and the cloud has not cancelled it on the same shift |
| TaskConvergence.CancelIsLost | backend/app/sync/handlers/edge_to_cloud.py:98-116 | Resuming an unstarted task the cloud has cancelled on the same shift: in every continuation no conflict is recorded and, once reported, the cloud has it active or done, the cancel gone |
| TaskConvergence.StepKeepsInvariantExactly | backend/app/sync/handlers/edge_to_cloud.py:72-116 | Every transaction of either tier keeps the protocol invariant exactly when it is not a diverging resume |
| TaskConvergence.Convergence | backend/app/sync/handlers/edge_to_cloud.py:64-116 | For every interleaving of create, cancel, reassign, operator actions, progress and in-order deliveries: with both outboxes empty the tiers agree on shift and every edge-owned field |
| TaskConvergence.DrainingConverges | backend/app/sync/handlers/cloud_to_edge.py:139-174 | From every reachable state, delivering what is queued is enough to reach agreement |
| TaskConvergence.AtMostOneConflict | backend/app/sync/handlers/edge_to_cloud.py:72-95 | A task has at most one recorded conflict, and then the cloud took over the edge assignment |
| TaskConvergence.StartedTaskIsConstant | backend/app/sync/handlers/cloud_to_edge.py:135-174 | Over any run, from its start and between two actions on it, a task row of the edge is constant |
| TaskConvergence.ConflictRecordedExactly | backend/app/sync/handlers/edge_to_cloud.py:64-95 | From every reachable state, draining adds one conflict for exactly the tasks whose first report since the start is still to come and that the cloud has cancelled or has on another shift: cancel_after_start if cancelled, reassign_after_start otherwise, with the start of that report |
| TaskConvergence.ConflictCarriesFirstStart | backend/app/sync/handlers/edge_to_cloud.py:72-95 | Whatever follows the first start of a task, a conflict carries the time of that start, while the edge shows the time of the last accepted start |
| TaskConvergence.EdgeShowsLastProgress | backend/app/edge/tasks/service.py:142-160 | Over any run a started task shows the last progress accepted for it |
| TaskConvergence.RollsBackExactly | backend/app/sync/handlers/edge_to_cloud.py:72-95 | From every reachable state and for every started task: once drained, the cloud holds the assignment the edge started with exactly when such a conflict is due or the cloud has that assignment already |
| TaskConvergence.MovedAwayAndBackIsMissed | backend/app/sync/handlers/edge_to_cloud.py:64-69 | For any task and assignments: moved to another shift and back with a new plan after its start, everything is delivered, no conflict is recorded and the tiers keep different plans |
| TaskRedelivery.NewestReportWins | backend/app/sync/handlers/edge_to_cloud.py:98-116 | In whatever order and however often reports arrive, the row ends with the fields of the one with the highest sequence, or is unchanged if it had a newer one |
| TaskRedelivery.NewestAssignmentWins | backend/app/sync/handlers/cloud_to_edge.py:135-162 | The same for the assignments of a task nobody has started |
| TaskRedelivery.RepeatChangesNothing | backend/app/sync/handlers/cloud_to_edge.py:135-174 | A message delivered again to a task that is there changes nothing, whatever came in between |
| Delivery.StepIsSafe | backend/app/sync/worker.py:89-197 | Locking, applying, committing, crashing, failing, dead-lettering and retrying keep: one deliverer per row, inbox = applied keys, no key in two live rows |
| Delivery.AppliedAtMostOnce | backend/app/sync/worker.py:89-163 | With any number of deliverers, each idempotency key is applied at most once |
| Delivery.StepKeepsNumbersExactly | backend/app/sync/worker.py:170-281 | The original sequences of the messages still to be applied survive a step exactly when it is not the second dead-lettering of one of them |
| Delivery.AppliedNumbersAreDistinct | backend/app/sync/worker.py:170-281 | In every run, however often messages are dead-lettered and retried, no two applied messages carry the same sequence |
| Delivery.AppliedWithOriginalNumbers | backend/app/sync/worker.py:258-281 | While no message still to be applied is dead-lettered twice, every message is applied with the sequence it was first sent with |
| Delivery.SecondBurialRenumbers | backend/app/sync/worker.py:170-197 | The second dead-lettering copies the retry row sequence, so the message comes back renumbered |
| Delivery.ListingPositions | backend/app/sync/worker.py:109-163 | The batch query returns the undelivered messages in outbox order from the first one |
| Delivery.StepStaysInOrder | backend/app/sync/worker.py:109-197 | Every step without dead-lettering keeps applied = delivered = a prefix of the outbox |
| Delivery.AppliedIsPrefixOfOutbox | backend/app/sync/worker.py:109-163 | In runs without dead-lettering the applied messages are always a prefix of the outbox order |
| Delivery.SyncTables.Attempt | backend/app/sync/worker.py:89-106 | One attempt at a message is a run of the protocol; it goes on exactly when it applied the message or the failure lies the whole window after the first one; what it applied |
| Delivery.SyncTables.RetryDeadLetter | backend/app/sync/worker.py:258-281 | A retried dead letter keeps its key and effective sequence |
| Delivery.SyncTables.DeliverPending | backend/app/sync/worker.py:109-163 | The pass over a batch is a run of the protocol; it goes through the messages before the first one that is in backoff, locked by another deliverer (busy) or fails without being dead-lettered; each is applied or dead-lettered, and the three totals are theirs |
| DeadLetters.DeadLetteredExactly | backend/app/sync/worker.py:170-197 | In every run, from the recorded failures alone: a failure dead-letters its message exactly when the first one since it was sent or last retried lies the whole window back (a first failure only for a window of at most zero); then the batch goes on, otherwise the message stays and blocks it |
| DeadLetters.ListedAsFirstSent | backend/app/sync/worker.py:121-131 | Messages still to be applied are listed in the order they were first sent in, retried ones in their old place, and none is passed over for a later one, while no such message is dead-lettered twice |
| Renumbering.RenumbersExactly | backend/app/sync/worker.py:170-281 | From every state of such a run, a step can lead, with no further such burial, to a message being applied with a sequence it was not first sent with, exactly when it dead-letters a retried message that is still to be applied |
| Renumbering.CanApply | backend/app/sync/worker.py:109-163 | From every idle reachable state, some run of listings, takes and commits applies any given message that is pending and not applied yet, with the sequence it has |
| Renumbering.SecondBurialIsReached | backend/app/sync/worker.py:170-281 | For any message and window, a run from the empty tables reaches such a second dead-lettering |
| EntityOrder.EntityAppliedInOrder | backend/app/sync/worker.py:109-197 | In every run, with any number of deliverers, that dead-letters no unapplied message about an entity, its messages are applied in ascending sequence |
| EntityOrder.StaleExactly | backend/app/sync/worker.py:170-281 | From every state of such a run, a step can lead, with no further such burial, to an older message about the entity being applied last exactly when it dead-letters an unapplied message about it |
| EntityOrder.BurialIsReached | backend/app/sync/worker.py:170-197 | For any message and window, a run from the empty tables reaches such a burial |
| SummaryOrder.StoredSummaryIsLatest | backend/app/sync/handlers/edge_to_cloud.py:152-170 | The stored shift summary is the one with the highest sequence applied, in every run that dead-letters no unapplied summary of the shift |
| Replicas.ReplicaTables.ApplyRow | backend/app/sync/handlers/cloud_to_edge.py:123-132 | Insert or overwrite guarded by the row sequence (shifts here, incidents on the other side) |
| Replicas.SameSequenceWritesOnce | backend/app/sync/handlers/cloud_to_edge.py:123-132 | A second message with a sequence a row has already changes nothing |
| Replicas.ReplicaTables.LatestApplied | backend/app/sync/handlers/cloud_to_edge.py:48-54 | The guard query finds the highest sequence applied for a snapshot type |
| Replicas.ReplicaTables.ApplySnapshot | backend/app/sync/handlers/cloud_to_edge.py:57-71 | A snapshot replaces its table unless a newer one was applied |
| Replicas.ReplicaTables.ReceiveAll | backend/app/sync/handlers/edge_to_cloud.py:124-139 | Handling a log of messages one after another leaves the rows, snapshot and records that the log determines |
| Replicas.FirstRecordStays | backend/app/sync/handlers/edge_to_cloud.py:136-139 | For any order, an append-only record exists exactly for delivered ids and holds the first payload delivered for its id |
| Replicas.RepeatInsertsNothing | backend/app/sync/handlers/edge_to_cloud.py:136-139 | A record whose id was delivered before changes nothing |
| Replicas.RowIsLatest | backend/app/sync/handlers/edge_to_cloud.py:124-133 | For any order, a row exists exactly for delivered entities and holds the payload with the highest sequence |
| Replicas.SnapshotIsLatest | backend/app/sync/handlers/cloud_to_edge.py:48-60 | For any order, a snapshot table holds the snapshot with the highest sequence |
| Replicas.OrderDoesNotMatter | backend/app/sync/handlers/cloud_to_edge.py:123-132 | Two delivery orders of the same messages leave the same tables |
| Replicas.ReplicasAfterAnyRun | backend/app/sync/worker.py:97-104 | In every worker run, whatever is dead-lettered and retried, each row and each snapshot table holds the payload with the highest sequence applied; while no message still to be applied is dead-lettered twice these are the sequences first sent with |
| Replicas.SecondDeadLetterOverwritesNewer | backend/app/sync/worker.py:258-281 | Concrete family: after a second cycle an old payload overwrites a newer one |
| Spool.SpoolTable.Add | backend/app/edge/stream/spool.py:58-79 | A record is appended with the next sequence, or the failure only counts |
| Spool.SpoolTable.EnforceLimit | backend/app/edge/stream/spool.py:125-183 | What one enforcement removes and adds; above the limit it ends with as many ticks as the low-water share of the limit holds, or is refused (a negative LIMIT) when that share exceeds the backlog |
| Spool.GroupByMachine | backend/app/edge/stream/spool.py:142-144 | The per-machine dictionary groups exactly the dropped rows |
| Spool.GapOf | backend/app/edge/stream/spool.py:149-154 | Count and exact time range of one machine's dropped ticks |
| Spool.LimitDropsOldestTicks | backend/app/edge/stream/spool.py:125-183 | Above the limit: refused exactly when max x low >= backlog + 1; otherwise k ticks stay with k <= max x low < k + 1 (none for a negative share), exactly the newest ones; other kinds stay; one exact gap per machine; ticks = kept + sum of gap counts |
| Spool.KeptAfterDrop | backend/app/edge/stream/spool.py:171-171 | Deleting the numbers of the first n ticks removes these rows and no other |
| Spool.AcknowledgedPrefix | backend/app/edge/stream/forwarder.py:99-110 | The loop returns the sequences of the clear rows |
| Spool.ClearNumbersExactly | backend/app/edge/stream/forwarder.py:99-110 | A row may be deleted exactly when it and every earlier row of its machine in the batch were acknowledged |
| Analytics.Decode | backend/app/cloud/stream/analytics.py:174-192 | The three dictionaries and the malformed count of a batch |
| Analytics.MalformedExactly | backend/app/cloud/stream/analytics.py:50-108 | A record is skipped exactly for data of another kind than it announces, or an event without a type |
| Analytics.Aggregate | backend/app/cloud/stream/analytics.py:128-143 | One pass over a minute computes the counts, mean, fuel range and load cycles of exactly its ticks |
| Analytics.WindowHoldsTheMinute | backend/app/cloud/stream/analytics.py:140-143 | The time window of the statement never cuts a minute being rebuilt |
| Analytics.AnalyticsStore.InsertRows | backend/app/cloud/stream/analytics.py:111-120 | Rows with new event ids are inserted, stored rows win; stored + duplicates + malformed = batch size |
| Analytics.AnalyticsStore.ApplyRecords | backend/app/cloud/stream/analytics.py:170-205 | After every batch each (machine, minute) rollup is the aggregate of the archived ticks of that minute, and no empty minute has one |
| Analytics.AnalyticsStore.ApplyAll | backend/app/cloud/stream/consumer.py:87-102 | Batch after batch into an empty store |
| Analytics.TouchedMinutes | backend/app/cloud/stream/analytics.py:200-202 | Exactly the minutes with a new tick are recomputed |
| Analytics.RollupsAreDetermined | backend/app/cloud/stream/analytics.py:123-167 | The rollups are a function of the archive |
| Analytics.SameRecordsSameTable | backend/app/cloud/stream/analytics.py:111-120 | The same records in any order, batches and multiplicity leave the same table |
| Analytics.BatchingDoesNotMatter | backend/app/cloud/stream/analytics.py:170-205 | Hence any reordering, re-batching or duplication gives the same archive, gaps, events and rollups |
| StreamPipeline.StepIsSound | backend/app/edge/stream/forwarder.py:167-264 | Every step (spool, limit, read, broker write, delete, crash, poll, store, commit, replay) keeps the end-to-end invariant |
| StreamPipeline.DeleteIsSound | backend/app/edge/stream/forwarder.py:209-215 | Only records the broker holds leave the spool |
| StreamPipeline.EnforceIsSound | backend/app/edge/stream/spool.py:125-183 | Dropped ticks are each counted by exactly one gap record, with exact counts |
| StreamPipeline.StoreBatchIsSound | backend/app/cloud/stream/consumer.py:154-157 | Storing before committing keeps everything up to the committed offsets stored, replays included |
| StreamPipeline.NoSilentLoss | backend/app/edge/stream/forwarder.py:167-234 | In every run a spooled record is in the spool or in a broker log, or it is a tick counted by a gap record that itself is in the spool or a log |
| StreamPipeline.ArchiveIsComplete | backend/app/cloud/stream/consumer.py:133-161 | Spool empty and consumer caught up: archived and dropped ticks together are exactly the spooled ticks, archived data unchanged, every gap arrived with the exact count, rollups agree; the stored events are exactly the spooled incidents and behaviour events, unchanged |
| StreamPipeline.StoredAsSpooled | backend/app/cloud/stream/analytics.py:50-108 | At any time of any run every stored row is the spooled record of its id, field by field, under its machine and time |
| StreamWorkers.OldestBatch | backend/app/edge/stream/forwarder.py:194-201 | The batch is the oldest records: gap markers, then safety events, then ticks |
| StreamWorkers.BatchServesKinds | backend/app/edge/stream/spool.py:33-38 | No tick is sent before a waiting event or gap marker, no event before a waiting gap marker, and of two alike the older goes first |
| StreamWorkers.Forwarder.Enforce | backend/app/edge/stream/forwarder.py:174-181 | The limit is one protocol step; the dropped total grows by exactly the ticks removed |
| StreamWorkers.Forwarder.Settle | backend/app/edge/stream/forwarder.py:208-232 | Exactly the acknowledged prefix is deleted, or nothing when the delete rolls back; sent and failed totals |
| StreamWorkers.BackoffIsExponential | backend/app/edge/stream/forwarder.py:311-316 | Over any passes, the wait after a failure is 2^(failures since the last full acknowledgement), at most the maximum, and never shorter than an earlier wait of the same row |
| StreamWorkers.BackoffAfterPass | backend/app/edge/stream/forwarder.py:217-231 | What one pass makes of connection, failure count and retry time: unchanged, connected only, a fresh start, or one failure more |
| StreamWorkers.Forwarder.RunOnce | backend/app/edge/stream/forwarder.py:167-234 | A whole pass, whatever fails in it, is a run of the protocol that enforces the limit and then, exactly when online and out of backoff, drains one batch; connection, attempts and retry time after it |
| StreamWorkers.Consumer.PollOnce | backend/app/cloud/stream/consumer.py:133-161 | A poll, whatever fails in it, is a run of the protocol; offsets move only after the store commits |
| RuleMachine.RuleStateMachine.Evaluate | backend/app/edge/safety/state_machine.py:101-132 | The object with its five optional fields steps as the specified machine does |
| RuleMachine.RuleStateMachine.FromPending | backend/app/edge/safety/state_machine.py:165-197 | Debounce and grace branches: when it opens and with which severity |
| RuleMachine.RuleStateMachine.FromActive | backend/app/edge/safety/state_machine.py:199-220 | Escalation by grace time or threshold, and the start of clearing |
| RuleMachine.RuleStateMachine.FromClearing | backend/app/edge/safety/state_machine.py:222-237 | Re-trigger, confirmation or waiting |
| RuleMachine.RuleStateMachine.HoldUnknown | backend/app/edge/safety/state_machine.py:134-143 | An unknown reading opens and closes nothing and undoes a clearing |
| RuleMachine.RuleStateMachine.Reset | backend/app/edge/safety/state_machine.py:145-152 | Back to idle, WARNING |
| RuleMachine.MachineRefinesStages | backend/app/edge/safety/state_machine.py:101-248 | For all inputs with non-decreasing time, the machine refines a description by stages that speaks of the inputs only |
| RuleMachine.OpensExactly | backend/app/edge/safety/state_machine.py:158-197 | An incident opens exactly when the condition, judged present earlier in the wait, was never judged absent since, for one of the grace times or, without them, for the debounce time |
| RuleMachine.ClosesExactly | backend/app/edge/safety/state_machine.py:222-237 | An open incident closes exactly when every tick of some stretch of at least the clearing hold after its opening was judged and quiet (never guess safe) |
| RuleMachine.OpensWithSeverityExactly | backend/app/edge/safety/state_machine.py:173-197 | An incident opens as critical exactly when the present stretch it opens on has lasted the critical grace time, or, without a warning grace time, when the reading it opens on is critical |
| RuleMachine.SeverityExactly | backend/app/edge/safety/state_machine.py:199-237 | A running incident is critical exactly when it opened so, or a reading since then, at which it was not clearing, crossed the critical threshold or the critical grace time |
| RuleMachine.OpensAndClosesAlternate | backend/app/edge/safety/state_machine.py:101-132 | Opens and closes strictly alternate |
| RuleMachine.SeverityRisesOnce | backend/app/edge/safety/state_machine.py:199-220 | Within one incident severity never falls and escalates at most once, exactly when it rises |
| RuleMachine.OpeningsAreSpaced | backend/app/edge/safety/state_machine.py:165-248 | Successive openings are at least clearing hold + cooldown + opening delay apart |
| Escalation.RepeatEscalationTracker.RecordAndCheck | backend/app/edge/safety/escalation.py:31-62 | Escalates exactly when, times not going back, enough recorded WARNINGs of the rule lie in the window |
| Escalation.RepeatEscalationTracker.ResetMachine | backend/app/edge/safety/escalation.py:64-68 | Forgets exactly the machine's rules |
| Escalation.Trimmed | backend/app/edge/safety/escalation.py:54-62 | The trimming loop keeps exactly the entries inside the window |
| RepeatRuns.OpensAsCriticalExactly | backend/app/edge/safety/engine.py:278-295 | Over any run of committed ticks from an empty tracker: an incident opens as CRITICAL exactly when the machine opens it so, or repeat escalation applies to its rule and, with this one, enough WARNING openings of the rule lie in the window |
| SafetyEngine.SafetyEngine.EvaluateRule | backend/app/edge/safety/engine.py:268-310 | One rule on one tick: open, escalate, close, unknown and degraded paths on slots, tracked set, effects, windows and rows |
| SafetyEngine.SafetyEngine.WriteIncident | backend/app/edge/safety/engine.py:278-295 | Opening: repeat escalation forces CRITICAL on machine and row alike |
| SafetyEngine.SafetyEngine.EndIncident | backend/app/edge/safety/engine.py:382-407 | Closing: end time, status by severity and acknowledgement, tracked set |
| SafetyEngine.SafetyEngine.TrackUnknownFlag | backend/app/edge/safety/engine.py:312-322 | One message per change of the unknown flag |
| SafetyEngine.SafetyEngine.ProcessTick | backend/app/edge/safety/engine.py:238-262 | Every rule once, in order, a failing one degraded |
| SafetyEngine.RestoringUndoesTick | backend/app/edge/safety/engine.py:180-194 | Wherever in the tick it fails, restoring the checkpoint gives the engine of before the tick |
| SafetyEngine.SafetyEngine.FlushEffects | backend/app/edge/safety/engine.py:196-200 | All effects in order: what the driver counts and what the clients get |
| SafetyEngine.SafetyEngine.RunTick | backend/app/edge/telemetry/pipeline.py:70-118 | A rolled-back tick leaves engine, rows and counter as before and emits nothing; a committed one does all of it |
| SafetyEngine.SafetyEngine.IncidentResolved | backend/app/edge/safety/engine.py:219-222 | An acknowledged resolution leaves the tracked set and tells the driver once |
| SafetyEngine.OpeningIsSound | backend/app/edge/safety/engine.py:328-362 | Opening keeps slot links, row lifecycle, tracked set and driver balance |
| SafetyEngine.EscalatingIsSound | backend/app/edge/safety/engine.py:364-380 | So does escalating |
| SafetyEngine.ClosingIsSound | backend/app/edge/safety/engine.py:382-407 | So does closing |
| SafetyEngine.ProcessingIsSound | backend/app/edge/safety/engine.py:238-310 | So does a whole tick, whatever each rule reads or raises |
| OperatorMessages.OpeningTells | backend/app/edge/safety/engine.py:328-362 | An opening writes the row, tracks the incident and queues what driver and operator are told, in order |
| OperatorMessages.EscalationTells | backend/app/edge/safety/engine.py:364-380 | An escalation raises a stored WARNING to CRITICAL and tells the operator, nothing else |
| OperatorMessages.ClosingTells | backend/app/edge/safety/engine.py:382-407 | A closing dates the end; a WARNING or acknowledged incident is resolved, untracked and the driver told, any other stays open; the operator hears of both |
| OperatorMessages.RaisingDegrades | backend/app/edge/safety/engine.py:244-262 | A rule that raises is switched off with one message, and does and says nothing afterwards |
| OperatorMessages.FaultsAreReported | backend/app/edge/safety/engine.py:312-322 | After any part of a tick, sensor faults less restorations reported for a rule are the change of its unknown flag |
| SafetyEngine.ClampExactly | backend/simulator/live/clock_driver.py:41-55 | The count is openings minus closings exactly when no closing finds it at zero, and higher otherwise |
| AutoSlow.TickIsSound | backend/app/edge/telemetry/pipeline.py:70-118 | A committed tick, with or without a shift hand-over, keeps the system invariant, and its notifications never hit the clamp |
| AutoSlow.AcknowledgedRow | backend/app/edge/safety/acknowledgement.py:20-48 | Acknowledging resolves exactly the ended incidents and keeps the row lifecycle |
| AutoSlow.AcknowledgesExactly | backend/app/edge/safety/acknowledgement.py:20-48 | An acknowledgement changes the system exactly when the incident is known and the operator's own, and is resolved already or its machine is known to stand still: that row, and the tracked set of its machine's engine if it is resolved |
| AutoSlow.ReportResolvesOnceAcknowledged | backend/app/api/routes/operator.py:176-190 | An operator's own report is neither tracked nor counted, and its first acknowledgement resolves it |
| AutoSlow.AckIsSound | backend/app/api/routes/operator.py:203-224 | An acknowledgement keeps the system invariant; it takes one off the count, which is above zero, exactly when it resolves an incident an installed engine tracks |
| AutoSlow.StepIsSound | backend/app/edge/telemetry/pipeline.py:107-112 | Every action keeps the system invariant |
| AutoSlow.CounterIsExact | backend/simulator/live/clock_driver.py:41-60 | In every reachable state the driver's count is the number of unresolved incidents of the installed engines, which are exactly the unresolved engine incidents written since streaming last stopped |
| AutoSlow.ClampNeverFires | backend/simulator/live/clock_driver.py:52-55 | In every reachable state no closing notification, of a tick or of an acknowledgement, finds the count at zero |
| AutoSlow.IncidentLifecycle | backend/app/edge/safety/engine.py:268-407 | Resolved: ended and WARNING or acknowledged; acknowledged: not ended; a rule holds an incident id exactly while active or clearing, with the machine's severity as stored peak |
| AutoSlow.HandOverStrands | backend/app/edge/telemetry/pipeline.py:107-112 | An incident whose hazard is on at a shift hand-over is never resolved afterwards, and auto-slow stays on until streaming stops |
| AutoSlow.HandOverIsReached | backend/app/edge/telemetry/pipeline.py:107-112 | For any rule configuration, a run from the start reaches a hand-over with an incident whose hazard is on |
| AutoSlow.StuckForGood | backend/app/edge/safety/engine.py:219-232 | An engine incident that has not ended and that no running rule holds stays unresolved in every run |
| AutoSlow.ResolvableExactly | backend/app/edge/safety/engine.py:297-310 | An unresolved engine incident that has ended or that a running rule holds is resolved by ticks of a machine at rest and an acknowledgement, at times not before now and not going back; any other is resolved by no run |
| EdgePipeline.Pipeline.Process | backend/app/edge/telemetry/pipeline.py:70-118 | A tick through the engine objects is the corresponding system action; a committed one sends exactly its messages, a rolled-back one nothing |
| EdgePipeline.Pipeline.ProcessFirst | backend/app/edge/telemetry/pipeline.py:154-201 | The first tick of a shift: a new engine, installed only after the commit, with the old one's unresolved incidents |
| EdgePipeline.Pipeline.Stop | backend/simulator/live/runner.py:65-76 | Stopping drops the engines and the driver's count |
| EdgePipeline.Pipeline.AcknowledgeIncident | backend/app/api/routes/operator.py:203-224 | The route is the corresponding system action; when it is accepted, the exact condition of each refusal in the order of the checks, and that a refused request changes nothing |
| EdgePipeline.Pipeline.ChooseSpeed | backend/app/api/routes/simulator.py:84-90 | In a sound system the clock runs at the chosen speed exactly when no tracked incident is unresolved, and at 1x otherwise |
| EtaAggregates.Accumulate | backend/app/shared/eta_aggregates.py:183-200 | The nested loop leaves, for every key, the sums over exactly the rows that have it |
| EtaAggregates.LeaveOneOut | backend/app/shared/eta_aggregates.py:202-240 | Resolving any key with one task and one shift subtracted equals resolving it in statistics rebuilt without them |
| EtaAggregates.ResolvedFromHistory | backend/app/shared/eta_aggregates.py:202-240 | From the history rows alone, one task and one shift left out or none: a key resolves exactly when three covered tasks with a positive total quantity remain; pace = minutes / quantity, rates = means over the covered shifts or the defaults |
| EtaAggregates.SumWithout | backend/app/shared/eta_aggregates.py:211-219 | Removing one row from the history subtracts exactly its share |
| EtaAggregates.FindFirstRow | backend/app/shared/eta_aggregates.py:145-154 | The first trusted scope of the chain, or the default |
| EtaAggregates.ResolveHistory | backend/app/shared/eta_aggregates.py:115-142 | Features of the first trusted row among operator, skill, fleet, and pace of the first among machine, fleet, with their scopes, or the defaults |
| EtaAggregates.AggregateStats.ToRows | backend/app/shared/eta_aggregates.py:242-246 | Exactly the rows the live statistics resolve, in ascending key order |
| EtaAggregates.DeployedRowsAreDetermined | backend/app/shared/eta_aggregates.py:242-260 | Two lists that hold exactly the rows the statistics resolve, in key order, are equal, so the version hash over them is a function of the statistics |
| EtaAggregates.KeyOrderIsTupleOrder | backend/app/shared/eta_aggregates.py:242-246 | The order of the rows is that of the key tuples, part by part as text |
| EtaAggregates.AggregateTable.constructor | backend/app/shared/eta_aggregates.py:268-270 | The table looks up the last row of each key |
| EtaAggregates.DeployedTableAgrees | backend/app/shared/eta_aggregates.py:242-290 | The deployed table gives every task the features of the live resolver |
| EtaAggregates.DeployedHistory | backend/app/shared/eta_aggregates.py:242-290 | Deploying the statistics and asking the table gives the features of the live statistics |
| IdleTotals.BehaviorEngine.ProcessTick | backend/app/edge/behavior/engine.py:125-156 | The accumulators move by the tick's seconds |
| IdleTotals.BehaviorEngine.RunTick | backend/app/edge/behavior/engine.py:112-118 | A rolled-back tick leaves the totals as they were |
| IdleTotals.BehaviorEngine.OnShiftEnd | backend/app/edge/behavior/engine.py:225-257 | Ends the shift at most once, with the ratio of the totals |
| IdleTotals.RunShift | backend/app/edge/behavior/engine.py:140-156 | A whole shift of committed and rolled-back ticks leaves the totals of the committed ones |
| IdleTotals.DtsAreUnique | backend/app/edge/shift_summary.py:31-43 | The per-row gaps of the query depend on the stored rows only, not on their order |
| IdleTotals.StreamingAgainstBatch | backend/app/edge/shift_summary.py:31-55 | For strictly increasing timestamps, streaming totals = query totals + what the uncapped first tick adds |
| IdleTotals.StreamingEqualsBatchExactly | backend/app/edge/behavior/engine.py:125-134 | Both agree exactly when the nominal tick is within the cap, or there is no tick, or the engine was off on the first one |
| IdleTotals.LongFirstTickDiffers | backend/app/edge/shift_summary.py:39-39 | Concrete case: a nominal tick above the cap |
| IdleTotals.IdleWithinEngine | backend/app/edge/behavior/engine.py:149-156 | 0 <= idle <= engine time |
| IdleTotals.RollupsCountTheSame | backend/app/edge/behavior/engine.py:133-141 | The cloud's minute rollups count as idle exactly the ticks whose time the edge counts as idle |
| SnapshotHandover.EveryUpdateOnce | backend/app/api/ws/manager.py:30-79 | For any interleaving, overlapping broadcasts included, a client gets the snapshot and every update since it registered at most once, and all of them once settled |
| SnapshotHandover.SnapshotThenUpdatesInOrder | backend/app/api/ws/manager.py:65-79 | While no broadcast starts on a connected live client that an unfinished one still concerns, what a client got is always the snapshot and the first updates since it registered, in order |
| SnapshotHandover.BroadcastJumblesExactly | backend/app/api/ws/manager.py:45-63 | From every state of such a run, starting a broadcast can lead to an out-of-order delivery exactly when a connected live client of the machine still waits for the send of an unfinished broadcast, or failed in one and is not removed yet |
| SnapshotHandover.OverlappingBroadcastsReorder | backend/app/api/ws/manager.py:45-63 | Wherever a machine has a live client, a second broadcast started before the first has sent can reach it in the wrong order |
| SnapshotHandover.StepIsSane | backend/app/api/ws/manager.py:30-63 | A connected client is live exactly when nothing is held for it, and only live clients are sent to directly |
| SnapshotHandover.ConnectionManager.HoldForWaiting | backend/app/api/ws/manager.py:45-54 | First locked section of a broadcast: who has it held, who gets it directly |
| SnapshotHandover.ConnectionManager.ConnectClient | backend/app/api/ws/manager.py:30-37 | Registering a client is one step of the protocol: it is connected with an empty list of held updates |
| SnapshotHandover.ConnectionManager.Broadcast | backend/app/api/ws/manager.py:45-63 | A broadcast with nothing in between reaches every live client whose send works and forgets the others |
| SnapshotHandover.ConnectionManager.TakeUpdates | backend/app/api/ws/manager.py:70-75 | Locked section of the draining loop: a batch, or the end |
| SnapshotHandover.ConnectionManager.DisconnectClient | backend/app/api/ws/manager.py:39-43 | A disconnect forgets the client and its held updates |
| HourMeter.CloudTables.ApplyShiftSummary | backend/app/sync/handlers/edge_to_cloud.py:152-170 | Stores the summary and moves the meter by the difference; the machine list goes back exactly when the meter moved |
| HourMeter.CloudTables.AddShiftHours | backend/app/cloud/maintenance.py:32-40 | Adds the delta to the meter of the shift's machine |
| HourMeter.SummaryKeepsMeters | backend/app/cloud/maintenance.py:17-25 | A new, repeated or corrected summary keeps every meter what the full recompute gives |
| HourMeter.MetersStayExact | backend/app/cloud/maintenance.py:17-40 | So does any sequence of summaries |
| HourMeter.RepeatedSummaryCountsOnce | backend/app/sync/handlers/edge_to_cloud.py:152-170 | A repeated summary changes nothing |
| HourMeter.LastSummaryWins | backend/app/sync/handlers/edge_to_cloud.py:158-166 | Of several summaries of a shift the last one is stored |
| Assignment.OverlapIsCommonInstant | backend/app/cloud/assignment/validation.py:43-44 | The overlap test means sharing an instant |
| Assignment.FirstOverlap | backend/app/cloud/assignment/validation.py:101-148 | The scan finds the first overlapping slot, or there is none |
| Assignment.NextFreeStart | backend/app/cloud/assignment/service.py:122-125 | The default start: the latest end, or shift start |
| Assignment.ShiftSlots | backend/app/cloud/assignment/service.py:95-102 | The query returns every overlapping shift of the operator or machine, and nothing else |
| Assignment.ActiveTasks | backend/app/cloud/assignment/service.py:105-115 | The query returns exactly the shift's other tasks that are not cancelled |
| Assignment.StepKeepsPlanExactly | backend/app/cloud/assignment/service.py:133-317 | Creating, cancelling and moving keep shifts per operator and machine, and tasks per shift, disjoint and inside; a status report does exactly when it does not put a task back where it no longer fits, which only happens to one that is cancelled or that the edge started on another shift |
| Assignment.RollBackDoubleBooks | backend/app/sync/handlers/edge_to_cloud.py:72-116 | From every sound plan in which a task can be planned: plan it, cancel it, plan another in its place, then let the edge report it started with the booking the cloud had sent; the two overlap |
| Assignment.FirstShiftDoubleBooks | backend/app/sync/handlers/edge_to_cloud.py:72-116 | Such a plan is reached from one operator and one machine, for any shift window and any planned minutes |
| Assignment.RunKeepsPlan | backend/app/sync/handlers/edge_to_cloud.py:72-116 | So the plan is sound after every run of operations and of reports of that kind |
| Assignment.AdminsKeepPlan | backend/app/cloud/assignment/service.py:133-317 | And after every run of admin operations alone |
| Staffing.AdminsKeepStaffed | backend/app/cloud/assignment/validation.py:52-98 | After every run of admin operations each shift has a known operator qualified for its machine, and each task suits that machine, starts inside the shift and carries the operator's skill |
| Staffing.ShiftRefusedExactly | backend/app/cloud/assignment/service.py:145-160 | With which error a shift is refused, and exactly when |
| Staffing.CreateRefusedExactly | backend/app/cloud/assignment/service.py:229-243 | With which error a new task is refused, and exactly when, units included |
| Staffing.PlaceRefusedExactly | backend/app/cloud/assignment/service.py:207-224 | With which error placing a task is refused, and exactly when |
| Staffing.ChangeRefusedExactly | backend/app/cloud/assignment/service.py:260-272 | With which error a task may not be cancelled or moved, and exactly when |
| Staffing.CompatibleByMachine | backend/app/shared/compatibility.py:12-18 | The compatibility matrix read by machine type |
| Assignment.PlacedTaskKeepsPlanExactly | backend/app/cloud/assignment/validation.py:101-148 | A planned task keeps the plan sound exactly when it starts inside its shift and overlaps nothing planned there |
| Assignment.NewShiftKeepsPlan | backend/app/cloud/assignment/service.py:133-168 | A new shift keeps the plan sound exactly when its window is valid and operator and machine are free |
| Assignment.DefaultStartNeverClashes | backend/app/cloud/assignment/service.py:122-125 | Without a requested start no operation is ever refused for overlap, whatever came before and however long the task |
| Assignment.RefusedOpsLeaveNothing | backend/app/cloud/assignment/service.py:229-257 | A run ends in the same tables without its refused operations |
| Assignment.AdminService.CreateShift | backend/app/cloud/assignment/service.py:133-186 | Accepted exactly when every rule passes and both are free; otherwise the first broken rule and no change |
| Assignment.AdminService.PlaceTask | backend/app/cloud/assignment/service.py:194-226 | Accepted exactly when placeable, with the skill, start and end of the placed task; otherwise the first broken rule |
| Assignment.AdminService.CreateTask | backend/app/cloud/assignment/service.py:229-257 | Accepted exactly when the unit fits and the task is placeable; no row on rejection |
| Assignment.AdminService.CancelTask | backend/app/cloud/assignment/service.py:275-283 | Cancels exactly an unstarted task |
| Assignment.AdminService.ReassignTask | backend/app/cloud/assignment/service.py:286-317 | Moves exactly an unstarted task to another shift it fits on |
| Assignment.AdminService.ApplyTaskStatus | backend/app/sync/handlers/edge_to_cloud.py:98-116 | A newer report stores the status and rolls the assignment back when the edge started a task the cloud had cancelled or moved |

## Left out

- HTTP routes, schemas, authentication, the React frontend, migrations, logging: plumbing.
- The trained ETA model, text search and language-model calls: what they return is an input.
- Kafka and PostgreSQL internals: logs only grow and the database runs atomic transactions with row locks.
  Sequence numbers follow commit order; retention does not delete unread records.
- JSON encoding of payloads and stream envelopes is taken as injective; records nobody at the edge wrote do not
  reach the topics.
- Rule and detector bodies (`backend/app/edge/safety/rules`, `backend/app/edge/behavior/detectors`): their verdicts
  are inputs, and a rule that raises does so before it touches its machine or the database.
- asyncio interleavings inside a tick, and an acknowledgement in the middle of one.
- Liveness: no statement says that a message is eventually delivered.
- The worker's and consumer's endless loops, backoff sleeps, pacing, send rates, lag and drain estimate.
- `received_at` and `updated_at` stamps, audit records, escalation reasons of incidents, and the training
  recommendations attached to them.
- `record_cycle` and the ETA revision trigger: single-row arithmetic with no history; an accepted progress is one
  step of the sync model.
- Sign-in credentials and warnings returned with an assignment.
- The version hash of aggregate rows; rounding of summary fields.
- Replicas.ReplicasAfterAnyRun: the sequences are those first sent with only while no message still to be applied is
  dead-lettered twice; `Renumbering.RenumbersExactly` says when they are not.
- Delivery.SyncTables.DeliverPending: the locks other deliverers hold do not change during the pass; every interleaving
  is covered by the protocol it is a run of.
- TaskConvergence.Convergence: assumes in-order delivery, since a cancel that overtakes its own assignment is ignored by the
  code when the task is absent, and that nobody resumes a task that never started, unless the cloud has cancelled it
  on the same shift.
- IdleTotals.StreamingAgainstBatch: assumes strictly increasing timestamps; with ties the query's own result depends on
  how the database orders them.
- Escalation.RepeatEscalationTracker.RecordAndCheck: the count statement is for times that never go back per rule; the
  code drops from the front only.
- RuleMachine.MachineRefinesStages: assumes judged timestamps never go back.
