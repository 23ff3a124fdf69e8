# Verified model of the enterprise RAG backend

This project models the parts of the service whose correctness depends on more than one
function: the durable ingestion protocol, the publication of index generations, retrieval ranking,
the streamed query, the ledgers, and the limiters. Each is stated over every input, every
interleaving or every run.

## What is modelled

**Durable delivery of ingestion jobs** (`Jobs`, `Outbox`, `Delivery`, `DeliverySafety`,
`DeliveryTheorems`, `Leases`, `UncheckedExit`, `LostJobs`, `Worker`). `Delivery` is one transition system over the clock,
the job rows with their attempt logs, the outbox rows, a durable broker, the sessions of workers and
the batches of dispatchers. A step is one database transaction or one broker operation; a worker or
a dispatcher can stop between any two of its steps, which is how crashes enter. An attempt holds the
lock of its job row from its first write to the end of its transaction, and so does a user's
cancellation; claims and recovery skip locked rows, and everything else waits for the lock. An attempt row that another attempt has already
numbered makes the first write fail. `Jobs` and `Outbox` also hold the service classes that change
these rows, and `Worker` holds the code that handles one delivery and proves that an undisturbed
handling is a run of the transition system.

**Index-generation publication** (`Publication`, `Visibility`, `Consistency`, `Numbering`,
`Retention`, `PublicationRuns`, `PublicationService`). One document with its versions, generations, chunks, two
pointers and the audited rollback targets. Any number of attempts, rollbacks and cleanups are open on
it at once. Each makes its queries one after the other and writes at the end from what they found; any
other session may commit before each query and before the writes. The unique number of a generation
makes an attempt wait for another one that has inserted the same number. `Visibility` is about what
retrieval sees, `Consistency` about the states of versions and generations, `Numbering` about the
numbers, `Retention` about what cleanup takes away.

**Retrieval** (`Fusion`, `Retrieval`). Reciprocal rank fusion over exact rationals, the re-check of
every candidate against the database, rejection accounting, the reranker and the evidence cut.

**The query stream** (`ModelGateway`, `QueryStream`, `Sse`). Provider attempts with retry, circuit
breaker and fallback; the events of one run and the stored answer; the event printer and the browser's
incremental parser. The format is the subset of sections 9.2.5 and 9.2.6 of the WHATWG HTML standard
that the two programs use.

**Ledgers** (`AuditChain`, `AuditSessions`, `TenantConfiguration`, `Quota`) and **limiters** (`SlidingWindow`).

`Options`, `Backoff` and `StringOrder` are shared helpers.

## What the code does that a reader might not expect

Each is proved with its exact condition or a concrete run.

- A job that is rejected for its tenant is committed without an ownership check (ingestion.py:523-545),
  whoever holds the lease by then. Changes of memberships and spaces and the deletion of a document move the
  tenant's epoch, and so reject the jobs that were submitted before. `UncheckedExit.UncheckedExitUnseatsHolder` is a
  run in which this ends another worker's live lease, so that two workers hold unexpired claims on one
  job. An attempt whose document, version or tenant row is missing commits unchecked as well
  (ingestion.py:569-585), but that takes a deletion of rows by hand. `Leases.LeaseEndsExactly` lists all that
  can end a lease, both ways. The unique attempt number still admits only one of the attempts
  (`DeliveryTheorems.AttemptsAreFenced`).
- The heartbeat's own session is meant to keep leases alive during long attempts (worker.py:210-226), but the
  attempt's first write locks the row that a heartbeat must lock too (ingestion.py:563,
  task_leases.py:88-97). So no lease is renewed while an attempt is open, and one that outlasts the lease
  it began with is given back at its next check (`Leases.LongAttemptsAreGivenBack`).
- A claim that misses because the row is locked acknowledges its delivery. When a worker holds the row, no
  job is lost by that: it has a delivery of its own, which returns if it does not commit. When a user's
  cancellation holds it (ingestion.py:1153-1169) and is then not committed, the job stays queued, and
  due, with nothing left that brings it to a worker: `LostJobs.AbortedCancelLosesJob` is the run, and
  `LostJobs.LostStaysLost` says that only a user gets the job out of there. `DeliveryTheorems.NoQueuedJobIsLost`
  says that nothing else loses a job.
- Attempts, rollbacks and cleanups write from what they read before they waited for the indexes, and do not
  look again. `PublicationRuns` has seven runs: a rebuild over a rollback makes two generations active, and
  when the rollback changed the version, the document vanishes from retrieval although its active
  generation is complete (the version pointer has the value that the attempt had loaded, so it is not
  written); a rollback over a publication makes two generations active; and a cleanup removes the
  generation that was rolled back to after its check. In a fifth, an attempt is overtaken by another one
  between its reads and its numbering. In a sixth, a rollback commits between the two queries of an
  attempt, for its version and for its document; the attempt then publishes over nothing that it has not
  read, and still leaves the version that the document points to superseded. `Visibility` and
  `Consistency` give the exact conditions over all runs.
- Generation numbers are distinct, but do not always grow. When cleanup removes the generation with the
  greatest number while an attempt has counted from it, the next attempt takes a smaller number, and both
  can have inserted theirs at once (`PublicationRuns.UndercutAttemptAddsSmallerNumber`).
- The default list of upload extensions is not sorted (tenant_config.py:27-35), and validators do not run on
  defaults. The first version of a tenant is the dumped defaults, stored without validation
  (tenant_bootstrap.py:133-149), or what the migration put together (8f31a2c4d9b7:88-130), which may
  omit the list. Validating such a version again changes it, so a rollback to it stores another order of the
  extensions under another hash (`TenantConfiguration.RollbackToDefaultsChangesThem`). The same holds for
  every version that was created from a configuration without the list. What the tenant may upload
  stays the same (`TenantConfiguration.RollbackKeepsSettings`).
- The parser's line patterns treat U+2028 and U+2029 as line ends while the printer leaves them in place, so the
  round trip holds exactly for names and payloads that are non-empty and free of them.
- Conflicting sources are quoted in full without the output check, including sources that the
  content check had left out of the citations (query.py:688-701).
- A second release of one quota reservation is accepted when other reservations of the key are
  large enough, and takes their amount.
- Nothing orders the transactions that write audit records of one tenant. Two that overlap link to the same
  row, and the chain no longer verifies although the clock has moved for each
  (`AuditSessions.OverlapForksChain`). It also breaks when a clock reading lies before the last record's, and
  with equal readings it depends on the order that the database gives to equal times.
  `AuditSessions.VerifiesThroughoutIffEachExtends` is the exact condition over all runs.
- A dispatcher's batch counts a row as poisoned by its own copy of the attempt count; the write that
  poisons the row applies only if it still owns it (`Outbox.CountedFailurePoisonsIffOwned`).

## Model

| member | source | states |
|---|---|---|
| DeliveryTheorems.NoQueuedJobIsLost | backend/enterprise_rag/application/worker.py:166-208 | in every reachable state, with any crashes, a queued job has a pending newest outbox row that is not due before the job, or a message or unfinished delivery with the job due, or its newest row is poisoned, unless since its newest row a claim has skipped it while a cancellation held its row |
| DeliveryTheorems.NoRunningJobIsLost | backend/enterprise_rag/application/worker.py:329-360 | a running job always has a lease expiry; from then on recovery applies to it unless a transaction holds the row, queues it again and writes one outbox row |
| DeliveryTheorems.EveryOpenJobCanBeClaimed | backend/enterprise_rag/application/task_leases.py:32-68 | from every reachable state each running job, and each queued job whose newest row is not poisoned and that was not skipped so, can still be brought to a worker with a fresh lease by steps of the machinery alone |
| LostJobs.AbortedCancelLosesJob | backend/enterprise_rag/application/ingestion.py:1153-1169 | a concrete run in which a claim skips the row that a cancellation holds, its delivery is acknowledged and the cancellation is not committed, after which no run without users gets the job out of its queue |
| LostJobs.LostStaysLost | backend/enterprise_rag/application/worker.py:329-360 | a queued job without a pending row, batch entry, message or delivery stays queued over every run in which users do nothing |
| DeliverySafety.StepKeepsInvariant | backend/enterprise_rag/application/ingestion.py:553-802 | every step of users, dispatchers, broker, workers and recovery keeps the carriers, the attempt accounts, the row fencing and the one-lock-holder rule |
| DeliverySafety.MissKeeps | backend/enterprise_rag/application/worker.py:180-184 | acknowledging a delivery whose claim found nothing loses no carrier, also when a worker or recovery had locked the row; only a cancellation that held it marks the job as skipped |
| DeliverySafety.SendKeeps | backend/enterprise_rag/infrastructure/queue.py:344-361 | a row is sent only when its job is due, so the message it becomes can be claimed |
| DeliverySafety.RecordFailureKeeps | backend/enterprise_rag/infrastructure/queue.py:385-418 | a failed publication keeps the row a carrier with a time that is not before its job's, or poisons it |
| DeliverySafety.RescheduleKeeps | backend/enterprise_rag/application/task_leases.py:151-182 | a transient failure commits the queued job and a row due at the same time in one transaction |
| DeliverySafety.RecoverKeeps | backend/enterprise_rag/application/worker.py:344-356 | recovery commits the queued job and its new row together and keeps the invariant |
| Leases.LeaseEndsExactly | backend/enterprise_rag/application/task_leases.py:41-149 | a live lease survives a step if and only if the step is not its expiry, a user's cancellation, the holder's own commit, or an exit that skips the ownership check |
| Leases.HeldExactlyUntilEnded | backend/enterprise_rag/application/ingestion.py:141-148 | over whole runs, a worker stays the live holder throughout exactly when no step of the run is one of those |
| Leases.JobOpensExactly | backend/enterprise_rag/application/task_leases.py:41-149 | a held or cancelled job stays closed to other workers over a step if and only if the step is not the lease's expiry, the holder's own commit, or an exit that skips the ownership check and leaves the job uncancelled |
| Leases.LeaseIsExclusive | backend/enterprise_rag/application/task_leases.py:85-149 | over whole runs, cancellations included, until one of those no other worker can claim the job, renew it or pass an ownership check, and recovery does not touch it |
| Leases.EarlyClaimNeedsCommitOrUncheckedExit | backend/enterprise_rag/application/task_leases.py:41-68 | when another worker can claim the job before the expiry that the holder had at the start of a run, the run contains the holder's own commit or an exit without an ownership check |
| Leases.CheckedCommitIsByHolder | backend/enterprise_rag/application/ingestion.py:704-711 | in every reachable state an attempt that passed its checks commits only while its worker is the recorded holder of a running, uncancelled job |
| Leases.RowIsFrozen | backend/enterprise_rag/application/ingestion.py:553-563 | over any run in which an attempt stays open, its job row does not change: no heartbeat, claim, recovery or user action gets through |
| Leases.LongAttemptsAreGivenBack | backend/enterprise_rag/application/worker.py:190-208 | an attempt still open when the lease it began with has run out passes no further check; its delivery goes back |
| Leases.ReachableIsBounded | backend/enterprise_rag/application/task_leases.py:62-66 | in every reachable state no lease reaches further ahead than one renewal from now |
| Leases.HeartbeatExtends | backend/enterprise_rag/application/task_leases.py:85-103 | a heartbeat sets the expiry to one lease length from its own time, wherever it was, for the recorded holder of a running job only, and changes nothing else |
| Leases.HeartbeatsKeepLease | backend/enterprise_rag/application/worker.py:210-226 | over every run in which the time between two heartbeats of the holder is shorter than a lease and none of the other endings occurs, the holder keeps the job throughout, however long |
| Leases.LeaseHasNoLongestDuration | backend/enterprise_rag/application/worker.py:210-226 | for every number of pauses shorter than a lease, a run of that many pauses and heartbeats exists in which the holder keeps the job throughout |
| UncheckedExit.UncheckedExitUnseatsHolder | backend/enterprise_rag/application/ingestion.py:537-545 | a concrete run in which a worker that lost its lease rejects the job because the tenant's authorization changed, which ends the lease of the present holder, and a third worker claims the job before the earlier expiry |
| DeliveryTheorems.AttemptsAreFenced | backend/enterprise_rag/application/ingestion.py:553-563 | the attempt log grows by one consecutively numbered row for each committed attempt and in no other way, and no other attempt was committed since the committing worker's claim |
| DeliveryTheorems.AttemptsAreAccounted | backend/enterprise_rag/application/ingestion.py:761-802 | in every reachable state the log is numbered 1 to the attempt count, which never exceeds the maximum and is below it for queued and running jobs |
| DeliveryTheorems.RowsAreFenced | backend/enterprise_rag/infrastructure/queue.py:370-417 | a row's attempts rise by one exactly when its owner records a failure, a finished row does not change, and while a claim lives only its dispatcher changes the row |
| DeliveryTheorems.FinishedRowsStay | backend/enterprise_rag/infrastructure/queue.py:293-299 | over whole runs a published or poisoned row stays as it is |
| DeliveryTheorems.RowsAreAccounted | backend/enterprise_rag/infrastructure/queue.py:389-398 | in every reachable state a row is poisoned exactly when its attempts are used up, and never both poisoned and published |
| DeliveryTheorems.EndingDecides | backend/enterprise_rag/application/ingestion.py:783-802 | the commit of an attempt queues the job again, with a row for the same later time, if and only if it failed transiently with attempts left; every other ending settles it without a row |
| DeliveryTheorems.TakenRowIsKept | backend/enterprise_rag/infrastructure/queue.py:313-342 | over every run of less than a minute nobody else takes or changes a row that a dispatcher took, until the dispatcher reports on it |
| Jobs.OnlyTransientFailuresRetry | backend/enterprise_rag/application/ingestion.py:783-802 | which ending leads to which status, and that only a transient failure with attempts left is retried |
| Jobs.RetryDelayDoubles | backend/enterprise_rag/application/task_leases.py:151-157 | the first retry waits for the backoff, each further one twice as long as the one before |
| Jobs.RecoveryAlwaysRequeues | backend/enterprise_rag/application/task_leases.py:130-147 | recovery of a row that the protocol produced never takes the exhaustion or the cancellation branch |
| Jobs.FinishedIsOk | backend/enterprise_rag/application/ingestion.py:783-802 | an attempt's end keeps the attempt accounts and the shape of the lease columns, also when it is queued again |
| Jobs.InlineLoopSettles | backend/enterprise_rag/application/ingestion.py:1141-1151 | the inline loop ends with nothing left to retry, within the maximum, and keeps every attempt it found |
| Jobs.IngestionJob.Process | backend/enterprise_rag/application/ingestion.py:522-566 | the job row after one call, for the tenant exits, the two early returns and each ending of the attempt |
| Jobs.IngestionJob.ProcessWithRetries | backend/enterprise_rag/application/ingestion.py:1141-1151 | the loop computes the recursive retry function that InlineLoopSettles is about |
| Jobs.IngestionJob.ReleaseLease | backend/enterprise_rag/application/ingestion.py:133-139 | clears the three lease columns and nothing else |
| Jobs.IngestionJob.Cancel | backend/enterprise_rag/application/ingestion.py:1153-1169 | refuses settled jobs and otherwise sets flag and status and nothing else |
| Jobs.IngestionJob.Retry | backend/enterprise_rag/application/ingestion.py:1103-1121 | refuses exactly when the attempts are used up, and otherwise queues the job for now |
| Jobs.TaskLeaseService.Claim | backend/enterprise_rag/application/task_leases.py:32-68 | succeeds exactly for an unlocked, uncancelled, due job that is free, its own or expired, and then writes the new lease |
| Jobs.TaskLeaseService.AssertOwned | backend/enterprise_rag/application/task_leases.py:70-83 | reports exactly whether the worker is the live holder |
| Jobs.TaskLeaseService.Heartbeat | backend/enterprise_rag/application/task_leases.py:85-103 | renews only the recorded holder's lease, and then to one lease length from now |
| Jobs.TaskLeaseService.RecoverExpired | backend/enterprise_rag/application/task_leases.py:105-149 | exactly the unlocked running jobs whose lease is over are recovered, and the result lists those that were queued again |
| Jobs.TaskLeaseService.RecoverOne | backend/enterprise_rag/application/task_leases.py:130-147 | the three outcomes for one expired lease |
| Jobs.TaskLeaseService.ScheduleRetry | backend/enterprise_rag/application/task_leases.py:151-182 | queues exactly the transient failures with attempts left, with the doubled delay it returns for the row |
| Outbox.DispatchedMovesOn | backend/enterprise_rag/infrastructure/queue.py:344-418 | one batch leaves each row it took published, poisoned on its last attempt, or free with one attempt more and a later time |
| Outbox.OutboxTable.Add | backend/enterprise_rag/infrastructure/queue.py:248-272 | appends one pending, unclaimed row |
| Outbox.OutboxTable.ClaimBatch | backend/enterprise_rag/infrastructure/queue.py:289-343 | claims the first rows that may be taken by priority and age, at most the limit, all of them when there are fewer, and changes no other row |
| Outbox.OutboxTable.MarkPublished | backend/enterprise_rag/infrastructure/queue.py:370-384 | marks the row and counts one only while the dispatcher owns it unpublished |
| Outbox.OutboxTable.RecordFailure | backend/enterprise_rag/infrastructure/queue.py:389-418 | writes from the dispatcher's copy of the attempt count only while it owns the row |
| Outbox.FailureDelayDoubles | backend/enterprise_rag/infrastructure/queue.py:389-402 | the first failure postpones a row by two seconds, each further one by twice as long as the one before |
| Outbox.OutboxTable.DispatchRow | backend/enterprise_rag/infrastructure/queue.py:360-418 | the row and the two counters after one publication, whether or not the dispatcher still owns the row |
| Outbox.CountedFailurePoisonsIffOwned | backend/enterprise_rag/infrastructure/queue.py:396-417 | a last failure, which is always counted as poisoned, poisons the row if and only if the dispatcher still owns it |
| Outbox.OutboxTable.DispatchBatch | backend/enterprise_rag/infrastructure/queue.py:312-419 | the whole table after a batch that nothing interrupts, with the published and poisoned totals |
| Worker.IngestionWorker.HandleIngestion | backend/enterprise_rag/application/worker.py:166-208 | the committed job and rows and the settlement of the delivery, for each course of the processing |
| Worker.HandlingIsARun | backend/enterprise_rag/application/worker.py:180-208 | from any state of the protocol an undisturbed handling takes enabled steps of it and commits what the worker's code commits |
| Worker.AcknowledgedIsSafe | backend/enterprise_rag/application/worker.py:200-208 | after an acknowledgement the job has ended or is queued with a row due when it is; after a return a lease remains that recovery will find |
| Visibility.ShowsThroughoutIffNoneBlinds | backend/enterprise_rag/application/retrieval.py:310-328 | over every run of overlapping attempts, rollbacks and cleanups, the chunks that pass retrieval's join are always exactly the complete, non-empty chunk set of the active generation (none before the first), if and only if no write of the run is one of three with a guard that can be checked before it |
| Visibility.StepShowsOrBlinds | backend/enterprise_rag/application/ingestion.py:712-764 | one step keeps chunk rows, pointers and completeness in agreement, or it is one of the three and the document no longer shows its active generation |
| Visibility.AgreementShows | backend/enterprise_rag/application/retrieval.py:310-328 | rows in agreement show exactly the complete active generation, numbering its chunk count |
| Visibility.FailAgrees | backend/enterprise_rag/application/ingestion.py:768-799 | a failed attempt changes no pointer, no version and nothing that retrieval sees |
| Visibility.RemovalAgrees | backend/enterprise_rag/application/generation_cleanup.py:105-113 | removing a generation that is not pointed to changes nothing that retrieval sees |
| Consistency.ConsistentThroughoutIffNoneIsStale | backend/enterprise_rag/application/ingestion.py:735-760 | over every run, the pointed-to generation always exists, belongs to the active version, and both are the only active ones, if and only if no write overlooks an active generation that its session has not read, and none leaves a state alone that its session read as active and that is not |
| Consistency.StepIsConsistentIffFresh | backend/enterprise_rag/application/ingestion.py:986-1101 | each step of an attempt, a rollback or a cleanup keeps the document consistent, or its guard says that it is stale and then the pointers and states no longer agree |
| Consistency.PublishKeepsConsistent | backend/enterprise_rag/application/ingestion.py:712-764 | a publication that overlooks nothing keeps the document consistent |
| Consistency.RollbackKeepsConsistent | backend/enterprise_rag/application/ingestion.py:1040-1074 | the writes of a rollback that overlook nothing keep the document consistent |
| Consistency.RemovalKeepsConsistent | backend/enterprise_rag/application/generation_cleanup.py:91-113 | removing a generation that is not pointed to keeps the document consistent |
| Consistency.SingleActive | backend/enterprise_rag/application/ingestion.py:735-760 | at most one generation and one version are active, and they belong together |
| Consistency.FreshIsNotBlinding | backend/enterprise_rag/application/ingestion.py:712-764 | a write that overlooks nothing never hides the document |
| Consistency.AuditedKeptThroughoutIffNoneForgets | backend/enterprise_rag/application/generation_cleanup.py:81-113 | over every run a generation that was ever rolled back to is never removed, if and only if no removal happens after a rollback to its target and no rollback goes through to a generation that is gone |
| Consistency.FlagsFollowThroughout | backend/enterprise_rag/application/ingestion.py:711-749 | over every run without a stale write, chunks are flagged active only while their version is the active one |
| Retention.RemovedWasExpired | backend/enterprise_rag/application/generation_cleanup.py:57-113 | over every run, a generation that a cleanup removes had been superseded by a publication or a rollback at or before the cutoff when it was selected, and was then, in this order, seen not pointed to and never rolled back to |
| Retention.SupersededWhen | backend/enterprise_rag/application/ingestion.py:752-760 | over every run, the time in a superseded row is that of the publication or rollback that superseded it |
| Consistency.SerialRunsAreFresh | backend/enterprise_rag/application/ingestion.py:571-587 | when sessions on the document do not overlap, no write is stale, none hides the document and none forgets |
| Numbering.NumbersDifferThroughout | backend/enterprise_rag/application/ingestion.py:599-626 | over every run, stale writes and removals included, no two generations share a number, nor does an attempt that has inserted one share it with a generation or another attempt |
| Numbering.NumbersGrowUnlessUndercut | backend/enterprise_rag/application/ingestion.py:599-626 | over every run in which no cleanup removes a number from which, or from beyond which, an open attempt has counted, one attempt at most has inserted its generation and its number exceeds all that exist |
| PublicationRuns.StalePublicationHidesDocument | backend/enterprise_rag/application/ingestion.py:735-738 | a concrete run of publish, publish of another version, rebuild, rollback and publish, after which the active generation is complete and retrieval sees nothing |
| PublicationRuns.StalePublicationLeavesTwoActive | backend/enterprise_rag/application/ingestion.py:752-760 | a concrete run in which a rebuild publishes over a rollback and two generations are active |
| PublicationRuns.StaleRollbackLeavesTwoActive | backend/enterprise_rag/application/ingestion.py:1020-1074 | a concrete run in which a rollback writes over a publication that committed while it waited for the indexes, and two generations are active |
| PublicationRuns.LateRemovalHidesDocument | backend/enterprise_rag/application/generation_cleanup.py:91-113 | a concrete run in which a cleanup removes the generation that was rolled back to after its check |
| PublicationRuns.OvertakenAttemptLeavesTwoActive | backend/enterprise_rag/application/ingestion.py:577-626 | a concrete run in which another attempt publishes between an attempt's reads and its numbering, and two generations are active |
| PublicationRuns.MisreadVersionStaysSuperseded | backend/enterprise_rag/application/ingestion.py:571-582 | a concrete run in which a rollback commits between the two queries of an attempt, after whose publication the version that the document points to is superseded |
| PublicationRuns.UndercutAttemptAddsSmallerNumber | backend/enterprise_rag/application/ingestion.py:599-626 | a concrete run in which the generation with the greatest number is removed while an attempt is open, and a second attempt adds a number below the first one's |
| PublicationService.DocumentStore.LoadVersion | backend/enterprise_rag/application/ingestion.py:571-576 | reads the version's state and changes no row |
| PublicationService.DocumentStore.LoadDocument | backend/enterprise_rag/application/ingestion.py:577-587 | reads the pointers as they are by then and changes no row |
| PublicationService.DocumentStore.NextNumber | backend/enterprise_rag/application/ingestion.py:599-605 | one more than the greatest generation number |
| PublicationService.DocumentStore.InsertGeneration | backend/enterprise_rag/application/ingestion.py:605-626 | the insertion succeeds exactly when no row has the number, and is then the protocol's step with what was read earlier |
| PublicationService.DocumentStore.PublishGeneration | backend/enterprise_rag/application/ingestion.py:712-764 | the block of updates, in order, is the publication step |
| PublicationService.DocumentStore.FailAttempt | backend/enterprise_rag/application/ingestion.py:768-771 | the failure branch is the failure step |
| PublicationService.DocumentStore.LoadPointers | backend/enterprise_rag/application/ingestion.py:996-998 | refuses exactly the generation that the document points to, and otherwise keeps the two pointers |
| PublicationService.DocumentStore.LoadTarget | backend/enterprise_rag/application/ingestion.py:999-1008 | refuses exactly what was not published or has no chunks by then, and otherwise keeps the target's state and version |
| PublicationService.DocumentStore.LoadTargetVersion | backend/enterprise_rag/application/ingestion.py:1009-1018 | refuses exactly a version that was not published by then, and otherwise keeps its state |
| PublicationService.DocumentStore.PrepareRollback | backend/enterprise_rag/application/ingestion.py:996-1021 | the three checks undisturbed: refuses exactly what is not rollbackable, and otherwise has read what the document then holds |
| PublicationService.DocumentStore.CommitPrepared | backend/enterprise_rag/application/ingestion.py:1040-1100 | the writes are the commit step on whatever the document has become; they fail when the target's row is gone and to be written |
| PublicationService.DocumentStore.RollbackGeneration | backend/enterprise_rag/application/ingestion.py:986-1101 | undisturbed, each refusal leaves every row alone, and otherwise the target is restored |
| PublicationService.DocumentStore.IsPointedTo | backend/enterprise_rag/application/generation_cleanup.py:75-93 | retains exactly the generation that the document points to by then |
| PublicationService.DocumentStore.MayRemove | backend/enterprise_rag/application/generation_cleanup.py:81-104 | goes on exactly when the candidate was never rolled back to by then and both indexes can delete |
| PublicationService.DocumentStore.SweepOne | backend/enterprise_rag/application/generation_cleanup.py:74-114 | undisturbed, which candidates are retained, unsupported, removed, or make the sweep fail |
| PublicationService.DocumentStore.SelectExpired | backend/enterprise_rag/application/generation_cleanup.py:57-70 | the query: what was superseded at or before the cutoff, oldest first, at most the limit, and all of it when there is less |
| PublicationService.DocumentStore.Sweep | backend/enterprise_rag/application/generation_cleanup.py:47-116 | an undisturbed sweep takes away only what was superseded at or before the cutoff, is not pointed to and was never rolled back to, all of that unless the limit cuts its query short, and changes no other row; scanned = retained + deleted |
| PublicationService.SweepKeepsVisible | backend/enterprise_rag/application/generation_cleanup.py:47-116 | an undisturbed sweep keeps consistency, the pointers, what retrieval sees and every generation once rolled back to |
| PublicationService.RollbackShowsTarget | backend/enterprise_rag/application/ingestion.py:1049-1074 | an undisturbed rollback keeps consistency and retrieval then sees exactly its target |
| Fusion.FusionMeetsSpecification | backend/enterprise_rag/application/retrieval.py:206-227 | each id once, with the sum of 1/(k + rank), last occurrence and all sources, in order of score then id |
| Fusion.RankingIgnoresListOrder | backend/enterprise_rag/application/retrieval.py:213-227 | fusing the same lists in another order gives the same ids and scores in the same places |
| Fusion.TwoListScore | backend/enterprise_rag/application/retrieval.py:213-217 | a chunk at places p and q of the two lists scores 1/(k + p) + 1/(k + q), and a list without it adds nothing |
| Fusion.DominantComesFirst | backend/enterprise_rag/application/retrieval.py:206-227 | an id that is ahead of another in every list where that other occurs precedes it |
| Fusion.OrderIsUnique | backend/enterprise_rag/application/retrieval.py:224-227 | there is only one order by score and id |
| Fusion.Fuse | backend/enterprise_rag/application/retrieval.py:206-227 | the loops over dictionaries compute the fused ranking that the lemmas describe |
| Retrieval.EvidenceIsAuthorised | backend/enterprise_rag/application/retrieval.py:304-432 | whatever the two indexes return, every piece of evidence has a visible authority row of the tenant, agreeing metadata, a space in scope and both ACL sets meeting the caller's, within both limits |
| Retrieval.KeptIffAuthorised | backend/enterprise_rag/application/retrieval.py:304-361 | the check keeps a candidate if and only if its rows are active, current and of the tenant, its metadata agree with them, and space, tokens and any narrower scope of the caller admit it |
| Retrieval.CheckAccounts | backend/enterprise_rag/application/retrieval.py:330-386 | the filter keeps exactly the allowed candidates in order and counts each other one once under its reason |
| Retrieval.ReasonIsFirstFault | backend/enterprise_rag/application/retrieval.py:365-386 | a rejected candidate is counted under the first of its faults, in the code's order |
| Retrieval.RejectionsAddUp | backend/enterprise_rag/application/retrieval.py:330-386 | kept plus rejected is what was offered, and the reason counts sum to the rejected |
| Retrieval.CutIsSubsequence | backend/enterprise_rag/application/retrieval.py:410-432 | the evidence is a subsequence of the reranked list, all eligible, within the count limit and the character budget it uses |
| Retrieval.CutTakes | backend/enterprise_rag/application/retrieval.py:410-432 | a candidate is taken if and only if it is active, reaches the threshold, comes before the limit is reached and fits in the budget left |
| Retrieval.ShortCutIsMaximal | backend/enterprise_rag/application/retrieval.py:410-432 | when the evidence is short, each eligible candidate left out overflowed the budget used before it |
| Retrieval.FallbackThresholdDropsNothing | backend/enterprise_rag/application/retrieval.py:405-418 | when reranking fails and the worst rank's weight reaches the threshold, every candidate that gets to the evidence cut passes it |
| Retrieval.DefaultThresholdDropsNothing | backend/enterprise_rag/application/retrieval.py:34-43 | the default policy and widths meet that condition |
| Retrieval.ValidateCandidates | backend/enterprise_rag/application/retrieval.py:330-386 | the loops over both lists compute the kept lists and the counts of the lemmas |
| Retrieval.CutEvidence | backend/enterprise_rag/application/retrieval.py:410-432 | the loop with its early exit computes the cut of the lemmas |
| Retrieval.FallbackCutsBestFused | backend/enterprise_rag/application/retrieval.py:394-403 | when reranking fails, place by place the first fused candidates, as many as the rerank width, go to the cut, all authorised |
| Retrieval.Retrieve | backend/enterprise_rag/application/retrieval.py:282-450 | which failures make retrieval unavailable and which only degrade it; that the reranker is asked with the first 4 * rerank width fused candidates, and the first fused ones are used when it fails; the evidence, whose first piece is the first candidate at the cut when that is relevant and fits |
| ModelGateway.NoSplicing | backend/enterprise_rag/application/providers.py:383-432 | for every pattern of failures all yielded text is of one attempt, earlier attempts failed without text, at most retries + 1 start, and a normal end yields a full text |
| ModelGateway.RecordedIsSum | backend/enterprise_rag/application/providers.py:310-319 | recording a stream adds the sums of its input tokens and output tokens, and its costs, which are known exactly while each one is |
| ModelGateway.ChargedIsYielded | backend/enterprise_rag/application/providers.py:310-319 | the recorded usage is the sum of the yielded usage events over all attempts |
| ModelGateway.ExhaustedRetriesOpenCircuit | backend/enterprise_rag/application/providers.py:338-368 | a complete call whose attempts all fail to connect makes each of them once and opens the circuit at the threshold |
| ModelGateway.ModelGateway.StreamEvents | backend/enterprise_rag/application/providers.py:383-432 | a refused call starts nothing; an admitted one yields, counts and records as the lemmas describe |
| ModelGateway.FailedStreamCounts | backend/enterprise_rag/application/providers.py:414-420 | a stream that no primary attempt serves has counted each of them as a failure and opens the circuit at the threshold |
| ModelGateway.ModelGateway.StreamAttempts | backend/enterprise_rag/application/providers.py:395-432 | the retry loop continues only while nothing was emitted |
| ModelGateway.ModelGateway.Complete | backend/enterprise_rag/application/providers.py:338-368 | no primary call while the circuit is open, retries only of connection failures, then the fallback |
| ModelGateway.CompleteMeans | backend/enterprise_rag/application/providers.py:338-368 | the first attempt that is no connection failure decides the answer; the fallback does when all are, or while the circuit is open |
| ModelGateway.ModelGateway.CheckRateLimit | backend/enterprise_rag/application/providers.py:292-299 | the gateway's queue follows the same window rule as the limiters |
| QueryStream.OutcomesByStatus | backend/enterprise_rag/application/query.py:631-818 | for each status, exactly which environments lead to it, with text and citations |
| QueryStream.DraftsCiteWhatPasses | backend/enterprise_rag/application/query.py:656-676 | the citations are exactly the evidence that passes the content check, by its place |
| QueryStream.ConflictTextIsJoined | backend/enterprise_rag/application/query.py:688-697 | conflicting sources are quoted as the header and all numbered excerpts between blank lines |
| QueryStream.ExecuteStream | backend/enterprise_rag/application/query.py:616-931 | the event grammar by position, stored text equal to streamed text, no citation or stored answer after failure or cancellation, a failure without an answer when cited evidence is gone by the end, checked prefixes, the effect of a cancellation, and the full outcome without one |
| QueryStream.StreamParts | backend/enterprise_rag/application/query.py:367-396 | a delta is shown only if the whole text with it passes; an error is a cancellation, a provider failure or an unsafe prefix, and nothing else |
| QueryStream.CancellationRegistry.GetOrRegister | backend/enterprise_rag/application/query.py:97-99 | a flag set before the query registers is kept |
| QueryStream.CancellationRegistry.Cancel | backend/enterprise_rag/application/query.py:101-106 | sets the flag and reports whether it was the first to |
| Sse.RoundTripUnderAnyChunking | web/src/api.ts:462-481 | however the printed stream is cut into pieces, the reads report the events that were sent if and only if each name and payload is non-empty and has no line terminator |
| Sse.ReadsAreOneReading | web/src/api.ts:463-481 | the reads with their carried buffer report what one reading of the whole text would, for every text and every cutting |
| Sse.SplitAppend | web/src/api.ts:466-468 | splitting a stream that goes on changes nothing before the carried remainder |
| Sse.CarryRemainder | web/src/api.ts:466-474 | one read reports the complete blocks and carries one that is not complete |
| Sse.PrintedBlock | backend/enterprise_rag/api/chat.py:91-93 | a printed clean event at the head of a stream is read back, and the rest is untouched |
| Sse.ReportsAreClean | web/src/api.ts:469-473 | whatever was sent, only non-empty one-line names and payloads are reported |
| Sse.FirstFieldCounts | web/src/api.ts:469-473 | of several lines with a field the first one counts, and none is reported without one |
| Sse.BlankReportsNothing | web/src/api.ts:477-481 | skipping a remainder that trims to nothing loses no event |
| Sse.LineSeparatorIsLost | web/src/api.ts:470-471 | a payload with U+2028 does not survive |
| Sse.StreamQuery | web/src/api.ts:462-481 | the read loop computes the fold over the pieces that the two lemmas above are about |
| AuditChain.RecordKeepsChain | backend/enterprise_rag/application/audit.py:98-131 | whatever row a record was linked to and wherever the query returns it, the extended chain verifies if and only if the record was linked to the last row and comes after it |
| AuditChain.RecordIsSafeIffLinkedAndLater | backend/enterprise_rag/application/audit.py:45-52 | the chain verifies in every order that the database may give to rows of equal time if and only if the record is linked to the row that is last at its commit and is later than it |
| AuditSessions.VerifiesThroughoutIffEachExtends | backend/enterprise_rag/application/audit.py:43-131 | over every run of overlapping transactions, each with any number of records, the verifier accepts every state if and only if each commit was linked to the then last row and comes after it |
| AuditSessions.SerialRunsVerify | backend/enterprise_rag/application/audit.py:43-131 | when transactions do not overlap and the clock moves, the verifier accepts every state of the run |
| AuditSessions.OverlapForksChain | backend/enterprise_rag/application/audit.py:45-52 | a concrete run of two transactions that read the same newest row, with increasing clock readings, after which the verifier rejects the chain |
| AuditChain.BuiltChainsVerify | backend/enterprise_rag/application/audit.py:98-131 | the verifier accepts every chain whose records are made one after another with increasing times |
| AuditChain.BuiltChainHolds | backend/enterprise_rag/application/audit.py:43-86 | a chain made one record after another with increasing times holds exactly the recorded events, in order |
| AuditChain.LastHashDeterminesChain | backend/enterprise_rag/application/audit.py:98-131 | two accepted chains ending in the same hash agree in everything that is hashed |
| AuditChain.AuditLog.Record | backend/enterprise_rag/application/audit.py:43-84 | the record of an event is linked to a newest row among the committed ones and those of its own transaction |
| AuditChain.InsertKeepsRows | backend/enterprise_rag/application/audit.py:84-86 | a committed row joins the others, which stay as they are and in order, before those that are later |
| AuditChain.AuditLog.Commit | backend/enterprise_rag/application/audit.py:84-86 | the row joins its tenant's chain in time order, every earlier row stays in place, and no other chain changes |
| AuditChain.AuditLog.VerifyChain | backend/enterprise_rag/application/audit.py:98-131 | accepts exactly the chains whose every record is linked and hashed right |
| TenantConfiguration.RevalidationIsIdentityIffNamed | backend/enterprise_rag/domain/tenant_config.py:25-51 | validating a validated configuration changes nothing if and only if the first configuration named its extensions |
| TenantConfiguration.SecondValidationSettles | backend/enterprise_rag/domain/tenant_config.py:25-51 | what validation produced is never refused, and its second validation is the last one that can change it |
| TenantConfiguration.SettledIffUnchanged | backend/enterprise_rag/domain/tenant_config.py:37-51 | validation returns a configuration as it is if and only if its extensions are given, normal, ascending and not empty, its bindings are distinct and not blank, and its other fields are filled in |
| TenantConfiguration.RevalidationKeepsSettings | backend/enterprise_rag/domain/tenant_config.py:37-51 | a second validation keeps the set of extensions and everything else |
| TenantConfiguration.HistoryIsConsistent | backend/enterprise_rag/application/tenant_configuration.py:225-264 | over all runs, from whatever first configuration, exactly one version is active and is the tenant's, and numbers are 1 to n |
| TenantConfiguration.HistoryIsImmutable | backend/enterprise_rag/application/tenant_configuration.py:110-166 | over all runs, from whatever first configuration, a stored version's number and content never change |
| TenantConfiguration.StepKeepsConsistent | backend/enterprise_rag/application/tenant_configuration.py:324-339 | a success quotes the current revision and raises it by one; a rejection changes nothing |
| TenantConfiguration.QuotedRevisionSucceedsOnce | backend/enterprise_rag/application/tenant_configuration.py:324-339 | of two calls that quote the same revision at most one succeeds |
| TenantConfiguration.HistoryIsTraced | backend/enterprise_rag/application/tenant_configuration.py:110-166 | over all runs, a version is a fixed point of validation if and only if it was made from a configuration that named its extensions, and only the first version can be refused by validation |
| TenantConfiguration.RollbackRestoresSourceIffNamed | backend/enterprise_rag/application/tenant_configuration.py:200-223 | over all runs, a rollback succeeds exactly at the current revision, for a version of the tenant with valid references, unless it is a first one that validation refuses; it adds and activates a last version, whose content equals its source if and only if the source was made from a configuration that named its extensions |
| TenantConfiguration.RollbackKeepsSettings | backend/enterprise_rag/application/tenant_configuration.py:84-92 | whatever a rollback stores, the validated content of the new version allows the same extensions as that of its source and agrees with it in everything else |
| TenantConfiguration.RollbackToDefaultsChangesThem | backend/enterprise_rag/application/tenant_bootstrap.py:133-149 | a rollback to the version with which a new tenant starts stores the extensions in another order |
| TenantConfiguration.MigratedDefaultsChangeTwice | alembic/versions/8f31a2c4d9b7_multi_tenant_control_plane.py:88-130 | a rollback to a migrated version without the list stores the default, and a rollback to that one stores it sorted |
| TenantConfiguration.TenantConfigurations.CreateVersion | backend/enterprise_rag/application/tenant_configuration.py:110-166 | the store after each outcome, checks in the code's order |
| TenantConfiguration.TenantConfigurations.ActivateVersion | backend/enterprise_rag/application/tenant_configuration.py:168-198 | the store after each outcome, checks in the code's order |
| TenantConfiguration.TenantConfigurations.Rollback | backend/enterprise_rag/application/tenant_configuration.py:200-223 | creates and activates the source's content again |
| TenantConfiguration.TenantConfigurations.MakeActive | backend/enterprise_rag/application/tenant_configuration.py:225-264 | supersedes the current version if it is another one, points at the new, raises the revision |
| TenantConfiguration.NormalExtensionMeans | backend/enterprise_rag/domain/tenant_config.py:40-47 | a stored extension is the given one with a leading dot and without capital letters, and nothing else of it changes |
| TenantConfiguration.StoredExtensionsMean | backend/enterprise_rag/domain/tenant_config.py:37-51 | the stored list is that of the given values that are not blank, each once, sorted |
| TenantConfiguration.OnceActiveNeverDraft | backend/enterprise_rag/application/tenant_configuration.py:225-244 | over all runs, a version that was active once is active or superseded from then on |
| Quota.ReservedIsOutstanding | backend/enterprise_rag/application/tenant_configuration.py:369-397 | over all runs in which a reservation is released once, each counter's reserved amount is what callers hold |
| Quota.HeldReservationReleases | backend/enterprise_rag/application/tenant_configuration.py:386-397 | releasing a held reservation is never stale, and consuming it keeps used + reserved |
| Quota.ReserveRespectsLimit | backend/enterprise_rag/application/tenant_configuration.py:369-384 | a reservation succeeds exactly when the new total stays within the limit read by the call |
| Quota.ReconcileKeepsReserved | backend/enterprise_rag/application/tenant_configuration.py:399-441 | reconciliation never touches a reserved amount |
| Quota.ReconcileSetsUsed | backend/enterprise_rag/application/tenant_configuration.py:399-441 | each listed counter ends with the amount listed for it, and counters that are not listed stay |
| Quota.SecondReleaseTakesFromOthers | backend/enterprise_rag/application/tenant_configuration.py:386-397 | when a second release of one reservation is accepted, and what it takes |
| Quota.QuotaLedger.Reserve | backend/enterprise_rag/application/tenant_configuration.py:369-384 | the counters and the result for each outcome |
| Quota.QuotaLedger.Release | backend/enterprise_rag/application/tenant_configuration.py:386-397 | the counters and the result for each outcome |
| Quota.QuotaLedger.Reconcile | backend/enterprise_rag/application/tenant_configuration.py:399-441 | the loop sets every listed used amount |
| SlidingWindow.QueueAgreesWithHistory | backend/enterprise_rag/infrastructure/limits.py:19-27 | the queue is always the admissions of the last window, and a call is refused exactly when the limit of them lies in it |
| SlidingWindow.EveryIntervalIsBounded | backend/enterprise_rag/infrastructure/cache.py:40-52 | over the whole run no interval of window length holds more than the limit of admissions |
| SlidingWindow.SlidingWindowRateLimiter.Check | backend/enterprise_rag/infrastructure/limits.py:19-27 | prunes and extends the key's queue in place and leaves other keys alone |
| SlidingWindow.ConcurrencySlots.Acquire | backend/enterprise_rag/infrastructure/cache.py:54-62 | takes a slot exactly when fewer than the limit are held |
| SlidingWindow.ConcurrencySlots.Release | backend/enterprise_rag/infrastructure/cache.py:64-67 | gives a slot back and never goes below none |

## Left out

- SQL, sessions, row-level security and migrations: tables are maps or sequences and a transaction is one step; of the database only row locks and the unique numbers of attempts and generations are kept.
- Several clocks: all machines read one clock that never goes back. The audit chain is the exception, where the reading is a parameter.
- The order of the dispatcher's query by priority and creation time inside the delivery protocol: a dispatcher may take any subset of the rows that may be taken. `Outbox.OutboxTable.ClaimBatch` has the order.
- Outbox.OutboxTable.DispatchBatch: no other dispatcher acts during the batch; the delivery protocol has the interleavings.
- `InProcessQueue`, `RabbitMQQueue`, `RedisCoordinationStore` and the settle-once flag of a delivery: the broker is a multiset of messages that may redeliver anything not acknowledged.
- Deliveries other than ingestion, and messages with a wrong tenant or without a job id: they are acknowledged or run one operation.
- API `retry` of a job that is not failed: the interface offers it on failed jobs only, and the model takes it there. The API's reads and writes of a job are one step, except for the write and the commit of a cancellation.
- Jobs that were already settled or marked unchanged when an attempt starts: inside the delivery protocol a claim admits only queued and running jobs, and only succeeded ones are marked unchanged; `Jobs.IngestionJob.Process` has both branches.
- Columns that the object mapper does not rewrite because their value did not change: kept for the publication pointers, where it matters, not for `next_attempt_at`.
- Time-based liveness: `DeliveryTheorems.EveryOpenJobCanBeClaimed` says that the steps exist, not that a scheduler takes them.
- The contents of the external indexes, parsers, embedding and OCR: an attempt ends in any of its ways, and an index accepts or refuses.
- `delete_document` and the upload after it, `submit_upload` and the rebuild selection: the claims about active generations are for runs without deletion.
- JSON, UTF-8 and SHA-256: payloads are strings, a chunk is decoded text, the digest is any collision-free function with non-empty values.
- TenantConfiguration.RevalidationIsIdentityIffNamed: lower case and blanks are those of ASCII; Unicode case mapping and the remaining white space of Python's `strip` are not part of this model.
- Numbering.NumbersGrowUnlessUndercut: one direction; after an undercutting removal the numbers may still grow, since a session may be given up.
- DeliveryTheorems.NoQueuedJobIsLost: one direction for skipped jobs; one may still have another message, or its cancellation may be committed yet.
- The records of one audit transaction becoming visible together: the model commits them one after another, which has every state of the log and more.
- The span of a cleanup over a tenant's documents and its filter on one generation: the query is modelled on one document.
- Partial visibility of one write block: the block of updates of a publication, of a rollback and of one removal is one atomic write; what lies between a session's reads and that block is modelled, with every other session's writes.
- The remaining fields of a tenant configuration: one opaque value that validation refuses or returns filled in, and that is not changed again once it is filled in; an omitted list of secret bindings is the empty one.
- The fixed sentences shown to users: distinct tags. Usage, provider and latency fields of a query, and failures of its own database commits, are not part of the model.
- A consumer that abandons a stream: it sees a prefix of the events.
- `invalidate_tenant`, changing limits, and the fixed buckets of Redis: they follow another rule than the queue.
- `tenant_coordination_key`: the limiters' keys are opaque strings.
- Worker.HandlingIsARun: for leases of at least one second; with none, an attempt never passes its first check. The configuration check keeps a lease longer than a heartbeat interval.
- Floating point: scores, weights and clock readings are exact.
