/**
 The life of one ingestion job: what claims, heartbeats, recovery, attempts, retries and the two
 user actions do to its row, and the arithmetic of its attempts.
 */
module Jobs {
  import opened Options
  import opened Backoff

  type WorkerId = nat

  datatype JobStatus = Queued | Running | Succeeded | Failed | Cancelled

  datatype AttemptOutcome = AttemptSucceeded | AttemptFailed | AttemptCancelled

  /** A committed row of the attempt log; a running attempt is never committed. */
  datatype AttemptRow = AttemptRow(number: nat, outcome: AttemptOutcome)

  /** `noChange` marks the job of an upload that changed nothing; any later stage clears it. */
  datatype Job = Job(
    status: JobStatus, attemptCount: nat, maxAttempts: nat, cancelled: bool, transientError: bool,
    claimedBy: Option<WorkerId>, leaseExpiresAt: Option<int>, nextAttemptAt: Option<int>,
    attempts: seq<AttemptRow>, noChange: bool)

  datatype Settings = Settings(leaseSeconds: nat, backoffSeconds: nat)

  function NewJob(maxAttempts: nat): Job {
    Job(Queued, 0, maxAttempts, false, false, None, None, None, [], false)
  }

  // ---- Leases ----

  predicate Due(at: Option<int>, now: int) {
    at.None? || at.value <= now
  }

  predicate Claimable(j: Job, worker: WorkerId, now: int) {
    && !j.cancelled
    && (j.status == Queued || j.status == Running)
    && Due(j.nextAttemptAt, now)
    && (j.claimedBy.None? || j.claimedBy == Some(worker)
        || (j.leaseExpiresAt.Some? && j.leaseExpiresAt.value <= now))
  }

  function Claimed(j: Job, worker: WorkerId, now: int, settings: Settings): Job {
    j.(claimedBy := Some(worker), leaseExpiresAt := Some(now + settings.leaseSeconds),
       nextAttemptAt := None, status := Running)
  }

  predicate Owned(j: Job, worker: WorkerId, now: int) {
    && j.status == Running
    && j.claimedBy == Some(worker)
    && j.leaseExpiresAt.Some? && j.leaseExpiresAt.value > now
    && !j.cancelled
  }

  predicate Renewable(j: Job, worker: WorkerId) {
    j.claimedBy == Some(worker) && j.status == Running
  }

  function Renewed(j: Job, now: int, settings: Settings): Job {
    j.(leaseExpiresAt := Some(now + settings.leaseSeconds))
  }

  predicate LeaseExpired(j: Job, now: int) {
    j.status == Running && j.leaseExpiresAt.Some? && j.leaseExpiresAt.value <= now
  }

  function Unclaimed(j: Job): Job {
    j.(claimedBy := None, leaseExpiresAt := None)
  }

  function Recovered(j: Job, now: int): Job {
    var free := Unclaimed(j).(noChange := false);
    if j.cancelled then free.(status := Cancelled)
    else if j.attemptCount >= j.maxAttempts then free.(status := Failed, transientError := true)
    else free.(status := Queued, nextAttemptAt := Some(now))
  }

  // ---- Attempts ----

  /** What ends an attempt: publication, a transient or permanent failure, or a cancellation. */
  datatype Ending = Publish | TransientFailure | ContentFailure | CancelFound

  function OutcomeOf(e: Ending): AttemptOutcome {
    match e
    case Publish => AttemptSucceeded
    case CancelFound => AttemptCancelled
    case _ => AttemptFailed
  }

  function StatusOf(e: Ending): JobStatus {
    match e
    case Publish => Succeeded
    case CancelFound => Cancelled
    case _ => Failed
  }

  function Released(j: Job): Job {
    Unclaimed(j).(nextAttemptAt := None)
  }

  /** The committed effect of attempt `number`. */
  function Finished(j: Job, number: nat, e: Ending): Job {
    Released(j).(
      attemptCount := number,
      status := StatusOf(e),
      transientError := if e == Publish then j.transientError else e == TransientFailure,
      attempts := j.attempts + [AttemptRow(number, OutcomeOf(e))],
      noChange := false)
  }

  predicate RetryDue(j: Job) {
    j.status == Failed && j.transientError && j.attemptCount < j.maxAttempts
  }

  function RetryAt(j: Job, now: int, settings: Settings): int {
    now + settings.backoffSeconds * Pow2(if j.attemptCount == 0 then 0 else j.attemptCount - 1)
  }

  function Rescheduled(j: Job, at: int): Job {
    Unclaimed(j).(status := Queued, nextAttemptAt := Some(at), noChange := false)
  }

  // ---- Exits before an attempt begins ----

  datatype TenantCheck = TenantOk | TenantMissing | TenantInactive | ContextStale

  function Rejected(j: Job, check: TenantCheck): Job {
    Released(j).(status := if check == TenantInactive then Cancelled else Failed, transientError := false, noChange := false)
  }

  /** `process` on a row it has just read: the tenant check, the two early returns, one attempt. */
  function Processed(j: Job, check: TenantCheck, e: Ending): Job {
    if check != TenantOk then Rejected(j, check)
    else if j.status == Succeeded || j.noChange then Released(j)
    else if j.cancelled then Released(j).(status := Cancelled)
    else Finished(j, j.attemptCount + 1, e)
  }

  /** Every round of the inline loop uses up an attempt or leaves the failed state. */
  function RetriedInline(j: Job, check: TenantCheck, endings: nat -> Ending): Job
    decreases j.maxAttempts - j.attemptCount, RetryDue(j)
  {
    if RetryDue(j) then RetriedInline(Processed(j.(status := Queued), check, endings(j.attemptCount)), check, endings)
    else j
  }

  // ---- User actions ----

  function Retried(j: Job, now: int): Job {
    j.(status := Queued, cancelled := false, transientError := false, nextAttemptAt := Some(now))
  }

  function CancelledByUser(j: Job): Job {
    j.(cancelled := true, status := Cancelled)
  }

  // ---- What every committed row satisfies ----

  ghost predicate Numbered(attempts: seq<AttemptRow>) {
    forall i :: 0 <= i < |attempts| ==> attempts[i].number == i + 1
  }

  /** Attempt accounting and the shape of the lease columns. */
  ghost predicate JobOk(j: Job) {
    && j.attemptCount == |j.attempts| <= j.maxAttempts
    && Numbered(j.attempts)
    && (j.status == Queued || j.status == Running ==> j.attemptCount < j.maxAttempts && !j.cancelled)
    && (j.status == Queued || j.status == Failed ==> j.claimedBy.None? && j.leaseExpiresAt.None?)
    && (j.noChange ==> j.status == Succeeded)
    && (j.status == Running ==> j.claimedBy.Some? && j.leaseExpiresAt.Some? && j.nextAttemptAt.None?)
  }

  lemma FinishedIsOk(j: Job, e: Ending, at: int)
    requires JobOk(j) && j.attemptCount < j.maxAttempts
    ensures var f := Finished(j, j.attemptCount + 1, e);
            JobOk(f) && (RetryDue(f) && !j.cancelled ==> JobOk(Rescheduled(f, at)))
  {
  }

  /** Recovery never meets a job whose attempts are used up, nor one that was cancelled. */
  lemma RecoveryAlwaysRequeues(j: Job, now: int)
    requires JobOk(j) && LeaseExpired(j, now)
    ensures Recovered(j, now).status == Queued
    ensures JobOk(Recovered(j, now))
  {
  }

  /** The inline loop leaves nothing to retry, keeps the attempts it finds, and keeps the accounts. */
  lemma {:induction false} InlineLoopSettles(j: Job, check: TenantCheck, endings: nat -> Ending)
    requires JobOk(j)
    ensures var after := RetriedInline(j, check, endings);
            && !RetryDue(after) && JobOk(after)
            && j.attempts <= after.attempts
            && after.maxAttempts == j.maxAttempts
    decreases j.maxAttempts - j.attemptCount, RetryDue(j)
  {
    if RetryDue(j) {
      var next := Processed(j.(status := Queued), check, endings(j.attemptCount));
      if check == TenantOk && !j.cancelled {
        FinishedIsOk(j.(status := Queued), endings(j.attemptCount), 0);
      }
      InlineLoopSettles(next, check, endings);
    }
  }

  /** Only a transient failure is retried, and only while attempts are left. */
  lemma OnlyTransientFailuresRetry(j: Job, e: Ending)
    requires JobOk(j) && j.attemptCount < j.maxAttempts
    ensures var f := Finished(j, j.attemptCount + 1, e);
            && (RetryDue(f) <==> e == TransientFailure && j.attemptCount + 1 < j.maxAttempts)
            && (f.status == Succeeded <==> e == Publish) && (f.status == Cancelled <==> e == CancelFound)
            && f.claimedBy.None? && f.leaseExpiresAt.None? && f.nextAttemptAt.None?
  {
  }

  /** The row after an attempt's commit, with the retry that follows it in the same transaction. */
  function Committed(j: Job, e: Ending, now: int, settings: Settings): Job {
    var f := Finished(j, j.attemptCount + 1, e);
    if RetryDue(f) then Rescheduled(f, RetryAt(f, now, settings)) else f
  }

  lemma CommittedMeans(j: Job, e: Ending, now: int, settings: Settings)
    requires JobOk(j) && j.attemptCount < j.maxAttempts && e != CancelFound
    ensures var after := Committed(j, e, now, settings);
            && after.attemptCount == j.attemptCount + 1 && after.claimedBy.None? && after.leaseExpiresAt.None?
            && after.maxAttempts == j.maxAttempts
            && if e == TransientFailure && after.attemptCount < after.maxAttempts then
                 && after.status == Queued
                 && after.nextAttemptAt == Some(now + settings.backoffSeconds * Pow2(j.attemptCount))
               else after.status == (if e == Publish then Succeeded else Failed) && after.nextAttemptAt.None?
  {
  }

  /** The first retry waits for the backoff, and each further one twice as long as the one before. */
  lemma RetryDelayDoubles(j: Job, now: int, settings: Settings)
    ensures j.attemptCount <= 1 ==> RetryAt(j, now, settings) == now + settings.backoffSeconds
    ensures j.attemptCount >= 1 ==>
              RetryAt(j.(attemptCount := j.attemptCount + 1), now, settings) - now == 2 * (RetryAt(j, now, settings) - now)
  {
    if j.attemptCount >= 1 {
      var p := Pow2(j.attemptCount - 1);
      assert Pow2(j.attemptCount) == 2 * p;
      assert settings.backoffSeconds * (2 * p) == 2 * (settings.backoffSeconds * p);
    }
  }

  // ---- The service code ----

  class IngestionJob {
    var status: JobStatus
    var attemptCount: nat
    var maxAttempts: nat
    var cancelled: bool
    var transientError: bool
    var claimedBy: Option<WorkerId>
    var leaseExpiresAt: Option<int>
    var nextAttemptAt: Option<int>
    var attempts: seq<AttemptRow>
    var noChange: bool

    ghost function Value(): Job
      reads this
    {
      Job(status, attemptCount, maxAttempts, cancelled, transientError, claimedBy, leaseExpiresAt,
          nextAttemptAt, attempts, noChange)
    }

    constructor (maxAttempts: nat)
      ensures Value() == NewJob(maxAttempts)
    {
      status, attemptCount, this.maxAttempts := Queued, 0, maxAttempts;
      cancelled, transientError := false, false;
      claimedBy, leaseExpiresAt, nextAttemptAt := None, None, None;
      attempts, noChange := [], false;
    }

    method ReleaseLease()
      modifies this
      ensures Value() == Released(old(Value()))
      ensures claimedBy.None? && leaseExpiresAt.None? && nextAttemptAt.None?
      ensures unchanged(`status, `attemptCount, `maxAttempts, `cancelled, `transientError, `attempts, `noChange)
    {
      claimedBy := None;
      leaseExpiresAt := None;
      nextAttemptAt := None;
    }

    /** One call of `process`. */
    method Process(check: TenantCheck, e: Ending)
      modifies this
      ensures Value() == Processed(old(Value()), check, e)
      ensures claimedBy.None? && leaseExpiresAt.None? && nextAttemptAt.None?
      ensures unchanged(`maxAttempts, `cancelled)
      ensures check != TenantOk ==>
                && status == (if check == TenantInactive then Cancelled else Failed) && !transientError && !noChange
                && unchanged(`attemptCount, `attempts)
      ensures check == TenantOk && (old(status) == Succeeded || old(noChange)) ==>
                unchanged(`status, `transientError, `noChange, `attemptCount, `attempts)
      ensures check == TenantOk && old(status) != Succeeded && !old(noChange) && old(cancelled) ==>
                status == Cancelled && unchanged(`transientError, `noChange, `attemptCount, `attempts)
      ensures check == TenantOk && old(status) != Succeeded && !old(noChange) && !old(cancelled) ==>
                && attemptCount == old(attemptCount) + 1 && !noChange
                && (e == Publish ==> status == Succeeded && transientError == old(transientError)
                                     && attempts == old(attempts) + [AttemptRow(attemptCount, AttemptSucceeded)])
                && (e == CancelFound ==> status == Cancelled && !transientError
                                         && attempts == old(attempts) + [AttemptRow(attemptCount, AttemptCancelled)])
                && (e == TransientFailure || e == ContentFailure ==>
                      status == Failed && transientError == (e == TransientFailure)
                      && attempts == old(attempts) + [AttemptRow(attemptCount, AttemptFailed)])
    {
      if check != TenantOk {
        status := if check == TenantInactive then Cancelled else Failed;
        transientError := false;
        noChange := false;
        ReleaseLease();
        return;
      }
      if status == Succeeded || noChange {
        ReleaseLease();
        return;
      }
      if cancelled {
        status := Cancelled;
        ReleaseLease();
        return;
      }
      attemptCount := attemptCount + 1;
      status := Running;
      noChange := false;
      match e {
        case Publish =>
          status := Succeeded;
        case CancelFound =>
          status := Cancelled;
          transientError := false;
        case TransientFailure =>
          status := Failed;
          transientError := true;
        case ContentFailure =>
          status := Failed;
          transientError := false;
      }
      attempts := attempts + [AttemptRow(attemptCount, OutcomeOf(e))];
      ReleaseLease();
    }

    /** The inline retry loop. `endings(n)` ends the attempt that starts with n attempts made. */
    method ProcessWithRetries(check: TenantCheck, endings: nat -> Ending)
      modifies this
      ensures Value() == RetriedInline(Processed(old(Value()), check, endings(old(attemptCount))), check, endings)
    {
      Process(check, endings(attemptCount));
      ghost var whole := RetriedInline(Value(), check, endings);
      while status == Failed && transientError && attemptCount < maxAttempts
        invariant whole == RetriedInline(Value(), check, endings)
        decreases maxAttempts - attemptCount, status == Failed && transientError
      {
        status := Queued;
        Process(check, endings(attemptCount));
      }
    }

    /** A user's cancellation; finished and cancelled jobs refuse it. */
    method Cancel() returns (accepted: bool)
      modifies this
      ensures accepted == (old(status) != Succeeded && old(status) != Cancelled)
      ensures Value() == if accepted then CancelledByUser(old(Value())) else old(Value())
      ensures accepted ==> cancelled && status == Cancelled
      ensures unchanged(`attemptCount, `maxAttempts, `claimedBy, `leaseExpiresAt, `nextAttemptAt, `attempts)
    {
      accepted := status != Succeeded && status != Cancelled;
      if accepted {
        cancelled := true;
        status := Cancelled;
      }
    }

    /** A user's retry; the caller writes the outbox row in the same transaction. */
    method Retry(now: int) returns (accepted: bool)
      modifies this
      ensures accepted == (old(attemptCount) < old(maxAttempts))
      ensures Value() == if accepted then Retried(old(Value()), now) else old(Value())
      ensures accepted ==> status == Queued && !cancelled && !transientError && nextAttemptAt == Some(now)
      ensures unchanged(`attemptCount, `maxAttempts, `claimedBy, `leaseExpiresAt, `attempts)
    {
      accepted := attemptCount < maxAttempts;
      if accepted {
        status := Queued;
        cancelled := false;
        transientError := false;
        nextAttemptAt := Some(now);
      }
    }
  }

  class TaskLeaseService {
    const workerId: WorkerId
    const settings: Settings

    constructor (workerId: WorkerId, settings: Settings)
      ensures this.workerId == workerId && this.settings == settings
    {
      this.workerId := workerId;
      this.settings := settings;
    }

    /** `locked` says that another transaction holds the row, which the query then skips. */
    method Claim(job: IngestionJob, locked: bool, now: int) returns (claimed: bool)
      modifies job
      ensures claimed == (!locked && Claimable(old(job.Value()), workerId, now))
      ensures claimed <==>
                && !locked && !old(job.cancelled) && (old(job.status) == Queued || old(job.status) == Running)
                && (old(job.nextAttemptAt).None? || old(job.nextAttemptAt).value <= now)
                && (old(job.claimedBy).None? || old(job.claimedBy) == Some(workerId)
                    || (old(job.leaseExpiresAt).Some? && old(job.leaseExpiresAt).value <= now))
      ensures claimed ==>
                && job.status == Running && job.claimedBy == Some(workerId) && job.nextAttemptAt.None?
                && job.leaseExpiresAt == Some(now + settings.leaseSeconds)
      ensures job.Value() == if claimed then Claimed(old(job.Value()), workerId, now, settings) else old(job.Value())
    {
      if locked || job.cancelled || (job.status != Queued && job.status != Running) {
        return false;
      }
      if job.nextAttemptAt.Some? && job.nextAttemptAt.value > now {
        return false;
      }
      if !(job.claimedBy.None? || job.claimedBy == Some(workerId)
           || (job.leaseExpiresAt.Some? && job.leaseExpiresAt.value <= now)) {
        return false;
      }
      job.claimedBy := Some(workerId);
      job.leaseExpiresAt := Some(now + settings.leaseSeconds);
      job.nextAttemptAt := None;
      job.status := Running;
      return true;
    }

    method AssertOwned(job: IngestionJob, now: int) returns (owned: bool)
      ensures owned == Owned(job.Value(), workerId, now)
      ensures owned <==>
                && job.status == Running && job.claimedBy == Some(workerId) && !job.cancelled
                && job.leaseExpiresAt.Some? && now < job.leaseExpiresAt.value
    {
      owned := job.status == Running && job.claimedBy == Some(workerId)
               && job.leaseExpiresAt.Some? && job.leaseExpiresAt.value > now && !job.cancelled;
    }

    method Heartbeat(job: IngestionJob, now: int) returns (alive: bool)
      modifies job
      ensures alive == Renewable(old(job.Value()), workerId)
      ensures alive <==> old(job.claimedBy) == Some(workerId) && old(job.status) == Running
      ensures alive ==> job.leaseExpiresAt == Some(now + settings.leaseSeconds)
      ensures job.Value() == if alive then Renewed(old(job.Value()), now, settings) else old(job.Value())
    {
      if job.claimedBy != Some(workerId) || job.status != Running {
        return false;
      }
      job.leaseExpiresAt := Some(now + settings.leaseSeconds);
      return true;
    }

    /** The recovery sweep: the query skips locked rows. The result lists the places of the jobs that were
        queued again. */
    method RecoverExpired(jobs: seq<IngestionJob>, locked: set<nat>, now: int) returns (recovered: seq<nat>)
      requires forall i, k :: 0 <= i < k < |jobs| ==> jobs[i] != jobs[k]
      modifies jobs
      ensures forall i :: 0 <= i < |jobs| ==>
                jobs[i].Value() == if i !in locked && old(jobs[i].status) == Running && old(jobs[i].leaseExpiresAt).Some?
                                      && old(jobs[i].leaseExpiresAt).value <= now
                                   then Recovered(old(jobs[i].Value()), now) else old(jobs[i].Value())
      ensures forall i: nat :: i in recovered <==> i < |jobs| && old(jobs[i].status) == Running && jobs[i].status == Queued
    {
      recovered := [];
      for i := 0 to |jobs|
        invariant forall k :: 0 <= k < i ==>
          jobs[k].Value() == if k !in locked && LeaseExpired(old(jobs[k].Value()), now) then Recovered(old(jobs[k].Value()), now)
                             else old(jobs[k].Value())
        invariant forall k :: i <= k < |jobs| ==> jobs[k].Value() == old(jobs[k].Value())
        invariant forall k: nat :: k in recovered <==> k < i && old(jobs[k].status) == Running && jobs[k].status == Queued
      {
        assert jobs[i].Value() == old(jobs[i].Value());
        if i !in locked && jobs[i].status == Running && jobs[i].leaseExpiresAt.Some? && jobs[i].leaseExpiresAt.value <= now {
          RecoverOne(jobs[i], now);
          if jobs[i].status == Queued {
            recovered := recovered + [i];
          }
        }
      }
    }

    method RecoverOne(job: IngestionJob, now: int)
      requires LeaseExpired(job.Value(), now)
      modifies job
      ensures job.Value() == Recovered(old(job.Value()), now)
      ensures job.claimedBy.None? && job.leaseExpiresAt.None? && !job.noChange
      ensures job.attemptCount == old(job.attemptCount) && job.attempts == old(job.attempts)
      ensures job.status == (if old(job.cancelled) then Cancelled
                             else if old(job.attemptCount) >= old(job.maxAttempts) then Failed else Queued)
      ensures job.status == Queued ==> job.nextAttemptAt == Some(now)
      ensures job.status == Failed ==> job.transientError
    {
      job.claimedBy := None;
      job.leaseExpiresAt := None;
      job.noChange := false;
      if job.cancelled {
        job.status := Cancelled;
      } else if job.attemptCount >= job.maxAttempts {
        job.status := Failed;
        job.transientError := true;
      } else {
        job.status := Queued;
        job.nextAttemptAt := Some(now);
      }
    }

    /** A transient failure is queued again with a growing delay; the caller writes the outbox row
        for the returned time in the same transaction. */
    method ScheduleRetry(job: IngestionJob, now: int) returns (availableAt: Option<int>)
      requires job.status == Failed
      modifies job
      ensures availableAt == if RetryDue(old(job.Value())) then Some(RetryAt(old(job.Value()), now, settings)) else None
      ensures availableAt.Some? <==> old(job.transientError) && old(job.attemptCount) < old(job.maxAttempts)
      ensures availableAt.Some? ==>
                && job.status == Queued && job.nextAttemptAt == availableAt && job.claimedBy.None? && job.leaseExpiresAt.None?
                && job.attemptCount == old(job.attemptCount) && job.attempts == old(job.attempts)
      ensures job.Value() == if availableAt.Some? then Rescheduled(old(job.Value()), availableAt.value) else old(job.Value())
    {
      if !job.transientError || job.attemptCount >= job.maxAttempts {
        return None;
      }
      var at := now + settings.backoffSeconds * Pow2(if job.attemptCount == 0 then 0 else job.attemptCount - 1);
      job.status := Queued;
      job.noChange := false;
      job.claimedBy := None;
      job.leaseExpiresAt := None;
      job.nextAttemptAt := Some(at);
      return Some(at);
    }
  }
}
