/**
 What the delivery protocol promises over whole runs: no queued job is lost, attempts are numbered
 and bounded, and dispatchers are fenced from each other's rows.
 */
module DeliveryTheorems {
  import opened Options
  import opened Backoff
  import opened Jobs
  import opened Outbox
  import opened Delivery
  import opened DeliverySafety

  ghost predicate CanRun(s: State, steps: seq<Step>)
    decreases |steps|
  {
    steps == [] || (Enabled(s, steps[0]) && CanRun(Apply(s, steps[0]), steps[1..]))
  }

  ghost function After(s: State, steps: seq<Step>): State
    requires CanRun(s, steps)
    decreases |steps|
  {
    if steps == [] then s else After(Apply(s, steps[0]), steps[1..])
  }

  lemma {:induction false} RunKeepsInvariant(s: State, steps: seq<Step>)
    requires Invariant(s) && CanRun(s, steps)
    ensures Invariant(After(s, steps))
    decreases |steps|
  {
    if steps != [] {
      StepKeepsInvariant(s, steps[0]);
      RunKeepsInvariant(Apply(s, steps[0]), steps[1..]);
    }
  }

  ghost predicate Reachable(s: State) {
    exists now, settings, steps :: CanRun(Start(now, settings), steps) && After(Start(now, settings), steps) == s
  }

  lemma ReachableIsInvariant(s: State)
    requires Reachable(s)
    ensures Invariant(s)
  {
    var now, settings, steps :| CanRun(Start(now, settings), steps) && After(Start(now, settings), steps) == s;
    RunKeepsInvariant(Start(now, settings), steps);
  }

  lemma {:induction false} RunsCompose(s: State, before: seq<Step>, after: seq<Step>)
    requires CanRun(s, before) && CanRun(After(s, before), after)
    ensures CanRun(s, before + after) && After(s, before + after) == After(After(s, before), after)
    decreases |before|
  {
    if before == [] {
      assert before + after == after;
    } else {
      RunsCompose(Apply(s, before[0]), before[1..], after);
      assert (before + after)[1..] == before[1..] + after;
    }
  }

  // ---- No job is lost ----

  /** What will bring a queued job to a worker: its newest outbox row, which is not due before the
      job; or a message or unfinished delivery, the job being due already. */
  ghost predicate HasCarrier(s: State, j: JobId)
    requires j in s.jobs
  {
    || (exists r: RowId :: IsLast(s, r, j) && Pending(s.rows[r]) && Due(s.jobs[j].nextAttemptAt, s.rows[r].availableAt))
    || GoodMessage(s, j)
  }

  ghost predicate LastRowPoisoned(s: State, j: JobId) {
    exists r: RowId :: IsLast(s, r, j) && s.rows[r].poisoned
  }

  /** A queued job has a carrier, or a poisoned newest row, or a claim skipped it because a cancellation
      held its row, and its newest row is older than that. */
  lemma NoQueuedJobIsLost(s: State, j: JobId)
    requires Reachable(s) && j in s.jobs && s.jobs[j].status == Queued && j !in s.skipped
    ensures HasCarrier(s, j) || LastRowPoisoned(s, j)
  {
    ReachableIsInvariant(s);
    assert Carried(s, j);
  }

  /** A running job is recovered once its lease is over, unless an attempt holds its row right then;
      recovery always queues it again, with a row. */
  lemma NoRunningJobIsLost(s: State, j: JobId, later: int)
    requires Reachable(s) && j in s.jobs && s.jobs[j].status == Running
    ensures s.jobs[j].leaseExpiresAt.Some?
    ensures later >= s.jobs[j].leaseExpiresAt.value && !Locked(s, j) ==>
              && Enabled(s.(now := later), Recover(j))
              && var t := Apply(s.(now := later), Recover(j));
                 t.jobs[j].status == Queued && t.rows == s.rows + [NewRow(j, s.jobs[j].maxAttempts, later)]
  {
    ReachableIsInvariant(s);
    assert JobOk(s.jobs[j]);
    if later >= s.jobs[j].leaseExpiresAt.value && !Locked(s, j) {
      assert forall w :: Holds(s.(now := later), w, j) ==> Holds(s, w, j);
      RecoveryAlwaysRequeues(s.jobs[j], later);
    }
  }

  lemma CommitShape(s: State, w: WorkerId, e: Ending)
    requires Invariant(s) && w in s.sessions && Holding(s.sessions[w].phase)
    ensures var j := s.sessions[w].job;
            && j in s.jobs && JobOk(s.jobs[j]) && s.jobs[j].attemptCount < s.jobs[j].maxAttempts
            && var t := FinishSpec(s, w, e);
               && j in t.jobs && t.jobs[j] == Committed(s.jobs[j], e, s.now, s.settings)
               && t.rows == (if t.jobs[j].status == Queued && t.jobs[j].nextAttemptAt.Some?
                             then s.rows + [NewRow(j, t.jobs[j].maxAttempts, t.jobs[j].nextAttemptAt.value)] else s.rows)
  {
    assert SessionOk(s, w) && JobOk(s.jobs[s.sessions[w].job]);
  }

  /** What the commit of an attempt makes of its job: a transient failure with attempts left is queued for
      a later time, with a row that is due then; every other ending settles the job, without a row. */
  lemma EndingDecides(s: State, w: WorkerId, e: Ending)
    requires Reachable(s) && Enabled(s, Finish(w, e))
    ensures var j := s.sessions[w].job;
            var before, t := s.jobs[j], Apply(s, Finish(w, e));
            var after := t.jobs[j];
            && after.attemptCount == before.attemptCount + 1 && after.claimedBy.None? && after.leaseExpiresAt.None?
            && if e == TransientFailure && after.attemptCount < after.maxAttempts then
                 && after.status == Queued
                 && after.nextAttemptAt == Some(s.now + s.settings.backoffSeconds * Pow2(before.attemptCount))
                 && t.rows == s.rows + [NewRow(j, after.maxAttempts, after.nextAttemptAt.value)]
               else
                 && after.status == (if e == Publish then Succeeded else JobStatus.Failed)
                 && after.nextAttemptAt.None? && t.rows == s.rows
  {
    ReachableIsInvariant(s);
    var j := s.sessions[w].job;
    assert SessionOk(s, w);
    CommitShape(s, w, e);
    CommittedMeans(s.jobs[j], e, s.now, s.settings);
  }

  // ---- Every open job can still be claimed ----

  /** Users do nothing; a cancellation that was begun before may be aborted. */
  predicate Automatic(steps: seq<Step>) {
    forall i :: 0 <= i < |steps| ==>
      !steps[i].Submit? && !steps[i].UserRetry? && !steps[i].BeginCancel? && !steps[i].CommitCancel?
  }

  ghost predicate Brings(s: State, steps: seq<Step>, j: JobId, w: WorkerId) {
    && CanRun(s, steps) && Automatic(steps)
    && j in After(s, steps).jobs
    && Renewable(After(s, steps).jobs[j], w)
    && After(s, steps).jobs[j].leaseExpiresAt == Some(After(s, steps).now + s.settings.leaseSeconds)
  }

  lemma {:induction false} Above(xs: set<nat>) returns (k: nat)
    ensures forall x :: x in xs ==> x < k
  {
    if xs == {} {
      k := 0;
    } else {
      var x :| x in xs;
      var rest := Above(xs - {x});
      assert forall y :: y in xs ==> y == x || y in xs - {x};
      k := if rest <= x then x + 1 else rest;
    }
  }

  lemma FirstStep(s: State, step: Step, steps: seq<Step>, j: JobId, w: WorkerId)
    requires Enabled(s, step) && Apply(s, step).settings == s.settings && Automatic([step])
    requires Brings(Apply(s, step), steps, j, w)
    ensures Brings(s, [step] + steps, j, w)
  {
    assert ([step] + steps)[1..] == steps;
  }

  ghost predicate Open(s: State, j: JobId) {
    Invariant(s) && j in s.jobs && !Locked(s, j)
  }

  lemma FromReceived(s: State, j: JobId, w: WorkerId)
    requires Open(s, j) && s.jobs[j].status == Queued && Due(s.jobs[j].nextAttemptAt, s.now)
    requires At(s, w, Received) && s.sessions[w].job == j
    ensures Brings(s, [Claim(w)], j, w)
  {
    assert JobOk(s.jobs[j]);
    assert Brings(Apply(s, Claim(w)), [], j, w);
    FirstStep(s, Claim(w), [], j, w);
    assert [Claim(w)] + [] == [Claim(w)];
  }

  lemma FromQueue(s: State, j: JobId, r: RowId) returns (steps: seq<Step>, w: WorkerId)
    requires Open(s, j) && s.jobs[j].status == Queued && Due(s.jobs[j].nextAttemptAt, s.now)
    requires r in s.queue && r < |s.rows| && s.rows[r].job == j
    ensures Brings(s, steps, j, w)
  {
    w := Above(s.sessions.Keys);
    var t := Apply(s, Receive(w, r));
    ReceiveKeeps(s, w, r);
    assert forall v :: Holds(t, v, j) ==> Holds(s, v, j);
    FromReceived(t, j, w);
    FirstStep(s, Receive(w, r), [Claim(w)], j, w);
    steps := [Receive(w, r)] + [Claim(w)];
  }

  lemma FromHands(s: State, j: JobId, v: WorkerId) returns (steps: seq<Step>, w: WorkerId)
    requires Open(s, j) && s.jobs[j].status == Queued && Due(s.jobs[j].nextAttemptAt, s.now)
    requires v in s.sessions && s.sessions[v].job == j
    ensures Brings(s, steps, j, w)
  {
    assert SessionOk(s, v);
    var t := Requeued(s, v);
    RequeueKeeps(s, v);
    assert forall u :: Holds(t, u, j) ==> Holds(s, u, j);
    var rest, worker := FromQueue(t, j, s.sessions[v].row);
    FirstStep(s, GiveBack(v), rest, j, worker);
    steps, w := [GiveBack(v)] + rest, worker;
  }

  lemma FromMessage(s: State, j: JobId) returns (steps: seq<Step>, w: WorkerId)
    requires Open(s, j) && s.jobs[j].status == Queued && GoodMessage(s, j)
    ensures Brings(s, steps, j, w)
  {
    if InQueue(s, j) {
      var r :| r in s.queue && r < |s.rows| && s.rows[r].job == j;
      steps, w := FromQueue(s, j, r);
    } else {
      var v :| v in s.sessions && s.sessions[v].job == j && Live(s.sessions[v].phase);
      steps, w := FromHands(s, j, v);
    }
  }

  /** A free dispatcher can take and send a row that is due. */
  lemma FreeDispatcher(s: State, r: RowId) returns (d: DispatcherId)
    requires Invariant(s) && r < |s.rows| && Takeable(s.rows[r], s.now)
    ensures Enabled(s, Take(d, {r}))
    ensures Invariant(TakeSpec(s, d, {r})) && Enabled(TakeSpec(s, d, {r}), Send(d, r))
  {
    d := Above(s.batches.Keys);
    TakeKeeps(s, d, {r});
  }

  lemma FromSent(s: State, j: JobId, d: DispatcherId, r: RowId) returns (steps: seq<Step>, w: WorkerId)
    requires Open(s, j) && s.jobs[j].status == Queued && Enabled(s, Send(d, r)) && s.rows[r].job == j
    requires Due(s.jobs[j].nextAttemptAt, s.now)
    ensures Brings(s, steps, j, w)
  {
    var t := Apply(s, Send(d, r));
    SendKeeps(s, d, r);
    assert forall v :: Holds(t, v, j) ==> Holds(s, v, j);
    var rest, worker := FromQueue(t, j, r);
    FirstStep(s, Send(d, r), rest, j, worker);
    steps, w := [Send(d, r)] + rest, worker;
  }

  /** The row is taken as soon as it is due and no other dispatcher's claim on it lives. */
  lemma FromDueRow(s: State, j: JobId, r: RowId) returns (steps: seq<Step>, w: WorkerId)
    requires Open(s, j) && s.jobs[j].status == Queued && r < |s.rows| && s.rows[r].job == j
    requires Takeable(s.rows[r], s.now) && Due(s.jobs[j].nextAttemptAt, s.now)
    ensures Brings(s, steps, j, w)
  {
    var d := FreeDispatcher(s, r);
    var t := TakeSpec(s, d, {r});
    assert forall v :: Holds(t, v, j) ==> Holds(s, v, j);
    var rest, worker := FromSent(t, j, d, r);
    FirstStep(s, Take(d, {r}), rest, j, worker);
    steps, w := [Take(d, {r})] + rest, worker;
  }

  lemma FromPendingRow(s: State, j: JobId, r: RowId) returns (steps: seq<Step>, w: WorkerId)
    requires Open(s, j) && s.jobs[j].status == Queued && r < |s.rows| && s.rows[r].job == j
    requires Pending(s.rows[r]) && Due(s.jobs[j].nextAttemptAt, s.rows[r].availableAt)
    ensures Brings(s, steps, j, w)
  {
    var row := s.rows[r];
    assert RowOk(row);
    var until := if row.claimExpiresAt.Some? && row.claimExpiresAt.value > row.availableAt then row.claimExpiresAt.value
                 else row.availableAt;
    var n: nat := if until > s.now then until - s.now else 0;
    var t := Apply(s, Tick(n));
    TickKeeps(s, n);
    assert forall v :: Holds(t, v, j) ==> Holds(s, v, j);
    var rest, worker := FromDueRow(t, j, r);
    FirstStep(s, Tick(n), rest, j, worker);
    steps, w := [Tick(n)] + rest, worker;
  }

  lemma FromQueued(s: State, j: JobId) returns (steps: seq<Step>, w: WorkerId)
    requires Open(s, j) && s.jobs[j].status == Queued && !LastRowPoisoned(s, j) && j !in s.skipped
    ensures Brings(s, steps, j, w)
  {
    assert Carried(s, j);
    var r: RowId :| IsLast(s, r, j) && RowCarries(s, r, j);
    if Pending(s.rows[r]) {
      steps, w := FromPendingRow(s, j, r);
    } else {
      steps, w := FromMessage(s, j);
    }
  }

  lemma FromExpired(s: State, j: JobId) returns (steps: seq<Step>, w: WorkerId)
    requires Open(s, j) && LeaseExpired(s.jobs[j], s.now)
    ensures Brings(s, steps, j, w)
  {
    var t := Apply(s, Recover(j));
    assert JobOk(s.jobs[j]);
    RecoverKeeps(s, j);
    RecoveryAlwaysRequeues(s.jobs[j], s.now);
    assert forall v :: Holds(t, v, j) ==> Holds(s, v, j);
    var rest, worker := FromPendingRow(t, j, |s.rows|);
    FirstStep(s, Recover(j), rest, j, worker);
    steps, w := [Recover(j)] + rest, worker;
  }

  lemma FromRunning(s: State, j: JobId) returns (steps: seq<Step>, w: WorkerId)
    requires Open(s, j) && s.jobs[j].status == Running
    ensures Brings(s, steps, j, w)
  {
    assert JobOk(s.jobs[j]);
    var until := s.jobs[j].leaseExpiresAt.value;
    var n: nat := if until > s.now then until - s.now else 0;
    var t := Apply(s, Tick(n));
    TickKeeps(s, n);
    assert forall v :: Holds(t, v, j) ==> Holds(s, v, j);
    var rest, worker := FromExpired(t, j);
    FirstStep(s, Tick(n), rest, j, worker);
    steps, w := [Tick(n)] + rest, worker;
  }

  ghost predicate Deliverable(s: State, j: JobId)
    requires j in s.jobs
  {
    s.jobs[j].status == Running || (s.jobs[j].status == Queued && !LastRowPoisoned(s, j) && j !in s.skipped)
  }

  lemma FromUnlocked(s: State, j: JobId) returns (steps: seq<Step>, w: WorkerId)
    requires Open(s, j) && Deliverable(s, j)
    ensures Brings(s, steps, j, w)
  {
    if s.jobs[j].status == Running {
      steps, w := FromRunning(s, j);
    } else {
      steps, w := FromQueued(s, j);
    }
  }

  lemma FromHeld(s: State, j: JobId, v: WorkerId) returns (steps: seq<Step>, w: WorkerId)
    requires Invariant(s) && j in s.jobs && Deliverable(s, j) && Holds(s, v, j)
    ensures Brings(s, steps, j, w)
  {
    var t := Apply(s, GiveBack(v));
    RequeueKeeps(s, v);
    assert forall u :: Holds(t, u, j) ==> Holds(s, u, j) && u != v;
    assert LastRowPoisoned(t, j) ==> LastRowPoisoned(s, j);
    var rest, worker := FromUnlocked(t, j);
    FirstStep(s, GiveBack(v), rest, j, worker);
    steps, w := [GiveBack(v)] + rest, worker;
  }

  lemma FromCancelling(s: State, j: JobId) returns (steps: seq<Step>, w: WorkerId)
    requires Invariant(s) && j in s.cancelling && j in s.jobs && Deliverable(s, j)
    ensures Brings(s, steps, j, w)
  {
    var t := Apply(s, AbortCancel(j));
    CancelLockKeeps(s, t);
    assert forall u :: Holds(t, u, j) ==> Holds(s, u, j);
    assert LastRowPoisoned(t, j) ==> LastRowPoisoned(s, j);
    var rest, worker := FromUnlocked(t, j);
    FirstStep(s, AbortCancel(j), rest, j, worker);
    steps, w := [AbortCancel(j)] + rest, worker;
  }

  /** From every reachable state, whatever crashed before, each running job and each queued job that has
      no poisoned newest row and was not skipped for a cancellation can still get to a worker, without
      anything that a user does. */
  lemma EveryOpenJobCanBeClaimed(s: State, j: JobId) returns (steps: seq<Step>, w: WorkerId)
    requires Reachable(s) && j in s.jobs && Deliverable(s, j)
    ensures Brings(s, steps, j, w)
  {
    ReachableIsInvariant(s);
    if j in s.cancelling {
      steps, w := FromCancelling(s, j);
    } else if v :| Holds(s, v, j) {
      steps, w := FromHeld(s, j, v);
    } else {
      steps, w := FromUnlocked(s, j);
    }
  }

  // ---- Attempts ----

  lemma QuietDispatcher(s: State, step: Step)
    requires Enabled(s, step) && ByDispatcher(step)
    ensures Apply(s, step).jobs == s.jobs && Apply(s, step).now == s.now
  {
  }

  lemma QuietDelivery(s: State, step: Step)
    requires Enabled(s, step) && ByDelivery(step)
    ensures Apply(s, step).jobs == s.jobs && Apply(s, step).now == s.now
  {
  }

  lemma QuietStep(s: State, step: Step)
    requires Enabled(s, step) && (ByDispatcher(step) || ByDelivery(step))
    ensures Apply(s, step).jobs == s.jobs && Apply(s, step).now == s.now
  {
    if ByDispatcher(step) {
      QuietDispatcher(s, step);
    } else {
      QuietDelivery(s, step);
    }
  }

  function EndingOf(step: Step): Ending {
    match step
    case Check(_) => CancelFound
    case Finish(_, e) => e
    case _ => ContentFailure
  }

  /** The step commits an attempt of the job. */
  ghost predicate Commits(s: State, step: Step, j: JobId)
    requires j in s.jobs
  {
    && (step.MissResources? || step.Check? || step.Finish?)
    && step.worker in s.sessions && s.sessions[step.worker].job == j
    && (step.Check? ==> s.jobs[j].cancelled || s.jobs[j].status == Cancelled)
  }

  ghost predicate LogGrows(s: State, t: State, step: Step, j: JobId)
    requires j in s.jobs
  {
    && j in t.jobs && t.jobs[j].maxAttempts == s.jobs[j].maxAttempts
    && t.jobs[j].attempts ==
         if Commits(s, step, j) then s.jobs[j].attempts + [AttemptRow(|s.jobs[j].attempts| + 1, OutcomeOf(EndingOf(step)))]
         else s.jobs[j].attempts
  }

  lemma FinishLogs(s: State, w: WorkerId, e: Ending, j: JobId)
    requires Invariant(s) && j in s.jobs && w in s.sessions && Holding(s.sessions[w].phase)
    ensures s.sessions[w].job in s.jobs && j in FinishSpec(s, w, e).jobs
    ensures FinishSpec(s, w, e).jobs[j].maxAttempts == s.jobs[j].maxAttempts
    ensures FinishSpec(s, w, e).jobs[j].attempts ==
              if s.sessions[w].job == j then s.jobs[j].attempts + [AttemptRow(|s.jobs[j].attempts| + 1, OutcomeOf(e))]
              else s.jobs[j].attempts
  {
    assert SessionOk(s, w) && JobOk(s.jobs[j]);
  }

  lemma CheckLogs(s: State, w: WorkerId, j: JobId)
    requires Invariant(s) && j in s.jobs && Enabled(s, Check(w))
    ensures LogGrows(s, Apply(s, Check(w)), Check(w), j)
  {
    assert SessionOk(s, w) && JobOk(s.jobs[j]);
  }

  lemma UserStepLogs(s: State, step: Step, j: JobId)
    requires Enabled(s, step) && j in s.jobs
    requires step.Tick? || step.Submit? || step.UserRetry? || step.Heartbeat?
              || step.BeginCancel? || step.CommitCancel? || step.AbortCancel?
    ensures LogGrows(s, Apply(s, step), step, j)
  {
  }

  lemma LeaseStepLogs(s: State, step: Step, j: JobId)
    requires Enabled(s, step) && j in s.jobs && (step.Claim? || step.Reject? || step.Recover?)
    ensures LogGrows(s, Apply(s, step), step, j)
  {
  }

  lemma CommitStepLogs(s: State, step: Step, j: JobId)
    requires Invariant(s) && Enabled(s, step) && j in s.jobs && (step.MissResources? || step.Finish?)
    ensures LogGrows(s, Apply(s, step), step, j)
  {
    FinishLogs(s, step.worker, EndingOf(step), j);
  }

  lemma QuietStepLogs(s: State, step: Step, j: JobId)
    requires Enabled(s, step) && j in s.jobs && (ByDispatcher(step) || ByDelivery(step))
    ensures LogGrows(s, Apply(s, step), step, j)
  {
    QuietStep(s, step);
  }

  lemma StepLogs(s: State, step: Step, j: JobId)
    requires Invariant(s) && Enabled(s, step) && j in s.jobs
    ensures LogGrows(s, Apply(s, step), step, j)
  {
    if ByDispatcher(step) || ByDelivery(step) {
      QuietStepLogs(s, step, j);
    } else if step.Claim? || step.Reject? || step.Recover? {
      LeaseStepLogs(s, step, j);
    } else if step.Check? {
      CheckLogs(s, step.worker, j);
    } else if step.MissResources? || step.Finish? {
      CommitStepLogs(s, step, j);
    } else {
      UserStepLogs(s, step, j);
    }
  }

  /** The attempt log of a job grows by one row for each committed attempt and in no other way, and no
      other attempt was committed since the committing worker claimed the job. */
  lemma AttemptsAreFenced(s: State, step: Step, j: JobId)
    requires Reachable(s) && Enabled(s, step) && j in s.jobs
    ensures LogGrows(s, Apply(s, step), step, j)
    ensures Commits(s, step, j) ==> s.sessions[step.worker].baseline == |s.jobs[j].attempts|
  {
    ReachableIsInvariant(s);
    assert JobOk(s.jobs[j]);
    StepLogs(s, step, j);
    if Commits(s, step, j) {
      assert SessionOk(s, step.worker);
    }
  }

  /** In every reachable state the log of a job is numbered 1, 2, ... without gaps, its length is the
      attempt count, and jobs that are not settled have attempts left. */
  lemma AttemptsAreAccounted(s: State, j: JobId)
    requires Reachable(s) && j in s.jobs
    ensures var job := s.jobs[j];
            && |job.attempts| == job.attemptCount <= job.maxAttempts
            && (forall i :: 0 <= i < |job.attempts| ==> job.attempts[i].number == i + 1)
            && (job.status == Queued || job.status == Running ==> job.attemptCount < job.maxAttempts)
  {
    ReachableIsInvariant(s);
    assert JobOk(s.jobs[j]);
  }

  // ---- Outbox fencing ----

  lemma TakeFences(s: State, d: DispatcherId, chosen: set<RowId>, r: RowId)
    requires Enabled(s, Take(d, chosen)) && r < |s.rows|
    ensures TakeSpec(s, d, chosen).rows[r] == if r in chosen then Taken(s.rows[r], d, s.now) else s.rows[r]
  {
  }

  lemma MarkFences(s: State, step: Step, r: RowId)
    requires Invariant(s) && Enabled(s, step) && (step.Mark? || step.RecordFailure?) && r < |s.rows|
    ensures |Apply(s, step).rows| == |s.rows|
    ensures Apply(s, step).rows[r].attempts == s.rows[r].attempts
              + (if step.RecordFailure? && step.row == r && s.rows[r].claimedBy == Some(step.dispatcher) then 1 else 0)
    ensures Apply(s, step).rows[r] != s.rows[r] ==> step.row == r && s.rows[r].claimedBy == Some(step.dispatcher)
  {
    assert EntryOk(s, step.dispatcher, step.row);
  }

  lemma OtherStepKeepsRows(s: State, step: Step)
    requires Enabled(s, step) && !step.Take? && !step.Mark? && !step.RecordFailure?
    ensures s.rows <= Apply(s, step).rows
  {
  }

  /** One step on one row: the attempt count rises by one exactly when the owner records a failure; a
      finished row does not change; and while a dispatcher's claim lives, only that dispatcher
      changes the row. A mark or a failure that comes after a reclaim therefore does nothing. */
  lemma RowsAreFenced(s: State, step: Step, r: RowId)
    requires Invariant(s) && Enabled(s, step) && r < |s.rows|
    ensures r < |Apply(s, step).rows|
    ensures Apply(s, step).rows[r].attempts == s.rows[r].attempts
              + (if step.RecordFailure? && step.row == r && s.rows[r].claimedBy == Some(step.dispatcher) then 1 else 0)
    ensures !Pending(s.rows[r]) ==> Apply(s, step).rows[r] == s.rows[r]
    ensures s.rows[r].claimedBy.Some? && s.rows[r].claimExpiresAt.value > s.now && Apply(s, step).rows[r] != s.rows[r] ==>
              (step.Mark? || step.RecordFailure?) && step.row == r && s.rows[r].claimedBy == Some(step.dispatcher)
  {
    assert RowOk(s.rows[r]);
    if step.Take? {
      TakeFences(s, step.dispatcher, step.chosen, r);
    } else if step.Mark? || step.RecordFailure? {
      MarkFences(s, step, r);
    } else {
      OtherStepKeepsRows(s, step);
    }
  }

  lemma {:induction false} TimeGoesOn(s: State, steps: seq<Step>)
    requires CanRun(s, steps)
    ensures s.now <= After(s, steps).now
    decreases |steps|
  {
    if steps != [] {
      TimeGoesOn(Apply(s, steps[0]), steps[1..]);
    }
  }

  /** While a dispatcher's claim lives, and until the dispatcher reports on the row, nothing changes it. */
  lemma {:induction false} ClaimLasts(s: State, steps: seq<Step>, r: RowId, d: DispatcherId, until: int)
    requires Invariant(s) && CanRun(s, steps) && r < |s.rows|
    requires s.rows[r].claimedBy == Some(d) && s.rows[r].claimExpiresAt == Some(until) && After(s, steps).now < until
    requires forall i :: 0 <= i < |steps| && (steps[i].Mark? || steps[i].RecordFailure?) ==>
               steps[i].dispatcher != d || steps[i].row != r
    ensures r < |After(s, steps).rows| && After(s, steps).rows[r] == s.rows[r]
    decreases |steps|
  {
    if steps != [] {
      TimeGoesOn(s, steps);
      RowsAreFenced(s, steps[0], r);
      StepKeepsInvariant(s, steps[0]);
      ClaimLasts(Apply(s, steps[0]), steps[1..], r, d, until);
    }
  }

  /** A row that a dispatcher takes is its own for a minute: in no run of less than that does another
      dispatcher take it or write to it, unless the first has reported on it. */
  lemma TakenRowIsKept(s: State, d: DispatcherId, chosen: set<RowId>, r: RowId, steps: seq<Step>)
    requires Invariant(s) && Enabled(s, Take(d, chosen)) && r in chosen && CanRun(Apply(s, Take(d, chosen)), steps)
    requires After(Apply(s, Take(d, chosen)), steps).now < s.now + 60
    requires forall i :: 0 <= i < |steps| && (steps[i].Mark? || steps[i].RecordFailure?) ==>
               steps[i].dispatcher != d || steps[i].row != r
    ensures var t := After(Apply(s, Take(d, chosen)), steps);
            && r < |s.rows| && r < |t.rows|
            && t.rows[r] == s.rows[r].(claimedBy := Some(d), claimExpiresAt := Some(s.now + 60))
            && !s.rows[r].published && !s.rows[r].poisoned && s.rows[r].availableAt <= s.now
            && forall e, others :: r in others ==> !Enabled(t, Take(e, others))
  {
    var t := Apply(s, Take(d, chosen));
    TakeKeeps(s, d, chosen);
    TakeFences(s, d, chosen, r);
    assert Takeable(s.rows[r], s.now);
    ClaimLasts(t, steps, r, d, s.now + 60);
    assert !Takeable(After(t, steps).rows[r], After(t, steps).now);
  }

  /** Over whole runs, a published or poisoned row stays as it is. */
  lemma {:induction false} FinishedRowsStay(s: State, steps: seq<Step>, r: RowId)
    requires Invariant(s) && CanRun(s, steps) && r < |s.rows| && !Pending(s.rows[r])
    ensures r < |After(s, steps).rows| && After(s, steps).rows[r] == s.rows[r]
    decreases |steps|
  {
    if steps != [] {
      RowsAreFenced(s, steps[0], r);
      StepKeepsInvariant(s, steps[0]);
      FinishedRowsStay(Apply(s, steps[0]), steps[1..], r);
    }
  }

  /** In every reachable state a row is poisoned exactly when its attempts are used up, and never both
      poisoned and published. */
  lemma RowsAreAccounted(s: State, r: RowId)
    requires Reachable(s) && r < |s.rows|
    ensures s.rows[r].poisoned <==> s.rows[r].attempts >= s.rows[r].maxAttempts
    ensures !(s.rows[r].poisoned && s.rows[r].published)
  {
    ReachableIsInvariant(s);
    assert RowOk(s.rows[r]);
  }
}
