/**
 The durable delivery of ingestion jobs as one transition system: users, dispatchers, a durable
 broker that redelivers what is not acknowledged, workers that may stall or crash anywhere, and the
 recovery of expired leases. Each step is one database transaction or one broker operation.
 */
module Delivery {
  import opened Options
  import opened Jobs
  import opened Outbox

  /** Where a worker is with the delivery it holds. From `Flushed` to the end of its transaction the
      worker holds the job's row lock. */
  datatype Phase =
    | Received     // not looked at yet
    | Missed       // the claim found nothing; to be acknowledged
    | Claimed      // the claim is committed; the session keeps the row as it read it then
    | Flushed      // the attempt's first write is out; ownership not checked yet
    | Verified     // the ownership check has passed
    | Published    // the last check has passed; only the commit is left
    | Settled      // the attempt is committed; to be acknowledged

  /** `baseline` is the attempt count that the session read when it claimed. */
  datatype Session = Session(row: RowId, job: JobId, phase: Phase, baseline: nat)

  /** A dispatcher's copy of a row it has taken. */
  datatype Entry = Entry(attempts: nat, maxAttempts: nat, sent: bool)

  /** `cancelling` holds the jobs whose cancellation is written and not committed. `skipped` is no state
      of the system: it remembers the jobs that a claim skipped because of that, since their last row. */
  datatype State = State(
    now: int, settings: Settings, jobs: map<JobId, Job>, rows: seq<Row>, queue: multiset<RowId>,
    sessions: map<WorkerId, Session>, batches: map<DispatcherId, map<RowId, Entry>>,
    cancelling: set<JobId>, skipped: set<JobId>)

  function Start(now: int, settings: Settings): State {
    State(now, settings, map[], [], multiset{}, map[], map[], {}, {})
  }

  predicate Holding(p: Phase) {
    p == Flushed || p == Verified || p == Published
  }

  /** A delivery in this phase goes back to the broker unless its worker commits. */
  predicate Live(p: Phase) {
    p != Missed && p != Settled
  }

  ghost predicate Holds(s: State, w: WorkerId, j: JobId) {
    w in s.sessions && s.sessions[w].job == j && Holding(s.sessions[w].phase)
  }

  ghost predicate Locked(s: State, j: JobId) {
    j in s.cancelling || exists w :: Holds(s, w, j)
  }

  /** Another worker has a delivery of the job whose claim or rejection may be holding the row. */
  ghost predicate Contended(s: State, w: WorkerId, j: JobId) {
    exists v :: v != w && v in s.sessions && s.sessions[v].job == j
                && (s.sessions[v].phase == Received || s.sessions[v].phase == Phase.Claimed)
  }

  // ---- Steps ----

  datatype Step =
    | Tick(seconds: nat)
    | Submit(job: JobId, maxAttempts: nat)
    | UserRetry(job: JobId)
    | BeginCancel(job: JobId)                   // the user's cancellation writes the row
    | CommitCancel(job: JobId)
    | AbortCancel(job: JobId)                   // the interface dies before its commit
    | Take(dispatcher: DispatcherId, chosen: set<RowId>)
    | Send(dispatcher: DispatcherId, row: RowId)
    | Mark(dispatcher: DispatcherId, row: RowId)
    | RecordFailure(dispatcher: DispatcherId, row: RowId)
    | EndBatch(dispatcher: DispatcherId)        // done, or crashed
    | Receive(worker: WorkerId, row: RowId)
    | Redeliver(worker: WorkerId)               // the broker gives up on the connection
    | GiveBack(worker: WorkerId)                // negative acknowledgement, or crash
    | Acknowledge(worker: WorkerId)
    | Claim(worker: WorkerId)
    | Skip(worker: WorkerId)                    // the claim met the uncommitted write of a worker or of recovery
    | Heartbeat(worker: WorkerId)
    | Reject(worker: WorkerId, check: TenantCheck)
    | Flush(worker: WorkerId)
    | MissResources(worker: WorkerId)
    | Check(worker: WorkerId)
    | FinalCheck(worker: WorkerId)
    | Finish(worker: WorkerId, ending: Ending)
    | Recover(job: JobId)

  predicate At(s: State, w: WorkerId, p: Phase) {
    w in s.sessions && s.sessions[w].phase == p && s.sessions[w].job in s.jobs
  }

  predicate HasEntry(s: State, d: DispatcherId, r: RowId) {
    d in s.batches && r in s.batches[d] && r < |s.rows|
  }

  ghost predicate Enabled(s: State, step: Step) {
    match step
    case Tick(_) => true
    case Submit(j, max) => j !in s.jobs && max > 0
    case UserRetry(j) =>
      j in s.jobs && s.jobs[j].status == Failed && s.jobs[j].attemptCount < s.jobs[j].maxAttempts && !Locked(s, j)
    case BeginCancel(j) =>
      j in s.jobs && s.jobs[j].status != Succeeded && s.jobs[j].status != Cancelled && !Locked(s, j)
    case CommitCancel(j) => j in s.cancelling && j in s.jobs
    case AbortCancel(j) => j in s.cancelling
    case Take(d, chosen) =>
      d !in s.batches && forall r :: r in chosen ==> r < |s.rows| && Takeable(s.rows[r], s.now)
    case Send(d, r) => HasEntry(s, d, r) && !s.batches[d][r].sent
    case Mark(d, r) => HasEntry(s, d, r) && s.batches[d][r].sent
    case RecordFailure(d, r) => HasEntry(s, d, r)
    case EndBatch(d) => d in s.batches
    case Receive(w, r) => w !in s.sessions && r in s.queue && r < |s.rows|
    case Redeliver(w) => w in s.sessions
    case GiveBack(w) => w in s.sessions
    case Acknowledge(w) => w in s.sessions && !Live(s.sessions[w].phase)
    case Claim(w) => At(s, w, Received)
    case Skip(w) =>
      At(s, w, Received) && (Contended(s, w, s.sessions[w].job) || LeaseExpired(s.jobs[s.sessions[w].job], s.now))
    case Heartbeat(w) =>
      At(s, w, Phase.Claimed) && !Locked(s, s.sessions[w].job) && Renewable(s.jobs[s.sessions[w].job], w)
    case Reject(w, check) => At(s, w, Phase.Claimed) && check != TenantOk && !Locked(s, s.sessions[w].job)
    case Flush(w) => At(s, w, Phase.Claimed) && !Locked(s, s.sessions[w].job)
    case MissResources(w) => At(s, w, Flushed)
    case Check(w) => At(s, w, Flushed)
    case FinalCheck(w) => At(s, w, Verified)
    case Finish(w, e) =>
      if e == Publish then At(s, w, Published)
      else (e == TransientFailure || e == ContentFailure) && At(s, w, Verified)
    case Recover(j) => j in s.jobs && LeaseExpired(s.jobs[j], s.now) && !Locked(s, j)
  }

  function SetJob(s: State, j: JobId, job: Job): State {
    s.(jobs := s.jobs[j := job])
  }

  function AddRow(s: State, j: JobId, max: nat, at: int): State {
    s.(rows := s.rows + [NewRow(j, max, at)], skipped := s.skipped - {j})
  }

  function SetPhase(s: State, w: WorkerId, p: Phase): State
    requires w in s.sessions
  {
    s.(sessions := s.sessions[w := s.sessions[w].(phase := p)])
  }

  /** The delivery returns to the queue and the session is gone. */
  function Requeued(s: State, w: WorkerId): State
    requires w in s.sessions
  {
    s.(sessions := s.sessions - {w}, queue := s.queue + multiset{s.sessions[w].row})
  }

  function TakeSpec(s: State, d: DispatcherId, chosen: set<RowId>): State
    requires forall r :: r in chosen ==> r < |s.rows|
  {
    s.(rows := seq(|s.rows|, i requires 0 <= i < |s.rows| =>
                     if i in chosen then Taken(s.rows[i], d, s.now) else s.rows[i]),
       batches := s.batches[d := map r | r in chosen :: Entry(s.rows[r].attempts, s.rows[r].maxAttempts, false)])
  }

  function DropEntry(s: State, d: DispatcherId, r: RowId): State
    requires HasEntry(s, d, r)
  {
    s.(batches := s.batches[d := s.batches[d] - {r}])
  }

  function SetRow(s: State, r: RowId, row: Row): State
    requires r < |s.rows|
  {
    s.(rows := s.rows[r := row])
  }

  ghost function ClaimSpec(s: State, w: WorkerId): State
    requires At(s, w, Received)
  {
    var j := s.sessions[w].job;
    var job := s.jobs[j];
    if !Locked(s, j) && Claimable(job, w, s.now) then
      SetJob(s, j, Jobs.Claimed(job, w, s.now, s.settings)).(
        sessions := s.sessions[w := s.sessions[w].(phase := Phase.Claimed, baseline := job.attemptCount)])
    else SetPhase(s, w, Missed).(skipped := if j in s.cancelling then s.skipped + {j} else s.skipped)
  }

  /** The insertion of the attempt row fails when another attempt has that number. */
  function FlushSpec(s: State, w: WorkerId): State
    requires At(s, w, Phase.Claimed)
  {
    if |s.jobs[s.sessions[w].job].attempts| == s.sessions[w].baseline then SetPhase(s, w, Flushed)
    else Requeued(s, w)
  }

  function SettleSpec(s: State, w: WorkerId, job: Job): State
    requires w in s.sessions
  {
    SetPhase(SetJob(s, s.sessions[w].job, job), w, Settled)
  }

  function CheckSpec(s: State, w: WorkerId): State
    requires At(s, w, Flushed)
  {
    var job := s.jobs[s.sessions[w].job];
    if job.cancelled || job.status == Cancelled then
      SettleSpec(s, w, Finished(job, s.sessions[w].baseline + 1, CancelFound))
    else if Owned(job, w, s.now) then SetPhase(s, w, Verified)
    else Requeued(s, w)
  }

  function FinalCheckSpec(s: State, w: WorkerId): State
    requires At(s, w, Verified)
  {
    if Owned(s.jobs[s.sessions[w].job], w, s.now) then SetPhase(s, w, Published) else Requeued(s, w)
  }

  /** The commit; a transient failure with attempts left is queued again with a new row. */
  function FinishSpec(s: State, w: WorkerId, e: Ending): State
    requires w in s.sessions && s.sessions[w].job in s.jobs
  {
    var j := s.sessions[w].job;
    var f := Finished(s.jobs[j], s.sessions[w].baseline + 1, e);
    if RetryDue(f) then
      var at := RetryAt(f, s.now, s.settings);
      AddRow(SettleSpec(s, w, Rescheduled(f, at)), j, f.maxAttempts, at)
    else SettleSpec(s, w, f)
  }

  function RecoverSpec(s: State, j: JobId): State
    requires j in s.jobs
  {
    var r := Recovered(s.jobs[j], s.now);
    if r.status == Queued then AddRow(SetJob(s, j, r), j, r.maxAttempts, s.now) else SetJob(s, j, r)
  }

  ghost function Apply(s: State, step: Step): State
    requires Enabled(s, step)
  {
    match step
    case Tick(n) => s.(now := s.now + n)
    case Submit(j, max) => AddRow(SetJob(s, j, NewJob(max)), j, max, s.now)
    case UserRetry(j) => AddRow(SetJob(s, j, Retried(s.jobs[j], s.now)), j, s.jobs[j].maxAttempts, s.now)
    case BeginCancel(j) => s.(cancelling := s.cancelling + {j})
    case CommitCancel(j) => SetJob(s, j, CancelledByUser(s.jobs[j])).(cancelling := s.cancelling - {j})
    case AbortCancel(j) => s.(cancelling := s.cancelling - {j})
    case Take(d, chosen) => TakeSpec(s, d, chosen)
    case Send(d, r) =>
      s.(queue := s.queue + multiset{r}, batches := s.batches[d := s.batches[d][r := s.batches[d][r].(sent := true)]])
    case Mark(d, r) => DropEntry(SetRow(s, r, Marked(s.rows[r], d)), d, r)
    case RecordFailure(d, r) =>
      var e := s.batches[d][r];
      DropEntry(SetRow(s, r, FailureRecorded(s.rows[r], d, e.attempts, e.maxAttempts, s.now)), d, r)
    case EndBatch(d) => s.(batches := s.batches - {d})
    case Receive(w, r) =>
      s.(queue := s.queue - multiset{r}, sessions := s.sessions[w := Session(r, s.rows[r].job, Received, 0)])
    case Redeliver(w) => s.(queue := s.queue + multiset{s.sessions[w].row})
    case GiveBack(w) => Requeued(s, w)
    case Acknowledge(w) => s.(sessions := s.sessions - {w})
    case Claim(w) => ClaimSpec(s, w)
    case Skip(w) => SetPhase(s, w, Missed)
    case Heartbeat(w) => SetJob(s, s.sessions[w].job, Renewed(s.jobs[s.sessions[w].job], s.now, s.settings))
    case Reject(w, check) => SettleSpec(s, w, Rejected(s.jobs[s.sessions[w].job], check))
    case Flush(w) => FlushSpec(s, w)
    case MissResources(w) => FinishSpec(s, w, ContentFailure)
    case Check(w) => CheckSpec(s, w)
    case FinalCheck(w) => FinalCheckSpec(s, w)
    case Finish(w, e) => FinishSpec(s, w, e)
    case Recover(j) => RecoverSpec(s, j)
  }

  // ---- Invariant: rows, sessions, batches ----

  ghost predicate JobsOk(s: State) {
    forall j :: j in s.jobs ==> JobOk(s.jobs[j])
  }

  ghost predicate RowsOk(s: State) {
    forall r :: 0 <= r < |s.rows| ==> RowOk(s.rows[r]) && s.rows[r].job in s.jobs
  }

  ghost predicate QueueOk(s: State) {
    forall r :: r in s.queue ==> r < |s.rows|
  }

  ghost predicate SessionOk(s: State, w: WorkerId)
    requires w in s.sessions
  {
    var x := s.sessions[w];
    && x.row < |s.rows| && s.rows[x.row].job == x.job && x.job in s.jobs
    && var job := s.jobs[x.job];
    && (x.phase == Phase.Claimed || Holding(x.phase) ==> x.baseline <= job.attemptCount && x.baseline < job.maxAttempts)
    && (Holding(x.phase) ==> x.baseline == job.attemptCount)
    && (x.phase == Verified || x.phase == Published ==>
          job.status == Running && job.claimedBy == Some(w) && !job.cancelled)
  }

  ghost predicate SessionsOk(s: State) {
    forall w :: w in s.sessions ==> SessionOk(s, w)
  }

  ghost predicate OneHolder(s: State) {
    forall v, w, j :: Holds(s, v, j) && Holds(s, w, j) ==> v == w
  }

  /** A cancellation that is written excludes attempts. */
  ghost predicate CancelsOk(s: State) {
    && (forall j :: j in s.cancelling ==> j in s.jobs && s.jobs[j].status != Succeeded)
    && (forall j, w :: j in s.cancelling ==> !Holds(s, w, j))
  }

  /** While a dispatcher still owns a row, its copy of the attempt count is the row's. */
  ghost predicate EntryOk(s: State, d: DispatcherId, r: RowId)
    requires d in s.batches && r in s.batches[d]
  {
    && r < |s.rows|
    && (s.rows[r].claimedBy == Some(d) ==>
          && s.batches[d][r].attempts == s.rows[r].attempts
          && s.batches[d][r].maxAttempts == s.rows[r].maxAttempts
          && s.rows[r].availableAt <= s.now)
  }

  ghost predicate BatchesOk(s: State) {
    forall d, r :: d in s.batches && r in s.batches[d] ==> EntryOk(s, d, r)
  }

  ghost predicate Sound(s: State) {
    JobsOk(s) && RowsOk(s) && QueueOk(s) && SessionsOk(s) && OneHolder(s) && CancelsOk(s) && BatchesOk(s)
  }

  // ---- Invariant: no queued job is without a carrier, unless a claim skipped it for a cancellation ----

  ghost predicate InQueue(s: State, j: JobId) {
    exists r :: r in s.queue && r < |s.rows| && s.rows[r].job == j
  }

  ghost predicate InHands(s: State, j: JobId) {
    exists w :: w in s.sessions && s.sessions[w].job == j && Live(s.sessions[w].phase)
  }

  /** A message or an unfinished delivery of the job that can be claimed from now on. */
  ghost predicate GoodMessage(s: State, j: JobId) {
    j in s.jobs && Due(s.jobs[j].nextAttemptAt, s.now) && (InQueue(s, j) || InHands(s, j))
  }

  predicate IsLast(s: State, r: RowId, j: JobId) {
    && r < |s.rows| && s.rows[r].job == j
    && forall q :: r < q < |s.rows| ==> s.rows[q].job != j
  }

  ghost predicate RowCarries(s: State, r: RowId, j: JobId)
    requires j in s.jobs && r < |s.rows|
  {
    && Due(s.jobs[j].nextAttemptAt, s.rows[r].availableAt)
    && (s.rows[r].poisoned || Pending(s.rows[r]) || GoodMessage(s, j))
    && (forall d :: d in s.batches && r in s.batches[d] && s.batches[d][r].sent && s.rows[r].claimedBy == Some(d) ==>
          GoodMessage(s, j))
  }

  ghost predicate Carried(s: State, j: JobId)
    requires j in s.jobs
  {
    exists r :: IsLast(s, r, j) && RowCarries(s, r, j)
  }

  ghost predicate AllCarried(s: State) {
    forall j :: j in s.jobs && s.jobs[j].status == Queued && j !in s.skipped ==> Carried(s, j)
  }

  ghost predicate Invariant(s: State) {
    Sound(s) && AllCarried(s)
  }
}
