/**
 The worker's handling of one ingestion delivery as the sequential code it is, and its place in the
 delivery protocol: an undisturbed handling is a run of the protocol's steps.
 */
module Worker {
  import opened Options
  import opened Jobs
  import opened Outbox
  import opened Delivery
  import opened DeliverySafety
  import opened DeliveryTheorems

  datatype Settlement = Acked | Nacked

  /** What is committed, and how the delivery is settled. */
  datatype Handled = Handled(job: Job, rows: seq<Row>, settlement: Settlement)

  /** How the processing of a claimed job goes: the tenant check, then the end of the attempt. An
      attempt without an ending is one that raised; its transaction is rolled back. */
  datatype Course = Course(check: TenantCheck, ending: Option<Ending>)

  function AfterProcess(job: Job, rows: seq<Row>, id: JobId, now: int, settings: Settings): Handled {
    if RetryDue(job) then
      var at := RetryAt(job, now, settings);
      Handled(Rescheduled(job, at), rows + [NewRow(id, job.maxAttempts, at)], Acked)
    else Handled(job, rows, Acked)
  }

  function HandledAs(job: Job, rows: seq<Row>, id: JobId, w: WorkerId, locked: bool, now: int, settings: Settings, c: Course)
    : Handled
  {
    if locked || !Claimable(job, w, now) then Handled(job, rows, Acked)
    else
      var claimed := Jobs.Claimed(job, w, now, settings);
      if c.check == TenantOk && c.ending.None? then Handled(claimed, rows, Nacked)
      else AfterProcess(Processed(claimed, c.check, if c.ending.Some? then c.ending.value else Publish), rows, id, now, settings)
  }

  /** An acknowledged delivery leaves no work behind it: the claim missed, or the job has ended, or it is
      queued with a new row that is due when it is. A returned one leaves a lease that recovery finds. */
  lemma AcknowledgedIsSafe(job: Job, rows: seq<Row>, id: JobId, w: WorkerId, locked: bool, now: int, settings: Settings, c: Course)
    requires JobOk(job)
    ensures var h := HandledAs(job, rows, id, w, locked, now, settings, c);
            && JobOk(h.job)
            && (h.settlement == Acked && h != Handled(job, rows, Acked) ==>
                  || h.job.status == Succeeded || h.job.status == JobStatus.Failed || h.job.status == Cancelled
                  || (h.job.status == Queued && exists at :: h.job.nextAttemptAt == Some(at) && h.rows == rows + [NewRow(id, h.job.maxAttempts, at)]))
            && (h.settlement == Nacked ==> LeaseExpired(h.job, now + settings.leaseSeconds) && h.rows == rows)
  {
    if !locked && Claimable(job, w, now) && c.check == TenantOk && c.ending.Some? {
      var claimed := Jobs.Claimed(job, w, now, settings);
      var f := Finished(claimed, job.attemptCount + 1, c.ending.value);
      FinishedIsOk(claimed, c.ending.value, RetryAt(f, now, settings));
    }
  }

  class IngestionWorker {
    const leases: TaskLeaseService
    const outbox: OutboxTable

    constructor (leases: TaskLeaseService, outbox: OutboxTable)
      ensures this.leases == leases && this.outbox == outbox
    {
      this.leases := leases;
      this.outbox := outbox;
    }

    /** The claim and the attempt are two transactions; the acknowledgement comes after the second. */
    method HandleIngestion(job: IngestionJob, id: JobId, priority: int, locked: bool, now: int, c: Course)
      returns (settlement: Settlement)
      requires outbox.Valid()
      modifies job, outbox
      ensures Handled(job.Value(), outbox.rows, settlement)
              == HandledAs(old(job.Value()), old(outbox.rows), id, leases.workerId, locked, now, leases.settings, c)
      ensures outbox.Valid() && old(outbox.priorities) <= outbox.priorities
      ensures forall i :: |old(outbox.priorities)| <= i < |outbox.priorities| ==> outbox.priorities[i] == priority
    {
      var claimed := leases.Claim(job, locked, now);
      if !claimed {
        return Acked;
      }
      if c.check == TenantOk && c.ending.None? {
        return Nacked;
      }
      job.Process(c.check, if c.ending.Some? then c.ending.value else Publish);
      if job.status == JobStatus.Failed {
        var at := leases.ScheduleRetry(job, now);
        if at.Some? {
          var _ := outbox.Add(id, job.maxAttempts, at.value, priority);
        }
      }
      return Acked;
    }
  }

  // ---- A handling is a run ----

  /** The protocol's steps of an undisturbed handling by `w`. */
  function StepsOf(w: WorkerId, claims: bool, c: Course): seq<Step> {
    if !claims then [Claim(w), Acknowledge(w)]
    else if c.check != TenantOk then [Claim(w), Reject(w, c.check), Acknowledge(w)]
    else if c.ending.None? then [Claim(w), GiveBack(w)]
    else if c.ending == Some(Publish) then
      [Claim(w), Flush(w), Check(w), FinalCheck(w), Finish(w, Publish), Acknowledge(w)]
    else [Claim(w), Flush(w), Check(w), Finish(w, c.ending.value), Acknowledge(w)]
  }

  ghost predicate EndsAs(s: State, steps: seq<Step>, w: WorkerId, j: JobId, h: Handled) {
    && CanRun(s, steps)
    && var t := After(s, steps);
       j in t.jobs && t.jobs[j] == h.job && t.rows == h.rows && w !in t.sessions
  }

  lemma Step(s: State, step: Step, steps: seq<Step>, w: WorkerId, j: JobId, h: Handled)
    requires Enabled(s, step) && EndsAs(Apply(s, step), steps, w, j, h)
    ensures EndsAs(s, [step] + steps, w, j, h)
  {
    assert ([step] + steps)[1..] == steps;
  }

  lemma Acknowledging(s: State, w: WorkerId, j: JobId)
    requires w in s.sessions && !Live(s.sessions[w].phase) && j in s.jobs
    ensures EndsAs(s, [Acknowledge(w)], w, j, Handled(s.jobs[j], s.rows, Acked))
  {
    assert EndsAs(Apply(s, Acknowledge(w)), [], w, j, Handled(s.jobs[j], s.rows, Acked));
    Step(s, Acknowledge(w), [], w, j, Handled(s.jobs[j], s.rows, Acked));
    assert [Acknowledge(w)] + [] == [Acknowledge(w)];
  }

  lemma Finishing(s: State, w: WorkerId, e: Ending, j: JobId)
    requires Enabled(s, Finish(w, e)) && SessionOk(s, w) && s.sessions[w].job == j
    ensures EndsAs(s, [Finish(w, e), Acknowledge(w)], w, j,
                   AfterProcess(Finished(s.jobs[j], s.jobs[j].attemptCount + 1, e), s.rows, j, s.now, s.settings))
  {
    var t := Apply(s, Finish(w, e));
    Acknowledging(t, w, j);
    Step(s, Finish(w, e), [Acknowledge(w)], w, j, Handled(t.jobs[j], t.rows, Acked));
    assert [Finish(w, e)] + [Acknowledge(w)] == [Finish(w, e), Acknowledge(w)];
  }

  /** An attempt that starts with a live lease passes its checks. */
  lemma Checking(s: State, w: WorkerId, j: JobId)
    requires Invariant(s) && At(s, w, Phase.Claimed) && s.sessions[w].job == j && !Locked(s, j)
    requires Owned(s.jobs[j], w, s.now) && s.sessions[w].baseline == s.jobs[j].attemptCount
    ensures FlushSpec(s, w) == SetPhase(s, w, Flushed) && At(SetPhase(s, w, Flushed), w, Flushed)
    ensures CheckSpec(SetPhase(s, w, Flushed), w) == SetPhase(s, w, Verified)
  {
    assert JobOk(s.jobs[j]);
    var a, b := SetPhase(SetPhase(s, w, Flushed), w, Verified), SetPhase(s, w, Verified);
    assert a.sessions == b.sessions;
  }

  lemma LastCheck(s: State, w: WorkerId, j: JobId, rest: seq<Step>, h: Handled)
    requires Invariant(s) && At(s, w, Verified) && s.sessions[w].job == j && Owned(s.jobs[j], w, s.now)
    requires EndsAs(SetPhase(s, w, Published), rest, w, j, h)
    ensures EndsAs(s, [FinalCheck(w)] + rest, w, j, h)
  {
    Step(s, FinalCheck(w), rest, w, j, h);
  }

  lemma Opening(s: State, w: WorkerId, j: JobId, rest: seq<Step>, h: Handled)
    requires Invariant(s) && At(s, w, Phase.Claimed) && s.sessions[w].job == j && !Locked(s, j)
    requires Owned(s.jobs[j], w, s.now) && s.sessions[w].baseline == s.jobs[j].attemptCount
    requires EndsAs(SetPhase(s, w, Verified), rest, w, j, h)
    ensures EndsAs(s, [Flush(w)] + ([Check(w)] + rest), w, j, h)
  {
    Checking(s, w, j);
    Step(SetPhase(s, w, Flushed), Check(w), rest, w, j, h);
    Step(s, Flush(w), [Check(w)] + rest, w, j, h);
  }

  function Rest(w: WorkerId, e: Ending): seq<Step> {
    if e == Publish then [FinalCheck(w)] + [Finish(w, e), Acknowledge(w)] else [Finish(w, e), Acknowledge(w)]
  }

  lemma EndingRuns(s: State, w: WorkerId, e: Ending, j: JobId)
    requires Invariant(s) && At(s, w, Verified) && s.sessions[w].job == j
    requires Owned(s.jobs[j], w, s.now) && e != CancelFound
    ensures EndsAs(s, Rest(w, e), w, j,
                   AfterProcess(Finished(s.jobs[j], s.jobs[j].attemptCount + 1, e), s.rows, j, s.now, s.settings))
  {
    assert SessionOk(s, w);
    if e == Publish {
      PublishingRuns(s, w, j);
    } else {
      Finishing(s, w, e, j);
    }
  }

  lemma PublishingRuns(s: State, w: WorkerId, j: JobId)
    requires Invariant(s) && At(s, w, Verified) && s.sessions[w].job == j && Owned(s.jobs[j], w, s.now)
    ensures EndsAs(s, [FinalCheck(w)] + [Finish(w, Publish), Acknowledge(w)], w, j,
                   AfterProcess(Finished(s.jobs[j], s.jobs[j].attemptCount + 1, Publish), s.rows, j, s.now, s.settings))
  {
    var t := SetPhase(s, w, Published);
    assert SessionOk(s, w) && SessionOk(t, w);
    Finishing(t, w, Publish, j);
    LastCheck(s, w, j, [Finish(w, Publish), Acknowledge(w)],
              AfterProcess(Finished(s.jobs[j], s.jobs[j].attemptCount + 1, Publish), s.rows, j, s.now, s.settings));
  }

  lemma VerifiedIsInvariant(s: State, w: WorkerId, j: JobId)
    requires Invariant(s) && At(s, w, Phase.Claimed) && s.sessions[w].job == j && !Locked(s, j)
    requires Owned(s.jobs[j], w, s.now) && s.sessions[w].baseline == s.jobs[j].attemptCount
    ensures Invariant(SetPhase(s, w, Verified))
  {
    assert SessionOk(s, w);
    PhaseKeeps(s, w, Verified);
  }

  lemma AttemptSteps(w: WorkerId, e: Ending)
    ensures [Flush(w)] + ([Check(w)] + Rest(w, e)) == StepsOf(w, true, Course(TenantOk, Some(e)))[1..]
  {
  }

  lemma Attempting(s: State, w: WorkerId, e: Ending, j: JobId)
    requires Invariant(s) && At(s, w, Phase.Claimed) && s.sessions[w].job == j && !Locked(s, j)
    requires Owned(s.jobs[j], w, s.now) && s.sessions[w].baseline == s.jobs[j].attemptCount && e != CancelFound
    ensures EndsAs(s, StepsOf(w, true, Course(TenantOk, Some(e)))[1..], w, j,
                   AfterProcess(Finished(s.jobs[j], s.jobs[j].attemptCount + 1, e), s.rows, j, s.now, s.settings))
  {
    VerifiedIsInvariant(s, w, j);
    EndingRuns(SetPhase(s, w, Verified), w, e, j);
    Opening(s, w, j, Rest(w, e), AfterProcess(Finished(s.jobs[j], s.jobs[j].attemptCount + 1, e), s.rows, j, s.now, s.settings));
    AttemptSteps(w, e);
  }

  lemma Rejecting(s: State, w: WorkerId, j: JobId, check: TenantCheck)
    requires At(s, w, Phase.Claimed) && s.sessions[w].job == j && !Locked(s, j) && check != TenantOk
    ensures EndsAs(s, [Reject(w, check), Acknowledge(w)], w, j, Handled(Jobs.Rejected(s.jobs[j], check), s.rows, Acked))
  {
    var t := SettleSpec(s, w, Jobs.Rejected(s.jobs[j], check));
    Acknowledging(t, w, j);
    Step(s, Reject(w, check), [Acknowledge(w)], w, j, Handled(t.jobs[j], t.rows, Acked));
    assert [Reject(w, check)] + [Acknowledge(w)] == [Reject(w, check), Acknowledge(w)];
  }

  lemma GivingBack(s: State, w: WorkerId, j: JobId)
    requires w in s.sessions && j in s.jobs
    ensures EndsAs(s, [GiveBack(w)], w, j, Handled(s.jobs[j], s.rows, Nacked))
  {
    var h := Handled(s.jobs[j], s.rows, Nacked);
    assert EndsAs(Requeued(s, w), [], w, j, h);
    Step(s, GiveBack(w), [], w, j, h);
    assert [GiveBack(w)] + [] == [GiveBack(w)];
  }

  lemma AfterClaim(s: State, w: WorkerId, j: JobId, c: Course)
    requires Invariant(s) && At(s, w, Phase.Claimed) && s.sessions[w].job == j && !Locked(s, j)
    requires Owned(s.jobs[j], w, s.now) && s.sessions[w].baseline == s.jobs[j].attemptCount && c.ending != Some(CancelFound)
    ensures EndsAs(s, StepsOf(w, true, c)[1..], w, j,
                   if c.check == TenantOk && c.ending.None? then Handled(s.jobs[j], s.rows, Nacked)
                   else AfterProcess(Processed(s.jobs[j], c.check, if c.ending.Some? then c.ending.value else Publish),
                                     s.rows, j, s.now, s.settings))
  {
    if c.check != TenantOk {
      Rejecting(s, w, j, c.check);
      assert [Reject(w, c.check), Acknowledge(w)] == StepsOf(w, true, c)[1..];
    } else if c.ending.None? {
      GivingBack(s, w, j);
      assert [GiveBack(w)] == StepsOf(w, true, c)[1..];
    } else {
      Attempting(s, w, c.ending.value, j);
    }
  }

  lemma Claiming(s: State, w: WorkerId, j: JobId)
    requires Invariant(s) && At(s, w, Received) && s.sessions[w].job == j && s.settings.leaseSeconds > 0
    requires !Locked(s, j) && Claimable(s.jobs[j], w, s.now)
    ensures var t := Apply(s, Claim(w));
            && Invariant(t) && At(t, w, Phase.Claimed) && t.sessions[w].job == j && !Locked(t, j)
            && t.jobs[j] == Jobs.Claimed(s.jobs[j], w, s.now, s.settings) && Owned(t.jobs[j], w, t.now)
            && t.sessions[w].baseline == t.jobs[j].attemptCount
            && t.rows == s.rows && t.now == s.now && t.settings == s.settings
  {
    ClaimKeeps(s, w);
    assert forall v :: Holds(Apply(s, Claim(w)), v, j) ==> Holds(s, v, j);
  }

  lemma HandlingAfterClaim(s: State, t: State, w: WorkerId, j: JobId, c: Course)
    requires Invariant(t) && At(t, w, Phase.Claimed) && t.sessions[w].job == j && !Locked(t, j) && j in s.jobs
    requires Claimable(s.jobs[j], w, s.now) && c.ending != Some(CancelFound)
    requires t.jobs[j] == Jobs.Claimed(s.jobs[j], w, s.now, s.settings) && Owned(t.jobs[j], w, t.now)
    requires t.sessions[w].baseline == t.jobs[j].attemptCount && t.rows == s.rows && t.now == s.now && t.settings == s.settings
    ensures EndsAs(t, StepsOf(w, true, c)[1..], w, j, HandledAs(s.jobs[j], s.rows, j, w, false, s.now, s.settings, c))
  {
    AfterClaim(t, w, j, c);
  }

  lemma ClaimedHandling(s: State, w: WorkerId, j: JobId, c: Course)
    requires Invariant(s) && At(s, w, Received) && s.sessions[w].job == j && s.settings.leaseSeconds > 0
    requires !Locked(s, j) && Claimable(s.jobs[j], w, s.now) && c.ending != Some(CancelFound)
    ensures EndsAs(s, StepsOf(w, true, c), w, j, HandledAs(s.jobs[j], s.rows, j, w, false, s.now, s.settings, c))
  {
    var h := HandledAs(s.jobs[j], s.rows, j, w, false, s.now, s.settings, c);
    var t := Apply(s, Claim(w));
    Claiming(s, w, j);
    HandlingAfterClaim(s, t, w, j, c);
    Step(s, Claim(w), StepsOf(w, true, c)[1..], w, j, h);
    assert [Claim(w)] + StepsOf(w, true, c)[1..] == StepsOf(w, true, c);
  }

  lemma MissedHandling(s: State, w: WorkerId, j: JobId)
    requires At(s, w, Received) && s.sessions[w].job == j && (Locked(s, j) || !Claimable(s.jobs[j], w, s.now))
    ensures EndsAs(s, [Claim(w), Acknowledge(w)], w, j, Handled(s.jobs[j], s.rows, Acked))
  {
    Acknowledging(Apply(s, Claim(w)), w, j);
    Step(s, Claim(w), [Acknowledge(w)], w, j, Handled(s.jobs[j], s.rows, Acked));
    assert [Claim(w)] + [Acknowledge(w)] == [Claim(w), Acknowledge(w)];
  }

  /** Whatever state the system is in, a handling that nothing disturbs takes the protocol's steps and
      commits what the worker's code commits. */
  lemma HandlingIsARun(s: State, w: WorkerId, c: Course)
    requires Invariant(s) && At(s, w, Received) && s.settings.leaseSeconds > 0 && c.ending != Some(CancelFound)
    ensures var j := s.sessions[w].job;
            var claims := !Locked(s, j) && Claimable(s.jobs[j], w, s.now);
            EndsAs(s, StepsOf(w, claims, c), w, j, HandledAs(s.jobs[j], s.rows, j, w, Locked(s, j), s.now, s.settings, c))
  {
    var j := s.sessions[w].job;
    if !Locked(s, j) && Claimable(s.jobs[j], w, s.now) {
      ClaimedHandling(s, w, j, c);
    } else {
      MissedHandling(s, w, j);
    }
  }
}
