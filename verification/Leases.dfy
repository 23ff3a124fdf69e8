/**
 Leases over whole runs: what ends one, whom it keeps out meanwhile, and what an open attempt does to
 the lease of its own worker.
 */
module Leases {
  import opened Options
  import opened Jobs
  import opened Outbox
  import opened Delivery
  import opened DeliverySafety
  import opened DeliveryTheorems

  /** No lease reaches further ahead than one renewal takes it. */
  ghost predicate LeasesBounded(s: State) {
    forall j :: j in s.jobs && s.jobs[j].leaseExpiresAt.Some? ==>
      s.jobs[j].leaseExpiresAt.value <= s.now + s.settings.leaseSeconds
  }

  lemma CommitKeepsBounded(s: State, w: WorkerId, e: Ending)
    requires LeasesBounded(s) && w in s.sessions && s.sessions[w].job in s.jobs
    ensures LeasesBounded(FinishSpec(s, w, e))
  {
  }

  lemma StepKeepsBounded(s: State, step: Step)
    requires LeasesBounded(s) && Enabled(s, step)
    ensures LeasesBounded(Apply(s, step))
  {
    if ByDispatcher(step) || ByDelivery(step) {
      QuietStep(s, step);
    } else if step.MissResources? {
      CommitKeepsBounded(s, step.worker, ContentFailure);
    } else if step.Finish? {
      CommitKeepsBounded(s, step.worker, step.ending);
    } else {
      OtherStepKeepsBounded(s, step);
    }
  }

  lemma OtherStepKeepsBounded(s: State, step: Step)
    requires LeasesBounded(s) && Enabled(s, step)
    requires !ByDispatcher(step) && !ByDelivery(step) && !step.MissResources? && !step.Finish?
    ensures LeasesBounded(Apply(s, step))
  {
  }

  lemma {:induction false} RunKeepsBounded(s: State, steps: seq<Step>)
    requires LeasesBounded(s) && CanRun(s, steps)
    ensures LeasesBounded(After(s, steps))
    decreases |steps|
  {
    if steps != [] {
      StepKeepsBounded(s, steps[0]);
      RunKeepsBounded(Apply(s, steps[0]), steps[1..]);
    }
  }

  lemma ReachableIsBounded(s: State)
    requires Reachable(s)
    ensures LeasesBounded(s)
  {
    var now, settings, steps :| CanRun(Start(now, settings), steps) && After(Start(now, settings), steps) == s;
    RunKeepsBounded(Start(now, settings), steps);
  }

  // ---- What ends a lease ----

  /** Worker `w` is the recorded holder of the job and its lease is alive. */
  ghost predicate HeldBy(s: State, j: JobId, w: WorkerId) {
    j in s.jobs && Owned(s.jobs[j], w, s.now)
  }

  /** All that can end a live lease: time, the user, the holder's own commit, and the exits that
      commit without an ownership check, whoever takes them. */
  ghost predicate EndsLease(s: State, step: Step, j: JobId, w: WorkerId)
    requires j in s.jobs
  {
    match step
    case Tick(n) => s.jobs[j].leaseExpiresAt.Some? && s.jobs[j].leaseExpiresAt.value <= s.now + n
    case CommitCancel(k) => k == j
    case Reject(v, _) => v in s.sessions && s.sessions[v].job == j
    case MissResources(v) => v in s.sessions && s.sessions[v].job == j
    case Finish(v, _) => v == w && v in s.sessions && s.sessions[v].job == j
    case _ => false
  }

  /** A step on another job, or by a worker that cannot touch this lease. */
  lemma ClaimKeepsLease(s: State, v: WorkerId, j: JobId, w: WorkerId)
    requires Invariant(s) && HeldBy(s, j, w) && Enabled(s, Claim(v)) && LeasesBounded(s)
    ensures HeldBy(Apply(s, Claim(v)), j, w)
  {
  }

  lemma CommitEndsLease(s: State, v: WorkerId, e: Ending, j: JobId, w: WorkerId)
    requires HeldBy(s, j, w) && v in s.sessions && s.sessions[v].job in s.jobs
    ensures HeldBy(FinishSpec(s, v, e), j, w) <==> s.sessions[v].job != j
  {
  }

  lemma CheckKeepsLease(s: State, v: WorkerId, j: JobId, w: WorkerId)
    requires Invariant(s) && HeldBy(s, j, w) && Enabled(s, Check(v))
    ensures HeldBy(Apply(s, Check(v)), j, w)
  {
  }

  lemma CommitStepEndsExactly(s: State, step: Step, j: JobId, w: WorkerId)
    requires Invariant(s) && HeldBy(s, j, w) && Enabled(s, step) && (step.MissResources? || step.Finish?)
    ensures HeldBy(Apply(s, step), j, w) <==> !EndsLease(s, step, j, w)
  {
    assert SessionOk(s, step.worker);
    CommitEndsLease(s, step.worker, if step.Finish? then step.ending else ContentFailure, j, w);
  }

  lemma OtherStepEndsExactly(s: State, step: Step, j: JobId, w: WorkerId)
    requires HeldBy(s, j, w) && Enabled(s, step) && LeasesBounded(s)
    requires step.Tick? || step.Submit? || step.UserRetry? || step.Heartbeat? || step.Reject? || step.Recover?
             || step.BeginCancel? || step.CommitCancel? || step.AbortCancel?
    ensures HeldBy(Apply(s, step), j, w) <==> !EndsLease(s, step, j, w)
  {
  }

  /** A live lease ends by exactly these. */
  lemma LeaseEndsExactly(s: State, step: Step, j: JobId, w: WorkerId)
    requires Invariant(s) && HeldBy(s, j, w) && Enabled(s, step) && LeasesBounded(s)
    ensures HeldBy(Apply(s, step), j, w) <==> !EndsLease(s, step, j, w)
  {
    if ByDispatcher(step) || ByDelivery(step) {
      QuietStep(s, step);
    } else if step.Claim? {
      ClaimKeepsLease(s, step.worker, j, w);
    } else if step.Check? {
      CheckKeepsLease(s, step.worker, j, w);
    } else if step.MissResources? || step.Finish? {
      CommitStepEndsExactly(s, step, j, w);
    } else {
      OtherStepEndsExactly(s, step, j, w);
    }
  }

  /** The lease is alive in every state of the run. */
  ghost predicate HeldThroughout(s: State, steps: seq<Step>, j: JobId, w: WorkerId)
    requires CanRun(s, steps)
    decreases |steps|
  {
    HeldBy(s, j, w) && (steps == [] || HeldThroughout(Apply(s, steps[0]), steps[1..], j, w))
  }

  /** Some step of the run ends the lease as it then is. */
  ghost predicate EndsDuring(s: State, steps: seq<Step>, j: JobId, w: WorkerId)
    requires CanRun(s, steps)
    decreases |steps|
  {
    steps != [] && ((j in s.jobs && EndsLease(s, steps[0], j, w)) || EndsDuring(Apply(s, steps[0]), steps[1..], j, w))
  }

  lemma {:induction false} HeldExactlyUntilEnded(s: State, steps: seq<Step>, j: JobId, w: WorkerId)
    requires Invariant(s) && LeasesBounded(s) && HeldBy(s, j, w) && CanRun(s, steps)
    ensures HeldThroughout(s, steps, j, w) <==> !EndsDuring(s, steps, j, w)
    ensures HeldThroughout(s, steps, j, w) ==> HeldBy(After(s, steps), j, w)
    decreases |steps|
  {
    if steps != [] {
      LeaseEndsExactly(s, steps[0], j, w);
      StepKeepsInvariant(s, steps[0]);
      StepKeepsBounded(s, steps[0]);
      if HeldBy(Apply(s, steps[0]), j, w) {
        HeldExactlyUntilEnded(Apply(s, steps[0]), steps[1..], j, w);
      }
    }
  }

  // ---- Whom a lease keeps out ----

  /** No other worker may touch the job: `w` holds it, or it is cancelled. */
  ghost predicate KeptFromOthers(s: State, j: JobId, w: WorkerId) {
    j in s.jobs && (Owned(s.jobs[j], w, s.now) || s.jobs[j].status == Cancelled)
  }

  /** The holder's own commit, and the exits that commit without an ownership check; an exit for an
      inactive tenant cancels the job. */
  ghost predicate FreesJob(s: State, step: Step, j: JobId, w: WorkerId) {
    match step
    case Reject(v, check) => check != TenantInactive && v in s.sessions && s.sessions[v].job == j
    case MissResources(v) => v in s.sessions && s.sessions[v].job == j
    case Finish(v, _) => v == w && v in s.sessions && s.sessions[v].job == j
    case _ => false
  }

  ghost predicate OpensJob(s: State, step: Step, j: JobId, w: WorkerId)
    requires j in s.jobs
  {
    FreesJob(s, step, j, w)
    || (step.Tick? && s.jobs[j].status == Running && s.jobs[j].leaseExpiresAt.Some?
        && s.jobs[j].leaseExpiresAt.value <= s.now + step.seconds)
  }

  lemma CommitOpensJob(s: State, v: WorkerId, e: Ending, j: JobId, w: WorkerId)
    requires KeptFromOthers(s, j, w) && v in s.sessions && s.sessions[v].job in s.jobs && e != CancelFound
    ensures KeptFromOthers(FinishSpec(s, v, e), j, w) <==> s.sessions[v].job != j
  {
  }

  lemma CommitStepOpensExactly(s: State, step: Step, j: JobId, w: WorkerId)
    requires Invariant(s) && KeptFromOthers(s, j, w) && Enabled(s, step) && (step.MissResources? || step.Finish?)
    ensures KeptFromOthers(Apply(s, step), j, w) <==> !FreesJob(s, step, j, w)
  {
    assert SessionOk(s, step.worker);
    CommitOpensJob(s, step.worker, if step.Finish? then step.ending else ContentFailure, j, w);
  }

  lemma RejectOpensExactly(s: State, v: WorkerId, check: TenantCheck, j: JobId, w: WorkerId)
    requires KeptFromOthers(s, j, w) && Enabled(s, Reject(v, check))
    ensures KeptFromOthers(Apply(s, Reject(v, check)), j, w) <==> !FreesJob(s, Reject(v, check), j, w)
  {
  }

  lemma CheckKeepsOthersOut(s: State, v: WorkerId, j: JobId, w: WorkerId)
    requires Invariant(s) && KeptFromOthers(s, j, w) && Enabled(s, Check(v))
    ensures KeptFromOthers(Apply(s, Check(v)), j, w)
  {
  }

  /** One step ends the exclusion exactly when it is one of these; a user's cancellation is none. */
  lemma JobOpensExactly(s: State, step: Step, j: JobId, w: WorkerId)
    requires Invariant(s) && LeasesBounded(s) && KeptFromOthers(s, j, w) && Enabled(s, step)
    ensures KeptFromOthers(Apply(s, step), j, w) <==> !OpensJob(s, step, j, w)
  {
    if ByDispatcher(step) || ByDelivery(step) {
      QuietStep(s, step);
    } else if step.Check? {
      CheckKeepsOthersOut(s, step.worker, j, w);
    } else if step.Claim? {
      ClaimKeepsOthersOut(s, step.worker, j, w);
    } else if step.Reject? {
      RejectOpensExactly(s, step.worker, step.check, j, w);
    } else if step.MissResources? || step.Finish? {
      CommitStepOpensExactly(s, step, j, w);
    } else {
      OtherStepOpensExactly(s, step, j, w);
    }
  }

  lemma OtherStepOpensExactly(s: State, step: Step, j: JobId, w: WorkerId)
    requires Invariant(s) && LeasesBounded(s) && KeptFromOthers(s, j, w) && Enabled(s, step)
    requires step.Tick? || step.Submit? || step.UserRetry? || step.Heartbeat? || step.Recover?
             || step.BeginCancel? || step.CommitCancel? || step.AbortCancel?
    ensures KeptFromOthers(Apply(s, step), j, w) <==> !OpensJob(s, step, j, w)
  {
  }

  lemma ClaimKeepsOthersOut(s: State, v: WorkerId, j: JobId, w: WorkerId)
    requires Invariant(s) && LeasesBounded(s) && KeptFromOthers(s, j, w) && Enabled(s, Claim(v))
    ensures KeptFromOthers(Apply(s, Claim(v)), j, w)
  {
  }

  ghost predicate OpensDuring(s: State, steps: seq<Step>, j: JobId, w: WorkerId)
    requires CanRun(s, steps)
    decreases |steps|
  {
    steps != [] && ((j in s.jobs && OpensJob(s, steps[0], j, w)) || OpensDuring(Apply(s, steps[0]), steps[1..], j, w))
  }

  lemma {:induction false} KeptUntilOpened(s: State, steps: seq<Step>, j: JobId, w: WorkerId)
    requires Invariant(s) && LeasesBounded(s) && KeptFromOthers(s, j, w) && CanRun(s, steps) && !OpensDuring(s, steps, j, w)
    ensures Invariant(After(s, steps)) && KeptFromOthers(After(s, steps), j, w)
    decreases |steps|
  {
    if steps != [] {
      JobOpensExactly(s, steps[0], j, w);
      StepKeepsInvariant(s, steps[0]);
      StepKeepsBounded(s, steps[0]);
      KeptUntilOpened(Apply(s, steps[0]), steps[1..], j, w);
    }
  }

  /** From a held lease on, through renewals and cancellations, no other worker can claim the job, renew
      its lease or pass an ownership check, and recovery does not take it, until the lease runs out
      or one of the commits above. */
  lemma LeaseIsExclusive(s: State, steps: seq<Step>, j: JobId, w: WorkerId)
    requires Reachable(s) && HeldBy(s, j, w) && CanRun(s, steps)
    requires !OpensDuring(s, steps, j, w)
    ensures j in After(s, steps).jobs
    ensures var t := After(s, steps);
            && !Enabled(t, Recover(j))
            && forall v :: v != w ==> !Claimable(t.jobs[j], v, t.now) && !Renewable(t.jobs[j], v) && !Owned(t.jobs[j], v, t.now)
  {
    ReachableIsInvariant(s);
    ReachableIsBounded(s);
    KeptUntilOpened(s, steps, j, w);
  }

  // ---- A claim before the expiry ----

  /** The job is kept from others, and at least until `until`. */
  ghost predicate Reserved(s: State, j: JobId, w: WorkerId, until: int) {
    && KeptFromOthers(s, j, w)
    && until <= s.now + s.settings.leaseSeconds
    && (s.jobs[j].status == Running ==> s.jobs[j].leaseExpiresAt.Some? && s.jobs[j].leaseExpiresAt.value >= until)
  }

  ghost predicate FreesDuring(s: State, steps: seq<Step>, j: JobId, w: WorkerId)
    requires CanRun(s, steps)
    decreases |steps|
  {
    steps != [] && (FreesJob(s, steps[0], j, w) || FreesDuring(Apply(s, steps[0]), steps[1..], j, w))
  }

  lemma CommitsKeepReserved(s: State, step: Step, j: JobId, w: WorkerId, until: int)
    requires Invariant(s) && Reserved(s, j, w, until) && Enabled(s, step) && (step.MissResources? || step.Finish?)
    requires KeptFromOthers(Apply(s, step), j, w)
    ensures Reserved(Apply(s, step), j, w, until)
  {
    CommitStepOpensExactly(s, step, j, w);
    FinishTouchesOne(s, step.worker, if step.Finish? then step.ending else ContentFailure, j);
    assert SessionOk(s, step.worker);
  }

  lemma FinishTouchesOne(s: State, v: WorkerId, e: Ending, j: JobId)
    requires v in s.sessions && s.sessions[v].job in s.jobs && j in s.jobs
    ensures var t := FinishSpec(s, v, e);
            && t.now == s.now && t.settings == s.settings
            && (s.sessions[v].job != j ==> j in t.jobs && t.jobs[j] == s.jobs[j])
  {
  }

  lemma ExitsKeepReserved(s: State, step: Step, j: JobId, w: WorkerId, until: int)
    requires Invariant(s) && Reserved(s, j, w, until) && Enabled(s, step) && (step.Check? || step.Reject?)
    requires KeptFromOthers(Apply(s, step), j, w)
    ensures Reserved(Apply(s, step), j, w, until)
  {
    assert SessionOk(s, step.worker) && JobOk(s.jobs[j]);
  }

  lemma ClaimKeepsReserved(s: State, v: WorkerId, j: JobId, w: WorkerId, until: int)
    requires Invariant(s) && Reserved(s, j, w, until) && Enabled(s, Claim(v))
    ensures Reserved(Apply(s, Claim(v)), j, w, until) || !KeptFromOthers(Apply(s, Claim(v)), j, w)
  {
    assert JobOk(s.jobs[j]);
  }

  /** Until then a lease only grows. */
  lemma ExpiryNeverShrinks(s: State, step: Step, j: JobId, w: WorkerId, until: int)
    requires Invariant(s) && Reserved(s, j, w, until) && Enabled(s, step)
    requires KeptFromOthers(Apply(s, step), j, w)
    ensures Reserved(Apply(s, step), j, w, until)
  {
    if ByDispatcher(step) || ByDelivery(step) {
      QuietStep(s, step);
      QuietStepKeepsSettings(s, step);
    } else if step.MissResources? || step.Finish? {
      CommitsKeepReserved(s, step, j, w, until);
    } else if step.Check? || step.Reject? {
      ExitsKeepReserved(s, step, j, w, until);
    } else if step.Claim? {
      ClaimKeepsReserved(s, step.worker, j, w, until);
    }
  }

  lemma QuietStepKeepsSettings(s: State, step: Step)
    requires Enabled(s, step) && (ByDispatcher(step) || ByDelivery(step))
    ensures Apply(s, step).settings == s.settings
  {
  }

  lemma {:induction false} ReservedUntilFreed(s: State, steps: seq<Step>, j: JobId, w: WorkerId, until: int)
    requires Invariant(s) && LeasesBounded(s) && Reserved(s, j, w, until) && CanRun(s, steps)
    requires !FreesDuring(s, steps, j, w) && After(s, steps).now < until
    ensures Invariant(After(s, steps)) && KeptFromOthers(After(s, steps), j, w)
    decreases |steps|
  {
    if steps != [] {
      TimeGoesOn(Apply(s, steps[0]), steps[1..]);
      JobOpensExactly(s, steps[0], j, w);
      ExpiryNeverShrinks(s, steps[0], j, w, until);
      StepKeepsInvariant(s, steps[0]);
      StepKeepsBounded(s, steps[0]);
      ReservedUntilFreed(Apply(s, steps[0]), steps[1..], j, w, until);
    }
  }

  /** Over whole runs: when another worker can claim the job before the expiry that the holder had at
      the start, then the run contains a commit by the holder or an exit without an ownership check. */
  lemma EarlyClaimNeedsCommitOrUncheckedExit(s: State, steps: seq<Step>, j: JobId, w: WorkerId, v: WorkerId)
    requires Reachable(s) && HeldBy(s, j, w) && CanRun(s, steps) && v != w
    requires j in After(s, steps).jobs && Claimable(After(s, steps).jobs[j], v, After(s, steps).now)
    requires After(s, steps).now < s.jobs[j].leaseExpiresAt.value
    ensures FreesDuring(s, steps, j, w)
  {
    ReachableIsInvariant(s);
    ReachableIsBounded(s);
    if !FreesDuring(s, steps, j, w) {
      ReservedUntilFreed(s, steps, j, w, s.jobs[j].leaseExpiresAt.value);
    }
  }

  /** An attempt that passed its checks commits only while its worker is the recorded holder. */
  lemma CheckedCommitIsByHolder(s: State, w: WorkerId, e: Ending)
    requires Reachable(s) && Enabled(s, Finish(w, e))
    ensures var job := s.jobs[s.sessions[w].job];
            job.status == Running && job.claimedBy == Some(w) && !job.cancelled
  {
    ReachableIsInvariant(s);
    assert SessionOk(s, w);
  }

  // ---- The row of a running attempt ----

  /** Worker `w` has an attempt of the job open in every state of the run. */
  ghost predicate HoldsThroughout(s: State, steps: seq<Step>, w: WorkerId, j: JobId)
    requires CanRun(s, steps)
    decreases |steps|
  {
    Holds(s, w, j) && (steps == [] || HoldsThroughout(Apply(s, steps[0]), steps[1..], w, j))
  }

  lemma OthersWait(s: State, step: Step, w: WorkerId, j: JobId)
    requires Sound(s) && Holds(s, w, j) && Enabled(s, step)
    requires step.MissResources? || step.Check? || step.Finish?
    requires Holds(Apply(s, step), w, j)
    ensures j in s.jobs && j in Apply(s, step).jobs && Apply(s, step).jobs[j] == s.jobs[j]
  {
    assert SessionOk(s, w) && SessionOk(s, step.worker);
    assert s.sessions[step.worker].job == j ==> Holds(s, step.worker, j);
  }

  lemma OpenAttemptFreezesRow(s: State, step: Step, w: WorkerId, j: JobId)
    requires Sound(s) && Holds(s, w, j) && Enabled(s, step) && Holds(Apply(s, step), w, j)
    ensures j in s.jobs && j in Apply(s, step).jobs && Apply(s, step).jobs[j] == s.jobs[j]
  {
    assert SessionOk(s, w);
    if ByDispatcher(step) || ByDelivery(step) {
      QuietStep(s, step);
    } else if step.MissResources? || step.Check? || step.Finish? {
      OthersWait(s, step, w, j);
    }
  }

  /** From its first write to its commit an attempt keeps its job row as it is: no heartbeat gets
      through, its own worker's included. */
  lemma {:induction false} RowIsFrozen(s: State, steps: seq<Step>, w: WorkerId, j: JobId)
    requires Invariant(s) && CanRun(s, steps) && HoldsThroughout(s, steps, w, j)
    ensures j in s.jobs && j in After(s, steps).jobs && After(s, steps).jobs[j] == s.jobs[j]
    ensures Holds(After(s, steps), w, j)
    decreases |steps|
  {
    if steps == [] {
      assert SessionOk(s, w);
    } else {
      OpenAttemptFreezesRow(s, steps[0], w, j);
      StepKeepsInvariant(s, steps[0]);
      RowIsFrozen(Apply(s, steps[0]), steps[1..], w, j);
    }
  }

  /** So an attempt that is still open when the lease it began with has run out passes no further
      check: the next one gives the delivery back and the attempt is lost. */
  lemma LongAttemptsAreGivenBack(s: State, steps: seq<Step>, w: WorkerId, j: JobId)
    requires Invariant(s) && CanRun(s, steps) && HoldsThroughout(s, steps, w, j)
    requires j in s.jobs && s.jobs[j].status == Running
    ensures var t := After(s, steps);
            s.jobs[j].leaseExpiresAt.Some?
            && (s.jobs[j].leaseExpiresAt.value <= t.now ==>
                  && (At(t, w, Flushed) ==> CheckSpec(t, w) == Requeued(t, w))
                  && (At(t, w, Verified) ==> FinalCheckSpec(t, w) == Requeued(t, w)))
  {
    RowIsFrozen(s, steps, w, j);
    assert JobOk(s.jobs[j]);
  }

  // ---- Heartbeats ----

  /** A heartbeat of the recorded holder moves the expiry to one lease length from now, wherever it was,
      and changes nothing else. */
  lemma HeartbeatExtends(s: State, w: WorkerId)
    requires Enabled(s, Heartbeat(w))
    ensures var j := s.sessions[w].job;
            var t := Apply(s, Heartbeat(w));
            && s.jobs[j].claimedBy == Some(w) && s.jobs[j].status == Running
            && t.jobs == s.jobs[j := s.jobs[j].(leaseExpiresAt := Some(s.now + s.settings.leaseSeconds))]
            && t.(jobs := s.jobs) == s
  {
  }

  /** The run never lets the lease, which lasts `left` more seconds, run out between two heartbeats, and
      takes none of the other steps that end it. */
  ghost predicate KeepsBeating(s: State, steps: seq<Step>, j: JobId, w: WorkerId, left: int)
    requires CanRun(s, steps)
    decreases |steps|
  {
    steps == [] ||
    match steps[0]
    case Tick(n) => n < left && KeepsBeating(Apply(s, steps[0]), steps[1..], j, w, left - n)
    case Heartbeat(v) =>
      KeepsBeating(Apply(s, steps[0]), steps[1..], j, w, if v == w && s.sessions[v].job == j then s.settings.leaseSeconds else left)
    case CommitCancel(k) => k != j && KeepsBeating(Apply(s, steps[0]), steps[1..], j, w, left)
    case Reject(v, _) => s.sessions[v].job != j && KeepsBeating(Apply(s, steps[0]), steps[1..], j, w, left)
    case MissResources(v) => s.sessions[v].job != j && KeepsBeating(Apply(s, steps[0]), steps[1..], j, w, left)
    case Finish(v, _) => !(v == w && s.sessions[v].job == j) && KeepsBeating(Apply(s, steps[0]), steps[1..], j, w, left)
    case _ => KeepsBeating(Apply(s, steps[0]), steps[1..], j, w, left)
  }

  /** The lease is alive and lasts at least `left` more seconds, which no renewal exceeds. */
  ghost predicate Lasts(s: State, j: JobId, w: WorkerId, left: int) {
    && HeldBy(s, j, w) && s.now + left <= s.jobs[j].leaseExpiresAt.value && 0 < left <= s.settings.leaseSeconds
  }

  ghost function LeftAfter(s: State, step: Step, j: JobId, w: WorkerId, left: int): int {
    match step
    case Tick(n) => left - n
    case Heartbeat(v) => if v == w && v in s.sessions && s.sessions[v].job == j then s.settings.leaseSeconds else left
    case _ => left
  }

  lemma BeatLasts(s: State, step: Step, j: JobId, w: WorkerId, left: int)
    requires Invariant(s) && LeasesBounded(s) && Enabled(s, step) && Lasts(s, j, w, left)
    requires if step.Tick? then step.seconds < left else !EndsLease(s, step, j, w)
    ensures Lasts(Apply(s, step), j, w, LeftAfter(s, step, j, w, left))
  {
    if step.Heartbeat? && s.sessions[step.worker].job == j {
      HeartbeatExtends(s, step.worker);
    } else if !step.Tick? {
      LeaseEndsExactly(s, step, j, w);
      ExpiryNeverShrinks(s, step, j, w, s.now + left);
      TimeStands(s, step);
    }
  }

  lemma TimeStands(s: State, step: Step)
    requires Enabled(s, step) && !step.Tick?
    ensures Apply(s, step).now == s.now && Apply(s, step).settings == s.settings
  {
    if ByDispatcher(step) || ByDelivery(step) {
      QuietStep(s, step);
      QuietStepKeepsSettings(s, step);
    }
  }

  /** A worker that renews in time holds its job for as long as it does so, also past every expiry that it
      had before. */
  lemma {:induction false} HeartbeatsKeepLease(s: State, steps: seq<Step>, j: JobId, w: WorkerId, left: int)
    requires Invariant(s) && LeasesBounded(s) && CanRun(s, steps) && Lasts(s, j, w, left) && KeepsBeating(s, steps, j, w, left)
    ensures HeldThroughout(s, steps, j, w) && HeldBy(After(s, steps), j, w)
    decreases |steps|
  {
    if steps != [] {
      var t := Apply(s, steps[0]);
      BeatLasts(s, steps[0], j, w, left);
      StepKeepsInvariant(s, steps[0]);
      StepKeepsBounded(s, steps[0]);
      HeartbeatsKeepLease(t, steps[1..], j, w, LeftAfter(s, steps[0], j, w, left));
    }
  }

  /** `n` times almost a lease length and a heartbeat. */
  function Beats(w: WorkerId, pause: nat, n: nat): seq<Step> {
    if n == 0 then [] else [Tick(pause), Heartbeat(w)] + Beats(w, pause, n - 1)
  }

  /** Worker `w` has claimed its job and not yet begun, and its lease has just been written. */
  ghost predicate FreshlyHeld(s: State, w: WorkerId) {
    && Invariant(s) && LeasesBounded(s) && At(s, w, Phase.Claimed) && !Locked(s, s.sessions[w].job)
    && HeldBy(s, s.sessions[w].job, w)
    && s.jobs[s.sessions[w].job].leaseExpiresAt == Some(s.now + s.settings.leaseSeconds)
  }

  lemma AfterPause(s: State, w: WorkerId, pause: nat)
    requires FreshlyHeld(s, w) && pause < s.settings.leaseSeconds
    ensures var a := Apply(s, Tick(pause));
            && Invariant(a) && LeasesBounded(a) && Enabled(a, Heartbeat(w)) && HeldBy(a, s.sessions[w].job, w)
            && !Locked(a, s.sessions[w].job)
  {
    var a := Apply(s, Tick(pause));
    assert forall v :: Holds(a, v, s.sessions[w].job) ==> Holds(s, v, s.sessions[w].job);
    StepKeepsInvariant(s, Tick(pause));
    StepKeepsBounded(s, Tick(pause));
  }

  lemma BeatIsFresh(a: State, w: WorkerId)
    requires Enabled(a, Heartbeat(w)) && HeldBy(a, a.sessions[w].job, w) && a.settings.leaseSeconds > 0
    ensures var b := Apply(a, Heartbeat(w));
            && b.now == a.now && b.settings == a.settings && b.sessions == a.sessions && b.cancelling == a.cancelling
            && a.sessions[w].job in b.jobs && HeldBy(b, a.sessions[w].job, w)
            && b.jobs[a.sessions[w].job].leaseExpiresAt == Some(b.now + b.settings.leaseSeconds)
  {
    HeartbeatExtends(a, w);
  }

  lemma AfterBeat(a: State, w: WorkerId)
    requires Invariant(a) && LeasesBounded(a) && Enabled(a, Heartbeat(w)) && HeldBy(a, a.sessions[w].job, w)
    requires a.settings.leaseSeconds > 0
    ensures FreshlyHeld(Apply(a, Heartbeat(w)), w)
  {
    var b := Apply(a, Heartbeat(w));
    BeatIsFresh(a, w);
    assert forall v :: Holds(b, v, a.sessions[w].job) ==> Holds(a, v, a.sessions[w].job);
    HeartbeatKeeps(a, w);
    OtherStepKeepsBounded(a, Heartbeat(w));
  }

  lemma OneRound(s: State, w: WorkerId, pause: nat)
    requires FreshlyHeld(s, w) && pause < s.settings.leaseSeconds
    ensures var a := Apply(s, Tick(pause));
            && Enabled(a, Heartbeat(w)) && HeldBy(s, s.sessions[w].job, w) && HeldBy(a, s.sessions[w].job, w)
            && var b := Apply(a, Heartbeat(w));
               && FreshlyHeld(b, w) && b.now == s.now + pause && b.settings == s.settings
               && b.sessions[w].job == s.sessions[w].job
  {
    AfterPause(s, w, pause);
    BeatIsFresh(Apply(s, Tick(pause)), w);
    AfterBeat(Apply(s, Tick(pause)), w);
  }

  /** So a lease has no longest duration: for every `n`, from a claim on, the holder can keep it for `n`
      pauses that are each shorter than a lease. */
  lemma {:induction false} LeaseHasNoLongestDuration(s: State, w: WorkerId, pause: nat, n: nat)
    requires FreshlyHeld(s, w) && pause < s.settings.leaseSeconds
    ensures CanRun(s, Beats(w, pause, n)) && After(s, Beats(w, pause, n)).now == s.now + n * pause
    ensures HeldThroughout(s, Beats(w, pause, n), s.sessions[w].job, w)
    decreases n
  {
    if n > 0 {
      OneRound(s, w, pause);
      LeaseHasNoLongestDuration(Apply(Apply(s, Tick(pause)), Heartbeat(w)), w, pause, n - 1);
      PrependRound(s, w, pause, Beats(w, pause, n - 1), s.sessions[w].job);
      assert (n - 1) * pause + pause == n * pause;
    }
  }

  lemma Prepend(s: State, step: Step, steps: seq<Step>, j: JobId, w: WorkerId)
    requires Enabled(s, step) && HeldBy(s, j, w)
    requires CanRun(Apply(s, step), steps) && HeldThroughout(Apply(s, step), steps, j, w)
    ensures CanRun(s, [step] + steps) && HeldThroughout(s, [step] + steps, j, w)
    ensures After(s, [step] + steps) == After(Apply(s, step), steps)
  {
    assert ([step] + steps)[1..] == steps;
  }

  lemma PrependRound(s: State, w: WorkerId, pause: nat, steps: seq<Step>, j: JobId)
    requires var a := Apply(s, Tick(pause));
             && Enabled(a, Heartbeat(w)) && HeldBy(s, j, w) && HeldBy(a, j, w)
             && CanRun(Apply(a, Heartbeat(w)), steps) && HeldThroughout(Apply(a, Heartbeat(w)), steps, j, w)
    ensures var round := [Tick(pause), Heartbeat(w)] + steps;
            && CanRun(s, round) && HeldThroughout(s, round, j, w)
            && After(s, round) == After(Apply(Apply(s, Tick(pause)), Heartbeat(w)), steps)
  {
    Prepend(Apply(s, Tick(pause)), Heartbeat(w), steps, j, w);
    Prepend(s, Tick(pause), [Heartbeat(w)] + steps, j, w);
    assert [Tick(pause), Heartbeat(w)] + steps == [Tick(pause)] + ([Heartbeat(w)] + steps);
  }
}
