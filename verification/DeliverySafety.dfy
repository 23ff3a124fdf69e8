/**
 Every step of the delivery protocol keeps its invariant: rows, sessions and batches stay sound, and
 no queued job loses the row, message or delivery that will bring it to a worker, except to a claim
 that skips its row while a cancellation holds it.
 */
module DeliverySafety {
  import opened Options
  import opened Jobs
  import opened Outbox
  import opened Delivery

  // ---- What is enough to keep a job carried ----

  /** What is enough for a queued job to stay carried. */
  lemma CarriedFrame(s: State, t: State, j: JobId)
    requires j in s.jobs && j in t.jobs && s.jobs[j].nextAttemptAt == t.jobs[j].nextAttemptAt
    requires |s.rows| <= |t.rows| && (forall r :: 0 <= r < |s.rows| ==> t.rows[r] == s.rows[r])
    requires forall r :: |s.rows| <= r < |t.rows| ==> t.rows[r].job != j
    requires forall d, r :: d in t.batches && r in t.batches[d] && t.batches[d][r].sent ==>
               d in s.batches && r in s.batches[d] && s.batches[d][r].sent
    requires GoodMessage(s, j) ==> GoodMessage(t, j)
    requires Carried(s, j)
    ensures Carried(t, j)
  {
    var r :| IsLast(s, r, j) && RowCarries(s, r, j);
    assert IsLast(t, r, j) && RowCarries(t, r, j);
  }

  /** What is enough for a good message to stay one. */
  lemma GoodFrame(s: State, t: State, j: JobId)
    requires j in s.jobs && j in t.jobs && s.jobs[j].nextAttemptAt == t.jobs[j].nextAttemptAt
    requires s.now <= t.now
    requires |s.rows| <= |t.rows| && (forall r :: 0 <= r < |s.rows| ==> t.rows[r].job == s.rows[r].job)
    requires forall r :: r in s.queue && r < |s.rows| && s.rows[r].job == j ==> r in t.queue || InHands(t, j)
    requires forall w :: w in s.sessions && s.sessions[w].job == j && Live(s.sessions[w].phase) ==>
               (w in t.sessions && t.sessions[w].job == j && Live(t.sessions[w].phase)) || InQueue(t, j)
    ensures GoodMessage(s, j) ==> GoodMessage(t, j)
  {
    if GoodMessage(s, j) {
      if InQueue(s, j) {
        var r :| r in s.queue && r < |s.rows| && s.rows[r].job == j;
        assert r in t.queue ==> InQueue(t, j);
      } else {
        var w :| w in s.sessions && s.sessions[w].job == j && Live(s.sessions[w].phase);
      }
    }
  }

  lemma TickKeeps(s: State, n: nat)
    requires Invariant(s)
    ensures Invariant(s.(now := s.now + n))
  {
    var t := s.(now := s.now + n);
    forall d, r | d in t.batches && r in t.batches[d] ensures EntryOk(t, d, r) { assert EntryOk(s, d, r); }
    forall w | w in t.sessions ensures SessionOk(t, w) { assert SessionOk(s, w); }
    forall v, w, j | Holds(t, v, j) && Holds(t, w, j) ensures v == w { assert Holds(s, v, j) && Holds(s, w, j); }
    forall j, w | j in t.cancelling ensures !Holds(t, w, j) { assert Holds(t, w, j) ==> Holds(s, w, j); }
    forall j | j in t.jobs && t.jobs[j].status == Queued && j !in t.skipped ensures Carried(t, j) {
      GoodFrame(s, t, j);
      CarriedFrame(s, t, j);
    }
  }

  // ---- Steps on one delivery: jobs, rows and batches stay ----

  ghost predicate ChangesDelivery(s: State, t: State, w: WorkerId) {
    && t.(queue := s.queue, sessions := s.sessions, skipped := s.skipped) == s && s.skipped <= t.skipped
    && forall v :: v != w ==> (v in t.sessions <==> v in s.sessions) && (v in s.sessions ==> t.sessions[v] == s.sessions[v])
  }

  lemma DeliverySound(s: State, t: State, w: WorkerId)
    requires Sound(s) && ChangesDelivery(s, t, w) && QueueOk(t)
    requires w in t.sessions ==> SessionOk(t, w)
    requires w in t.sessions && Holding(t.sessions[w].phase) ==>
               t.sessions[w].job !in s.cancelling && forall v :: v != w ==> !Holds(s, v, t.sessions[w].job)
    ensures Sound(t)
  {
    forall d, r | d in t.batches && r in t.batches[d] ensures EntryOk(t, d, r) { assert EntryOk(s, d, r); }
    forall v | v in t.sessions ensures SessionOk(t, v) {
      if v != w { assert SessionOk(s, v); }
    }
    forall u, v, j | Holds(t, u, j) && Holds(t, v, j) ensures u == v {
      assert u != w ==> Holds(s, u, j);
      assert v != w ==> Holds(s, v, j);
    }
    forall j, v | j in t.cancelling ensures !Holds(t, v, j) {
      assert v != w && Holds(t, v, j) ==> Holds(s, v, j);
    }
  }

  lemma DeliveryCarried(s: State, t: State, w: WorkerId)
    requires AllCarried(s) && ChangesDelivery(s, t, w)
    requires forall j :: j in s.jobs && s.jobs[j].status == Queued && j !in t.skipped && GoodMessage(s, j) ==> GoodMessage(t, j)
    ensures AllCarried(t)
  {
    forall j | j in t.jobs && t.jobs[j].status == Queued && j !in t.skipped ensures Carried(t, j) {
      assert Carried(s, j);
      CarriedFrame(s, t, j);
    }
  }

  lemma ReceiveSound(s: State, w: WorkerId, r: RowId)
    requires Sound(s) && Enabled(s, Receive(w, r))
    ensures Sound(Apply(s, Receive(w, r)))
  {
    DeliverySound(s, Apply(s, Receive(w, r)), w);
  }

  lemma ReceiveKeepsGood(s: State, w: WorkerId, r: RowId, j: JobId)
    requires Sound(s) && Enabled(s, Receive(w, r)) && j in s.jobs && GoodMessage(s, j)
    ensures GoodMessage(Apply(s, Receive(w, r)), j)
  {
    var t := Apply(s, Receive(w, r));
    assert w in t.sessions && t.sessions[w].job == s.rows[r].job && Live(t.sessions[w].phase);
    assert InHands(t, s.rows[r].job);
    GoodFrame(s, t, j);
  }

  lemma ReceiveKeeps(s: State, w: WorkerId, r: RowId)
    requires Invariant(s) && Enabled(s, Receive(w, r))
    ensures Invariant(Apply(s, Receive(w, r)))
  {
    var t := Apply(s, Receive(w, r));
    ReceiveSound(s, w, r);
    forall j | j in s.jobs && s.jobs[j].status == Queued && j !in t.skipped && GoodMessage(s, j) ensures GoodMessage(t, j) {
      ReceiveKeepsGood(s, w, r, j);
    }
    DeliveryCarried(s, t, w);
  }

  lemma RedeliverKeeps(s: State, w: WorkerId)
    requires Invariant(s) && Enabled(s, Redeliver(w))
    ensures Invariant(Apply(s, Redeliver(w)))
  {
    var t := Apply(s, Redeliver(w));
    assert SessionOk(s, w);
    assert Holding(s.sessions[w].phase) ==> Holds(s, w, s.sessions[w].job);
    DeliverySound(s, t, w) by {
      forall v | v != w ensures !(Holding(s.sessions[w].phase) && Holds(s, v, s.sessions[w].job)) {
        assert Holding(s.sessions[w].phase) ==> Holds(s, w, s.sessions[w].job);
      }
    }
    forall j | j in s.jobs && s.jobs[j].status == Queued && GoodMessage(s, j) ensures GoodMessage(t, j) {
      GoodFrame(s, t, j);
    }
    DeliveryCarried(s, t, w);
  }

  /** Giving a delivery back makes a message of it. */
  lemma RequeueKeeps(s: State, w: WorkerId)
    requires Invariant(s) && w in s.sessions
    ensures Invariant(Requeued(s, w))
  {
    var t := Requeued(s, w);
    assert SessionOk(s, w);
    DeliverySound(s, t, w);
    var q := s.sessions[w].row;
    assert q in t.queue && t.rows[q].job == s.sessions[w].job;
    assert InQueue(t, s.sessions[w].job);
    forall j | j in s.jobs && s.jobs[j].status == Queued && GoodMessage(s, j) ensures GoodMessage(t, j) {
      GoodFrame(s, t, j);
    }
    DeliveryCarried(s, t, w);
  }

  /** Only a delivery that is no carrier is acknowledged. */
  lemma AcknowledgeKeeps(s: State, w: WorkerId)
    requires Invariant(s) && Enabled(s, Acknowledge(w))
    ensures Invariant(Apply(s, Acknowledge(w)))
  {
    var t := Apply(s, Acknowledge(w));
    DeliverySound(s, t, w);
    forall j | j in s.jobs && s.jobs[j].status == Queued && GoodMessage(s, j) ensures GoodMessage(t, j) {
      GoodFrame(s, t, j);
    }
    DeliveryCarried(s, t, w);
  }

  /** Moving on between live phases keeps the delivery a carrier. */
  lemma PhaseKeeps(s: State, w: WorkerId, p: Phase)
    requires Invariant(s) && w in s.sessions && Live(p) && SessionOk(SetPhase(s, w, p), w)
    requires Holding(p) && !Holding(s.sessions[w].phase) ==> !Locked(s, s.sessions[w].job)
    ensures Invariant(SetPhase(s, w, p))
  {
    var t := SetPhase(s, w, p);
    assert Holding(s.sessions[w].phase) ==> Holds(s, w, s.sessions[w].job);
    DeliverySound(s, t, w) by {
      forall v | v != w && Holding(p) ensures !Holds(s, v, s.sessions[w].job) {
        assert Holding(s.sessions[w].phase) ==> Holds(s, w, s.sessions[w].job);
      }
    }
    forall j | j in s.jobs && s.jobs[j].status == Queued && GoodMessage(s, j) ensures GoodMessage(t, j) {
      GoodFrame(s, t, j);
    }
    DeliveryCarried(s, t, w);
  }

  lemma FlushKeeps(s: State, w: WorkerId)
    requires Invariant(s) && At(s, w, Phase.Claimed) && !Locked(s, s.sessions[w].job)
    ensures Invariant(FlushSpec(s, w))
  {
    assert SessionOk(s, w);
    assert JobOk(s.jobs[s.sessions[w].job]);
    if |s.jobs[s.sessions[w].job].attempts| == s.sessions[w].baseline {
      PhaseKeeps(s, w, Flushed);
    } else {
      RequeueKeeps(s, w);
    }
  }

  lemma FinalCheckKeeps(s: State, w: WorkerId)
    requires Invariant(s) && At(s, w, Verified)
    ensures Invariant(FinalCheckSpec(s, w))
  {
    assert SessionOk(s, w);
    if Owned(s.jobs[s.sessions[w].job], w, s.now) {
      PhaseKeeps(s, w, Published);
    } else {
      RequeueKeeps(s, w);
    }
  }

  /** A claim misses a due job that is queued only when its row is locked: by another worker, whose own
      delivery is then the carrier, or by a cancellation, and then the job is marked as skipped. */
  lemma MissKeeps(s: State, t: State, w: WorkerId)
    requires Invariant(s) && At(s, w, Received)
    requires t.(skipped := s.skipped) == SetPhase(s, w, Missed) && s.skipped <= t.skipped
    requires var j := s.sessions[w].job;
             || j in t.skipped
             || (exists v :: Holds(s, v, j))
             || Contended(s, w, j)
             || s.jobs[j].status != Queued
             || !Claimable(s.jobs[j], w, s.now)
    ensures Invariant(t)
  {
    assert SessionOk(s, w);
    DeliverySound(s, t, w);
    forall j | j in s.jobs && s.jobs[j].status == Queued && j !in t.skipped && GoodMessage(s, j) ensures GoodMessage(t, j) {
      if j == s.sessions[w].job {
        MissedJobIsCarried(s, t, w);
      } else {
        GoodFrame(s, t, j);
      }
    }
    DeliveryCarried(s, t, w);
  }

  lemma MissedJobIsCarried(s: State, t: State, w: WorkerId)
    requires Invariant(s) && At(s, w, Received) && t.(skipped := s.skipped) == SetPhase(s, w, Missed)
    requires var j := s.sessions[w].job;
             && s.jobs[j].status == Queued && GoodMessage(s, j)
             && ((exists v :: Holds(s, v, j)) || Contended(s, w, j) || !Claimable(s.jobs[j], w, s.now))
    ensures GoodMessage(t, s.sessions[w].job)
  {
    var j := s.sessions[w].job;
    assert JobOk(s.jobs[j]);
    var v :| v != w && v in s.sessions && s.sessions[v].job == j && Live(s.sessions[v].phase);
    assert v in t.sessions && t.sessions[v].job == j && Live(t.sessions[v].phase);
    assert InHands(t, j);
  }

  // ---- Steps on one job, with or without a new row ----

  ghost predicate ChangesJob(s: State, t: State, j: JobId) {
    && t.now == s.now && t.queue == s.queue && t.batches == s.batches
    && t.cancelling <= s.cancelling && (forall k :: k in s.skipped && k != j ==> k in t.skipped)
    && (forall k :: k in t.skipped ==> k in s.skipped)
    && t.jobs.Keys == s.jobs.Keys + {j}
    && (forall k :: k in s.jobs && k != j ==> t.jobs[k] == s.jobs[k])
    && s.rows <= t.rows
    && (forall r :: |s.rows| <= r < |t.rows| ==> RowOk(t.rows[r]) && t.rows[r].job == j)
    && t.sessions.Keys == s.sessions.Keys
    && (forall w :: w in s.sessions ==>
          && t.sessions[w].row == s.sessions[w].row && t.sessions[w].job == s.sessions[w].job
          && (s.sessions[w].job != j ==> t.sessions[w] == s.sessions[w]))
  }

  lemma JobSound(s: State, t: State, j: JobId)
    requires Sound(s) && ChangesJob(s, t, j) && JobOk(t.jobs[j]) && j !in t.cancelling
    requires forall w :: w in t.sessions && t.sessions[w].job == j ==>
               && !Holding(t.sessions[w].phase)
               && (t.sessions[w].phase == Phase.Claimed ==>
                     t.sessions[w].baseline <= t.jobs[j].attemptCount && t.sessions[w].baseline < t.jobs[j].maxAttempts)
    ensures Sound(t)
  {
    forall d, r | d in t.batches && r in t.batches[d] ensures EntryOk(t, d, r) {
      assert EntryOk(s, d, r);
      assert t.rows[r] == s.rows[r];
    }
    forall w | w in t.sessions ensures SessionOk(t, w) {
      assert SessionOk(s, w);
      assert t.rows[t.sessions[w].row] == s.rows[t.sessions[w].row];
    }
    forall v, w, k | Holds(t, v, k) && Holds(t, w, k) ensures v == w { assert Holds(s, v, k) && Holds(s, w, k); }
    forall k, w | k in t.cancelling ensures !Holds(t, w, k) { assert Holds(t, w, k) ==> Holds(s, w, k); }
    assert forall r :: 0 <= r < |s.rows| ==> t.rows[r] == s.rows[r];
  }

  /** Sessions that were on the job before the step and did not hold it. */
  lemma BystandersOk(s: State, j: JobId, job: Job)
    requires Sound(s) && j in s.jobs
    requires job.attemptCount >= s.jobs[j].attemptCount && job.maxAttempts == s.jobs[j].maxAttempts
    ensures forall w :: w in s.sessions && s.sessions[w].job == j && s.sessions[w].phase == Phase.Claimed ==>
              s.sessions[w].baseline <= job.attemptCount && s.sessions[w].baseline < job.maxAttempts
    ensures !Locked(s, j) || j in s.cancelling ==> forall w :: w in s.sessions && s.sessions[w].job == j ==> !Holding(s.sessions[w].phase)
    ensures forall v, w :: v in s.sessions && s.sessions[v].job == j && Holds(s, w, j) && v != w ==> !Holding(s.sessions[v].phase)
  {
    forall w | w in s.sessions && s.sessions[w].job == j
      ensures s.sessions[w].phase == Phase.Claimed ==>
                s.sessions[w].baseline <= job.attemptCount && s.sessions[w].baseline < job.maxAttempts
      ensures Holding(s.sessions[w].phase) ==> Holds(s, w, j)
    {
      assert SessionOk(s, w);
    }
  }

  lemma JobCarried(s: State, t: State, j: JobId)
    requires AllCarried(s) && ChangesJob(s, t, j)
    requires t.jobs[j].status == Queued && j !in t.skipped ==> Carried(t, j)
    ensures AllCarried(t)
  {
    assert forall r :: 0 <= r < |s.rows| ==> t.rows[r] == s.rows[r];
    forall k | k in t.jobs && t.jobs[k].status == Queued && k !in t.skipped ensures Carried(t, k) {
      if k != j {
        GoodFrame(s, t, k);
        CarriedFrame(s, t, k);
      }
    }
  }

  /** A new row that becomes due when its job does carries the job. */
  lemma NewRowCarries(s: State, t: State, j: JobId, max: nat, at: int)
    requires Sound(s) && t.batches == s.batches && t.rows == s.rows + [NewRow(j, max, at)]
    requires j in t.jobs && Due(t.jobs[j].nextAttemptAt, at)
    ensures Carried(t, j)
  {
    forall d, r | d in s.batches && r in s.batches[d] ensures r < |s.rows| { assert EntryOk(s, d, r); }
    assert IsLast(t, |s.rows|, j) && RowCarries(t, |s.rows|, j);
  }

  lemma SubmitKeeps(s: State, j: JobId, max: nat)
    requires Invariant(s) && Enabled(s, Submit(j, max))
    ensures Invariant(Apply(s, Submit(j, max)))
  {
    var t := Apply(s, Submit(j, max));
    forall w | w in s.sessions ensures s.sessions[w].job != j { assert SessionOk(s, w); }
    JobSound(s, t, j);
    NewRowCarries(s, t, j, max, s.now);
    JobCarried(s, t, j);
  }

  lemma UserRetryKeeps(s: State, j: JobId)
    requires Invariant(s) && Enabled(s, UserRetry(j))
    ensures Invariant(Apply(s, UserRetry(j)))
  {
    var t := Apply(s, UserRetry(j));
    assert JobOk(s.jobs[j]);
    BystandersOk(s, j, t.jobs[j]);
    JobSound(s, t, j);
    NewRowCarries(s, t, j, s.jobs[j].maxAttempts, s.now);
    JobCarried(s, t, j);
  }

  lemma CommitCancelKeeps(s: State, j: JobId)
    requires Invariant(s) && Enabled(s, CommitCancel(j))
    ensures Invariant(Apply(s, CommitCancel(j)))
  {
    var t := Apply(s, CommitCancel(j));
    assert JobOk(s.jobs[j]);
    BystandersOk(s, j, t.jobs[j]);
    JobSound(s, t, j);
    JobCarried(s, t, j);
  }

  /** A cancellation that is begun or aborted changes nothing but the lock. */
  lemma CancelLockKeeps(s: State, t: State)
    requires Invariant(s) && t.(cancelling := s.cancelling) == s
    requires forall j :: j in t.cancelling && j !in s.cancelling ==>
               j in s.jobs && s.jobs[j].status != Succeeded && !Locked(s, j)
    ensures Invariant(t)
  {
    forall d, r | d in t.batches && r in t.batches[d] ensures EntryOk(t, d, r) { assert EntryOk(s, d, r); }
    forall w | w in t.sessions ensures SessionOk(t, w) { assert SessionOk(s, w); }
    forall v, w, j | Holds(t, v, j) && Holds(t, w, j) ensures v == w { assert Holds(s, v, j) && Holds(s, w, j); }
    forall j, w | j in t.cancelling ensures !Holds(t, w, j) { assert Holds(t, w, j) ==> Holds(s, w, j); }
    forall j | j in t.jobs && t.jobs[j].status == Queued && j !in t.skipped ensures Carried(t, j) {
      GoodFrame(s, t, j);
      CarriedFrame(s, t, j);
    }
  }

  lemma RecoverKeeps(s: State, j: JobId)
    requires Invariant(s) && Enabled(s, Recover(j))
    ensures Invariant(Apply(s, Recover(j)))
  {
    var t := Apply(s, Recover(j));
    assert JobOk(s.jobs[j]);
    RecoveryAlwaysRequeues(s.jobs[j], s.now);
    BystandersOk(s, j, t.jobs[j]);
    JobSound(s, t, j);
    NewRowCarries(s, t, j, t.jobs[j].maxAttempts, s.now);
    JobCarried(s, t, j);
  }

  lemma HeartbeatKeeps(s: State, w: WorkerId)
    requires Invariant(s) && Enabled(s, Heartbeat(w))
    ensures Invariant(Apply(s, Heartbeat(w)))
  {
    var t := Apply(s, Heartbeat(w));
    var j := s.sessions[w].job;
    assert JobOk(s.jobs[j]);
    BystandersOk(s, j, t.jobs[j]);
    JobSound(s, t, j);
    JobCarried(s, t, j);
  }

  lemma HitKeeps(s: State, w: WorkerId)
    requires Invariant(s) && At(s, w, Received) && !Locked(s, s.sessions[w].job)
    requires Claimable(s.jobs[s.sessions[w].job], w, s.now)
    ensures Invariant(ClaimSpec(s, w))
  {
    HitSound(s, w);
    JobCarried(s, ClaimSpec(s, w), s.sessions[w].job);
  }

  lemma HitChangesJob(s: State, w: WorkerId)
    requires At(s, w, Received) && !Locked(s, s.sessions[w].job)
    requires Claimable(s.jobs[s.sessions[w].job], w, s.now)
    ensures ChangesJob(s, ClaimSpec(s, w), s.sessions[w].job)
  {
  }

  lemma HitSound(s: State, w: WorkerId)
    requires Sound(s) && At(s, w, Received) && !Locked(s, s.sessions[w].job)
    requires Claimable(s.jobs[s.sessions[w].job], w, s.now)
    ensures Sound(ClaimSpec(s, w)) && ChangesJob(s, ClaimSpec(s, w), s.sessions[w].job)
  {
    var j, t := s.sessions[w].job, ClaimSpec(s, w);
    assert JobOk(s.jobs[j]);
    HitChangesJob(s, w);
    BystandersOk(s, j, t.jobs[j]);
    JobSound(s, t, j);
  }

  lemma ClaimKeeps(s: State, w: WorkerId)
    requires Invariant(s) && At(s, w, Received)
    ensures Invariant(ClaimSpec(s, w))
  {
    if !Locked(s, s.sessions[w].job) && Claimable(s.jobs[s.sessions[w].job], w, s.now) {
      HitKeeps(s, w);
    } else {
      MissKeeps(s, ClaimSpec(s, w), w);
    }
  }

  /** A commit by a session that nobody else excludes: the job is settled. */
  lemma SettleSound(s: State, w: WorkerId, job: Job, t: State)
    requires Sound(s) && w in s.sessions && s.sessions[w].job in s.jobs
    requires Holding(s.sessions[w].phase) || !Locked(s, s.sessions[w].job)
    requires JobOk(job) && job.attemptCount >= s.jobs[s.sessions[w].job].attemptCount
    requires job.maxAttempts == s.jobs[s.sessions[w].job].maxAttempts
    requires t.(rows := s.rows, skipped := s.skipped) == SettleSpec(s, w, job) && ChangesJob(s, t, s.sessions[w].job)
    ensures Sound(t)
  {
    var j := s.sessions[w].job;
    assert Holding(s.sessions[w].phase) ==> Holds(s, w, j);
    BystandersOk(s, j, job);
    JobSound(s, t, j);
  }

  lemma SettleKeeps(s: State, w: WorkerId, job: Job)
    requires Invariant(s) && w in s.sessions && s.sessions[w].job in s.jobs
    requires Holding(s.sessions[w].phase) || !Locked(s, s.sessions[w].job)
    requires JobOk(job) && job.attemptCount >= s.jobs[s.sessions[w].job].attemptCount && job.status != Queued
    requires job.maxAttempts == s.jobs[s.sessions[w].job].maxAttempts
    ensures Invariant(SettleSpec(s, w, job))
  {
    var t := SettleSpec(s, w, job);
    SettleSound(s, w, job, t);
    JobCarried(s, t, s.sessions[w].job);
  }

  lemma RejectKeeps(s: State, w: WorkerId, check: TenantCheck)
    requires Invariant(s) && Enabled(s, Reject(w, check))
    ensures Invariant(Apply(s, Reject(w, check)))
  {
    var job := s.jobs[s.sessions[w].job];
    assert JobOk(job);
    SettleKeeps(s, w, Rejected(job, check));
  }

  lemma CancelFoundKeeps(s: State, w: WorkerId)
    requires Invariant(s) && At(s, w, Flushed)
    ensures Invariant(SettleSpec(s, w, Finished(s.jobs[s.sessions[w].job], s.sessions[w].baseline + 1, CancelFound)))
  {
    var job := s.jobs[s.sessions[w].job];
    assert SessionOk(s, w) && JobOk(job);
    FinishedIsOk(job, CancelFound, 0);
    SettleKeeps(s, w, Finished(job, job.attemptCount + 1, CancelFound));
  }

  lemma CheckKeeps(s: State, w: WorkerId)
    requires Invariant(s) && At(s, w, Flushed)
    ensures Invariant(CheckSpec(s, w))
  {
    var job := s.jobs[s.sessions[w].job];
    assert SessionOk(s, w);
    if job.cancelled || job.status == Cancelled {
      CancelFoundKeeps(s, w);
    } else if Owned(job, w, s.now) {
      PhaseKeeps(s, w, Verified);
    } else {
      RequeueKeeps(s, w);
    }
  }

  lemma FinishedBySession(s: State, w: WorkerId, e: Ending, at: int)
    requires Sound(s) && w in s.sessions && Holding(s.sessions[w].phase) && s.sessions[w].job in s.jobs
    requires e == ContentFailure || (!s.jobs[s.sessions[w].job].cancelled && e != CancelFound)
    ensures var job := s.jobs[s.sessions[w].job];
            var f := Finished(job, s.sessions[w].baseline + 1, e);
            && JobOk(f) && f.attemptCount >= job.attemptCount && f.maxAttempts == job.maxAttempts > 0 && f.status != Queued
            && (RetryDue(f) ==> JobOk(Rescheduled(f, at)))
  {
    var job := s.jobs[s.sessions[w].job];
    assert SessionOk(s, w) && JobOk(job);
    FinishedIsOk(job, e, at);
  }

  lemma FinishKeeps(s: State, w: WorkerId, e: Ending)
    requires Invariant(s) && w in s.sessions && Holding(s.sessions[w].phase) && s.sessions[w].job in s.jobs
    requires e == ContentFailure || (!s.jobs[s.sessions[w].job].cancelled && e != CancelFound)
    ensures Invariant(FinishSpec(s, w, e))
  {
    var f := Finished(s.jobs[s.sessions[w].job], s.sessions[w].baseline + 1, e);
    var at := RetryAt(f, s.now, s.settings);
    FinishedBySession(s, w, e, at);
    if RetryDue(f) {
      RescheduleKeeps(s, w, Rescheduled(f, at), at);
    } else {
      SettleKeeps(s, w, f);
    }
  }

  lemma RescheduleKeeps(s: State, w: WorkerId, job: Job, at: int)
    requires Invariant(s) && w in s.sessions && Holding(s.sessions[w].phase) && s.sessions[w].job in s.jobs
    requires JobOk(job) && job.attemptCount >= s.jobs[s.sessions[w].job].attemptCount && job.nextAttemptAt == Some(at)
    requires job.maxAttempts == s.jobs[s.sessions[w].job].maxAttempts && job.maxAttempts > 0
    ensures Invariant(AddRow(SettleSpec(s, w, job), s.sessions[w].job, job.maxAttempts, at))
  {
    var j := s.sessions[w].job;
    var t := AddRow(SettleSpec(s, w, job), j, job.maxAttempts, at);
    SettleSound(s, w, job, t);
    NewRowCarries(s, t, j, job.maxAttempts, at);
    JobCarried(s, t, j);
  }

  // ---- Steps of a dispatcher ----

  ghost predicate ChangesBatch(s: State, t: State, d: DispatcherId) {
    && t.(queue := s.queue, rows := s.rows, batches := s.batches) == s
    && (forall r :: r in s.queue ==> r in t.queue)
    && |t.rows| == |s.rows|
    && (forall r :: 0 <= r < |s.rows| ==> t.rows[r].job == s.rows[r].job && RowOk(t.rows[r]))
    && (forall e :: e != d ==> (e in t.batches <==> e in s.batches) && (e in s.batches ==> t.batches[e] == s.batches[e]))
    && (d in t.batches ==> forall r :: r in t.batches[d] ==> EntryOk(t, d, r))
  }

  /** What a step of one dispatcher leaves true of a row that another has taken. */
  ghost predicate RowKept(s: State, t: State, d: DispatcherId, r: RowId)
    requires r < |s.rows| && |t.rows| == |s.rows|
  {
    forall e :: e != d && t.rows[r].claimedBy == Some(e) ==> t.rows[r] == s.rows[r]
  }

  lemma BatchSound(s: State, t: State, d: DispatcherId)
    requires Sound(s) && ChangesBatch(s, t, d) && QueueOk(t)
    requires forall r: nat :: r < |s.rows| ==> RowKept(s, t, d, r)
    ensures Sound(t)
  {
    forall e, r | e in t.batches && r in t.batches[e] ensures EntryOk(t, e, r) {
      if e != d {
        assert EntryOk(s, e, r);
        assert RowKept(s, t, d, r);
      }
    }
    forall w | w in t.sessions ensures SessionOk(t, w) { assert SessionOk(s, w); }
    forall v, w, j | Holds(t, v, j) && Holds(t, w, j) ensures v == w { assert Holds(s, v, j) && Holds(s, w, j); }
    forall j, w | j in t.cancelling ensures !Holds(t, w, j) { assert Holds(t, w, j) ==> Holds(s, w, j); }
  }

  /** The last row of each queued job keeps carrying it. */
  lemma BatchCarried(s: State, t: State, d: DispatcherId)
    requires AllCarried(s) && ChangesBatch(s, t, d)
    requires forall j, r :: j in s.jobs && IsLast(s, r, j) && RowCarries(s, r, j) && (GoodMessage(s, j) ==> GoodMessage(t, j)) ==>
               RowCarries(t, r, j)
    ensures AllCarried(t)
  {
    forall j | j in t.jobs && t.jobs[j].status == Queued && j !in t.skipped ensures Carried(t, j) {
      assert Carried(s, j);
      var r :| IsLast(s, r, j) && RowCarries(s, r, j);
      GoodFrame(s, t, j);
      assert IsLast(t, r, j) && RowCarries(t, r, j);
    }
  }

  lemma TakeChangesBatch(s: State, d: DispatcherId, chosen: set<RowId>)
    requires Invariant(s) && Enabled(s, Take(d, chosen))
    ensures ChangesBatch(s, TakeSpec(s, d, chosen), d)
    ensures forall r: nat :: r < |s.rows| ==> RowKept(s, TakeSpec(s, d, chosen), d, r)
  {
  }

  lemma TakeKeeps(s: State, d: DispatcherId, chosen: set<RowId>)
    requires Invariant(s) && Enabled(s, Take(d, chosen))
    ensures Invariant(Apply(s, Take(d, chosen)))
  {
    var t := TakeSpec(s, d, chosen);
    TakeChangesBatch(s, d, chosen);
    BatchSound(s, t, d);
    forall j, r | j in s.jobs && IsLast(s, r, j) && RowCarries(s, r, j) && (GoodMessage(s, j) ==> GoodMessage(t, j))
      ensures RowCarries(t, r, j)
    {
      TakeRowCarries(s, d, chosen, r, j);
    }
    BatchCarried(s, t, d);
  }

  lemma TakeRowCarries(s: State, d: DispatcherId, chosen: set<RowId>, r: RowId, j: JobId)
    requires Enabled(s, Take(d, chosen)) && j in s.jobs && r < |s.rows| && RowCarries(s, r, j)
    requires GoodMessage(s, j) ==> GoodMessage(TakeSpec(s, d, chosen), j)
    ensures RowCarries(TakeSpec(s, d, chosen), r, j)
  {
  }

  lemma SendSound(s: State, d: DispatcherId, r: RowId)
    requires Invariant(s) && Enabled(s, Send(d, r))
    ensures ChangesBatch(s, Apply(s, Send(d, r)), d) && Sound(Apply(s, Send(d, r)))
  {
    var t := Apply(s, Send(d, r));
    assert EntryOk(s, d, r);
    BatchEntriesOk(s, t, d);
    BatchSound(s, t, d);
  }

  /** A row that is due when it is sent makes a message that is due. */
  lemma SendKeeps(s: State, d: DispatcherId, r: RowId)
    requires Invariant(s) && Enabled(s, Send(d, r))
    ensures Invariant(Apply(s, Send(d, r)))
  {
    var t := Apply(s, Send(d, r));
    SendSound(s, d, r);
    assert EntryOk(s, d, r);
    assert InQueue(t, s.rows[r].job);
    BatchCarried(s, t, d);
  }

  lemma BatchEntriesOk(s: State, t: State, d: DispatcherId)
    requires Sound(s) && d in s.batches && d in t.batches && t.rows == s.rows && t.now == s.now
    requires forall r :: r in t.batches[d] ==> r in s.batches[d] && t.batches[d][r].(sent := s.batches[d][r].sent) == s.batches[d][r]
    ensures forall r :: r in t.batches[d] ==> EntryOk(t, d, r)
  {
    forall r | r in t.batches[d] ensures EntryOk(t, d, r) { assert EntryOk(s, d, r); }
  }

  lemma DropSound(s: State, d: DispatcherId, r: RowId, row: Row)
    requires Sound(s) && HasEntry(s, d, r) && row.job == s.rows[r].job && RowOk(row)
    requires row == s.rows[r] || (s.rows[r].claimedBy == Some(d) && row.claimedBy.None?)
    ensures var t := DropEntry(SetRow(s, r, row), d, r);
            Sound(t) && ChangesBatch(s, t, d)
  {
    var t := DropEntry(SetRow(s, r, row), d, r);
    forall q | q in t.batches[d] ensures EntryOk(t, d, q) { assert EntryOk(s, d, q); }
    assert forall q :: 0 <= q < |s.rows| ==> RowOk(s.rows[q]);
    BatchSound(s, t, d);
  }

  /** The two ways in which a dispatcher is done with a row it took. */
  lemma DropKeeps(s: State, d: DispatcherId, r: RowId, row: Row)
    requires Invariant(s) && HasEntry(s, d, r)
    requires row.job == s.rows[r].job && RowOk(row)
    requires row == s.rows[r] || (s.rows[r].claimedBy == Some(d) && row.claimedBy.None?)
    requires forall j :: j in s.jobs && RowCarries(s, r, j) && s.rows[r].job == j ==>
               Due(s.jobs[j].nextAttemptAt, row.availableAt) && (row.poisoned || Pending(row) || GoodMessage(s, j))
    ensures Invariant(DropEntry(SetRow(s, r, row), d, r))
  {
    var t := DropEntry(SetRow(s, r, row), d, r);
    DropSound(s, d, r, row);
    forall j, q | j in s.jobs && IsLast(s, q, j) && RowCarries(s, q, j) && (GoodMessage(s, j) ==> GoodMessage(t, j))
      ensures RowCarries(t, q, j)
    {
      assert q == r ==> s.rows[r].job == j;
    }
    BatchCarried(s, t, d);
  }

  lemma MarkKeeps(s: State, d: DispatcherId, r: RowId)
    requires Invariant(s) && Enabled(s, Mark(d, r))
    ensures Invariant(Apply(s, Mark(d, r)))
  {
    assert RowOk(s.rows[r]);
    DropKeeps(s, d, r, Marked(s.rows[r], d));
  }

  /** A failure moves the row to a later time than before, or poisons it. */
  lemma RecordFailureKeeps(s: State, d: DispatcherId, r: RowId)
    requires Invariant(s) && Enabled(s, Step.RecordFailure(d, r))
    ensures Invariant(Apply(s, Step.RecordFailure(d, r)))
  {
    var e := s.batches[d][r];
    assert RowOk(s.rows[r]) && EntryOk(s, d, r);
    DropKeeps(s, d, r, FailureRecorded(s.rows[r], d, e.attempts, e.maxAttempts, s.now));
  }

  lemma EndBatchKeeps(s: State, d: DispatcherId)
    requires Invariant(s) && Enabled(s, EndBatch(d))
    ensures Invariant(Apply(s, EndBatch(d)))
  {
    var t := Apply(s, EndBatch(d));
    BatchSound(s, t, d);
    BatchCarried(s, t, d);
  }

  // ---- Runs ----

  predicate ByDispatcher(step: Step) {
    step.Take? || step.Send? || step.Mark? || step.RecordFailure? || step.EndBatch?
  }

  predicate ByDelivery(step: Step) {
    step.Receive? || step.Redeliver? || step.GiveBack? || step.Acknowledge? || step.Skip? || step.Flush? || step.FinalCheck?
  }

  lemma DispatcherStepKeeps(s: State, step: Step)
    requires Invariant(s) && Enabled(s, step) && ByDispatcher(step)
    ensures Invariant(Apply(s, step))
  {
    match step
    case Take(d, chosen) => TakeKeeps(s, d, chosen);
    case Send(d, r) => SendKeeps(s, d, r);
    case Mark(d, r) => MarkKeeps(s, d, r);
    case RecordFailure(d, r) => RecordFailureKeeps(s, d, r);
    case EndBatch(d) => EndBatchKeeps(s, d);
  }

  lemma DeliveryStepKeeps(s: State, step: Step)
    requires Invariant(s) && Enabled(s, step) && ByDelivery(step)
    ensures Invariant(Apply(s, step))
  {
    match step
    case Receive(w, r) => ReceiveKeeps(s, w, r);
    case Redeliver(w) => RedeliverKeeps(s, w);
    case GiveBack(w) => RequeueKeeps(s, w);
    case Acknowledge(w) => AcknowledgeKeeps(s, w);
    case Skip(w) => MissKeeps(s, SetPhase(s, w, Missed), w);
    case Flush(w) => FlushKeeps(s, w);
    case FinalCheck(w) => FinalCheckKeeps(s, w);
  }

  lemma JobStepKeeps(s: State, step: Step)
    requires Invariant(s) && Enabled(s, step) && !ByDispatcher(step) && !ByDelivery(step)
    ensures Invariant(Apply(s, step))
  {
    match step
    case Tick(n) => TickKeeps(s, n);
    case Submit(j, max) => SubmitKeeps(s, j, max);
    case UserRetry(j) => UserRetryKeeps(s, j);
    case BeginCancel(_) => CancelLockKeeps(s, Apply(s, step));
    case CommitCancel(j) => CommitCancelKeeps(s, j);
    case AbortCancel(_) => CancelLockKeeps(s, Apply(s, step));
    case Claim(w) => ClaimKeeps(s, w);
    case Heartbeat(w) => HeartbeatKeeps(s, w);
    case Reject(w, check) => RejectKeeps(s, w, check);
    case MissResources(w) => FinishKeeps(s, w, ContentFailure);
    case Check(w) => CheckKeeps(s, w);
    case Finish(w, e) => assert SessionOk(s, w); FinishKeeps(s, w, e);
    case Recover(j) => RecoverKeeps(s, j);
  }

  lemma StepKeepsInvariant(s: State, step: Step)
    requires Invariant(s) && Enabled(s, step)
    ensures Invariant(Apply(s, step))
  {
    if ByDispatcher(step) {
      DispatcherStepKeeps(s, step);
    } else if ByDelivery(step) {
      DeliveryStepKeeps(s, step);
    } else {
      JobStepKeeps(s, step);
    }
  }
}
