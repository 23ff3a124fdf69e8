/**
 Queued jobs that nothing but a user brings to a worker any more, and a run that ends in one: a claim
 skips the row while a cancellation holds it, acknowledges its delivery, and the cancellation is not
 committed.
 */
module LostJobs {
  import opened Options
  import opened Jobs
  import opened Outbox
  import opened Delivery
  import opened DeliverySafety
  import opened DeliveryTheorems
  import opened UncheckedExit

  /** Queued, with every row finished and in nobody's batch, and no message or delivery of the job left. */
  ghost predicate Lost(s: State, j: JobId) {
    && j in s.jobs && s.jobs[j].status == Queued
    && (forall r :: 0 <= r < |s.rows| && s.rows[r].job == j ==> !Pending(s.rows[r]) && r !in s.queue)
    && (forall d, r :: d in s.batches && r in s.batches[d] && r < |s.rows| ==> s.rows[r].job != j)
    && (forall w :: w in s.sessions ==> s.sessions[w].job != j)
  }

  ghost predicate KeepsLost(s: State, t: State, j: JobId) {
    && j in t.jobs && t.jobs[j].status == Queued
    && (forall r :: 0 <= r < |t.rows| && t.rows[r].job == j ==>
          r < |s.rows| && t.rows[r] == s.rows[r] && (r in t.queue ==> r in s.queue))
    && (forall d, r :: d in t.batches && r in t.batches[d] && r < |t.rows| && t.rows[r].job == j ==>
          d in s.batches && r in s.batches[d])
    && (forall w :: w in t.sessions && t.sessions[w].job == j ==> w in s.sessions && s.sessions[w].job == j)
  }

  lemma KeptIsLost(s: State, t: State, j: JobId)
    requires Lost(s, j) && KeepsLost(s, t, j)
    ensures Lost(t, j)
  {
  }

  lemma TakeKeepsLost(s: State, d: DispatcherId, chosen: set<RowId>, j: JobId)
    requires Enabled(s, Take(d, chosen)) && Lost(s, j)
    ensures Lost(TakeSpec(s, d, chosen), j)
  {
    forall r | r in chosen ensures s.rows[r].job != j { assert Takeable(s.rows[r], s.now); }
    KeptIsLost(s, TakeSpec(s, d, chosen), j);
  }

  lemma EntryKeepsLost(s: State, step: Step, j: JobId)
    requires Enabled(s, step) && Lost(s, j) && (step.Send? || step.Mark? || step.RecordFailure?)
    ensures KeepsLost(s, Apply(s, step), j)
  {
    assert s.rows[step.row].job != j;
  }

  lemma DispatcherKeepsLost(s: State, step: Step, j: JobId)
    requires Enabled(s, step) && Lost(s, j) && ByDispatcher(step)
    ensures Lost(Apply(s, step), j)
  {
    if step.Take? {
      TakeKeepsLost(s, step.dispatcher, step.chosen, j);
    } else if step.EndBatch? {
      KeptIsLost(s, Apply(s, step), j);
    } else {
      EntryKeepsLost(s, step, j);
      KeptIsLost(s, Apply(s, step), j);
    }
  }

  lemma ReturnKeepsLost(s: State, w: WorkerId, j: JobId)
    requires Sound(s) && Lost(s, j) && w in s.sessions
    ensures KeepsLost(s, Requeued(s, w), j) && KeepsLost(s, Apply(s, Redeliver(w)), j)
  {
    assert SessionOk(s, w);
  }

  lemma PhaseKeepsLost(s: State, w: WorkerId, p: Phase, j: JobId)
    requires Lost(s, j) && w in s.sessions
    ensures KeepsLost(s, SetPhase(s, w, p), j)
  {
  }

  lemma ReceiveKeepsLost(s: State, step: Step, j: JobId)
    requires Enabled(s, step) && Lost(s, j) && (step.Receive? || step.Acknowledge?)
    ensures KeepsLost(s, Apply(s, step), j)
  {
  }

  lemma FlushKeepsLost(s: State, w: WorkerId, j: JobId)
    requires Sound(s) && Lost(s, j) && At(s, w, Phase.Claimed)
    ensures KeepsLost(s, FlushSpec(s, w), j)
  {
    ReturnKeepsLost(s, w, j);
    PhaseKeepsLost(s, w, Flushed, j);
  }

  lemma FinalCheckKeepsLost(s: State, w: WorkerId, j: JobId)
    requires Sound(s) && Lost(s, j) && At(s, w, Verified)
    ensures KeepsLost(s, FinalCheckSpec(s, w), j)
  {
    ReturnKeepsLost(s, w, j);
    PhaseKeepsLost(s, w, Published, j);
  }

  lemma DeliveryKeepsLost(s: State, step: Step, j: JobId)
    requires Sound(s) && Enabled(s, step) && Lost(s, j) && ByDelivery(step)
    ensures Lost(Apply(s, step), j)
  {
    if step.Receive? || step.Acknowledge? {
      ReceiveKeepsLost(s, step, j);
    } else if step.Flush? {
      FlushKeepsLost(s, step.worker, j);
    } else if step.FinalCheck? {
      FinalCheckKeepsLost(s, step.worker, j);
    } else if step.Skip? {
      PhaseKeepsLost(s, step.worker, Missed, j);
    } else {
      ReturnKeepsLost(s, step.worker, j);
    }
    KeptIsLost(s, Apply(s, step), j);
  }

  /** Transactions on other jobs. */
  lemma ChangeKeepsLost(s: State, t: State, k: JobId, j: JobId)
    requires Lost(s, j) && ChangesJob(s, t, k) && k != j
    ensures Lost(t, j)
  {
    assert forall r :: 0 <= r < |s.rows| ==> t.rows[r] == s.rows[r];
    KeptIsLost(s, t, j);
  }

  lemma SettleKeepsLost(s: State, w: WorkerId, job: Job, j: JobId)
    requires Lost(s, j) && w in s.sessions && s.sessions[w].job in s.jobs
    ensures Lost(SettleSpec(s, w, job), j)
  {
    ChangeKeepsLost(s, SettleSpec(s, w, job), s.sessions[w].job, j);
  }

  lemma RowKeepsLost(s: State, k: JobId, max: nat, at: int, j: JobId)
    requires BatchesOk(s) && Lost(s, j) && k != j
    ensures Lost(AddRow(s, k, max, at), j)
  {
    var t := AddRow(s, k, max, at);
    forall d, r | d in t.batches && r in t.batches[d] ensures r < |s.rows| { assert EntryOk(s, d, r); }
    KeptIsLost(s, t, j);
  }

  lemma FinishKeepsLost(s: State, w: WorkerId, e: Ending, j: JobId)
    requires Lost(s, j) && w in s.sessions && s.sessions[w].job in s.jobs && BatchesOk(s)
    ensures Lost(FinishSpec(s, w, e), j)
  {
    var k := s.sessions[w].job;
    var f := Finished(s.jobs[k], s.sessions[w].baseline + 1, e);
    var at := RetryAt(f, s.now, s.settings);
    SettleKeepsLost(s, w, f, j);
    SettleKeepsLost(s, w, Rescheduled(f, at), j);
    var t := SettleSpec(s, w, Rescheduled(f, at));
    assert BatchesOk(t) by {
      forall d, r | d in t.batches && r in t.batches[d] ensures EntryOk(t, d, r) { assert EntryOk(s, d, r); }
    }
    RowKeepsLost(t, k, f.maxAttempts, at, j);
  }

  lemma CheckKeepsLost(s: State, w: WorkerId, j: JobId)
    requires Sound(s) && Lost(s, j) && At(s, w, Flushed)
    ensures Lost(CheckSpec(s, w), j)
  {
    var k := s.sessions[w].job;
    if s.jobs[k].cancelled || s.jobs[k].status == Cancelled {
      ChangeKeepsLost(s, CheckSpec(s, w), k, j);
    } else {
      ReturnKeepsLost(s, w, j);
      PhaseKeepsLost(s, w, Verified, j);
      KeptIsLost(s, CheckSpec(s, w), j);
    }
  }

  lemma ClaimKeepsLost(s: State, w: WorkerId, j: JobId)
    requires Lost(s, j) && At(s, w, Received)
    ensures Lost(ClaimSpec(s, w), j)
  {
    if !Locked(s, s.sessions[w].job) && Claimable(s.jobs[s.sessions[w].job], w, s.now) {
      HitChangesJob(s, w);
      ChangeKeepsLost(s, ClaimSpec(s, w), s.sessions[w].job, j);
    } else {
      KeptIsLost(s, ClaimSpec(s, w), j);
    }
  }

  lemma RecoverKeepsLost(s: State, k: JobId, j: JobId)
    requires Sound(s) && Lost(s, j) && Enabled(s, Recover(k))
    ensures Lost(Apply(s, Recover(k)), j)
  {
    var r := Recovered(s.jobs[k], s.now);
    var t := SetJob(s, k, r);
    ChangeKeepsLost(s, t, k, j);
    assert BatchesOk(t) by {
      forall d, q | d in t.batches && q in t.batches[d] ensures EntryOk(t, d, q) { assert EntryOk(s, d, q); }
    }
    RowKeepsLost(t, k, r.maxAttempts, s.now, j);
  }

  lemma LeaseKeepsLost(s: State, step: Step, j: JobId)
    requires Enabled(s, step) && Lost(s, j) && (step.Heartbeat? || step.Reject?)
    ensures Lost(Apply(s, step), j)
  {
    ChangeKeepsLost(s, Apply(s, step), s.sessions[step.worker].job, j);
  }

  lemma StepKeepsLost(s: State, step: Step, j: JobId)
    requires Invariant(s) && Enabled(s, step) && Lost(s, j)
    requires !step.Submit? && !step.UserRetry? && !step.BeginCancel? && !step.CommitCancel?
    ensures Lost(Apply(s, step), j)
  {
    if ByDispatcher(step) {
      DispatcherKeepsLost(s, step, j);
    } else if ByDelivery(step) {
      DeliveryKeepsLost(s, step, j);
    } else if step.MissResources? || step.Finish? {
      FinishKeepsLost(s, step.worker, if step.Finish? then step.ending else ContentFailure, j);
    } else if step.Check? {
      CheckKeepsLost(s, step.worker, j);
    } else if step.Claim? {
      ClaimKeepsLost(s, step.worker, j);
    } else if step.Recover? {
      RecoverKeepsLost(s, step.job, j);
    } else if step.Heartbeat? || step.Reject? {
      LeaseKeepsLost(s, step, j);
    } else {
      KeptIsLost(s, Apply(s, step), j);
    }
  }

  /** Nothing but a user gets such a job out of its queue. */
  lemma {:induction false} LostStaysLost(s: State, steps: seq<Step>, j: JobId)
    requires Invariant(s) && CanRun(s, steps) && Automatic(steps) && Lost(s, j)
    ensures Lost(After(s, steps), j)
    decreases |steps|
  {
    if steps != [] {
      assert Automatic(steps[1..]);
      StepKeepsLost(s, steps[0], j);
      StepKeepsInvariant(s, steps[0]);
      LostStaysLost(Apply(s, steps[0]), steps[1..], j);
    }
  }

  // ---- A run that loses a job ----

  /** The job's only row is published and its message is with worker 1. */
  function Waiting(): State {
    Sent().(rows := [Marked(Taken(NewRow(0, 3, 0), 0, 0), 0)], queue := multiset{},
            sessions := map[1 := Session(0, 0, Received, 0)], batches := map[0 := map[]])
  }

  lemma ToWaiting()
    ensures Leads(Sent(), [Mark(0, 0), Receive(1, 0)], Waiting())
  {
    var a := Sent().(rows := Waiting().rows, batches := Waiting().batches);
    assert Apply(Sent(), Mark(0, 0)).batches[0] == a.batches[0];
    assert Apply(Sent(), Mark(0, 0)).batches == a.batches;
    OneMore(Sent(), [], Sent(), Mark(0, 0), a);
    assert [] + [Mark(0, 0)] == [Mark(0, 0)];
    OneMore(Sent(), [Mark(0, 0)], a, Receive(1, 0), Waiting());
    assert [Mark(0, 0)] + [Receive(1, 0)] == [Mark(0, 0), Receive(1, 0)];
  }

  /** The user's cancellation is written; the claim skips the row. */
  function SkippedState(): State {
    Waiting().(sessions := map[1 := Session(0, 0, Missed, 0)], cancelling := {0}, skipped := {0})
  }

  lemma ToSkipped()
    ensures Leads(Waiting(), [BeginCancel(0), Claim(1)], SkippedState())
  {
    var a := Waiting().(cancelling := {0});
    assert forall w :: !Holds(Waiting(), w, 0);
    OneMore(Waiting(), [], Waiting(), BeginCancel(0), a);
    assert [] + [BeginCancel(0)] == [BeginCancel(0)];
    assert Locked(a, 0) && {} + {0} == {0};
    OneMore(Waiting(), [BeginCancel(0)], a, Claim(1), SkippedState());
    assert [BeginCancel(0)] + [Claim(1)] == [BeginCancel(0), Claim(1)];
  }

  /** The interface dies before its commit, and the delivery is acknowledged. */
  function Stranded(): State {
    SkippedState().(sessions := map[], cancelling := {})
  }

  lemma ToStranded()
    ensures Leads(SkippedState(), [AbortCancel(0), Acknowledge(1)], Stranded())
  {
    var a := SkippedState().(cancelling := {});
    OneMore(SkippedState(), [], SkippedState(), AbortCancel(0), a);
    assert [] + [AbortCancel(0)] == [AbortCancel(0)];
    OneMore(SkippedState(), [AbortCancel(0)], a, Acknowledge(1), Stranded());
    assert [AbortCancel(0)] + [Acknowledge(1)] == [AbortCancel(0), Acknowledge(1)];
  }

  /** The job is as it was submitted, queued and due, its row is published and not poisoned, and whatever
      the machinery does from here on, the job stays where it is. */
  lemma AbortedCancelLosesJob() returns (steps: seq<Step>)
    ensures CanRun(Start(0, SETTINGS), steps)
    ensures var s := After(Start(0, SETTINGS), steps);
            && 0 in s.jobs && s.jobs[0] == NewJob(3) && !HasCarrier(s, 0) && !LastRowPoisoned(s, 0)
            && forall more :: CanRun(s, more) && Automatic(more) ==>
                 0 in After(s, more).jobs && After(s, more).jobs[0].status == Queued
  {
    Sending();
    ToWaiting();
    ToSkipped();
    ToStranded();
    var first := [Submit(0, 3)] + [Take(0, {0})] + [Send(0, 0)];
    Compose(Start(0, SETTINGS), first, Sent(), [Mark(0, 0), Receive(1, 0)], Waiting());
    Compose(Start(0, SETTINGS), first + [Mark(0, 0), Receive(1, 0)], Waiting(), [BeginCancel(0), Claim(1)], SkippedState());
    steps := first + [Mark(0, 0), Receive(1, 0)] + [BeginCancel(0), Claim(1)] + [AbortCancel(0), Acknowledge(1)];
    Compose(Start(0, SETTINGS), first + [Mark(0, 0), Receive(1, 0)] + [BeginCancel(0), Claim(1)], SkippedState(),
            [AbortCancel(0), Acknowledge(1)], Stranded());
    var s := Stranded();
    assert Reachable(s);
    ReachableIsInvariant(s);
    assert Lost(s, 0);
    forall more | CanRun(s, more) && Automatic(more)
      ensures 0 in After(s, more).jobs && After(s, more).jobs[0].status == Queued
    {
      LostStaysLost(s, more, 0);
    }
  }
}
