/**
 A run in which a worker that lost its lease settles the job of the worker that holds it now: the
 tenant's authorization has changed, and that exit commits without an ownership check. A third worker
 then claims the job early.
 */
module UncheckedExit {
  import opened Options
  import opened Jobs
  import opened Outbox
  import opened Delivery
  import opened DeliveryTheorems
  import opened Leases

  const SETTINGS := Settings(120, 2)

  /** `steps` lead from `s` to `t`. */
  ghost predicate Leads(s: State, steps: seq<Step>, t: State) {
    CanRun(s, steps) && After(s, steps) == t
  }

  lemma OneMore(s: State, steps: seq<Step>, t: State, step: Step, u: State)
    requires Leads(s, steps, t) && Enabled(t, step) && Apply(t, step) == u
    ensures Leads(s, steps + [step], u)
  {
    assert [step][1..] == [];
    RunsCompose(s, steps, [step]);
  }

  lemma Compose(s: State, steps: seq<Step>, t: State, more: seq<Step>, u: State)
    requires Leads(s, steps, t) && Leads(t, more, u)
    ensures Leads(s, steps + more, u)
  {
    RunsCompose(s, steps, more);
  }

  // ---- Worker 1 claims, loses its connection and its lease; worker 2 claims ----

  function Sent(): State {
    State(0, SETTINGS, map[0 := NewJob(3)], [Taken(NewRow(0, 3, 0), 0, 0)], multiset{0}, map[],
          map[0 := map[0 := Entry(0, 3, true)]], {}, {})
  }

  function Submitted(): State {
    Start(0, SETTINGS).(jobs := map[0 := NewJob(3)], rows := [NewRow(0, 3, 0)])
  }

  function TakenOnce(): State {
    Submitted().(rows := [Taken(NewRow(0, 3, 0), 0, 0)], batches := map[0 := map[0 := Entry(0, 3, false)]])
  }

  lemma Submitting()
    ensures Leads(Start(0, SETTINGS), [Submit(0, 3)], Submitted())
  {
    var s := Start(0, SETTINGS);
    OneMore(s, [], s, Submit(0, 3), Submitted());
    assert [] + [Submit(0, 3)] == [Submit(0, 3)];
  }

  lemma Taking()
    ensures Leads(Submitted(), [Take(0, {0})], TakenOnce())
  {
    var a, b := Submitted(), TakenOnce();
    assert Apply(a, Take(0, {0})).rows == b.rows;
    assert Apply(a, Take(0, {0})).batches[0] == b.batches[0];
    assert Apply(a, Take(0, {0})).batches == b.batches;
    OneMore(a, [], a, Take(0, {0}), b);
    assert [] + [Take(0, {0})] == [Take(0, {0})];
  }

  lemma SendingOnce()
    ensures Leads(TakenOnce(), [Send(0, 0)], Sent())
  {
    var b := TakenOnce();
    assert Apply(b, Send(0, 0)).batches[0] == Sent().batches[0];
    assert Apply(b, Send(0, 0)).batches == Sent().batches;
    OneMore(b, [], b, Send(0, 0), Sent());
    assert [] + [Send(0, 0)] == [Send(0, 0)];
  }

  lemma Sending()
    ensures Leads(Start(0, SETTINGS), [Submit(0, 3)] + [Take(0, {0})] + [Send(0, 0)], Sent())
  {
    Submitting();
    Taking();
    SendingOnce();
    Compose(Start(0, SETTINGS), [Submit(0, 3)], Submitted(), [Take(0, {0})], TakenOnce());
    Compose(Start(0, SETTINGS), [Submit(0, 3)] + [Take(0, {0})], TakenOnce(), [Send(0, 0)], Sent());
  }

  function SentAgain(): State {
    Sent().(now := 121, jobs := map[0 := Jobs.Claimed(NewJob(3), 1, 0, SETTINGS)],
            sessions := map[1 := Session(0, 0, Phase.Claimed, 0)])
  }

  lemma Stalling()
    ensures Leads(Sent(), [Receive(1, 0), Claim(1), Redeliver(1), Tick(121)], SentAgain())
  {
    var a := Sent().(queue := multiset{}, sessions := map[1 := Session(0, 0, Received, 0)]);
    OneMore(Sent(), [], Sent(), Receive(1, 0), a);
    var b := a.(jobs := SentAgain().jobs, sessions := SentAgain().sessions);
    OneMore(Sent(), [Receive(1, 0)], a, Claim(1), b);
    var c := b.(queue := multiset{0});
    OneMore(Sent(), [Receive(1, 0)] + [Claim(1)], b, Redeliver(1), c);
    OneMore(Sent(), [Receive(1, 0)] + [Claim(1)] + [Redeliver(1)], c, Tick(121), SentAgain());
    assert [Receive(1, 0)] + [Claim(1)] + [Redeliver(1)] + [Tick(121)] == [Receive(1, 0), Claim(1), Redeliver(1), Tick(121)];
  }

  /** Worker 2 holds the job until time 241. */
  function Reclaimed(): State {
    SentAgain().(
      queue := multiset{}, jobs := map[0 := Jobs.Claimed(NewJob(3), 2, 121, SETTINGS)],
      sessions := map[1 := Session(0, 0, Phase.Claimed, 0), 2 := Session(0, 0, Phase.Claimed, 0)])
  }

  lemma Reclaiming()
    ensures Leads(SentAgain(), [Receive(2, 0), Claim(2)], Reclaimed())
  {
    var a := SentAgain().(queue := multiset{},
                          sessions := map[1 := Session(0, 0, Phase.Claimed, 0), 2 := Session(0, 0, Received, 0)]);
    OneMore(SentAgain(), [], SentAgain(), Receive(2, 0), a);
    OneMore(SentAgain(), [Receive(2, 0)], a, Claim(2), Reclaimed());
    assert [Receive(2, 0)] + [Claim(2)] == [Receive(2, 0), Claim(2)];
  }

  // ---- Worker 1 finds the authorization changed and fails the job; the user retries; worker 3 claims ----

  function FailedJob(): Job {
    Rejected(Jobs.Claimed(NewJob(3), 2, 121, SETTINGS), ContextStale)
  }

  function Unseated(): State {
    Reclaimed().(
      jobs := map[0 := FailedJob()],
      sessions := map[1 := Session(0, 0, Settled, 0), 2 := Session(0, 0, Phase.Claimed, 0)])
  }

  lemma Unseating()
    ensures Leads(Reclaimed(), [Reject(1, ContextStale)], Unseated())
  {
    assert forall w :: w in Reclaimed().sessions ==> !Holding(Reclaimed().sessions[w].phase);
    OneMore(Reclaimed(), [], Reclaimed(), Reject(1, ContextStale), Unseated());
    assert [] + [Reject(1, ContextStale)] == [Reject(1, ContextStale)];
  }

  function RetrySent(): State {
    Unseated().(
      jobs := map[0 := Retried(FailedJob(), 121)],
      rows := [Taken(NewRow(0, 3, 0), 0, 0), Taken(NewRow(0, 3, 121), 1, 121)], queue := multiset{1},
      batches := map[0 := map[0 := Entry(0, 3, true)], 1 := map[1 := Entry(0, 3, true)]])
  }

  function RetryWaiting(): State {
    Unseated().(jobs := RetrySent().jobs, rows := [Taken(NewRow(0, 3, 0), 0, 0), NewRow(0, 3, 121)])
  }

  lemma Retrying()
    ensures Leads(Unseated(), [UserRetry(0)], RetryWaiting())
  {
    assert forall w :: w in Unseated().sessions ==> !Holding(Unseated().sessions[w].phase);
    OneMore(Unseated(), [], Unseated(), UserRetry(0), RetryWaiting());
    assert [] + [UserRetry(0)] == [UserRetry(0)];
  }

  function RetryTaken(): State {
    RetryWaiting().(
      rows := RetrySent().rows, batches := map[0 := map[0 := Entry(0, 3, true)], 1 := map[1 := Entry(0, 3, false)]])
  }

  lemma Retaking()
    ensures Leads(RetryWaiting(), [Take(1, {1})], RetryTaken())
  {
    var a := RetryWaiting();
    assert Apply(a, Take(1, {1})).rows == RetryTaken().rows;
    assert Apply(a, Take(1, {1})).batches[1] == RetryTaken().batches[1];
    assert Apply(a, Take(1, {1})).batches == RetryTaken().batches;
    OneMore(a, [], a, Take(1, {1}), RetryTaken());
    assert [] + [Take(1, {1})] == [Take(1, {1})];
  }

  lemma Resending()
    ensures Leads(RetryTaken(), [Send(1, 1)], RetrySent())
  {
    var b := RetryTaken();
    assert Apply(b, Send(1, 1)).batches[1] == RetrySent().batches[1];
    assert Apply(b, Send(1, 1)).batches == RetrySent().batches;
    OneMore(b, [], b, Send(1, 1), RetrySent());
    assert [] + [Send(1, 1)] == [Send(1, 1)];
  }

  function Overlapping(): State {
    RetrySent().(
      queue := multiset{}, jobs := map[0 := Jobs.Claimed(Retried(FailedJob(), 121), 3, 121, SETTINGS)],
      sessions := map[1 := Session(0, 0, Settled, 0), 2 := Session(0, 0, Phase.Claimed, 0), 3 := Session(1, 0, Phase.Claimed, 0)])
  }

  function RetryReceived(): State {
    RetrySent().(
      queue := multiset{},
      sessions := map[1 := Session(0, 0, Settled, 0), 2 := Session(0, 0, Phase.Claimed, 0), 3 := Session(1, 0, Received, 0)])
  }

  lemma ReceivingRetry()
    ensures Leads(RetrySent(), [Receive(3, 1)], RetryReceived())
  {
    OneMore(RetrySent(), [], RetrySent(), Receive(3, 1), RetryReceived());
    assert [] + [Receive(3, 1)] == [Receive(3, 1)];
  }

  lemma Overlap()
    ensures Leads(RetrySent(), [Receive(3, 1), Claim(3)], Overlapping())
  {
    ReceivingRetry();
    var a := RetryReceived();
    assert forall w :: w in a.sessions ==> !Holding(a.sessions[w].phase);
    OneMore(RetrySent(), [Receive(3, 1)], a, Claim(3), Overlapping());
    assert [Receive(3, 1)] + [Claim(3)] == [Receive(3, 1), Claim(3)];
  }

  /** Worker 2 holds the job with a lease to 241. At 121 worker 3 holds it, and worker 2, which has done
      nothing in between, still has its delivery and has not begun its attempt. The commit between them
      is of worker 1, which is not the recorded holder. */
  lemma UncheckedExitUnseatsHolder() returns (before: seq<Step>, after: seq<Step>)
    ensures CanRun(Start(0, SETTINGS), before)
    ensures var s := After(Start(0, SETTINGS), before);
            && HeldBy(s, 0, 2) && s.jobs[0].leaseExpiresAt == Some(241) && 2 in s.sessions
            && CanRun(s, [Reject(1, ContextStale)]) && !HeldBy(After(s, [Reject(1, ContextStale)]), 0, 2)
            && CanRun(s, [Reject(1, ContextStale)] + after)
            && var t := After(s, [Reject(1, ContextStale)] + after);
               t.now == 121 && HeldBy(t, 0, 3) && 2 in t.sessions && t.sessions[2] == s.sessions[2]
  {
    FirstHalf();
    SecondHalf();
    before, after := BEFORE, AFTER;
    Unseating();
    Compose(Reclaimed(), [Reject(1, ContextStale)], Unseated(), after, Overlapping());
  }

  const BEFORE := [Submit(0, 3)] + [Take(0, {0})] + [Send(0, 0)]
                  + [Receive(1, 0), Claim(1), Redeliver(1), Tick(121)] + [Receive(2, 0), Claim(2)]

  const AFTER := [UserRetry(0)] + [Take(1, {1})] + [Send(1, 1)] + [Receive(3, 1), Claim(3)]

  lemma FirstHalf()
    ensures Leads(Start(0, SETTINGS), BEFORE, Reclaimed())
  {
    Sending();
    Stalling();
    Reclaiming();
    var first := [Submit(0, 3)] + [Take(0, {0})] + [Send(0, 0)];
    var second := [Receive(1, 0), Claim(1), Redeliver(1), Tick(121)];
    Compose(Start(0, SETTINGS), first, Sent(), second, SentAgain());
    Compose(Start(0, SETTINGS), first + second, SentAgain(), [Receive(2, 0), Claim(2)], Reclaimed());
  }

  lemma SecondHalf()
    ensures Leads(Unseated(), AFTER, Overlapping())
  {
    Retrying();
    Retaking();
    Resending();
    Overlap();
    Compose(Unseated(), [UserRetry(0)], RetryWaiting(), [Take(1, {1})], RetryTaken());
    Compose(Unseated(), [UserRetry(0)] + [Take(1, {1})], RetryTaken(), [Send(1, 1)], RetrySent());
    Compose(Unseated(), [UserRetry(0)] + [Take(1, {1})] + [Send(1, 1)], RetrySent(), [Receive(3, 1), Claim(3)], Overlapping());
  }
}
