/**
 One tenant's audit log under overlapping transactions. A transaction links each of its records to the
 newest row that it can see, its own included; others see the records with the commit.
 */
module AuditSessions {
  import opened AuditChain

  type SessionId = nat

  /** The committed rows as the verifier's query returns them, and the records of open transactions. */
  datatype Log = Log(rows: seq<AuditRecord>, open: map<SessionId, seq<AuditRecord>>)

  const EMPTY := Log([], map[])

  /** `newest` is the row that a session took for the newest, and `place` where the query returns a
      committed row. The records of one transaction are committed one after another. */
  datatype Step =
    | Write(session: SessionId, id: string, event: AuditEvent, now: int, newest: nat)
    | Commit(session: SessionId, place: nat)
    | Abort(session: SessionId)

  function Own(log: Log, s: SessionId): seq<AuditRecord> {
    if s in log.open then log.open[s] else []
  }

  predicate Enabled(log: Log, step: Step) {
    match step
    case Write(s, _, _, _, q) => Newest(log.rows + Own(log, s), q)
    case Commit(s, p) => Own(log, s) != [] && Fits(log.rows, Own(log, s)[0].content.createdAt, p)
    case Abort(s) => s in log.open
  }

  function Apply(digest: Digest, log: Log, step: Step): Log
    requires Enabled(log, step)
  {
    match step
    case Write(s, id, event, now, q) =>
      log.(open := log.open[s := Own(log, s) + [Seal(digest, (log.rows + Own(log, s))[..q], id, event, now)]])
    case Commit(s, p) => Log(Placed(log.rows, Own(log, s)[0], p), log.open[s := Own(log, s)[1..]])
    case Abort(s) => log.(open := log.open - {s})
  }

  ghost predicate IsRun(digest: Digest, history: seq<Log>, steps: seq<Step>) {
    && |history| == |steps| + 1
    && history[0] == EMPTY
    && forall i :: 0 <= i < |steps| ==> Enabled(history[i], steps[i]) && history[i + 1] == Apply(digest, history[i], steps[i])
  }

  /** A commit extends the chain: its record is linked to the row that is last now, and comes after it. */
  predicate Extends(log: Log, step: Step)
    requires Enabled(log, step)
  {
    step.Commit? ==>
      Own(log, step.session)[0].content.previousHash == HashBefore(log.rows, |log.rows|) && step.place == |log.rows|
  }

  ghost predicate SealedAll(digest: Digest, log: Log) {
    forall s, i :: s in log.open && 0 <= i < |log.open[s]| ==> digest(log.open[s][i].content) == log.open[s][i].eventHash
  }

  lemma StepVerifiesIffExtends(digest: Digest, log: Log, step: Step)
    requires CollisionFree(digest) && Verifies(digest, log.rows) && SealedAll(digest, log) && Enabled(log, step)
    ensures SealedAll(digest, Apply(digest, log, step))
    ensures Verifies(digest, Apply(digest, log, step).rows) <==> Extends(log, step)
  {
    if step.Commit? {
      RecordKeepsChain(digest, log.rows, Own(log, step.session)[0], step.place);
    }
  }

  lemma {:induction false} VerifiesUntil(digest: Digest, history: seq<Log>, steps: seq<Step>, i: nat)
    requires CollisionFree(digest) && IsRun(digest, history, steps) && i <= |steps|
    requires forall k :: 0 <= k < i ==> Extends(history[k], steps[k])
    ensures Verifies(digest, history[i].rows) && SealedAll(digest, history[i])
  {
    if i > 0 {
      VerifiesUntil(digest, history, steps, i - 1);
      StepVerifiesIffExtends(digest, history[i - 1], steps[i - 1]);
    }
  }

  lemma {:induction false} FirstFork(digest: Digest, history: seq<Log>, steps: seq<Step>, n: nat) returns (i: nat)
    requires IsRun(digest, history, steps) && n < |steps| && !Extends(history[n], steps[n])
    ensures i <= n && !Extends(history[i], steps[i]) && forall k :: 0 <= k < i ==> Extends(history[k], steps[k])
  {
    if k :| 0 <= k < n && !Extends(history[k], steps[k]) {
      i := FirstFork(digest, history, steps, k);
    } else {
      i := n;
    }
  }

  ghost predicate EachExtends(digest: Digest, history: seq<Log>, steps: seq<Step>)
    requires IsRun(digest, history, steps)
  {
    forall i :: 0 <= i < |steps| ==> Extends(history[i], steps[i])
  }

  /** Over all runs of overlapping transactions: the verifier accepts every state if and only if each
      commit extends the chain. */
  lemma VerifiesThroughoutIffEachExtends(digest: Digest, history: seq<Log>, steps: seq<Step>)
    requires CollisionFree(digest) && IsRun(digest, history, steps)
    ensures (forall i :: 0 <= i <= |steps| ==> Verifies(digest, history[i].rows)) <==> EachExtends(digest, history, steps)
  {
    if EachExtends(digest, history, steps) {
      forall i | 0 <= i <= |steps| ensures Verifies(digest, history[i].rows) {
        VerifiesUntil(digest, history, steps, i);
      }
    } else {
      var n :| 0 <= n < |steps| && !Extends(history[n], steps[n]);
      var i := FirstFork(digest, history, steps, n);
      VerifiesUntil(digest, history, steps, i);
      StepVerifiesIffExtends(digest, history[i], steps[i]);
      assert !Verifies(digest, history[i + 1].rows);
    }
  }

  // ---- Transactions one after another ----

  /** At most one transaction holds records. */
  ghost predicate OneAtATime(log: Log) {
    forall s, t :: Own(log, s) != [] && Own(log, t) != [] ==> s == t
  }

  /** A record is written later than every row that its transaction sees. */
  predicate ClockMoves(log: Log, step: Step) {
    step.Write? ==> forall r :: r in log.rows + Own(log, step.session) ==> r.content.createdAt < step.now
  }

  ghost predicate ClockAlwaysMoves(digest: Digest, history: seq<Log>, steps: seq<Step>)
    requires IsRun(digest, history, steps)
  {
    forall i :: 0 <= i < |steps| ==> ClockMoves(history[i], steps[i])
  }

  /** The rows followed by the records of the open transaction are one chain of increasing times. */
  ghost predicate OneChain(digest: Digest, log: Log) {
    && Rising(digest, log.rows)
    && forall s :: Own(log, s) != [] ==> Rising(digest, log.rows + Own(log, s))
  }

  predicate Rising(digest: Digest, rows: seq<AuditRecord>) {
    && Verifies(digest, rows)
    && forall i, j :: 0 <= i < j < |rows| ==> rows[i].content.createdAt < rows[j].content.createdAt
  }

  lemma RisingGrows(digest: Digest, rows: seq<AuditRecord>, id: string, event: AuditEvent, now: int, q: nat)
    requires Rising(digest, rows) && Newest(rows, q)
    requires forall r :: r in rows ==> r.content.createdAt < now
    ensures Rising(digest, rows + [Seal(digest, rows[..q], id, event, now)])
  {
    assert rows != [] ==> rows[|rows| - 1].content.createdAt <= rows[q - 1].content.createdAt;
    assert q == |rows| && rows[..q] == rows;
    AppendedRecordIsLinked(digest, rows, Seal(digest, rows, id, event, now));
    assert forall i :: 0 <= i < |rows| ==> rows[i] in rows;
  }

  lemma RisingParts(digest: Digest, rows: seq<AuditRecord>, own: seq<AuditRecord>, p: nat)
    requires Rising(digest, rows + own) && own != [] && Fits(rows, own[0].content.createdAt, p)
    ensures p == |rows| && own[0].content.previousHash == HashBefore(rows, |rows|)
    ensures Placed(rows, own[0], p) + own[1..] == rows + own
    ensures Rising(digest, Placed(rows, own[0], p))
  {
    var all := rows + own;
    forall q: nat | q < |rows| ensures !Fits(rows, own[0].content.createdAt, q) {
      assert all[q].content.createdAt < all[|rows|].content.createdAt;
    }
    assert Linked(digest, all, |rows|) && HashBefore(all, |rows|) == HashBefore(rows, |rows|);
    assert Placed(rows, own[0], p) == all[..|rows| + 1];
    PrefixVerifies(digest, all, |rows| + 1);
  }

  lemma {:induction false} SerialIsOneChain(digest: Digest, history: seq<Log>, steps: seq<Step>, i: nat)
    requires IsRun(digest, history, steps) && i <= |steps|
    requires forall k :: 0 <= k <= |steps| ==> OneAtATime(history[k])
    requires ClockAlwaysMoves(digest, history, steps)
    ensures OneChain(digest, history[i])
  {
    if i > 0 {
      SerialIsOneChain(digest, history, steps, i - 1);
      assert OneAtATime(history[i - 1]) && OneAtATime(history[i]);
      StepKeepsOneChain(digest, history[i - 1], steps[i - 1]);
    }
  }

  lemma StepKeepsOneChain(digest: Digest, log: Log, step: Step)
    requires OneChain(digest, log) && Enabled(log, step) && ClockMoves(log, step)
    requires OneAtATime(log) && OneAtATime(Apply(digest, log, step))
    ensures OneChain(digest, Apply(digest, log, step)) && Extends(log, step)
  {
    var after := Apply(digest, log, step);
    match step
    case Write(s, id, event, now, q) =>
      var seen := log.rows + Own(log, s);
      assert Own(log, s) == [] ==> seen == log.rows;
      RisingGrows(digest, seen, id, event, now, q);
      assert log.rows + Own(after, s) == seen + [Seal(digest, seen[..q], id, event, now)];
    case Commit(s, p) =>
      RisingParts(digest, log.rows, Own(log, s), p);
      assert forall t :: t != s ==> Own(after, t) == Own(log, t) == [];
    case Abort(s) =>
      assert forall t :: t != s ==> Own(after, t) == Own(log, t);
  }

  /** When transactions do not overlap and the clock moves, the verifier accepts every state. */
  lemma SerialRunsVerify(digest: Digest, history: seq<Log>, steps: seq<Step>)
    requires CollisionFree(digest) && IsRun(digest, history, steps)
    requires forall k :: 0 <= k <= |steps| ==> OneAtATime(history[k])
    requires ClockAlwaysMoves(digest, history, steps)
    ensures forall i :: 0 <= i <= |steps| ==> Verifies(digest, history[i].rows)
  {
    forall i | 0 <= i < |steps| ensures Extends(history[i], steps[i]) {
      SerialIsOneChain(digest, history, steps, i);
      assert OneAtATime(history[i]) && OneAtATime(history[i + 1]);
      StepKeepsOneChain(digest, history[i], steps[i]);
    }
    VerifiesThroughoutIffEachExtends(digest, history, steps);
  }

  // ---- Two transactions at once ----

  lemma ExtendRun(digest: Digest, history: seq<Log>, steps: seq<Step>, step: Step)
    requires IsRun(digest, history, steps) && Enabled(history[|steps|], step)
    ensures IsRun(digest, history + [Apply(digest, history[|steps|], step)], steps + [step])
  {
  }

  lemma Extend(digest: Digest, history0: seq<Log>, steps0: seq<Step>, step: Step) returns (history: seq<Log>, steps: seq<Step>)
    requires IsRun(digest, history0, steps0) && ClockAlwaysMoves(digest, history0, steps0)
    requires Enabled(history0[|steps0|], step) && ClockMoves(history0[|steps0|], step)
    ensures IsRun(digest, history, steps) && ClockAlwaysMoves(digest, history, steps)
    ensures history[|steps|] == Apply(digest, history0[|steps0|], step)
  {
    ExtendRun(digest, history0, steps0, step);
    history, steps := history0 + [Apply(digest, history0[|steps0|], step)], steps0 + [step];
    forall i | 0 <= i < |steps| ensures ClockMoves(history[i], steps[i]) {
      assert i < |steps0| ==> history[i] == history0[i] && steps[i] == steps0[i];
    }
  }

  function First(digest: Digest, event: AuditEvent): AuditRecord {
    Seal(digest, [], "p", event, 0)
  }

  function Second(digest: Digest, event: AuditEvent, id: string, now: int): AuditRecord {
    Seal(digest, [First(digest, event)], id, event, now)
  }

  lemma OneCommitted(digest: Digest, event: AuditEvent) returns (history: seq<Log>, steps: seq<Step>)
    ensures IsRun(digest, history, steps) && ClockAlwaysMoves(digest, history, steps)
    ensures history[|steps|] == Log([First(digest, event)], map[0 := []])
  {
    history, steps := [EMPTY], [];
    history, steps := Extend(digest, history, steps, Write(0, "p", event, 0, 0));
    assert (EMPTY.rows + Own(EMPTY, 0))[..0] == [];
    assert Own(history[|steps|], 0) == [First(digest, event)];
    history, steps := Extend(digest, history, steps, Commit(0, 0));
    assert history[|steps|].open == map[0 := []];
  }

  lemma BothHaveRead(digest: Digest, event: AuditEvent) returns (history: seq<Log>, steps: seq<Step>)
    ensures IsRun(digest, history, steps) && ClockAlwaysMoves(digest, history, steps)
    ensures var log := history[|steps|];
            && log.rows == [First(digest, event)]
            && Own(log, 1) == [Second(digest, event, "a", 1)] && Own(log, 2) == [Second(digest, event, "b", 2)]
  {
    history, steps := OneCommitted(digest, event);
    assert ([First(digest, event)] + [])[..1] == [First(digest, event)];
    history, steps := Extend(digest, history, steps, Write(1, "a", event, 1, 1));
    history, steps := Extend(digest, history, steps, Write(2, "b", event, 2, 1));
  }

  lemma ForkIsRejected(digest: Digest, event: AuditEvent)
    requires CollisionFree(digest)
    ensures !Verifies(digest, [First(digest, event), Second(digest, event, "a", 1), Second(digest, event, "b", 2)])
  {
    var p, a, b := First(digest, event), Second(digest, event, "a", 1), Second(digest, event, "b", 2);
    assert a.eventHash != p.eventHash;
    assert !Linked(digest, [p, a, b], 2);
  }

  /** Two transactions read the same newest row and commit in the order of their clock readings. The
      clock has moved for each, and the chain no longer verifies. */
  lemma OverlapForksChain(digest: Digest, event: AuditEvent) returns (history: seq<Log>, steps: seq<Step>)
    requires CollisionFree(digest)
    ensures IsRun(digest, history, steps) && ClockAlwaysMoves(digest, history, steps)
    ensures var rows := history[|steps|].rows;
            && |rows| == 3 && (forall i :: 0 <= i < 3 ==> rows[i].content.createdAt == i)
            && !Verifies(digest, rows)
  {
    var p, a, b := First(digest, event), Second(digest, event, "a", 1), Second(digest, event, "b", 2);
    history, steps := BothHaveRead(digest, event);
    history, steps := Extend(digest, history, steps, Commit(1, 1));
    assert history[|steps|].rows == [p, a] && Own(history[|steps|], 2) == [b];
    history, steps := Extend(digest, history, steps, Commit(2, 2));
    assert history[|steps|].rows == [p, a, b];
    ForkIsRejected(digest, event);
  }
}
