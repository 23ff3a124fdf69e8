/**
 The transactional outbox: rows waiting to be published, claimed for a while by one dispatcher, then
 marked, or given a later time, or poisoned.
 */
module Outbox {
  import opened Options
  import opened Backoff

  type DispatcherId = nat
  type RowId = nat
  type JobId = nat

  const CLAIM_SECONDS := 60

  datatype Row = Row(
    job: JobId, attempts: nat, maxAttempts: nat, availableAt: int, published: bool, poisoned: bool,
    claimedBy: Option<DispatcherId>, claimExpiresAt: Option<int>)

  function NewRow(job: JobId, maxAttempts: nat, availableAt: int): Row {
    Row(job, 0, maxAttempts, availableAt, false, false, None, None)
  }

  predicate Pending(r: Row) {
    !r.published && !r.poisoned
  }

  /** What the dispatcher's query selects. */
  predicate Takeable(r: Row, now: int) {
    && Pending(r)
    && r.availableAt <= now
    && (r.claimedBy.None? || (r.claimExpiresAt.Some? && r.claimExpiresAt.value <= now))
  }

  function Taken(r: Row, d: DispatcherId, now: int): Row {
    r.(claimedBy := Some(d), claimExpiresAt := Some(now + CLAIM_SECONDS))
  }

  /** The mark applies only while the dispatcher still owns the row. */
  function Marked(r: Row, d: DispatcherId): Row {
    if r.claimedBy == Some(d) && !r.published then r.(published := true, claimedBy := None, claimExpiresAt := None)
    else r
  }

  /** A failed publication, written from the attempt count and limit read when the row was taken. */
  function FailureRecorded(r: Row, d: DispatcherId, attempts: nat, maxAttempts: nat, now: int): Row {
    if r.claimedBy != Some(d) then r
    else
      var next := attempts + 1;
      var free := r.(attempts := next, claimedBy := None, claimExpiresAt := None);
      if next >= maxAttempts then free.(poisoned := true)
      else free.(availableAt := now + Pow2(next))
  }

  /** A row never is both published and poisoned, is poisoned exactly when its attempts are used up,
      and is unclaimed once it is either. */
  predicate RowOk(r: Row) {
    && r.maxAttempts > 0
    && !(r.published && r.poisoned)
    && (r.poisoned <==> r.attempts >= r.maxAttempts)
    && (!Pending(r) ==> r.claimedBy.None?)
    && (r.claimedBy.Some? ==> r.claimExpiresAt.Some?)
  }

  /** What one uninterrupted batch makes of a row it has taken. */
  function Dispatched(r: Row, d: DispatcherId, delivered: bool, now: int): Row {
    if delivered then Marked(Taken(r, d, now), d)
    else FailureRecorded(Taken(r, d, now), d, r.attempts, r.maxAttempts, now)
  }

  /** A batch makes progress on every row it takes: it is published, or poisoned on its last attempt,
      or free again with one attempt more and a later time. */
  lemma DispatchedMovesOn(r: Row, d: DispatcherId, delivered: bool, now: int)
    requires RowOk(r) && Takeable(r, now)
    ensures var after := Dispatched(r, d, delivered, now);
            && RowOk(after) && after.claimedBy.None? && !Takeable(after, now)
            && (after.published <==> delivered)
            && (after.poisoned <==> !delivered && r.attempts + 1 == r.maxAttempts)
            && (Pending(after) ==> after.attempts == r.attempts + 1 && after.availableAt > now)
  {
  }

  /** The last failure of a row, which the batch always counts as poisoned, poisons the row exactly when
      the dispatcher still owns it. */
  lemma CountedFailurePoisonsIffOwned(r: Row, d: DispatcherId, attempts: nat, maxAttempts: nat, now: int)
    requires RowOk(r) && attempts + 1 >= maxAttempts
    ensures FailureRecorded(r, d, attempts, maxAttempts, now).poisoned && !r.poisoned <==> r.claimedBy == Some(d)
    ensures r.claimedBy != Some(d) ==> FailureRecorded(r, d, attempts, maxAttempts, now) == r
  {
  }

  /** The first failure postpones a row by two seconds, and each further one by twice as long as the one
      before; nothing else of the row changes but the count and the claim. */
  lemma FailureDelayDoubles(r: Row, d: DispatcherId, attempts: nat, maxAttempts: nat, now: int)
    requires r.claimedBy == Some(d) && attempts + 2 < maxAttempts
    ensures var first, second := FailureRecorded(r, d, attempts, maxAttempts, now), FailureRecorded(r, d, attempts + 1, maxAttempts, now);
            && (attempts == 0 ==> first.availableAt == now + 2)
            && second.availableAt - now == 2 * (first.availableAt - now)
            && first.attempts == attempts + 1 && first.claimedBy.None? && first.claimExpiresAt.None?
            && first.published == r.published && first.poisoned == r.poisoned && first.job == r.job
  {
    assert Pow2(attempts + 2) == 2 * Pow2(attempts + 1);
  }

  function CountOf(ids: seq<RowId>, p: RowId -> bool): (n: nat)
    ensures n <= |ids|
  {
    if ids == [] then 0 else CountOf(ids[..|ids| - 1], p) + if p(ids[|ids| - 1]) then 1 else 0
  }

  lemma CountNext(ids: seq<RowId>, i: nat, p: RowId -> bool)
    requires i < |ids|
    ensures CountOf(ids[..i + 1], p) == CountOf(ids[..i], p) + if p(ids[i]) then 1 else 0
  {
    assert ids[..i + 1][..i] == ids[..i];
  }

  /** The rows whose failure is their last. */
  function LastFailures(rows: seq<Row>, delivered: RowId -> bool): RowId -> bool {
    (r: RowId) => !delivered(r) && r < |rows| && rows[r].attempts + 1 >= rows[r].maxAttempts
  }

  /** The table after the first `i` of the claimed rows have been dispatched. */
  ghost predicate Dispatching(before: seq<Row>, rows: seq<Row>, claimed: seq<RowId>, i: nat, d: DispatcherId,
                              delivered: RowId -> bool, now: int) {
    && |rows| == |before|
    && (forall k: nat :: k < |claimed| ==> claimed[k] < |rows|)
    && (forall k: nat :: k < |claimed| ==>
          rows[claimed[k]] == if k < i then Dispatched(before[claimed[k]], d, delivered(claimed[k]), now)
                              else Taken(before[claimed[k]], d, now))
    && (forall r: nat :: r < |rows| && r !in claimed ==> rows[r] == before[r])
  }

  lemma DispatchingOn(before: seq<Row>, rows: seq<Row>, claimed: seq<RowId>, i: nat, d: DispatcherId,
                      delivered: RowId -> bool, now: int)
    requires Dispatching(before, rows, claimed, i, d, delivered, now) && i < |claimed|
    requires forall k, m :: 0 <= k < m < |claimed| ==> claimed[k] != claimed[m]
    ensures Dispatching(before, rows[claimed[i] := Dispatched(before[claimed[i]], d, delivered(claimed[i]), now)],
                        claimed, i + 1, d, delivered, now)
  {
    assert claimed[i] in claimed;
  }

  /** The order of the dispatcher's query: higher priority first, then older. Row ids grow with age. */
  predicate Precedes(priorities: seq<int>, a: RowId, b: RowId)
    requires a < |priorities| && b < |priorities|
  {
    priorities[a] > priorities[b] || (priorities[a] == priorities[b] && a < b)
  }

  /** `chosen` are the first takeable rows of the table in that order. */
  ghost predicate FirstTakeable(rows: seq<Row>, priorities: seq<int>, chosen: seq<RowId>, now: int)
    requires |rows| == |priorities|
  {
    && (forall i :: 0 <= i < |chosen| ==> chosen[i] < |rows| && Takeable(rows[chosen[i]], now))
    && (forall i, k :: 0 <= i < k < |chosen| ==> Precedes(priorities, chosen[i], chosen[k]))
    && (forall i, r: nat :: 0 <= i < |chosen| && r < |rows| && Takeable(rows[r], now) && r !in chosen ==>
          Precedes(priorities, chosen[i], r))
  }

  /** What is left out is no more urgent: it has a lower priority, or the same and is younger. */
  lemma LeftOutIsLessUrgent(rows: seq<Row>, priorities: seq<int>, chosen: seq<RowId>, now: int, i: nat, r: RowId)
    requires |rows| == |priorities| && FirstTakeable(rows, priorities, chosen, now)
    requires i < |chosen| && r < |rows| && r !in chosen
    requires !rows[r].published && !rows[r].poisoned && rows[r].availableAt <= now && rows[r].claimedBy.None?
    ensures chosen[i] < |rows|
    ensures priorities[r] < priorities[chosen[i]] || (priorities[r] == priorities[chosen[i]] && chosen[i] < r)
  {
    assert Takeable(rows[r], now);
  }

  class OutboxTable {
    var rows: seq<Row>
    var priorities: seq<int>

    ghost predicate Valid()
      reads this
    {
      |rows| == |priorities|
    }

    constructor ()
      ensures Valid() && rows == []
    {
      rows, priorities := [], [];
    }

    method Add(job: JobId, maxAttempts: nat, availableAt: int, priority: int) returns (id: RowId)
      requires Valid()
      modifies this
      ensures Valid() && id == |old(rows)|
      ensures rows == old(rows) + [NewRow(job, maxAttempts, availableAt)] && priorities == old(priorities) + [priority]
      ensures rows[id] == Row(job, 0, maxAttempts, availableAt, false, false, None, None)
    {
      id := |rows|;
      rows := rows + [NewRow(job, maxAttempts, availableAt)];
      priorities := priorities + [priority];
    }

    /** The first takeable row that is not chosen yet; None when there is none. */
    method NextPending(chosen: seq<RowId>, now: int) returns (next: Option<RowId>)
      requires Valid()
      ensures next.None? ==> forall r: nat :: r < |rows| && Takeable(rows[r], now) ==> r in chosen
      ensures next.Some? ==>
                && next.value < |rows| && Takeable(rows[next.value], now) && next.value !in chosen
                && forall r: nat :: r < |rows| && Takeable(rows[r], now) && r !in chosen && r != next.value ==>
                     Precedes(priorities, next.value, r)
    {
      next := None;
      for i := 0 to |rows|
        invariant next.None? ==> forall r: nat :: r < i && Takeable(rows[r], now) ==> r in chosen
        invariant next.Some? ==>
          && next.value < i && Takeable(rows[next.value], now) && next.value !in chosen
          && forall r: nat :: r < i && Takeable(rows[r], now) && r !in chosen && r != next.value ==>
               Precedes(priorities, next.value, r)
      {
        if Takeable(rows[i], now) && i !in chosen && (next.None? || priorities[i] > priorities[next.value]) {
          next := Some(i);
        }
      }
    }

    /** The dispatcher's query. */
    method SelectPending(limit: nat, now: int) returns (chosen: seq<RowId>)
      requires Valid()
      ensures |chosen| <= limit && FirstTakeable(rows, priorities, chosen, now)
      ensures |chosen| < limit ==> forall r: nat :: r < |rows| && Takeable(rows[r], now) ==> r in chosen
    {
      chosen := [];
      while |chosen| < limit
        invariant |chosen| <= limit && FirstTakeable(rows, priorities, chosen, now)
      {
        var next := NextPending(chosen, now);
        if next.None? {
          return;
        }
        assert forall r :: r in chosen ==> r in chosen + [next.value];
        chosen := chosen + [next.value];
      }
    }

    /** The first transaction of a batch: claims the selected rows. */
    method ClaimBatch(d: DispatcherId, limit: nat, now: int) returns (claimed: seq<RowId>)
      requires Valid()
      modifies this`rows
      ensures Valid() && |claimed| <= limit && FirstTakeable(old(rows), priorities, claimed, now)
      ensures |claimed| < limit ==> forall r: nat :: r < |rows| && Takeable(old(rows)[r], now) ==> r in claimed
      ensures forall r: nat :: r < |rows| ==>
                rows[r] == if r in claimed then Taken(old(rows)[r], d, now) else old(rows)[r]
    {
      claimed := SelectPending(limit, now);
      ghost var before := rows;
      for i := 0 to |claimed|
        invariant |rows| == |before|
        invariant forall r: nat :: r < |rows| ==> rows[r] == if r in claimed[..i] then Taken(before[r], d, now) else before[r]
      {
        assert claimed[..i + 1] == claimed[..i] + [claimed[i]];
        assert claimed[i] !in claimed[..i];
        rows := rows[claimed[i] := Taken(rows[claimed[i]], d, now)];
      }
      assert claimed[..|claimed|] == claimed;
    }

    method MarkPublished(d: DispatcherId, id: RowId) returns (count: nat)
      requires id < |rows|
      modifies this`rows
      ensures rows == old(rows)[id := Marked(old(rows)[id], d)]
      ensures count == if old(rows)[id].claimedBy == Some(d) && !old(rows)[id].published then 1 else 0
      ensures rows[id] == if count == 1 then old(rows)[id].(published := true, claimedBy := None, claimExpiresAt := None)
                          else old(rows)[id]
    {
      count := 0;
      if rows[id].claimedBy == Some(d) && !rows[id].published {
        rows := rows[id := rows[id].(published := true, claimedBy := None, claimExpiresAt := None)];
        count := 1;
      }
    }

    method RecordFailure(d: DispatcherId, id: RowId, attempts: nat, maxAttempts: nat, now: int)
      requires id < |rows|
      modifies this`rows
      ensures rows == old(rows)[id := FailureRecorded(old(rows)[id], d, attempts, maxAttempts, now)]
      ensures old(rows)[id].claimedBy != Some(d) ==> rows == old(rows)
      ensures old(rows)[id].claimedBy == Some(d) ==>
                && rows[id].attempts == attempts + 1 && rows[id].claimedBy.None? && rows[id].claimExpiresAt.None?
                && rows[id].poisoned == (old(rows)[id].poisoned || attempts + 1 >= maxAttempts)
                && (attempts + 1 < maxAttempts ==> rows[id].availableAt > now)
                && rows[id].published == old(rows)[id].published && rows[id].job == old(rows)[id].job
    {
      var next := attempts + 1;
      if rows[id].claimedBy == Some(d) {
        var row := rows[id].(attempts := next, claimedBy := None, claimExpiresAt := None);
        if next >= maxAttempts {
          row := row.(poisoned := true);
        } else {
          row := row.(availableAt := now + Pow2(next));
        }
        rows := rows[id := row];
      }
    }

    /** Publishes one row that was taken and adds to the two counters. `attempts` and `maxAttempts` are
        the dispatcher's copy from when it took the row; another dispatcher may have it by now. */
    method DispatchRow(d: DispatcherId, id: RowId, attempts: nat, maxAttempts: nat, now: int, delivered: bool)
      returns (published: nat, poisoned: nat)
      requires id < |rows|
      modifies this`rows
      ensures rows == old(rows)[id := if delivered then Marked(old(rows)[id], d)
                                      else FailureRecorded(old(rows)[id], d, attempts, maxAttempts, now)]
      ensures published == if delivered && old(rows)[id].claimedBy == Some(d) && !old(rows)[id].published then 1 else 0
      ensures poisoned == if !delivered && attempts + 1 >= maxAttempts then 1 else 0
    {
      published, poisoned := 0, 0;
      if delivered {
        published := MarkPublished(d, id);
      } else {
        RecordFailure(d, id, attempts, maxAttempts, now);
        if attempts + 1 >= maxAttempts {
          poisoned := 1;
        }
      }
    }

    /** One batch with no other dispatcher in between: claim, then publish and mark row by row. The
        publications of `delivered` succeed. */
    method DispatchBatch(d: DispatcherId, limit: nat, now: int, delivered: RowId -> bool)
      returns (claimed: seq<RowId>, published: nat, poisoned: nat)
      requires Valid()
      modifies this`rows
      ensures Valid() && |claimed| <= limit && FirstTakeable(old(rows), priorities, claimed, now)
      ensures |claimed| < limit ==> forall r: nat :: r < |rows| && Takeable(old(rows)[r], now) ==> r in claimed
      ensures forall r: nat :: r < |rows| ==>
                rows[r] == if r in claimed then Dispatched(old(rows)[r], d, delivered(r), now) else old(rows)[r]
      ensures published == CountOf(claimed, delivered)
      ensures poisoned == CountOf(claimed, LastFailures(old(rows), delivered))
    {
      ghost var before := rows;
      ghost var used := LastFailures(rows, delivered);
      claimed := ClaimBatch(d, limit, now);
      var copies := rows;
      published, poisoned := 0, 0;
      assert forall k :: 0 <= k < |claimed| ==> claimed[k] in claimed;
      for i := 0 to |claimed|
        invariant Dispatching(before, rows, claimed, i, d, delivered, now)
        invariant published == CountOf(claimed[..i], delivered)
        invariant poisoned == CountOf(claimed[..i], used)
      {
        CountNext(claimed, i, delivered);
        CountNext(claimed, i, used);
        DispatchingOn(before, rows, claimed, i, d, delivered, now);
        assert rows[claimed[i]] == copies[claimed[i]] == Taken(before[claimed[i]], d, now);
        var p, q := DispatchRow(d, claimed[i], copies[claimed[i]].attempts, copies[claimed[i]].maxAttempts, now, delivered(claimed[i]));
        published, poisoned := published + p, poisoned + q;
      }
      assert claimed[..|claimed|] == claimed;
    }
  }
}
