/**
 The tenant audit log: every record carries the hash of the record before it, and the verifier
 recomputes the chain. The digest and the redaction of details are parameters.
 */
module AuditChain {

  datatype AuditEvent = AuditEvent(
    tenantId: string, principalId: string, action: string, resourceType: string,
    resourceId: string, authorizationResult: string, outcome: string, correlationId: string,
    details: string)

  /** Everything that goes into a record's hash; the record's own id does not. */
  datatype Sealed = Sealed(event: AuditEvent, previousHash: string, createdAt: int)

  datatype AuditRecord = AuditRecord(id: string, content: Sealed, eventHash: string)

  type Digest = Sealed -> string

  ghost predicate CollisionFree(digest: Digest) {
    && (forall a, b :: digest(a) == digest(b) ==> a == b)
    && (forall a :: digest(a) != "")
  }

  /** The running hash that the verifier holds when it reaches position `i`. */
  function HashBefore(rows: seq<AuditRecord>, i: nat): string
    requires i <= |rows|
  {
    if i == 0 then "" else rows[i - 1].eventHash
  }

  predicate Linked(digest: Digest, rows: seq<AuditRecord>, i: nat)
    requires i < |rows|
  {
    && rows[i].content.previousHash == HashBefore(rows, i)
    && digest(rows[i].content) == rows[i].eventHash
  }

  predicate Verifies(digest: Digest, rows: seq<AuditRecord>) {
    forall i :: 0 <= i < |rows| ==> Linked(digest, rows, i)
  }

  /** Rows as the verifier's query returns them; rows of equal time come in any order. */
  predicate InTimeOrder(rows: seq<AuditRecord>) {
    forall i, j :: 0 <= i < j < |rows| ==> rows[i].content.createdAt <= rows[j].content.createdAt
  }

  /** Where a row created at `now` sorts among rows in time order. */
  function Position(rows: seq<AuditRecord>, now: int): (p: nat)
    ensures p <= |rows|
    ensures p < |rows| ==> now < rows[p].content.createdAt
    ensures p > 0 ==> rows[p - 1].content.createdAt <= now
  {
    var n := |rows|;
    if n == 0 || rows[n - 1].content.createdAt <= now then n else Position(rows[..n - 1], now)
  }

  function Insert(rows: seq<AuditRecord>, r: AuditRecord): seq<AuditRecord> {
    var p := Position(rows, r.content.createdAt);
    rows[..p] + [r] + rows[p..]
  }

  /** A row that is inserted joins the others, which stay as they are and in their order. */
  lemma InsertKeepsRows(rows: seq<AuditRecord>, r: AuditRecord)
    ensures var p, after := Position(rows, r.content.createdAt), Insert(rows, r);
            && after[..p] == rows[..p] && after[p..] == [r] + rows[p..]
            && |after| == |rows| + 1 && multiset(after) == multiset(rows) + multiset{r}
            && (forall i :: p <= i < |rows| ==> rows[i].content.createdAt > r.content.createdAt)
  {
    var p := Position(rows, r.content.createdAt);
    LaterRowsFollow(rows, r.content.createdAt);
    assert rows == rows[..p] + rows[p..];
    assert Insert(rows, r)[p..] == [r] + rows[p..];
  }

  lemma {:induction false} LaterRowsFollow(rows: seq<AuditRecord>, now: int)
    ensures forall i :: Position(rows, now) <= i < |rows| ==> now < rows[i].content.createdAt
  {
    var n := |rows|;
    if n > 0 && rows[n - 1].content.createdAt > now {
      LaterRowsFollow(rows[..n - 1], now);
      assert forall i :: 0 <= i < n - 1 ==> rows[..n - 1][i] == rows[i];
    }
  }

  /** A new record: linked to the row with the greatest timestamp. */
  function Seal(digest: Digest, rows: seq<AuditRecord>, id: string, event: AuditEvent, now: int): AuditRecord {
    var content := Sealed(event, HashBefore(rows, |rows|), now);
    AuditRecord(id, content, digest(content))
  }

  /** A place where the query may return a row created at `now`. */
  predicate Fits(rows: seq<AuditRecord>, now: int, p: nat) {
    && p <= |rows|
    && (forall i :: 0 <= i < p ==> rows[i].content.createdAt <= now)
    && (forall i :: p <= i < |rows| ==> now <= rows[i].content.createdAt)
  }

  /** A number of rows whose last one may be taken for the newest; none when there are none. */
  predicate Newest(rows: seq<AuditRecord>, q: nat) {
    && q <= |rows| && (q == 0 <==> rows == [])
    && (q > 0 ==> forall i :: 0 <= i < |rows| ==> rows[i].content.createdAt <= rows[q - 1].content.createdAt)
  }

  class AuditLog {
    const digest: Digest
    const redact: string -> string
    /** Each tenant's rows, ordered by creation time. */
    var chains: map<string, seq<AuditRecord>>

    function Chain(tenant: string): seq<AuditRecord>
      reads this
    {
      if tenant in chains then chains[tenant] else []
    }

    constructor (digest: Digest, redact: string -> string)
      ensures this.digest == digest && this.redact == redact && chains == map[]
    {
      this.digest := digest;
      this.redact := redact;
      chains := map[];
    }

    /** The row that the query for the newest returns, counted from 1; none when there are none. */
    method FindNewest(rows: seq<AuditRecord>) returns (q: nat)
      ensures Newest(rows, q)
    {
      q := 0;
      for i := 0 to |rows|
        invariant q <= i && (q == 0 <==> i == 0)
        invariant q > 0 ==> forall k :: 0 <= k < i ==> rows[k].content.createdAt <= rows[q - 1].content.createdAt
      {
        if q == 0 || rows[i].content.createdAt >= rows[q - 1].content.createdAt {
          q := i + 1;
        }
      }
    }

    /** One event of a transaction that already holds the records `own`; it becomes visible to others
        with the commit. */
    method Record(own: seq<AuditRecord>, id: string, event: AuditEvent, now: int) returns (record: AuditRecord, ghost q: nat)
      ensures Newest(Chain(event.tenantId) + own, q)
      ensures record == Seal(digest, (Chain(event.tenantId) + own)[..q], id, event.(details := redact(event.details)), now)
    {
      var rows := Chain(event.tenantId) + own;
      var newest := FindNewest(rows);
      q := newest;
      var previousHash := if newest == 0 then "" else rows[newest - 1].eventHash;
      var content := Sealed(event.(details := redact(event.details)), previousHash, now);
      record := AuditRecord(id, content, digest(content));
    }

    /** The row joins those that the tenant's queries return. */
    method Commit(record: AuditRecord)
      modifies this
      ensures chains == old(chains)[record.content.event.tenantId := Insert(old(Chain(record.content.event.tenantId)), record)]
      ensures var before, after := old(Chain(record.content.event.tenantId)), Chain(record.content.event.tenantId);
              exists p: nat :: p <= |before| && after[..p] == before[..p] && after[p..] == [record] + before[p..]
                               && (forall i :: p <= i < |before| ==> before[i].content.createdAt > record.content.createdAt)
                               && (p > 0 ==> before[p - 1].content.createdAt <= record.content.createdAt)
      ensures forall tenant :: tenant != record.content.event.tenantId ==> Chain(tenant) == old(Chain(tenant))
    {
      var tenant := record.content.event.tenantId;
      InsertKeepsRows(Chain(tenant), record);
      chains := chains[tenant := Insert(Chain(tenant), record)];
    }

    method VerifyChain(tenant: string) returns (accepted: bool)
      ensures accepted == Verifies(digest, Chain(tenant))
    {
      var rows := Chain(tenant);
      var previousHash := "";
      for i := 0 to |rows|
        invariant previousHash == HashBefore(rows, i)
        invariant forall k :: 0 <= k < i ==> Linked(digest, rows, k)
      {
        assert Linked(digest, rows, i) <==>
               rows[i].content.previousHash == previousHash && digest(rows[i].content) == rows[i].eventHash;
        if rows[i].content.previousHash != previousHash {
          return false;
        }
        if digest(rows[i].content) != rows[i].eventHash {
          return false;
        }
        previousHash := rows[i].eventHash;
      }
      return true;
    }
  }

  lemma PositionSplits(rows: seq<AuditRecord>, now: int)
    requires InTimeOrder(rows)
    ensures Fits(rows, now, Position(rows, now))
  {
  }

  lemma AppendedRecordIsLinked(digest: Digest, rows: seq<AuditRecord>, r: AuditRecord)
    requires Verifies(digest, rows)
    requires r.content.previousHash == HashBefore(rows, |rows|) && digest(r.content) == r.eventHash
    ensures Verifies(digest, rows + [r])
  {
    var after := rows + [r];
    forall i | 0 <= i < |after| ensures Linked(digest, after, i) {
      assert HashBefore(after, i) == HashBefore(rows, i);
      if i < |rows| {
        assert Linked(digest, rows, i);
      }
    }
  }

  // ---- Tamper evidence ----

  /** Two accepted chains that end in the same hash are the same chain, record by record, in
      everything that is hashed. */
  lemma {:induction false} LastHashDeterminesChain(digest: Digest, a: seq<AuditRecord>, b: seq<AuditRecord>)
    requires CollisionFree(digest)
    requires Verifies(digest, a) && Verifies(digest, b)
    requires HashBefore(a, |a|) == HashBefore(b, |b|)
    ensures |a| == |b|
    ensures forall i :: 0 <= i < |a| ==> a[i].content == b[i].content && a[i].eventHash == b[i].eventHash
    decreases |a|
  {
    if a != [] {
      assert Linked(digest, a, |a| - 1);
    }
    if b != [] {
      assert Linked(digest, b, |b| - 1);
    }
    if a != [] && b != [] {
      var m, n := |a| - 1, |b| - 1;
      assert a[m].content == b[n].content;
      PrefixVerifies(digest, a, m);
      PrefixVerifies(digest, b, n);
      assert HashBefore(a[..m], m) == HashBefore(a, m) && HashBefore(b[..n], n) == HashBefore(b, n);
      LastHashDeterminesChain(digest, a[..m], b[..n]);
      assert forall i :: 0 <= i < m ==> a[i] == a[..m][i] && b[i] == b[..m][i];
    }
  }

  lemma PrefixVerifies(digest: Digest, rows: seq<AuditRecord>, n: nat)
    requires Verifies(digest, rows) && n <= |rows|
    ensures Verifies(digest, rows[..n])
  {
    forall i | 0 <= i < n ensures Linked(digest, rows[..n], i) {
      assert Linked(digest, rows, i);
    }
  }

  lemma HashesAreDistinct(digest: Digest, rows: seq<AuditRecord>, i: nat, j: nat)
    requires CollisionFree(digest) && Verifies(digest, rows) && i <= |rows| && j <= |rows|
    ensures HashBefore(rows, i) == HashBefore(rows, j) ==> i == j
  {
    if HashBefore(rows, i) == HashBefore(rows, j) {
      PrefixVerifies(digest, rows, i);
      PrefixVerifies(digest, rows, j);
      LastHashDeterminesChain(digest, rows[..i], rows[..j]);
    }
  }

  // ---- One record ----

  function Placed(rows: seq<AuditRecord>, r: AuditRecord, p: nat): seq<AuditRecord>
    requires p <= |rows|
  {
    rows[..p] + [r] + rows[p..]
  }

  lemma MisplacedRecordBreaksChain(digest: Digest, rows: seq<AuditRecord>, r: AuditRecord, p: nat)
    requires CollisionFree(digest) && Verifies(digest, rows) && digest(r.content) == r.eventHash && p < |rows|
    ensures !Verifies(digest, Placed(rows, r, p))
  {
    var after := Placed(rows, r, p);
    assert after[p] == r && HashBefore(after, p) == HashBefore(rows, p);
    assert after[p + 1] == rows[p] && HashBefore(after, p + 1) == r.eventHash;
    assert Linked(digest, rows, p);
    if Linked(digest, after, p) && Linked(digest, after, p + 1) && p > 0 {
      assert Linked(digest, rows, p - 1);
      assert r.content == rows[p - 1].content;
      HashesAreDistinct(digest, rows, p, p - 1);
    }
  }

  /** Whatever row the record was linked to and wherever the query then returns it: the verifier accepts
      the chain exactly when the record was linked to the last row and comes after it. */
  lemma RecordKeepsChain(digest: Digest, rows: seq<AuditRecord>, r: AuditRecord, p: nat)
    requires CollisionFree(digest) && Verifies(digest, rows) && digest(r.content) == r.eventHash && p <= |rows|
    ensures Verifies(digest, Placed(rows, r, p)) <==> p == |rows| && r.content.previousHash == HashBefore(rows, |rows|)
  {
    if p < |rows| {
      MisplacedRecordBreaksChain(digest, rows, r, p);
    } else {
      assert Placed(rows, r, p) == rows + [r];
      if r.content.previousHash == HashBefore(rows, |rows|) {
        AppendedRecordIsLinked(digest, rows, r);
      } else {
        assert HashBefore(rows + [r], |rows|) == HashBefore(rows, |rows|);
        assert !Linked(digest, rows + [r], |rows|);
      }
    }
  }

  predicate IsLater(rows: seq<AuditRecord>, now: int) {
    rows == [] || rows[|rows| - 1].content.createdAt < now
  }

  ghost predicate AcceptedInAnyOrder(digest: Digest, rows: seq<AuditRecord>, r: AuditRecord) {
    forall p: nat :: Fits(rows, r.content.createdAt, p) ==> Verifies(digest, Placed(rows, r, p))
  }

  /** So the chain verifies whatever order the database gives to rows of equal time if and only if the
      record is linked to the row that is last when it is committed, and is later than that row. */
  lemma RecordIsSafeIffLinkedAndLater(digest: Digest, rows: seq<AuditRecord>, r: AuditRecord)
    requires CollisionFree(digest) && Verifies(digest, rows) && InTimeOrder(rows) && digest(r.content) == r.eventHash
    ensures AcceptedInAnyOrder(digest, rows, r)
       <==> r.content.previousHash == HashBefore(rows, |rows|) && IsLater(rows, r.content.createdAt)
  {
    var now := r.content.createdAt;
    if IsLater(rows, now) {
      forall p: nat | Fits(rows, now, p)
        ensures p == |rows| && (Verifies(digest, Placed(rows, r, p)) <==> r.content.previousHash == HashBefore(rows, |rows|))
      {
        RecordKeepsChain(digest, rows, r, p);
      }
      assert Fits(rows, now, |rows|);
    } else {
      var p := FirstPlace(rows, now);
      RecordKeepsChain(digest, rows, r, p);
    }
  }

  lemma {:induction false} FirstPlace(rows: seq<AuditRecord>, now: int) returns (p: nat)
    requires InTimeOrder(rows) && rows != [] && rows[|rows| - 1].content.createdAt >= now
    ensures Fits(rows, now, p) && p < |rows|
    decreases |rows|
  {
    var n := |rows| - 1;
    if n > 0 && rows[n - 1].content.createdAt >= now {
      p := FirstPlace(rows[..n], now);
      assert forall i :: 0 <= i < n ==> rows[..n][i] == rows[i];
    } else {
      p := n;
    }
  }

  // ---- Whole runs ----

  lemma LaterGoesLast(rows: seq<AuditRecord>, r: AuditRecord)
    requires rows == [] || rows[|rows| - 1].content.createdAt < r.content.createdAt
    ensures Insert(rows, r) == rows + [r]
  {
  }

  /** The id, event and time of one call. */
  type Call = (string, AuditEvent, int)

  /** A whole run of `record` calls, one tenant, given as events with their times. */
  function Build(digest: Digest, calls: seq<Call>): seq<AuditRecord> {
    if calls == [] then []
    else
      var n := |calls| - 1;
      var rows := Build(digest, calls[..n]);
      Insert(rows, Seal(digest, rows, calls[n].0, calls[n].1, calls[n].2))
  }

  predicate HoldsEach(rows: seq<AuditRecord>, calls: seq<Call>) {
    |rows| == |calls|
    && forall i :: 0 <= i < |rows| ==> (rows[i].id, rows[i].content.event, rows[i].content.createdAt) == calls[i]
  }

  lemma HoldsOneMore(rows: seq<AuditRecord>, calls: seq<Call>, r: AuditRecord)
    requires calls != [] && HoldsEach(rows, calls[..|calls| - 1])
    requires (r.id, r.content.event, r.content.createdAt) == calls[|calls| - 1]
    ensures HoldsEach(rows + [r], calls)
  {
    assert forall i :: 0 <= i < |rows| ==> (rows + [r])[i] == rows[i] && calls[..|calls| - 1][i] == calls[i];
  }

  /** With increasing times the chain is the list of the recorded events, in order. */
  lemma {:induction false} BuiltChainHolds(digest: Digest, calls: seq<Call>)
    requires forall i, j :: 0 <= i < j < |calls| ==> calls[i].2 < calls[j].2
    ensures HoldsEach(Build(digest, calls), calls)
  {
    if calls != [] {
      var n := |calls| - 1;
      BuiltChainHolds(digest, calls[..n]);
      var rows := Build(digest, calls[..n]);
      var r := Seal(digest, rows, calls[n].0, calls[n].1, calls[n].2);
      LaterGoesLast(rows, r);
      HoldsOneMore(rows, calls, r);
    }
  }

  /** The verifier accepts every chain that is built with increasing times. */
  lemma {:induction false} BuiltChainsVerify(digest: Digest, calls: seq<Call>)
    requires CollisionFree(digest)
    requires forall i, j :: 0 <= i < j < |calls| ==> calls[i].2 < calls[j].2
    ensures Verifies(digest, Build(digest, calls))
  {
    if calls != [] {
      var n := |calls| - 1;
      BuiltChainsVerify(digest, calls[..n]);
      BuiltChainHolds(digest, calls[..n]);
      var rows := Build(digest, calls[..n]);
      var r := Seal(digest, rows, calls[n].0, calls[n].1, calls[n].2);
      assert n > 0 ==> rows[n - 1].content.createdAt == calls[..n][n - 1].2;
      LaterGoesLast(rows, r);
      AppendedRecordIsLinked(digest, rows, r);
    }
  }
}
