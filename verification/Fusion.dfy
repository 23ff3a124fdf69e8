/**
 Reciprocal rank fusion: several ranked candidate lists become one, each candidate scored by the
 sum of 1/(k + rank) over its occurrences. Scores are exact.
 */
module Fusion {
  import opened Options
  import opened StringOrder

  /** What an index reports about a chunk. A key that is absent is None. */
  datatype Metadata = Metadata(
    tenantId: Option<string>, spaceId: Option<string>, documentId: Option<string>,
    versionId: Option<string>, generationId: Option<string>, aclTokens: set<string>,
    retrievalSources: set<string>)

  datatype Candidate = Candidate(
    chunkId: string, text: string, score: real, metadata: Metadata, source: string)

  type Ranking = seq<Candidate>

  // ---- What fusion should compute ----

  function Weight(k: nat, rank: nat): real
    requires k > 0
  {
    1.0 / ((k + rank) as real)
  }

  function ScoreIn(list: Ranking, k: nat, id: string): real
    requires k > 0
  {
    if list == [] then 0.0
    else
      var n := |list|;
      ScoreIn(list[..n - 1], k, id) + if list[n - 1].chunkId == id then Weight(k, n) else 0.0
  }

  function Score(lists: seq<Ranking>, k: nat, id: string): real
    requires k > 0
  {
    if lists == [] then 0.0
    else Score(lists[..|lists| - 1], k, id) + ScoreIn(lists[|lists| - 1], k, id)
  }

  function IdsIn(list: Ranking): set<string> {
    set c | c in list :: c.chunkId
  }

  function Ids(lists: seq<Ranking>): set<string> {
    if lists == [] then {} else Ids(lists[..|lists| - 1]) + IdsIn(lists[|lists| - 1])
  }

  /** The last occurrence of a chunk in a list. */
  function LastIn(list: Ranking, id: string): Option<Candidate> {
    if list == [] then None
    else
      var n := |list|;
      if list[n - 1].chunkId == id then Some(list[n - 1]) else LastIn(list[..n - 1], id)
  }

  function Last(lists: seq<Ranking>, id: string): Option<Candidate> {
    if lists == [] then None
    else
      var n := |lists|;
      match LastIn(lists[n - 1], id)
      case Some(c) => Some(c)
      case None => Last(lists[..n - 1], id)
  }

  function SourcesIn(list: Ranking, id: string): set<string> {
    set c | c in list && c.chunkId == id :: c.source
  }

  function Sources(lists: seq<Ranking>, id: string): set<string> {
    if lists == [] then {}
    else Sources(lists[..|lists| - 1], id) + SourcesIn(lists[|lists| - 1], id)
  }

  // ---- The final order ----

  /** Higher score first, then smaller id. */
  predicate Ahead(scores: map<string, real>, a: string, b: string)
    requires a in scores && b in scores
  {
    scores[a] > scores[b] || (scores[a] == scores[b] && Less(a, b))
  }

  predicate Distinct(ids: seq<string>) {
    forall i, j :: 0 <= i < j < |ids| ==> ids[i] != ids[j]
  }

  predicate Known(scores: map<string, real>, ids: seq<string>) {
    forall i :: 0 <= i < |ids| ==> ids[i] in scores
  }

  predicate Ordered(scores: map<string, real>, ids: seq<string>)
    requires Known(scores, ids)
  {
    forall i, j :: 0 <= i < j < |ids| ==> Ahead(scores, ids[i], ids[j])
  }

  function InsertId(scores: map<string, real>, ids: seq<string>, id: string): (r: seq<string>)
    requires Known(scores, ids) && id in scores
    ensures Known(scores, r)
    ensures multiset(r) == multiset(ids) + multiset{id}
  {
    if ids == [] || Ahead(scores, id, ids[0]) then
      assert [id] + ids == [id] + ids[..];
      [id] + ids
    else
      assert ids == [ids[0]] + ids[1..];
      [ids[0]] + InsertId(scores, ids[1..], id)
  }

  function SortIds(scores: map<string, real>, ids: seq<string>): (r: seq<string>)
    requires Known(scores, ids)
    ensures Known(scores, r)
    ensures multiset(r) == multiset(ids)
  {
    if ids == [] then [] else
      assert ids == [ids[0]] + ids[1..];
      InsertId(scores, SortIds(scores, ids[1..]), ids[0])
  }

  lemma AheadIsTotal(scores: map<string, real>, a: string, b: string)
    requires a in scores && b in scores && a != b
    ensures Ahead(scores, a, b) || Ahead(scores, b, a)
    ensures !(Ahead(scores, a, b) && Ahead(scores, b, a))
  {
    LessIsTotal(a, b);
  }

  lemma AheadIsTransitive(scores: map<string, real>, a: string, b: string, c: string)
    requires a in scores && b in scores && c in scores
    requires Ahead(scores, a, b) && Ahead(scores, b, c)
    ensures Ahead(scores, a, c)
  {
    if scores[a] == scores[b] == scores[c] {
      LessIsTransitive(a, b, c);
    }
  }

  lemma {:induction false} InsertKeepsOrder(scores: map<string, real>, ids: seq<string>, id: string)
    requires Known(scores, ids) && id in scores && id !in ids && Ordered(scores, ids)
    ensures Ordered(scores, InsertId(scores, ids, id))
  {
    if ids == [] {
    } else if Ahead(scores, id, ids[0]) {
      forall j | 0 < j < |ids| ensures Ahead(scores, id, ids[j]) {
        AheadIsTransitive(scores, id, ids[0], ids[j]);
      }
    } else {
      AheadIsTotal(scores, id, ids[0]);
      InsertKeepsOrder(scores, ids[1..], id);
      var r := InsertId(scores, ids[1..], id);
      forall j | 0 <= j < |r| ensures Ahead(scores, ids[0], r[j]) {
        assert r[j] in multiset(r);
        assert r[j] in ids[1..] || r[j] == id;
      }
    }
  }

  lemma {:induction false} SortOrders(scores: map<string, real>, ids: seq<string>)
    requires Known(scores, ids) && Distinct(ids)
    ensures Ordered(scores, SortIds(scores, ids))
  {
    if ids != [] {
      SortOrders(scores, ids[1..]);
      var r := SortIds(scores, ids[1..]);
      assert ids[0] !in ids[1..];
      assert ids[0] !in multiset(r);
      InsertKeepsOrder(scores, r, ids[0]);
    }
  }

  lemma HeadsAgree(scores: map<string, real>, a: seq<string>, b: seq<string>)
    requires Known(scores, a) && Known(scores, b) && Ordered(scores, a) && Ordered(scores, b)
    requires a != [] && b != [] && a[0] in b && b[0] in a
    ensures a[0] == b[0]
  {
    var i :| 0 <= i < |b| && b[i] == a[0];
    var j :| 0 <= j < |a| && a[j] == b[0];
    if i > 0 && j > 0 {
      assert Ahead(scores, b[0], b[i]) && Ahead(scores, a[0], a[j]);
      LessIsTotal(a[0], b[0]);
    }
  }

  lemma DropHead(a: seq<string>)
    requires a != []
    ensures multiset(a[1..]) == multiset(a) - multiset{a[0]}
  {
    assert a == [a[0]] + a[1..];
  }

  /** The order is total, so the set of ids and their scores fix the sequence. */
  lemma {:induction false} OrderIsUnique(scores: map<string, real>, a: seq<string>, b: seq<string>)
    requires Known(scores, a) && Known(scores, b) && Ordered(scores, a) && Ordered(scores, b)
    requires multiset(a) == multiset(b)
    ensures a == b
  {
    assert |multiset(a)| == |a| && |multiset(b)| == |b|;
    if a != [] {
      assert a[0] in multiset(a) && b[0] in multiset(b);
      HeadsAgree(scores, a, b);
      DropHead(a);
      DropHead(b);
      OrderIsUnique(scores, a[1..], b[1..]);
      assert a == [a[0]] + a[1..] && b == [b[0]] + b[1..];
    }
  }

  // ---- The loop ----

  /** The dictionaries the loop fills; `order` is the insertion order of their keys. */
  datatype Tally = Tally(order: seq<string>, scores: map<string, real>,
                         byId: map<string, Candidate>, sources: map<string, set<string>>)

  function Absorb(k: nat, t: Tally, c: Candidate, rank: nat): Tally
    requires k > 0
  {
    var id := c.chunkId;
    Tally(if id in t.scores then t.order else t.order + [id],
          t.scores[id := (if id in t.scores then t.scores[id] else 0.0) + Weight(k, rank)],
          t.byId[id := c],
          t.sources[id := (if id in t.sources then t.sources[id] else {}) + {c.source}])
  }

  function AbsorbList(k: nat, t: Tally, list: Ranking): Tally
    requires k > 0
  {
    if list == [] then t
    else Absorb(k, AbsorbList(k, t, list[..|list| - 1]), list[|list| - 1], |list|)
  }

  function TallyOf(k: nat, lists: seq<Ranking>): Tally
    requires k > 0
  {
    if lists == [] then Tally([], map[], map[], map[])
    else AbsorbList(k, TallyOf(k, lists[..|lists| - 1]), lists[|lists| - 1])
  }

  /** The nested loops over lists and ranks. */
  method Accumulate(lists: seq<Ranking>, k: nat) returns (t: Tally)
    requires k > 0
    ensures t == TallyOf(k, lists)
  {
    var order: seq<string> := [];
    var scores: map<string, real> := map[];
    var byId: map<string, Candidate> := map[];
    var sources: map<string, set<string>> := map[];
    for i := 0 to |lists|
      invariant Tally(order, scores, byId, sources) == TallyOf(k, lists[..i])
    {
      var list := lists[i];
      assert lists[..i + 1][..i] == lists[..i];
      for j := 0 to |list|
        invariant Tally(order, scores, byId, sources) == AbsorbList(k, TallyOf(k, lists[..i]), list[..j])
      {
        assert list[..j + 1][..j] == list[..j];
        var id := list[j].chunkId;
        if id !in scores {
          order := order + [id];
        }
        scores := scores[id := (if id in scores then scores[id] else 0.0) + Weight(k, j + 1)];
        byId := byId[id := list[j]];
        sources := sources[id := (if id in sources then sources[id] else {}) + {list[j].source}];
      }
      assert list[..|list|] == list;
    }
    assert lists[..|lists|] == lists;
    t := Tally(order, scores, byId, sources);
  }

  ghost predicate Keyed(t: Tally) {
    && Distinct(t.order)
    && t.scores.Keys == t.byId.Keys == t.sources.Keys
    && forall id :: id in t.order <==> id in t.scores
  }

  lemma AbsorbKeys(k: nat, t: Tally, c: Candidate, rank: nat)
    requires k > 0 && Keyed(t)
    ensures Keyed(Absorb(k, t, c, rank))
    ensures Absorb(k, t, c, rank).scores.Keys == t.scores.Keys + {c.chunkId}
  {
  }

  lemma IdsInNext(list: Ranking)
    requires list != []
    ensures IdsIn(list) == IdsIn(list[..|list| - 1]) + {list[|list| - 1].chunkId}
  {
    assert list == list[..|list| - 1] + [list[|list| - 1]];
  }

  lemma {:induction false} ListKeys(k: nat, t: Tally, list: Ranking)
    requires k > 0 && Keyed(t)
    ensures Keyed(AbsorbList(k, t, list))
    ensures AbsorbList(k, t, list).scores.Keys == t.scores.Keys + IdsIn(list)
  {
    if list != [] {
      var n := |list| - 1;
      ListKeys(k, t, list[..n]);
      AbsorbKeys(k, AbsorbList(k, t, list[..n]), list[n], |list|);
      IdsInNext(list);
    }
  }

  lemma {:induction false} TallyKeys(k: nat, lists: seq<Ranking>)
    requires k > 0
    ensures Keyed(TallyOf(k, lists)) && TallyOf(k, lists).scores.Keys == Ids(lists)
  {
    if lists != [] {
      TallyKeys(k, lists[..|lists| - 1]);
      ListKeys(k, TallyOf(k, lists[..|lists| - 1]), lists[|lists| - 1]);
    }
  }

  function Scored(t: Tally, id: string): real {
    if id in t.scores then t.scores[id] else 0.0
  }

  function Found(t: Tally, id: string): Option<Candidate> {
    if id in t.byId then Some(t.byId[id]) else None
  }

  function Sourced(t: Tally, id: string): set<string> {
    if id in t.sources then t.sources[id] else {}
  }

  lemma {:induction false} ListEntry(k: nat, t: Tally, list: Ranking, id: string)
    requires k > 0
    ensures var after := AbsorbList(k, t, list);
            && Scored(after, id) == Scored(t, id) + ScoreIn(list, k, id)
            && Found(after, id) == (if LastIn(list, id).Some? then LastIn(list, id) else Found(t, id))
            && Sourced(after, id) == Sourced(t, id) + SourcesIn(list, id)
  {
    if list != [] {
      var n := |list| - 1;
      ListEntry(k, t, list[..n], id);
      SourcesOfNext(list[..n], list[n], id);
      assert list == list[..n] + [list[n]];
    }
  }

  lemma SourcesOfNext(list: Ranking, c: Candidate, id: string)
    ensures SourcesIn(list + [c], id) == SourcesIn(list, id) + if c.chunkId == id then {c.source} else {}
  {
    assert forall x :: x in list + [c] <==> x in list || x == c;
  }

  /** The dictionaries hold the specified score, last occurrence and sources of every id. */
  lemma {:induction false} TallyEntry(k: nat, lists: seq<Ranking>, id: string)
    requires k > 0
    ensures var t := TallyOf(k, lists);
            && Scored(t, id) == Score(lists, k, id)
            && Found(t, id) == Last(lists, id)
            && Sourced(t, id) == Sources(lists, id)
  {
    if lists != [] {
      var n := |lists| - 1;
      TallyEntry(k, lists[..n], id);
      ListEntry(k, TallyOf(k, lists[..n]), lists[n], id);
    }
  }

  /** What one fused entry says about its chunk. */
  ghost predicate FusedEntry(lists: seq<Ranking>, k: nat, entry: Candidate)
    requires k > 0
  {
    var last := Last(lists, entry.chunkId);
    && last.Some?
    && entry.chunkId == last.value.chunkId && entry.source == "fusion"
    && entry.score == Score(lists, k, entry.chunkId)
    && entry.text == last.value.text
    && entry.metadata == last.value.metadata.(retrievalSources := Sources(lists, entry.chunkId))
  }

  predicate Precedes(a: Candidate, b: Candidate) {
    a.score > b.score || (a.score == b.score && Less(a.chunkId, b.chunkId))
  }

  function Entry(t: Tally, id: string): Candidate
    requires id in t.scores && id in t.byId && id in t.sources
  {
    Candidate(t.byId[id].chunkId, t.byId[id].text, t.scores[id],
              t.byId[id].metadata.(retrievalSources := t.sources[id]), "fusion")
  }

  function Emit(t: Tally, ids: seq<string>): (fused: Ranking)
    requires forall m :: 0 <= m < |ids| ==> ids[m] in t.scores && ids[m] in t.byId && ids[m] in t.sources
    ensures |fused| == |ids| && forall m :: 0 <= m < |ids| ==> fused[m] == Entry(t, ids[m])
  {
    seq(|ids|, m requires 0 <= m < |ids| => Entry(t, ids[m]))
  }

  function Fused(lists: seq<Ranking>, k: nat): Ranking
    requires k > 0
  {
    var t := TallyOf(k, lists);
    TallyKeys(k, lists);
    Emit(t, SortIds(t.scores, t.order))
  }

  method Fuse(lists: seq<Ranking>, k: nat) returns (fused: Ranking)
    requires k > 0
    ensures fused == Fused(lists, k)
  {
    var t := Accumulate(lists, k);
    TallyKeys(k, lists);
    fused := Emit(t, SortIds(t.scores, t.order));
  }

  /** The fused ranking: every id of the input lists once, each with the score, text and metadata it
      should have, in strictly descending order of (score, then smaller id first). */
  lemma FusionMeetsSpecification(lists: seq<Ranking>, k: nat)
    requires k > 0
    ensures var fused := Fused(lists, k);
            && NoRepeats(fused) && IdsIn(fused) == Ids(lists)
            && (forall i :: 0 <= i < |fused| ==> FusedEntry(lists, k, fused[i]))
            && (forall i, j :: 0 <= i < j < |fused| ==> Precedes(fused[i], fused[j]))
  {
    var t := TallyOf(k, lists);
    TallyKeys(k, lists);
    var sorted := SortIds(t.scores, t.order);
    SameMembers(sorted, t.order);
    SortOrders(t.scores, t.order);
    EmittedEntries(k, lists, sorted, Fused(lists, k));
    EmittedOrder(t.scores, sorted, Fused(lists, k));
  }

  /** Each emitted entry is the one its chunk should have. */
  lemma EmittedEntries(k: nat, lists: seq<Ranking>, sorted: seq<string>, fused: Ranking)
    requires k > 0 && |fused| == |sorted|
    requires var t := TallyOf(k, lists);
             && Keyed(t)
             && forall m :: 0 <= m < |sorted| ==> sorted[m] in t.scores && fused[m] == Entry(t, sorted[m])
    ensures forall m :: 0 <= m < |sorted| ==>
              && fused[m].chunkId == sorted[m]
              && fused[m].score == TallyOf(k, lists).scores[sorted[m]]
              && FusedEntry(lists, k, fused[m])
  {
    forall m | 0 <= m < |sorted|
      ensures fused[m].chunkId == sorted[m] && FusedEntry(lists, k, fused[m])
    {
      TallyEntry(k, lists, sorted[m]);
      LastHasId(lists, sorted[m]);
    }
  }

  lemma EmittedOrder(scores: map<string, real>, sorted: seq<string>, fused: Ranking)
    requires |fused| == |sorted| && Known(scores, sorted) && Ordered(scores, sorted)
    requires forall m :: 0 <= m < |sorted| ==>
               fused[m].chunkId == sorted[m] && fused[m].score == scores[sorted[m]]
    requires forall id :: id in sorted <==> id in scores
    ensures NoRepeats(fused) && IdsIn(fused) == scores.Keys
    ensures forall i, j :: 0 <= i < j < |fused| ==> Precedes(fused[i], fused[j])
  {
    OrderedIsDistinct(scores, sorted);
    FusedIds(fused, sorted);
    forall i, j | 0 <= i < j < |fused| ensures Precedes(fused[i], fused[j]) {
      assert Ahead(scores, sorted[i], sorted[j]);
    }
  }

  lemma SameMembers(a: seq<string>, b: seq<string>)
    requires multiset(a) == multiset(b)
    ensures forall id :: id in a <==> id in b
  {
    assert forall id :: id in a <==> id in multiset(a);
    assert forall id :: id in b <==> id in multiset(b);
  }

  lemma FusedIds(fused: Ranking, sorted: seq<string>)
    requires |fused| == |sorted|
    requires forall m :: 0 <= m < |sorted| ==> fused[m].chunkId == sorted[m]
    ensures forall id :: id in IdsIn(fused) <==> id in sorted
  {
    forall id | id in sorted ensures id in IdsIn(fused) {
      var m :| 0 <= m < |sorted| && sorted[m] == id;
      assert fused[m] in fused;
    }
  }

  lemma {:induction false} LastHasId(lists: seq<Ranking>, id: string)
    ensures Last(lists, id).Some? ==> Last(lists, id).value.chunkId == id
    ensures Last(lists, id).Some? ==> exists l :: l in lists && Last(lists, id).value in l
  {
    if lists != [] {
      LastInHasId(lists[|lists| - 1], id);
      LastHasId(lists[..|lists| - 1], id);
    }
  }

  lemma OrderedIsDistinct(scores: map<string, real>, ids: seq<string>)
    requires Known(scores, ids) && Ordered(scores, ids)
    ensures Distinct(ids)
  {
    forall i, j | 0 <= i < j < |ids| ensures ids[i] != ids[j] {
      LessIsTotal(ids[i], ids[j]);
    }
  }

  lemma {:induction false} AbsentIn(list: Ranking, k: nat, id: string)
    requires k > 0 && id !in IdsIn(list)
    ensures ScoreIn(list, k, id) == 0.0
  {
    if list != [] {
      var n := |list|;
      assert list[n - 1] in list;
      assert forall c :: c in list[..n - 1] ==> c in list;
      AbsentIn(list[..n - 1], k, id);
    }
  }

  lemma {:induction false} LastInHasId(list: Ranking, id: string)
    ensures var last := LastIn(list, id); last.Some? ==> last.value in list && last.value.chunkId == id
  {
    if list != [] {
      LastInHasId(list[..|list| - 1], id);
    }
  }

  // ---- The order of the lists does not matter ----

  lemma {:induction false} MoveToEnd(lists: seq<Ranking>, i: nat, k: nat, id: string)
    requires k > 0 && i < |lists|
    ensures Score(lists, k, id) == Score(lists[..i] + lists[i + 1..], k, id) + ScoreIn(lists[i], k, id)
  {
    var n := |lists| - 1;
    if i < n {
      MoveToEnd(lists[..n], i, k, id);
      var rest := lists[..i] + lists[i + 1..];
      assert rest[..|rest| - 1] == lists[..n][..i] + lists[..n][i + 1..];
      assert rest[|rest| - 1] == lists[n];
    } else {
      assert lists[..i] + lists[i + 1..] == lists[..n];
    }
  }

  lemma TakeOut(b: seq<Ranking>, l: Ranking) returns (i: nat)
    requires l in b
    ensures i < |b| && b[i] == l && multiset(b[..i] + b[i + 1..]) == multiset(b) - multiset{l}
  {
    i :| i < |b| && b[i] == l;
    assert b == b[..i] + [b[i]] + b[i + 1..];
  }

  lemma {:induction false} ScoreIgnoresListOrder(a: seq<Ranking>, b: seq<Ranking>, k: nat, id: string)
    requires k > 0 && multiset(a) == multiset(b)
    ensures Score(a, k, id) == Score(b, k, id)
    decreases |a|
  {
    assert |multiset(a)| == |a| && |multiset(b)| == |b|;
    if a != [] {
      var n := |a| - 1;
      assert a[n] in multiset(b);
      var i := TakeOut(b, a[n]);
      assert multiset(a[..n]) == multiset(a) - multiset{a[n]} by {
        assert a == a[..n] + [a[n]];
      }
      MoveToEnd(b, i, k, id);
      ScoreIgnoresListOrder(a[..n], b[..i] + b[i + 1..], k, id);
    }
  }

  lemma {:induction false} IdsAreMembers(lists: seq<Ranking>, id: string)
    ensures id in Ids(lists) <==> exists l :: l in lists && id in IdsIn(l)
  {
    if lists != [] {
      var n := |lists| - 1;
      IdsAreMembers(lists[..n], id);
      assert lists == lists[..n] + [lists[n]];
      assert lists[n] in lists;
    }
  }

  function IdsAndScores(fused: Ranking): seq<(string, real)> {
    seq(|fused|, i requires 0 <= i < |fused| => (fused[i].chunkId, fused[i].score))
  }

  /** Fusing the same lists in another order gives the same ids with the same scores in the same
      places. */
  lemma RankingIgnoresListOrder(a: seq<Ranking>, b: seq<Ranking>, k: nat)
    requires k > 0 && multiset(a) == multiset(b)
    ensures IdsAndScores(Fused(a, k)) == IdsAndScores(Fused(b, k))
  {
    SameScores(a, b, k);
    TallyKeys(k, a);
    TallyKeys(k, b);
    var s, t := TallyOf(k, a), TallyOf(k, b);
    SortOrders(s.scores, s.order);
    SortOrders(t.scores, t.order);
    DistinctMultiset(s.order, t.order);
    OrderIsUnique(s.scores, SortIds(s.scores, s.order), SortIds(t.scores, t.order));
    EmittedEntries(k, a, SortIds(s.scores, s.order), Fused(a, k));
    EmittedEntries(k, b, SortIds(t.scores, t.order), Fused(b, k));
  }

  lemma SameIds(a: seq<Ranking>, b: seq<Ranking>)
    requires multiset(a) == multiset(b)
    ensures Ids(a) == Ids(b)
  {
    assert forall l :: l in a <==> l in multiset(a);
    assert forall l :: l in b <==> l in multiset(b);
    forall id ensures id in Ids(a) <==> id in Ids(b) {
      IdsAreMembers(a, id);
      IdsAreMembers(b, id);
    }
  }

  lemma SameScore(a: seq<Ranking>, b: seq<Ranking>, k: nat, id: string)
    requires k > 0 && multiset(a) == multiset(b)
    ensures Scored(TallyOf(k, a), id) == Scored(TallyOf(k, b), id)
  {
    TallyEntry(k, a, id);
    TallyEntry(k, b, id);
    ScoreIgnoresListOrder(a, b, k, id);
  }

  lemma SameScores(a: seq<Ranking>, b: seq<Ranking>, k: nat)
    requires k > 0 && multiset(a) == multiset(b)
    ensures TallyOf(k, a).scores == TallyOf(k, b).scores
  {
    TallyKeys(k, a);
    TallyKeys(k, b);
    SameIds(a, b);
    forall id | id in Ids(a) ensures TallyOf(k, a).scores[id] == TallyOf(k, b).scores[id] {
      SameScore(a, b, k, id);
    }
  }

  lemma {:induction false} DistinctMultiset(a: seq<string>, b: seq<string>)
    requires Distinct(a) && Distinct(b) && forall x :: x in a <==> x in b
    ensures multiset(a) == multiset(b)
  {
    forall x ensures multiset(a)[x] == multiset(b)[x] {
      DistinctCount(a, x);
      DistinctCount(b, x);
    }
  }

  lemma {:induction false} DistinctCount(a: seq<string>, x: string)
    requires Distinct(a)
    ensures multiset(a)[x] == if x in a then 1 else 0
  {
    if a != [] {
      DistinctCount(a[1..], x);
      assert a == [a[0]] + a[1..];
    }
  }

  // ---- Dominance ----

  predicate Ranks(list: Ranking, id: string, position: nat) {
    position < |list| && list[position].chunkId == id
  }

  predicate NoRepeats(list: Ranking) {
    forall i, j :: 0 <= i < j < |list| ==> list[i].chunkId != list[j].chunkId
  }

  lemma {:induction false} ScoreOfPosition(list: Ranking, k: nat, id: string, position: nat)
    requires k > 0 && NoRepeats(list) && Ranks(list, id, position)
    ensures ScoreIn(list, k, id) == Weight(k, position + 1)
  {
    var n := |list| - 1;
    if position == n {
      assert forall c :: c in list[..n] ==> c.chunkId != id;
      AbsentIn(list[..n], k, id);
    } else {
      ScoreOfPosition(list[..n], k, id, position);
    }
  }

  /** The fused score of a chunk at the places `p` and `q`, counted from 1, of two lists without repeats is
      1/(k + p) + 1/(k + q); a list in which it does not occur adds nothing. */
  lemma TwoListScore(a: Ranking, b: Ranking, k: nat, id: string, p: nat, q: nat, c: Candidate)
    requires k > 0 && NoRepeats(a) && NoRepeats(b) && c in Fused([a, b], k) && c.chunkId == id
    requires if p == 0 then id !in IdsIn(a) else Ranks(a, id, p - 1)
    requires if q == 0 then id !in IdsIn(b) else Ranks(b, id, q - 1)
    ensures c.score == (if p == 0 then 0.0 else 1.0 / ((k + p) as real)) + if q == 0 then 0.0 else 1.0 / ((k + q) as real)
  {
    FusionMeetsSpecification([a, b], k);
    var i :| 0 <= i < |Fused([a, b], k)| && Fused([a, b], k)[i] == c;
    assert FusedEntry([a, b], k, c);
    assert [a, b][..1] == [a] && [a][..0] == [];
    assert Score([a, b], k, id) == Score([a], k, id) + ScoreIn(b, k, id);
    assert Score([a], k, id) == Score([], k, id) + ScoreIn(a, k, id);
    ListScore(a, k, id, p);
    ListScore(b, k, id, q);
  }

  lemma ListScore(list: Ranking, k: nat, id: string, p: nat)
    requires k > 0 && NoRepeats(list)
    requires if p == 0 then id !in IdsIn(list) else Ranks(list, id, p - 1)
    ensures ScoreIn(list, k, id) == if p == 0 then 0.0 else 1.0 / ((k + p) as real)
  {
    if p == 0 {
      AbsentIn(list, k, id);
    } else {
      ScoreOfPosition(list, k, id, p - 1);
    }
  }

  lemma {:induction false} ScoreInNonNegative(list: Ranking, k: nat, id: string)
    requires k > 0
    ensures ScoreIn(list, k, id) >= 0.0
  {
    if list != [] {
      ScoreInNonNegative(list[..|list| - 1], k, id);
    }
  }

  lemma WeightDecreases(k: nat, i: nat, j: nat)
    requires k > 0 && i < j
    ensures Weight(k, i) > Weight(k, j)
  {
    var x, y := (k + i) as real, (k + j) as real;
    assert 1.0 / x - 1.0 / y == (y - x) / (x * y);
  }

  /** `a` beats `b` in a list: `b` is not there, or `a` is there before it. */
  ghost predicate Beats(list: Ranking, a: string, b: string) {
    b !in IdsIn(list) || exists i: nat, j: nat :: Ranks(list, a, i) && Ranks(list, b, j) && i < j
  }

  lemma BeatsInScore(list: Ranking, k: nat, a: string, b: string)
    requires k > 0 && NoRepeats(list) && Beats(list, a, b)
    ensures ScoreIn(list, k, a) >= ScoreIn(list, k, b)
    ensures b in IdsIn(list) ==> ScoreIn(list, k, a) > ScoreIn(list, k, b)
  {
    if b !in IdsIn(list) {
      AbsentIn(list, k, b);
      ScoreInNonNegative(list, k, a);
    } else {
      var i: nat, j: nat :| Ranks(list, a, i) && Ranks(list, b, j) && i < j;
      ScoreOfPosition(list, k, a, i);
      ScoreOfPosition(list, k, b, j);
      WeightDecreases(k, i + 1, j + 1);
    }
  }

  /** A candidate that beats another in every list where the other occurs is fused ahead of it. */
  lemma {:induction false} DominanceWins(lists: seq<Ranking>, k: nat, a: string, b: string)
    requires k > 0
    requires forall l :: l in lists ==> NoRepeats(l) && Beats(l, a, b)
    ensures Score(lists, k, a) >= Score(lists, k, b)
    ensures b in Ids(lists) ==> Score(lists, k, a) > Score(lists, k, b)
  {
    if lists != [] {
      var n := |lists| - 1;
      assert lists[n] in lists;
      assert forall l :: l in lists[..n] ==> l in lists;
      DominanceWins(lists[..n], k, a, b);
      BeatsInScore(lists[n], k, a, b);
    }
  }

  /** In terms of the fused ranking: the winner comes first. */
  lemma DominantComesFirst(lists: seq<Ranking>, k: nat, a: string, b: string, i: nat, j: nat)
    requires k > 0
    requires forall l :: l in lists ==> NoRepeats(l) && Beats(l, a, b)
    requires Ranks(Fused(lists, k), a, i) && Ranks(Fused(lists, k), b, j)
    ensures i < j
  {
    var fused := Fused(lists, k);
    FusionMeetsSpecification(lists, k);
    assert j < i ==> Precedes(fused[j], fused[i]);
    DominanceWins(lists, k, a, b);
    assert fused[j] in fused;
    assert FusedEntry(lists, k, fused[i]) && FusedEntry(lists, k, fused[j]);
  }

  /** Every fused score is at least the weight of the worst rank. */
  lemma {:induction false} ScoreFloor(lists: seq<Ranking>, k: nat, topK: nat, id: string)
    requires k > 0 && id in Ids(lists)
    requires forall l :: l in lists ==> |l| <= topK
    ensures Score(lists, k, id) >= Weight(k, topK)
  {
    var n := |lists| - 1;
    assert lists[n] in lists;
    assert forall l :: l in lists[..n] ==> l in lists;
    ScoreNonNegative(lists[..n], k, id);
    ScoreInNonNegative(lists[n], k, id);
    if id in IdsIn(lists[n]) {
      ScoreInFloor(lists[n], k, topK, id);
    } else {
      ScoreFloor(lists[..n], k, topK, id);
    }
  }

  lemma {:induction false} ScoreNonNegative(lists: seq<Ranking>, k: nat, id: string)
    requires k > 0
    ensures Score(lists, k, id) >= 0.0
  {
    if lists != [] {
      ScoreNonNegative(lists[..|lists| - 1], k, id);
      ScoreInNonNegative(lists[|lists| - 1], k, id);
    }
  }

  lemma {:induction false} ScoreInFloor(list: Ranking, k: nat, topK: nat, id: string)
    requires k > 0 && |list| <= topK && id in IdsIn(list)
    ensures ScoreIn(list, k, id) >= Weight(k, topK)
  {
    var n := |list| - 1;
    ScoreInNonNegative(list[..n], k, id);
    if list[n].chunkId == id {
      if n + 1 < topK {
        WeightDecreases(k, n + 1, topK);
      }
    } else {
      assert list == list[..n] + [list[n]];
      ScoreInFloor(list[..n], k, topK, id);
    }
  }
}
