/**
 What retrieval can see of a document, over all interleavings of attempts, rollbacks and removals: it
 is the complete chunk set of the active generation, exactly until one of three writes goes wrong.
 */
module Visibility {
  import opened Options
  import opened Publication

  /** The chunks that pass retrieval's join are the whole active generation; none before there is one. */
  ghost predicate ShowsActiveGeneration(d: Document) {
    match d.activeGeneration
    case None => VisibleChunks(d) == {}
    case Some(g) =>
      && g in d.generations
      && VisibleChunks(d) == AllChunks(g, d.generations[g].chunkCount)
      && |VisibleChunks(d)| == d.generations[g].chunkCount > 0
  }

  /** A switch to `v` leaves the version pointer alone because the session had read `v` there, while
      another session has moved it. */
  predicate LeavesPointer(d: Document, loaded: Option<VersionId>, v: VersionId) {
    loaded == Some(v) && d.activeVersion != Some(v)
  }

  /** The writes that hide the document, each with its guard. */
  predicate Blinds(d: Document, step: Step)
    requires Enabled(d, step)
  {
    match step
    case Publish(s, _, _) => LeavesPointer(d, d.attempts[s].loadedVersion, d.attempts[s].version)
    case CommitRollback(s, _) =>
      var p := d.pending[s];
      Lands(d, p) && (p.target !in d.generations || LeavesPointer(d, p.loadedVersion, p.version))
    case Remove(s) => d.activeGeneration == Some(d.pending[s].target)
    case _ => false
  }

  /** A chunk that passes the join is flagged, of the version that is pointed to, and of the generation that
      is pointed to if there is one; and each such chunk passes. */
  lemma VisibleChunksPassTheJoin(d: Document, key: ChunkKey)
    ensures key in VisibleChunks(d) <==>
              key in d.chunks && var chunk := d.chunks[key];
              && chunk.active && d.activeVersion.Some? && chunk.version == d.activeVersion.value
              && (d.activeGeneration.Some? ==> key.generation == d.activeGeneration.value)
  {
  }

  // ---- The invariant ----

  ghost predicate Complete(d: Document, g: GenerationId)
    requires g in d.generations
  {
    && d.generations[g].chunkCount > 0
    && forall i: nat :: ChunkKey(g, i) in d.chunks <==> i < d.generations[g].chunkCount
  }

  ghost predicate PointersAgree(d: Document) {
    && (d.activeGeneration.None? <==> d.activeVersion.None?)
    && (d.activeGeneration.Some? ==>
          && d.activeGeneration.value in d.generations
          && d.activeVersion == Some(d.generations[d.activeGeneration.value].version))
  }

  ghost predicate ChunkRows(d: Document) {
    forall key :: key in d.chunks ==>
      && key.generation in d.generations
      && d.chunks[key].version == d.generations[key.generation].version
      && (d.activeGeneration == Some(key.generation) ==> d.chunks[key].active)
  }

  ghost predicate CompleteRows(d: Document) {
    forall g :: g in d.generations && d.generations[g].state != GenerationFailed ==> Complete(d, g)
  }

  /** The id was given out, is not that of an open attempt, and its generation has not failed. */
  predicate Proper(d: Document, g: GenerationId) {
    && g in d.issued
    && (forall s :: s in d.attempts ==> g != d.attempts[s].generation)
    && (g in d.generations ==> d.generations[g].state != GenerationFailed)
  }

  predicate ProperIfAny(d: Document, g: Option<GenerationId>) {
    g.Some? ==> Proper(d, g.value)
  }

  ghost predicate AttemptKnown(d: Document, a: Attempt) {
    a.generation in d.issued && a.generation !in d.generations && ProperIfAny(d, a.loadedGeneration)
  }

  ghost predicate IdsKnown(d: Document) {
    && (forall g :: g in d.generations ==> g in d.issued)
    && ProperIfAny(d, d.activeGeneration)
    && (forall s :: s in d.attempts ==> AttemptKnown(d, d.attempts[s]))
    && (forall s, t :: s in d.attempts && t in d.attempts && s != t ==>
          d.attempts[s].generation != d.attempts[t].generation)
  }

  predicate HasPointers(p: Pending) {
    p.DocumentRead? || p.NumberRead? || p.PointersRead? || p.TargetRead? || p.Restoring?
  }

  predicate HasTarget(p: Pending) {
    p.TargetRead? || p.Restoring?
  }

  ghost predicate Known(d: Document, p: Pending) {
    && (HasPointers(p) ==> ProperIfAny(d, p.loadedGeneration))
    && (HasTarget(p) ==>
          Proper(d, p.target) && (p.target in d.generations ==> d.generations[p.target].version == p.version))
  }

  ghost predicate PendingKnown(d: Document) {
    forall s :: s in d.pending ==> Known(d, d.pending[s])
  }

  ghost predicate RowsAgree(d: Document) {
    PointersAgree(d) && ChunkRows(d) && CompleteRows(d) && IdsKnown(d) && PendingKnown(d)
  }

  // ---- What the invariant is for ----

  lemma {:induction false} AllChunksCount(g: GenerationId, n: nat)
    ensures |AllChunks(g, n)| == n
  {
    if n > 0 {
      AllChunksCount(g, n - 1);
      assert AllChunks(g, n) == AllChunks(g, n - 1) + {ChunkKey(g, n - 1)};
      assert ChunkKey(g, n - 1) !in AllChunks(g, n - 1);
    }
  }

  lemma AgreementShows(d: Document)
    requires RowsAgree(d)
    ensures ShowsActiveGeneration(d)
  {
    if d.activeGeneration.Some? {
      var g := d.activeGeneration.value;
      var n := d.generations[g].chunkCount;
      assert Complete(d, g);
      AllChunksCount(g, n);
      forall key ensures key in VisibleChunks(d) <==> key in AllChunks(g, n) {
        if key in d.chunks && key.generation == g {
          assert key == ChunkKey(g, key.ordinal);
        }
        if key in AllChunks(g, n) {
          assert key == ChunkKey(g, key.ordinal) && key in d.chunks;
        }
      }
    }
  }

  // ---- Publication ----

  lemma PublishChunks(d: Document, s: SessionId, count: nat, now: int)
    requires RowsAgree(d) && s in d.attempts
    ensures var (a, after) := (d.attempts[s], PublishSpec(d, s, count, now));
            && after.chunks.Keys == d.chunks.Keys + AllChunks(a.generation, count)
            && (forall key :: key in after.chunks ==>
                  after.chunks[key].version == if key in d.chunks then d.chunks[key].version else a.version)
            && (forall key :: key in after.chunks && key.generation == a.generation ==> after.chunks[key].active)
  {
    var a := d.attempts[s];
    assert AttemptKnown(d, a);
    var stored := d.chunks + NewChunks(a, count);
    forall key | key in AllChunks(a.generation, count) ensures key !in d.chunks {
      assert key.generation == a.generation;
    }
    forall key | key in stored && key.generation == a.generation ensures stored[key].version == a.version {
    }
  }

  /** The generation rows of `after` are those of `d`, with states changed only between active and
      superseded, and one row more. */
  ghost predicate AddsGeneration(d: Document, after: Document, a: Attempt, count: nat) {
    && after.generations.Keys == d.generations.Keys + {a.generation}
    && after.generations[a.generation] == Generation(a.version, a.number, GenerationActive, count, None)
    && SameContents(d, after)
  }

  /** States change only between active and superseded. */
  ghost predicate SameContents(d: Document, after: Document) {
    forall g :: g in d.generations ==>
      && g in after.generations
      && after.generations[g].version == d.generations[g].version
      && after.generations[g].number == d.generations[g].number
      && after.generations[g].chunkCount == d.generations[g].chunkCount
      && (after.generations[g].state == GenerationFailed <==> d.generations[g].state == GenerationFailed)
  }

  lemma PublishGenerations(d: Document, s: SessionId, count: nat, now: int)
    requires RowsAgree(d) && s in d.attempts && count > 0
    ensures AddsGeneration(d, PublishSpec(d, s, count, now), d.attempts[s], count)
  {
    assert AttemptKnown(d, d.attempts[s]);
  }

  lemma CompleteAfter(d: Document, a: Attempt, count: nat, after: Document)
    requires CompleteRows(d) && ChunkRows(d) && a.generation !in d.generations && count > 0
    requires AddsGeneration(d, after, a, count)
    requires after.chunks.Keys == d.chunks.Keys + AllChunks(a.generation, count)
    ensures CompleteRows(after)
  {
    assert forall key :: key in AllChunks(a.generation, count) ==> key.generation == a.generation;
    forall g | g in d.generations && d.generations[g].state != GenerationFailed ensures Complete(after, g) {
      assert Complete(d, g);
      assert forall i: nat :: ChunkKey(g, i) !in AllChunks(a.generation, count);
      assert forall i: nat :: ChunkKey(g, i) in after.chunks <==> ChunkKey(g, i) in d.chunks;
    }
    assert forall i: nat :: ChunkKey(a.generation, i) !in d.chunks;
    assert forall i: nat :: ChunkKey(a.generation, i) in after.chunks <==> i < count;
    assert Complete(after, a.generation);
  }

  lemma PublishChunkRows(d: Document, s: SessionId, count: nat, now: int)
    requires RowsAgree(d) && s in d.attempts && count > 0
    ensures ChunkRows(PublishSpec(d, s, count, now))
  {
    assert AttemptKnown(d, d.attempts[s]);
    PublishChunks(d, s, count, now);
    PublishGenerations(d, s, count, now);
  }

  /** Proper ids stay proper and keep their version. */
  ghost predicate IdsStay(d: Document, after: Document) {
    forall g :: Proper(d, g) ==>
      Proper(after, g)
      && (g in after.generations ==> g in d.generations && after.generations[g].version == d.generations[g].version)
  }

  lemma KnownStays(d: Document, after: Document)
    requires IdsKnown(d) && PendingKnown(d) && IdsStay(d, after)
    requires forall s :: s in after.pending ==> s in d.pending && after.pending[s] == d.pending[s]
    requires forall s :: s in after.attempts ==> s in d.attempts && after.attempts[s] == d.attempts[s]
    requires forall g :: g in after.generations ==> g in after.issued
    requires forall s :: s in after.attempts ==> after.attempts[s].generation !in after.generations
    requires d.issued <= after.issued
    requires after.activeGeneration.Some? && Some(after.activeGeneration.value) != d.activeGeneration ==>
               Proper(after, after.activeGeneration.value)
    ensures IdsKnown(after) && PendingKnown(after)
  {
    forall s | s in after.attempts ensures AttemptKnown(after, after.attempts[s]) {
      assert AttemptKnown(d, d.attempts[s]);
    }
    forall s | s in after.pending ensures Known(after, after.pending[s]) {
      assert Known(d, d.pending[s]);
    }
  }

  lemma PublishAgrees(d: Document, s: SessionId, count: nat, now: int)
    requires RowsAgree(d) && s in d.attempts && count > 0
    requires !LeavesPointer(d, d.attempts[s].loadedVersion, d.attempts[s].version)
    ensures RowsAgree(PublishSpec(d, s, count, now))
  {
    var a, after := d.attempts[s], PublishSpec(d, s, count, now);
    assert AttemptKnown(d, a);
    PublishChunks(d, s, count, now);
    PublishGenerations(d, s, count, now);
    PublishChunkRows(d, s, count, now);
    CompleteAfter(d, a, count, after);
    PublishIds(d, s, count, now);
  }

  lemma PublishIds(d: Document, s: SessionId, count: nat, now: int)
    requires RowsAgree(d) && s in d.attempts && count > 0
    ensures IdsKnown(PublishSpec(d, s, count, now)) && PendingKnown(PublishSpec(d, s, count, now))
  {
    var a, after := d.attempts[s], PublishSpec(d, s, count, now);
    assert AttemptKnown(d, a);
    PublishGenerations(d, s, count, now);
    assert IdsStay(d, after);
    assert Proper(after, a.generation);
    forall t | t in after.attempts ensures after.attempts[t].generation !in after.generations {
      assert AttemptKnown(d, d.attempts[t]);
    }
    KnownStays(d, after);
  }

  /** A publication that leaves a moved pointer alone hides what it publishes. */
  lemma PublishBlinds(d: Document, s: SessionId, count: nat, now: int)
    requires RowsAgree(d) && s in d.attempts && count > 0
    requires LeavesPointer(d, d.attempts[s].loadedVersion, d.attempts[s].version)
    ensures !ShowsActiveGeneration(PublishSpec(d, s, count, now))
  {
    var a, after := d.attempts[s], PublishSpec(d, s, count, now);
    assert AttemptKnown(d, a);
    PublishChunks(d, s, count, now);
    PublishGenerations(d, s, count, now);
    var key := ChunkKey(a.generation, 0);
    assert key in AllChunks(a.generation, count);
    assert key !in d.chunks;
    assert !Visible(after, key);
  }

  // ---- A failed attempt ----

  lemma FailChunks(d: Document, s: SessionId, staged: nat)
    requires RowsAgree(d) && s in d.attempts
    ensures var after := FailSpec(d, s, staged);
            && ChunkRows(after) && VisibleChunks(after) == VisibleChunks(d)
            && after.chunks.Keys == d.chunks.Keys + AllChunks(d.attempts[s].generation, staged)
  {
    var a := d.attempts[s];
    assert AttemptKnown(d, a);
    forall key | key in AllChunks(a.generation, staged) ensures key !in d.chunks && key.generation == a.generation {
    }
  }

  lemma FailCompleteRows(d: Document, s: SessionId, staged: nat)
    requires RowsAgree(d) && s in d.attempts
    ensures CompleteRows(FailSpec(d, s, staged))
  {
    var a, after := d.attempts[s], FailSpec(d, s, staged);
    assert AttemptKnown(d, a);
    FailChunks(d, s, staged);
    assert forall key :: key in AllChunks(a.generation, staged) ==> key.generation == a.generation;
    forall g | g in after.generations && after.generations[g].state != GenerationFailed ensures Complete(after, g) {
      assert Complete(d, g);
      assert forall i: nat :: ChunkKey(g, i) in after.chunks <==> ChunkKey(g, i) in d.chunks;
    }
  }

  /** A failed attempt changes no pointer and nothing that retrieval sees. */
  lemma FailAgrees(d: Document, s: SessionId, staged: nat)
    requires RowsAgree(d) && s in d.attempts
    ensures var after := FailSpec(d, s, staged);
            && RowsAgree(after)
            && after.activeVersion == d.activeVersion && after.activeGeneration == d.activeGeneration
            && after.versions == d.versions
            && VisibleChunks(after) == VisibleChunks(d)
  {
    var after := FailSpec(d, s, staged);
    FailChunks(d, s, staged);
    FailCompleteRows(d, s, staged);
    assert AttemptKnown(d, d.attempts[s]);
    assert IdsStay(d, after);
    forall t | t in after.attempts ensures after.attempts[t].generation !in after.generations {
      assert AttemptKnown(d, d.attempts[t]);
    }
    KnownStays(d, after);
  }

  // ---- Rollback ----

  lemma RollbackGenerations(d: Document, p: Pending, now: int)
    requires p.Restoring? && Proper(d, p.target) && ProperIfAny(d, p.loadedGeneration)
    ensures RollbackSpec(d, p, now).generations.Keys == d.generations.Keys
    ensures SameContents(d, RollbackSpec(d, p, now))
  {
  }

  lemma SameIds(d: Document, after: Document)
    requires IdsKnown(d) && PendingKnown(d) && SameContents(d, after) && after.generations.Keys == d.generations.Keys
    requires after.issued == d.issued && after.attempts == d.attempts
    requires forall s :: s in after.pending ==> s in d.pending && after.pending[s] == d.pending[s]
    requires ProperIfAny(d, after.activeGeneration)
    ensures IdsKnown(after) && PendingKnown(after)
  {
    forall s | s in after.attempts ensures after.attempts[s].generation !in after.generations {
      assert AttemptKnown(d, d.attempts[s]);
    }
    assert IdsStay(d, after);
    KnownStays(d, after);
  }

  lemma RollbackAgrees(d: Document, p: Pending, now: int)
    requires RowsAgree(d) && p.Restoring? && Proper(d, p.target) && ProperIfAny(d, p.loadedGeneration)
    requires p.target in d.generations && d.generations[p.target].version == p.version
    requires !LeavesPointer(d, p.loadedVersion, p.version)
    ensures RowsAgree(RollbackSpec(d, p, now))
  {
    var after := RollbackSpec(d, p, now);
    RollbackGenerations(d, p, now);
    SameIds(d, after);
    forall g | g in after.generations && after.generations[g].state != GenerationFailed ensures Complete(after, g) {
      assert Complete(d, g);
    }
    assert PointersAgree(after) && ChunkRows(after);
  }

  lemma RollbackBlinds(d: Document, p: Pending, now: int)
    requires RowsAgree(d) && p.Restoring? && Proper(d, p.target) && ProperIfAny(d, p.loadedGeneration)
    requires p.target in d.generations ==> d.generations[p.target].version == p.version
    requires p.target !in d.generations || LeavesPointer(d, p.loadedVersion, p.version)
    ensures !ShowsActiveGeneration(RollbackSpec(d, p, now))
  {
    var after := RollbackSpec(d, p, now);
    RollbackGenerations(d, p, now);
    if p.target in d.generations {
      assert Complete(d, p.target);
      var key := ChunkKey(p.target, 0);
      assert key in d.chunks && key in AllChunks(p.target, after.generations[p.target].chunkCount);
      assert !Visible(after, key);
    }
  }

  // ---- Removal ----

  lemma RemovalAgrees(d: Document, g: GenerationId)
    requires RowsAgree(d) && d.activeGeneration != Some(g)
    ensures RowsAgree(RemovalSpec(d, g))
    ensures VisibleChunks(RemovalSpec(d, g)) == VisibleChunks(d)
  {
    var after := RemovalSpec(d, g);
    forall h | h in after.generations && after.generations[h].state != GenerationFailed ensures Complete(after, h) {
      assert Complete(d, h);
    }
    forall s | s in after.attempts ensures after.attempts[s].generation !in after.generations {
      assert AttemptKnown(d, d.attempts[s]);
    }
    assert IdsStay(d, after);
    KnownStays(d, after);
    forall key ensures key in VisibleChunks(after) <==> key in VisibleChunks(d) {
    }
  }

  // ---- Every step ----

  /** Rows that no pending change touches. */
  lemma ClosedAgrees(d: Document, s: SessionId)
    requires RowsAgree(d)
    ensures RowsAgree(Closed(d, s))
  {
    var after := Closed(d, s);
    SameIds(d, after);
    SameRows(d, after);
  }

  lemma SameRows(d: Document, after: Document)
    requires PointersAgree(d) && ChunkRows(d) && CompleteRows(d)
    requires after.activeVersion == d.activeVersion && after.activeGeneration == d.activeGeneration
    requires after.generations == d.generations && after.chunks == d.chunks
    ensures PointersAgree(after) && ChunkRows(after) && CompleteRows(after)
  {
    forall g | g in after.generations && after.generations[g].state != GenerationFailed ensures Complete(after, g) {
      assert Complete(d, g);
    }
  }

  lemma ReadAgrees(d: Document, step: Step)
    requires RowsAgree(d) && Enabled(d, step) && IsRead(step)
    ensures RowsAgree(Apply(d, step))
  {
    var after := Apply(d, step);
    SameRows(d, after);
    assert step.session in d.pending ==> Known(d, d.pending[step.session]);
    if step.ReadTarget? {
      var g := d.pending[step.session].target;
      forall s | s in d.attempts ensures d.attempts[s].generation != g {
        assert AttemptKnown(d, d.attempts[s]);
      }
    }
    assert Known(d, Read(d, step));
    assert IdsStay(d, after);
    forall s | s in after.attempts ensures AttemptKnown(after, after.attempts[s]) {
      assert AttemptKnown(d, d.attempts[s]);
    }
    forall s | s in after.pending ensures Known(after, after.pending[s]) {
      assert s in d.pending && after.pending[s] == d.pending[s] ==> Known(d, d.pending[s]);
    }
  }

  lemma OpeningAgrees(d: Document, step: Step)
    requires RowsAgree(d) && Enabled(d, step)
    requires step.AddVersion? || step.Insert? || step.Abandon?
    ensures RowsAgree(Apply(d, step))
  {
    var after := Apply(d, step);
    SameRows(d, after);
    assert step.Insert? ==> Known(d, d.pending[step.session]);
    assert IdsStay(d, after);
    forall s | s in after.attempts ensures AttemptKnown(after, after.attempts[s]) {
      assert s in d.attempts ==> AttemptKnown(d, d.attempts[s]);
    }
    forall s | s in after.pending ensures Known(after, after.pending[s]) {
      assert Known(d, d.pending[s]);
    }
  }

  /** Each step keeps the rows in agreement or hides the document, and its guard says which. */
  lemma StepShowsOrBlinds(d: Document, step: Step)
    requires RowsAgree(d) && Enabled(d, step)
    ensures !Blinds(d, step) ==> RowsAgree(Apply(d, step))
    ensures Blinds(d, step) ==> !ShowsActiveGeneration(Apply(d, step))
  {
    if IsRead(step) {
      ReadAgrees(d, step);
    } else {
      match step
      case Fail(s, staged) => FailAgrees(d, s, staged);
      case Publish(s, count, now) =>
        if Blinds(d, step) {
          PublishBlinds(d, s, count, now);
        } else {
          PublishAgrees(d, s, count, now);
        }
      case CommitRollback(s, now) =>
        ClosedAgrees(d, s);
        assert Known(d, d.pending[s]);
        if Blinds(d, step) {
          RollbackBlinds(Closed(d, s), d.pending[s], now);
        } else if Lands(d, d.pending[s]) {
          RollbackAgrees(Closed(d, s), d.pending[s], now);
        }
      case Remove(s) =>
        ClosedAgrees(d, s);
        if !Blinds(d, step) {
          RemovalAgrees(Closed(d, s), d.pending[s].target);
        }
      case Drop(s) => ClosedAgrees(d, s);
      case _ => OpeningAgrees(d, step);
    }
  }

  ghost predicate NoneBlinds(history: seq<Document>, steps: seq<Step>)
    requires IsRun(history, steps)
  {
    forall i :: 0 <= i < |steps| ==> !Blinds(history[i], steps[i])
  }

  lemma {:induction false} AgreesUntil(history: seq<Document>, steps: seq<Step>, i: nat)
    requires IsRun(history, steps) && i <= |steps|
    requires forall k :: 0 <= k < i ==> !Blinds(history[k], steps[k])
    ensures RowsAgree(history[i])
  {
    if i > 0 {
      AgreesUntil(history, steps, i - 1);
      StepShowsOrBlinds(history[i - 1], steps[i - 1]);
    }
  }

  lemma {:induction false} FirstBlinding(history: seq<Document>, steps: seq<Step>, n: nat) returns (i: nat)
    requires IsRun(history, steps) && n < |steps| && Blinds(history[n], steps[n])
    ensures i <= n && Blinds(history[i], steps[i]) && forall k :: 0 <= k < i ==> !Blinds(history[k], steps[k])
  {
    if k :| 0 <= k < n && Blinds(history[k], steps[k]) {
      i := FirstBlinding(history, steps, k);
    } else {
      i := n;
    }
  }

  /** Over all runs: every state shows exactly the complete active generation, if and only if no
      write of the run is one of the three that hide it. */
  lemma ShowsThroughoutIffNoneBlinds(history: seq<Document>, steps: seq<Step>)
    requires IsRun(history, steps)
    ensures (forall i :: 0 <= i <= |steps| ==> ShowsActiveGeneration(history[i])) <==> NoneBlinds(history, steps)
  {
    if NoneBlinds(history, steps) {
      forall i | 0 <= i <= |steps| ensures ShowsActiveGeneration(history[i]) {
        AgreesUntil(history, steps, i);
        AgreementShows(history[i]);
      }
    } else {
      var n :| 0 <= n < |steps| && Blinds(history[n], steps[n]);
      var i := FirstBlinding(history, steps, n);
      AgreesUntil(history, steps, i);
      StepShowsOrBlinds(history[i], steps[i]);
      assert !ShowsActiveGeneration(history[i + 1]);
    }
  }
}
