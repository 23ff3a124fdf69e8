/**
 The service code that changes a document's rows in place. Each method is one step of the publication
 protocol: one query, or the writes of one block. What an attempt, a rollback or a cleanup keeps
 between its steps is passed from one method to the next.
 */
module PublicationService {
  import opened Options
  import opened Publication
  import opened Visibility
  import opened Consistency

  datatype RollbackResult = RolledBack | Conflict | IndexesUnavailable

  datatype SweepResult =
    | Swept(scanned: nat, retained: nat, deleted: nat, unsupported: nat)
    | SweepRaised

  datatype CandidateOutcome = Retained | Unsupported | Deleted | Raised

  class DocumentStore {
    var activeVersion: Option<VersionId>
    var activeGeneration: Option<GenerationId>
    var versions: map<VersionId, VersionState>
    var generations: map<GenerationId, Generation>
    var chunks: map<ChunkKey, Chunk>
    var audited: set<GenerationId>
    var issued: set<GenerationId>
    /** What the sessions have inserted and read; committed rows are above. */
    ghost var attempts: map<SessionId, Attempt>
    ghost var pending: map<SessionId, Pending>

    ghost function Value(): Document
      reads this
    {
      Document(activeVersion, activeGeneration, versions, generations, chunks, audited, issued, attempts, pending)
    }

    constructor ()
      ensures Value() == EMPTY
    {
      activeVersion, activeGeneration := None, None;
      versions, generations, chunks := map[], map[], map[];
      audited, issued, attempts, pending := {}, {}, map[], map[];
    }

    method LoadVersion(ghost s: SessionId, version: VersionId) returns (p: Pending)
      requires s !in pending && s !in attempts && version in versions
      modifies this`pending
      ensures p.VersionRead? && s in pending && pending[s] == p
      ensures Value() == Apply(old(Value()), ReadVersion(s, version))
    {
      p := VersionRead(version, versions[version] == VersionActive);
      pending := pending[s := p];
    }

    /** Loads the document's pointers, by a query of its own. */
    method LoadDocument(ghost s: SessionId, p: Pending) returns (q: Pending)
      requires p.VersionRead? && s in pending && pending[s] == p
      modifies this`pending
      ensures q.DocumentRead? && s in pending && pending[s] == q
      ensures Value() == Apply(old(Value()), ReadDocument(s))
    {
      q := DocumentRead(p.version, p.versionWasActive, activeVersion, activeGeneration);
      pending := pending[s := q];
    }

    /** One more than the greatest generation number. */
    method NextNumber() returns (number: nat)
      ensures IsNextNumber(generations, number)
    {
      var rest := generations.Keys;
      number := 1;
      while rest != {}
        invariant rest <= generations.Keys
        invariant forall g :: g in generations && g !in rest ==> generations[g].number < number
        invariant number == 1 || exists g :: g in generations && generations[g].number + 1 == number
      {
        var g :| g in rest;
        rest := rest - {g};
        if generations[g].number >= number {
          number := generations[g].number + 1;
        }
      }
    }

    method LoadNumber(ghost s: SessionId, p: Pending) returns (q: Pending)
      requires p.DocumentRead? && s in pending && pending[s] == p
      modifies this`pending
      ensures q.NumberRead? && s in pending && pending[s] == q
      ensures Enabled(old(Value()), ReadNumber(s, q.number))
      ensures Value() == Apply(old(Value()), ReadNumber(s, q.number))
    {
      var number := NextNumber();
      q := NumberRead(p.version, p.versionWasActive, p.loadedVersion, p.loadedGeneration, number);
      pending := pending[s := q];
    }

    /** Inserts the generation. When another attempt has inserted the number, this one waits for its end;
        the unique key refuses a number that a committed generation has, which ends the attempt. */
    method InsertGeneration(ghost s: SessionId, p: Pending, generation: GenerationId) returns (a: Option<Attempt>)
      requires p.NumberRead? && s in pending && pending[s] == p && s !in attempts
      requires forall t :: t in attempts ==> attempts[t].number != p.number
      requires generation !in issued
      modifies this
      ensures a.Some? <==> NumberIsFree(old(Value()), p.number)
      ensures a.Some? ==> s in attempts && attempts[s] == a.value && Value() == Apply(old(Value()), Insert(s, generation))
      ensures a.None? ==> Value() == Apply(old(Value()), Drop(s))
    {
      pending := pending - {s};
      if exists g :: g in generations && generations[g].number == p.number {
        return None;
      }
      a := Some(Attempt(p.version, p.versionWasActive, p.loadedVersion, p.loadedGeneration, p.number, generation));
      attempts := attempts[s := a.value];
      issued := issued + {generation};
    }

    /** The version rows and the version pointer after a switch; unchanged columns are not written. */
    method SwitchVersion(version: VersionId, loaded: Option<VersionId>, wasActive: bool)
      modifies this`versions, this`activeVersion
      ensures versions == SwitchedVersions(old(versions), loaded, version, wasActive)
      ensures activeVersion == SwitchedPointer(old(activeVersion), loaded, version)
    {
      if loaded.Some? && loaded.value != version && loaded.value in versions {
        versions := versions[loaded.value := VersionSuperseded];
      }
      if !wasActive {
        versions := versions[version := VersionActive];
      }
      if loaded != Some(version) {
        activeVersion := Some(version);
      }
    }

    /** The new generation's row and that of the one it replaces. */
    method ReplaceGeneration(a: Attempt, count: nat, now: int)
      modifies this`generations
      ensures var added := old(generations)[a.generation := Generation(a.version, a.number, GenerationActive, count, None)];
              generations == Supersede(added, a.loadedGeneration, a.generation, now)
    {
      generations := generations[a.generation := Generation(a.version, a.number, GenerationActive, count, None)];
      SupersedeLoaded(a.loadedGeneration, a.generation, now);
    }

    method SupersedeLoaded(loaded: Option<GenerationId>, current: GenerationId, now: int)
      modifies this`generations
      ensures generations == Supersede(old(generations), loaded, current, now)
    {
      if loaded.Some? && loaded.value != current && loaded.value in generations {
        generations := generations[loaded.value :=
                                     generations[loaded.value].(state := GenerationSuperseded, supersededAt := Some(now))];
      }
    }

    /** The new chunks and the bulk updates of the active flag. */
    method SwitchChunks(a: Attempt, count: nat)
      modifies this`chunks
      ensures chunks == ActivateVersion(
                DeactivateOthers(Deactivate(old(chunks) + NewChunks(a, count), a.loadedVersion), a.version, a.generation), a.version)
    {
      chunks := chunks + NewChunks(a, count);
      if a.loadedVersion.Some? {
        chunks := Deactivate(chunks, a.loadedVersion);
      } else {
        assert Deactivate(chunks, None) == chunks;
      }
      chunks := DeactivateOthers(chunks, a.version, a.generation);
      chunks := ActivateVersion(chunks, a.version);
    }

    /** The block that runs after both indexes have published and the lease was checked last. */
    method PublishGeneration(ghost s: SessionId, a: Attempt, count: nat, now: int)
      requires s in attempts && attempts[s] == a && count > 0
      modifies this
      ensures Value() == PublishSpec(old(Value()), s, count, now)
      ensures activeGeneration == Some(a.generation)
    {
      SwitchChunks(a, count);
      SwitchVersion(a.version, a.loadedVersion, a.versionWasActive);
      activeGeneration := Some(a.generation);
      ReplaceGeneration(a, count, now);
      attempts := attempts - {s};
    }

    /** The failure branch: the generation is marked, pointers and versions are left alone. */
    method FailAttempt(ghost s: SessionId, a: Attempt, staged: nat)
      requires s in attempts && attempts[s] == a
      modifies this
      ensures Value() == FailSpec(old(Value()), s, staged)
      ensures generations == old(generations)[a.generation := Generation(a.version, a.number, GenerationFailed, 0, None)]
    {
      chunks := chunks + NewChunks(a, staged);
      generations := generations[a.generation := Generation(a.version, a.number, GenerationFailed, 0, None)];
      attempts := attempts - {s};
    }

    /** The first check of a rollback: the target is not what the document points to. */
    method LoadPointers(ghost s: SessionId, target: GenerationId) returns (p: Option<Pending>)
      requires s !in pending && s !in attempts
      modifies this`pending
      ensures p.Some? <==> old(activeGeneration) != Some(target)
      ensures p.Some? ==> p.value.PointersRead? && s in pending && pending[s] == p.value
      ensures Value() == if p.Some? then Apply(old(Value()), ReadPointers(s, target)) else old(Value())
    {
      if activeGeneration == Some(target) {
        return None;
      }
      p := Some(PointersRead(target, activeVersion, activeGeneration));
      pending := pending[s := p.value];
    }

    /** The second: it was published and has chunks. */
    method LoadTarget(ghost s: SessionId, p: Pending) returns (q: Option<Pending>)
      requires p.PointersRead? && s in pending && pending[s] == p
      modifies this`pending
      ensures q.Some? <==> Restorable(old(Value()), p.target)
      ensures q.Some? <==>
                && p.target in generations && generations[p.target].state != GenerationFailed
                && generations[p.target].chunkCount > 0
      ensures q.Some? ==> q.value.TargetRead? && s in pending && pending[s] == q.value
      ensures Value() == Apply(old(Value()), if q.Some? then ReadTarget(s) else Drop(s))
    {
      var g := p.target;
      if g !in generations || generations[g].state == GenerationFailed || generations[g].chunkCount == 0 {
        pending := pending - {s};
        return None;
      }
      q := Some(TargetRead(g, p.loadedVersion, p.loadedGeneration,
                           generations[g].state == GenerationActive, generations[g].version));
      pending := pending[s := q.value];
    }

    /** The third: its version was published. */
    method LoadTargetVersion(ghost s: SessionId, p: Pending) returns (q: Option<Pending>)
      requires p.TargetRead? && s in pending && pending[s] == p
      modifies this`pending
      ensures q.Some? <==> WasPublished(old(Value()), p.version)
      ensures q.Some? <==> p.version in versions && versions[p.version] != VersionStaging
      ensures q.Some? ==> q.value.Restoring? && s in pending && pending[s] == q.value
      ensures Value() == Apply(old(Value()), if q.Some? then ReadTargetVersion(s) else Drop(s))
    {
      if p.version !in versions || versions[p.version] == VersionStaging {
        pending := pending - {s};
        return None;
      }
      q := Some(Restoring(p.target, p.loadedVersion, p.loadedGeneration, p.targetWasActive,
                          p.version, versions[p.version] == VersionActive));
      pending := pending[s := q.value];
    }

    /** The writes after the indexes have been switched. The transaction fails when the target's row is
        to be written and is gone. */
    method CommitPrepared(ghost s: SessionId, p: Pending, now: int) returns (committed: bool)
      requires p.Restoring? && s in pending && pending[s] == p
      modifies this
      ensures committed == Lands(old(Value()), p)
      ensures Value() == Apply(old(Value()), CommitRollback(s, now))
    {
      pending := pending - {s};
      if !p.targetWasActive && p.target !in generations {
        return false;
      }
      chunks := ActivateOnly(chunks, p.target);
      SwitchVersion(p.version, p.loadedVersion, p.versionWasActive);
      activeGeneration := Some(p.target);
      if !p.targetWasActive {
        generations := generations[p.target := generations[p.target].(state := GenerationActive, supersededAt := None)];
      }
      SupersedeLoaded(p.loadedGeneration, p.target, now);
      audited := audited + {p.target};
      return true;
    }

    /** The second and third check when no other session commits between them. */
    method LoadRestorable(ghost s: SessionId, p: Pending) returns (q: Option<Pending>)
      requires p.PointersRead? && s in pending && pending[s] == p
      modifies this`pending
      ensures q.Some? <==> Restorable(Value(), p.target) && WasPublished(Value(), generations[p.target].version)
      ensures q.Some? ==>
                var g := generations[p.target];
                q.value == Restoring(p.target, p.loadedVersion, p.loadedGeneration, g.state == GenerationActive,
                                     g.version, versions[g.version] == VersionActive)
      ensures pending == if q.Some? then old(pending)[s := q.value] else old(pending) - {s}
    {
      ghost var before := pending;
      q := LoadTarget(s, p);
      if q.Some? {
        assert pending == before[s := q.value];
        q := LoadTargetVersion(s, q.value);
        assert pending == if q.Some? then before[s := q.value] else before - {s};
      }
    }

    /** The checks of a rollback when no other session commits between them. */
    method PrepareRollback(ghost s: SessionId, target: GenerationId) returns (p: Option<Pending>)
      requires s !in pending && s !in attempts
      modifies this`pending
      ensures p.Some? <==> Rollbackable(old(Value()), target)
      ensures p.Some? ==> p.value == LoadFor(old(Value()), target) && pending == old(pending)[s := p.value]
      ensures p.None? ==> pending == old(pending)
    {
      ghost var before := pending;
      p := LoadPointers(s, target);
      if p.Some? {
        assert pending == before[s := p.value];
        p := LoadRestorable(s, p.value);
        assert pending == if p.Some? then before[s := p.value] else before;
      }
    }

    /** The whole call when no other session commits meanwhile. `accepts[i]` says whether the i-th index
        publishes the target; the first refusal ends the loop, the indexes already switched are
        switched back, and no row changes. */
    method RollbackGeneration(ghost s: SessionId, target: GenerationId, accepts: seq<bool>, now: int)
      returns (r: RollbackResult)
      requires s !in pending && s !in attempts
      modifies this
      ensures r == if !Rollbackable(old(Value()), target) then Conflict
                   else if false in accepts then IndexesUnavailable else RolledBack
      ensures Value() == if r.RolledBack? then RollbackSpec(old(Value()), LoadFor(old(Value()), target), now) else old(Value())
    {
      ghost var before := Value();
      var p := PrepareRollback(s, target);
      if p.None? {
        return Conflict;
      }
      for i := 0 to |accepts|
        invariant false !in accepts[..i]
        invariant Value() == before.(pending := before.pending[s := p.value])
      {
        if !accepts[i] {
          pending := pending - {s};
          assert pending == before.pending;
          return IndexesUnavailable;
        }
      }
      assert accepts[..|accepts|] == accepts;
      var committed := CommitPrepared(s, p.value, now);
      assert before.pending[s := p.value] - {s} == before.pending;
      r := RolledBack;
    }

    /** A candidate that the document points to is retained. */
    method IsPointedTo(ghost s: SessionId, g: GenerationId) returns (pointed: bool)
      requires s in pending && pending[s] == Selected(g)
      modifies this`pending
      ensures pointed <==> old(activeGeneration) == Some(g)
      ensures !pointed ==> s in pending && pending[s] == Unpointed(g)
      ensures Value() == Apply(old(Value()), if pointed then Drop(s) else CheckPointer(s))
    {
      pointed := activeGeneration == Some(g);
      pending := if pointed then pending - {s} else pending[s := Unpointed(g)];
    }

    /** So is one that was ever rolled back to, or that an index cannot delete. */
    method MayRemove(ghost s: SessionId, g: GenerationId, supported: bool) returns (remove: bool)
      requires s in pending && pending[s] == Unpointed(g)
      modifies this`pending
      ensures remove <==> g !in old(audited) && supported
      ensures remove ==> s in pending && pending[s] == Removing(g)
      ensures Value() == Apply(old(Value()), if remove then CheckAudit(s, supported) else Drop(s))
    {
      remove := g !in audited && supported;
      pending := if remove then pending[s := Removing(g)] else pending - {s};
    }

    /** The deletions after both indexes have deleted their part. */
    method RemoveGeneration(ghost s: SessionId, g: GenerationId)
      requires s in pending && pending[s] == Removing(g)
      modifies this
      ensures Value() == Apply(old(Value()), Remove(s))
    {
      chunks := map key | key in chunks && key.generation != g :: chunks[key];
      generations := generations - {g};
      pending := pending - {s};
    }

    /** The checks of one candidate when no other session commits between them. */
    method CheckCandidate(ghost s: SessionId, g: GenerationId, supported: bool) returns (o: CandidateOutcome)
      requires s in pending && pending[s] == Selected(g)
      modifies this`pending
      ensures o.Retained? <==> activeGeneration == Some(g) || g in audited
      ensures o.Deleted? <==> activeGeneration != Some(g) && g !in audited && supported
      ensures !o.Raised?
      ensures pending == if o.Deleted? then old(pending)[s := Removing(g)] else old(pending) - {s}
    {
      ghost var before := pending;
      var pointed := IsPointedTo(s, g);
      if pointed {
        return Retained;
      }
      assert pending == before[s := Unpointed(g)];
      var remove := MayRemove(s, g, supported);
      assert pending == if remove then before[s := Removing(g)] else before - {s};
      o := if remove then Deleted else if g in audited then Retained else Unsupported;
    }

    /** One candidate of a sweep, when no other session commits meanwhile; `deletes` says whether the
        indexes delete it or raise. */
    method SweepOne(ghost s: SessionId, g: GenerationId, cutoff: int, supported: bool, deletes: bool) returns (o: CandidateOutcome)
      requires s !in pending && s !in attempts && Expired(Value(), g, cutoff)
      modifies this
      ensures var removable := Removable(old(Value()), g, cutoff, supported);
              && (o.Raised? <==> removable && !deletes)
              && (o.Deleted? <==> removable && deletes)
              && (o.Retained? <==> old(activeGeneration) == Some(g) || g in old(audited))
      ensures Value() == if o.Deleted? then RemovalSpec(old(Value()), g) else old(Value())
    {
      ghost var before := pending;
      pending := pending[s := Selected(g)];
      o := CheckCandidate(s, g, supported);
      assert pending - {s} == before;
      if o.Deleted? {
        if deletes {
          RemoveGeneration(s, g);
        } else {
          pending := pending - {s};
          o := Raised;
        }
      }
      assert pending == before;
    }

    /** The loop over the selected rows, when no other session commits meanwhile. `deletable(g)` says whether
        the indexes delete generation g; when one raises, the transaction is rolled back. */
    method SweepCandidates(ghost s: SessionId, candidates: seq<GenerationId>, cutoff: int, supported: bool, deletable: GenerationId -> bool)
      returns (r: SweepResult)
      requires s !in pending && s !in attempts
      requires forall i, j :: 0 <= i < j < |candidates| ==> candidates[i] != candidates[j]
      requires forall g :: g in candidates ==> Expired(Value(), g, cutoff)
      modifies this
      ensures r.SweepRaised? ==> Value() == old(Value())
      ensures r.Swept? ==>
                && Value() == SweepSpec(old(Value()), candidates, cutoff, supported)
                && r.scanned == |candidates| == r.retained + r.deleted
                && r.unsupported <= r.retained
                && |old(generations)| == |generations| + r.deleted
                && (supported ==> r.unsupported == 0) && (!supported ==> r.deleted == 0)
    {
      var retained, deleted, unsupported := 0, 0, 0;
      ghost var before := Value();
      var generations0, chunks0 := generations, chunks;
      forall k | 0 <= k < |candidates| ensures candidates[k] in generations0 {
        assert candidates[k] in candidates && Expired(before, candidates[k], cutoff);
      }
      for i := 0 to |candidates|
        invariant Value() == SweepSpec(before, candidates[..i], cutoff, supported)
        invariant retained + deleted == i && unsupported <= retained
        invariant (supported ==> unsupported == 0) && (!supported ==> deleted == 0)
        invariant |generations0| == |generations| + deleted
        invariant Value() == before.(generations := generations, chunks := chunks)
        invariant forall k :: i <= k < |candidates| ==>
          candidates[k] in generations0 && candidates[k] in generations && generations[candidates[k]] == generations0[candidates[k]]
      {
        assert candidates[..i + 1][..i] == candidates[..i];
        var g := candidates[i];
        assert g in candidates && Expired(Value(), g, cutoff);
        RemovalShrinks(generations, g);
        var outcome := SweepOne(s, g, cutoff, supported, deletable(g));
        match outcome {
          case Raised =>
            generations, chunks := generations0, chunks0;
            return SweepRaised;
          case Deleted =>
            deleted := deleted + 1;
          case Retained =>
            retained := retained + 1;
          case Unsupported =>
            retained := retained + 1;
            unsupported := unsupported + 1;
        }
      }
      assert candidates[..|candidates|] == candidates;
      r := Swept(|candidates|, retained, deleted, unsupported);
    }

    /** The oldest generation that was superseded at or before the cutoff and is not chosen yet. */
    method NextExpired(chosen: seq<GenerationId>, cutoff: int) returns (next: Option<GenerationId>)
      ensures next.None? ==> forall g :: g in generations && SupersededBy(generations[g], cutoff) ==> g in chosen
      ensures next.Some? ==>
                && next.value in generations && SupersededBy(generations[next.value], cutoff) && next.value !in chosen
                && forall g :: g in generations && SupersededBy(generations[g], cutoff) && g !in chosen ==>
                     generations[next.value].supersededAt.value <= generations[g].supersededAt.value
    {
      var rest := generations.Keys;
      next := None;
      while rest != {}
        invariant rest <= generations.Keys
        invariant next.None? ==> forall g :: g in generations && g !in rest && SupersededBy(generations[g], cutoff) ==> g in chosen
        invariant next.Some? ==>
          && next.value in generations && SupersededBy(generations[next.value], cutoff) && next.value !in chosen
          && forall g :: g in generations && g !in rest && SupersededBy(generations[g], cutoff) && g !in chosen ==>
               generations[next.value].supersededAt.value <= generations[g].supersededAt.value
      {
        var g :| g in rest;
        rest := rest - {g};
        var row := generations[g];
        if row.state == GenerationSuperseded && row.supersededAt.Some? && row.supersededAt.value <= cutoff && g !in chosen
           && (next.None? || row.supersededAt.value < generations[next.value].supersededAt.value) {
          next := Some(g);
        }
      }
    }

    /** The query of the cleanup: what was superseded at or before the cutoff, oldest first, at most the
        limit, and all of it when there is less. */
    method SelectExpired(cutoff: int, limit: nat) returns (candidates: seq<GenerationId>)
      ensures |candidates| <= limit
      ensures forall i, j :: 0 <= i < j < |candidates| ==> candidates[i] != candidates[j]
      ensures forall g :: g in candidates ==>
                && g in generations && generations[g].state == GenerationSuperseded
                && generations[g].supersededAt.Some? && generations[g].supersededAt.value <= cutoff
      ensures forall g, h :: g in candidates && h in generations && h !in candidates && generations[h].state == GenerationSuperseded
                             && generations[h].supersededAt.Some? && generations[h].supersededAt.value <= cutoff ==>
                |candidates| == limit && generations[g].supersededAt.value <= generations[h].supersededAt.value
      ensures |candidates| < limit ==> forall h :: h in generations && SupersededBy(generations[h], cutoff) ==> h in candidates
    {
      candidates := [];
      while |candidates| < limit
        invariant |candidates| <= limit
        invariant forall i, j :: 0 <= i < j < |candidates| ==> candidates[i] != candidates[j]
        invariant forall g :: g in candidates ==> g in generations && SupersededBy(generations[g], cutoff)
        invariant forall g, h :: g in candidates && h in generations && h !in candidates && SupersededBy(generations[h], cutoff) ==>
          generations[g].supersededAt.value <= generations[h].supersededAt.value
      {
        var next := NextExpired(candidates, cutoff);
        if next.None? {
          return;
        }
        candidates := candidates + [next.value];
      }
    }

    /** Retention cleanup when no other session commits meanwhile. A sweep that goes through takes away
        only what was superseded at or before the cutoff, is not pointed to and was never rolled back to,
        and, when the limit does not cut its query short, all of that; it changes no other row. */
    method Sweep(ghost s: SessionId, cutoff: int, limit: nat, supported: bool, deletable: GenerationId -> bool)
      returns (r: SweepResult)
      requires s !in pending && s !in attempts
      modifies this
      ensures r.SweepRaised? ==> Value() == old(Value())
      ensures r.Swept? ==>
                && r.scanned <= limit && r.scanned == r.retained + r.deleted && r.unsupported <= r.retained
                && (supported ==> r.unsupported == 0) && (!supported ==> r.deleted == 0)
                && |old(generations)| == |generations| + r.deleted
                && (forall g :: g in generations ==> g in old(generations) && generations[g] == old(generations)[g])
                && (forall g :: g in old(generations) && g !in generations ==>
                      && old(generations)[g].state == GenerationSuperseded
                      && old(generations)[g].supersededAt.Some? && old(generations)[g].supersededAt.value <= cutoff
                      && old(activeGeneration) != Some(g) && g !in old(audited) && supported)
                && (r.scanned < limit && supported ==>
                      forall g :: g in generations && generations[g].state == GenerationSuperseded
                                  && generations[g].supersededAt.Some? && generations[g].supersededAt.value <= cutoff ==>
                        activeGeneration == Some(g) || g in audited)
      ensures unchanged(`activeVersion, `activeGeneration, `versions, `audited)
    {
      ghost var before := Value();
      var candidates := SelectExpired(cutoff, limit);
      r := SweepCandidates(s, candidates, cutoff, supported, deletable);
      if r.Swept? {
        SweepRemoves(before, candidates, cutoff, supported);
      }
    }
  }

  /** What an undisturbed sweep of distinct candidates takes away. */
  lemma {:induction false} SweepRemoves(d: Document, candidates: seq<GenerationId>, cutoff: int, supported: bool)
    requires forall i, j :: 0 <= i < j < |candidates| ==> candidates[i] != candidates[j]
    requires forall g :: g in candidates ==> g in d.generations && SupersededBy(d.generations[g], cutoff)
    ensures var after := SweepSpec(d, candidates, cutoff, supported);
            && after == d.(generations := after.generations, chunks := after.chunks)
            && forall g ::
                 && (g in after.generations <==>
                       g in d.generations
                       && !(supported && g in candidates && d.activeGeneration != Some(g) && g !in d.audited))
                 && (g in after.generations ==> after.generations[g] == d.generations[g])
  {
    if candidates != [] {
      var n := |candidates| - 1;
      assert forall g :: g in candidates[..n] ==> g in candidates;
      assert candidates[n] in candidates && candidates[n] !in candidates[..n];
      SweepRemoves(d, candidates[..n], cutoff, supported);
      assert candidates == candidates[..n] + [candidates[n]];
    }
  }

  lemma RemovalShrinks(m: map<GenerationId, Generation>, g: GenerationId)
    requires g in m
    ensures |m - {g}| + 1 == |m|
  {
    assert (m - {g}).Keys == m.Keys - {g};
    assert |m.Keys - {g}| + 1 == |m.Keys|;
  }

  /** A sweep that nothing disturbs. */
  function SweepSpec(d: Document, candidates: seq<GenerationId>, cutoff: int, supported: bool): Document {
    if candidates == [] then d
    else
      var n := |candidates| - 1;
      var before := SweepSpec(d, candidates[..n], cutoff, supported);
      if Removable(before, candidates[n], cutoff, supported) then RemovalSpec(before, candidates[n]) else before
  }

  /** It changes neither pointers nor anything that retrieval can see, and keeps every generation that
      was ever rolled back to. */
  lemma {:induction false} SweepKeepsVisible(d: Document, candidates: seq<GenerationId>, cutoff: int, supported: bool)
    requires Consistent(d)
    ensures var after := SweepSpec(d, candidates, cutoff, supported);
            && Consistent(after) && VisibleChunks(after) == VisibleChunks(d)
            && after.activeVersion == d.activeVersion && after.activeGeneration == d.activeGeneration
            && (KeepsAudited(d) ==> KeepsAudited(after))
  {
    if candidates != [] {
      var n := |candidates| - 1;
      SweepKeepsVisible(d, candidates[..n], cutoff, supported);
      var before := SweepSpec(d, candidates[..n], cutoff, supported);
      if Removable(before, candidates[n], cutoff, supported) {
        RemovalKeepsConsistent(before, candidates[n]);
        RemovalAgrees(before, candidates[n]);
      }
    }
  }

  /** A rollback that nothing disturbs keeps the document consistent and shows its target. */
  lemma RollbackShowsTarget(d: Document, g: GenerationId, now: int)
    requires Consistent(d) && Rollbackable(d, g)
    ensures var after := RollbackSpec(d, LoadFor(d, g), now);
            && Consistent(after) && ShowsActiveGeneration(after) && after.activeGeneration == Some(g)
  {
    var p := LoadFor(d, g);
    RollbackKeepsConsistent(d, p, now);
    AgreementShows(RollbackSpec(d, p, now));
  }
}
