/**
 The states of versions and generations over all interleavings: one active version and one active
 generation, those of the pointers, exactly until a write overlooks what was committed since its
 session read the document.
 */
module Consistency {
  import opened Options
  import opened Publication
  import opened Visibility

  ghost predicate PointersConsistent(d: Document) {
    && PointersAgree(d)
    && (forall g :: g in d.generations ==>
          (d.generations[g].state == GenerationActive <==> d.activeGeneration == Some(g)))
    && (forall v :: v in d.versions ==> (d.versions[v] == VersionActive <==> d.activeVersion == Some(v)))
  }

  /** The active generation is neither the one that the session read nor the one it activates. */
  predicate Overlooks(d: Document, loaded: Option<GenerationId>, target: GenerationId) {
    d.activeGeneration.Some? && d.activeGeneration != loaded && d.activeGeneration != Some(target)
  }

  /** The session read the version as active, so it does not write its state; but it is not active. */
  predicate MisreadsVersion(d: Document, v: VersionId, wasActive: bool) {
    wasActive && (v !in d.versions || d.versions[v] != VersionActive)
  }

  /** The same for a rollback's target; or the target is gone. */
  predicate MisreadsTarget(d: Document, g: GenerationId, wasActive: bool) {
    g !in d.generations || (wasActive && d.generations[g].state != GenerationActive)
  }

  predicate Stale(d: Document, step: Step)
    requires Enabled(d, step)
  {
    match step
    case Publish(s, _, _) =>
      var a := d.attempts[s];
      Overlooks(d, a.loadedGeneration, a.generation) || MisreadsVersion(d, a.version, a.versionWasActive)
    case CommitRollback(s, _) => Lands(d, d.pending[s]) && StaleRollback(d, d.pending[s])
    case Remove(s) => d.activeGeneration == Some(d.pending[s].target)
    case _ => false
  }

  predicate StaleRollback(d: Document, p: Pending)
    requires p.Restoring?
  {
    || Overlooks(d, p.loadedGeneration, p.target)
    || MisreadsVersion(d, p.version, p.versionWasActive)
    || MisreadsTarget(d, p.target, p.targetWasActive)
  }

  // ---- The invariant ----

  ghost predicate GenerationRows(d: Document) {
    && (forall g :: g in d.generations ==> d.generations[g].version in d.versions)
    && (forall g :: g in d.generations && d.generations[g].state != GenerationFailed ==>
          d.versions[d.generations[g].version] != VersionStaging)
  }

  /** The two pointers that a session read belong together. */
  ghost predicate ReadTogether(d: Document, version: Option<VersionId>, generation: Option<GenerationId>) {
    && (generation.Some? <==> version.Some?)
    && (generation.Some? ==> d.activeGeneration.Some?)
    && (generation.Some? && generation.value in d.generations ==>
          version == Some(d.generations[generation.value].version))
  }

  ghost predicate AttemptConsistent(d: Document, a: Attempt) {
    ReadTogether(d, a.loadedVersion, a.loadedGeneration) && a.version in d.versions
  }

  ghost predicate SessionConsistent(d: Document, p: Pending) {
    && (HasPointers(p) ==> ReadTogether(d, p.loadedVersion, p.loadedGeneration))
    && (p.VersionRead? || p.DocumentRead? || p.NumberRead? ==> p.version in d.versions)
    && (p.PointersRead? || HasTarget(p) ==> p.loadedGeneration != Some(p.target))
    && (HasTarget(p) ==> WasPublished(d, p.version))
  }

  ghost predicate SessionsConsistent(d: Document) {
    && (forall s :: s in d.attempts ==> AttemptConsistent(d, d.attempts[s]))
    && (forall s :: s in d.pending ==> SessionConsistent(d, d.pending[s]))
  }

  ghost predicate Consistent(d: Document) {
    RowsAgree(d) && PointersConsistent(d) && GenerationRows(d) && SessionsConsistent(d)
  }

  /** At most one generation and one version are active, and they belong together. */
  lemma SingleActive(d: Document, g: GenerationId, h: GenerationId, v: VersionId, w: VersionId)
    requires PointersConsistent(d)
    requires g in d.generations && h in d.generations && v in d.versions && w in d.versions
    requires d.generations[g].state == GenerationActive && d.generations[h].state == GenerationActive
    requires d.versions[v] == VersionActive && d.versions[w] == VersionActive
    ensures g == h && v == w && d.generations[g].version == v
  {
  }

  /** A write that overlooks nothing does not hide the document either. */
  lemma FreshIsNotBlinding(d: Document, step: Step)
    requires Consistent(d) && Enabled(d, step) && !Stale(d, step)
    ensures !Blinds(d, step)
  {
    match step
    case Publish(s, _, _) => PublishSwitches(d, s);
    case CommitRollback(s, _) => assert SessionConsistent(d, d.pending[s]) && Known(d, d.pending[s]);
    case _ =>
  }

  // ---- Switching versions ----

  /** What a switch needs to leave exactly the new version active. */
  ghost predicate SwitchIsFresh(d: Document, loaded: Option<VersionId>, v: VersionId, wasActive: bool) {
    && (d.activeVersion.None? || d.activeVersion == loaded || d.activeVersion == Some(v))
    && (d.activeVersion.None? ==> loaded.None?)
    && v in d.versions
    && (wasActive ==> d.versions[v] == VersionActive)
    && (forall x :: x in d.versions ==> (d.versions[x] == VersionActive <==> d.activeVersion == Some(x)))
  }

  lemma SwitchedVersionsAreConsistent(d: Document, loaded: Option<VersionId>, v: VersionId, wasActive: bool)
    requires SwitchIsFresh(d, loaded, v, wasActive)
    requires !LeavesPointer(d, loaded, v)
    ensures SwitchedPointer(d.activeVersion, loaded, v) == Some(v)
    ensures var versions := SwitchedVersions(d.versions, loaded, v, wasActive);
            && versions.Keys == d.versions.Keys
            && (forall x :: x in versions ==> (versions[x] == VersionActive <==> x == v))
            && (forall x :: x in versions && versions[x] == VersionStaging ==> d.versions[x] == VersionStaging && x != v)
  {
  }

  // ---- The other rows ----

  lemma ReadStaysTogether(d: Document, after: Document, version: Option<VersionId>, generation: Option<GenerationId>)
    requires ReadTogether(d, version, generation)
    requires d.activeGeneration.Some? ==> after.activeGeneration.Some?
    requires forall g :: Some(g) == generation && g in after.generations ==>
               g in d.generations && after.generations[g].version == d.generations[g].version
    ensures ReadTogether(after, version, generation)
  {
  }

  /** The generations that sessions may have read keep their version. */
  lemma SessionsStay(d: Document, after: Document)
    requires RowsAgree(d) && SessionsConsistent(d) && IdsStay(d, after)
    requires d.activeGeneration.Some? ==> after.activeGeneration.Some?
    requires forall s :: s in after.pending ==> s in d.pending && after.pending[s] == d.pending[s]
    requires forall s :: s in after.attempts ==> s in d.attempts && after.attempts[s] == d.attempts[s]
    requires VersionsStay(d, after)
    ensures SessionsConsistent(after)
  {
    forall s | s in after.attempts ensures AttemptConsistent(after, after.attempts[s]) {
      assert AttemptConsistent(d, d.attempts[s]) && AttemptKnown(d, d.attempts[s]);
      ReadStaysTogether(d, after, d.attempts[s].loadedVersion, d.attempts[s].loadedGeneration);
    }
    forall s | s in after.pending ensures SessionConsistent(after, after.pending[s]) {
      SessionStays(d, after, d.pending[s]);
    }
  }

  /** Versions stay, and those that were published stay so. */
  ghost predicate VersionsStay(d: Document, after: Document) {
    && (forall v :: v in d.versions ==> v in after.versions)
    && (forall v :: WasPublished(d, v) ==> WasPublished(after, v))
  }

  lemma SessionStays(d: Document, after: Document, p: Pending)
    requires Known(d, p) && SessionConsistent(d, p) && IdsStay(d, after) && VersionsStay(d, after)
    requires d.activeGeneration.Some? ==> after.activeGeneration.Some?
    ensures SessionConsistent(after, p)
  {
    if HasPointers(p) {
      ReadStaysTogether(d, after, p.loadedVersion, p.loadedGeneration);
    }
  }

  lemma GenerationRowsAfter(d: Document, after: Document, a: Attempt, count: nat)
    requires GenerationRows(d) && AddsGeneration(d, after, a, count)
    requires a.generation !in d.generations && a.version in d.versions
    requires after.versions.Keys == d.versions.Keys && after.versions[a.version] != VersionStaging
    requires forall v :: v in d.versions && d.versions[v] != VersionStaging ==> after.versions[v] != VersionStaging
    ensures GenerationRows(after)
  {
  }

  // ---- Publication ----

  lemma PublishSwitches(d: Document, s: SessionId)
    requires Consistent(d) && s in d.attempts
    requires var a := d.attempts[s];
             !Overlooks(d, a.loadedGeneration, a.generation) && !MisreadsVersion(d, a.version, a.versionWasActive)
    ensures var a := d.attempts[s];
            && SwitchIsFresh(d, a.loadedVersion, a.version, a.versionWasActive)
            && !LeavesPointer(d, a.loadedVersion, a.version)
  {
    assert AttemptConsistent(d, d.attempts[s]) && AttemptKnown(d, d.attempts[s]);
  }

  lemma PublishStates(d: Document, s: SessionId, count: nat, now: int)
    requires Consistent(d) && s in d.attempts && count > 0
    requires !Overlooks(d, d.attempts[s].loadedGeneration, d.attempts[s].generation)
    ensures var after := PublishSpec(d, s, count, now);
            forall g :: g in after.generations ==>
              (after.generations[g].state == GenerationActive <==> g == d.attempts[s].generation)
  {
    assert AttemptConsistent(d, d.attempts[s]) && AttemptKnown(d, d.attempts[s]);
  }

  lemma PublishPointers(d: Document, s: SessionId, count: nat, now: int)
    requires Consistent(d) && s in d.attempts && count > 0
    requires var a := d.attempts[s];
             !Overlooks(d, a.loadedGeneration, a.generation) && !MisreadsVersion(d, a.version, a.versionWasActive)
    ensures var after := PublishSpec(d, s, count, now);
            PointersConsistent(after) && GenerationRows(after) && VersionsStay(d, after)
  {
    var a, after := d.attempts[s], PublishSpec(d, s, count, now);
    assert AttemptConsistent(d, a) && AttemptKnown(d, a);
    PublishSwitches(d, s);
    SwitchedVersionsAreConsistent(d, a.loadedVersion, a.version, a.versionWasActive);
    PublishGenerations(d, s, count, now);
    PublishStates(d, s, count, now);
    GenerationRowsAfter(d, after, a, count);
  }

  lemma PublishKeepsConsistent(d: Document, s: SessionId, count: nat, now: int)
    requires Consistent(d) && s in d.attempts && count > 0
    requires var a := d.attempts[s];
             !Overlooks(d, a.loadedGeneration, a.generation) && !MisreadsVersion(d, a.version, a.versionWasActive)
    ensures Consistent(PublishSpec(d, s, count, now))
  {
    PublishSwitches(d, s);
    PublishPointers(d, s, count, now);
    PublishAgrees(d, s, count, now);
    PublishIdsStay(d, s, count, now);
    SessionsStay(d, PublishSpec(d, s, count, now));
  }

  lemma PublishIdsStay(d: Document, s: SessionId, count: nat, now: int)
    requires RowsAgree(d) && s in d.attempts && count > 0
    ensures IdsStay(d, PublishSpec(d, s, count, now))
  {
    PublishGenerations(d, s, count, now);
  }

  lemma StalePublishBreaks(d: Document, s: SessionId, count: nat, now: int)
    requires Consistent(d) && s in d.attempts && count > 0
    requires var a := d.attempts[s];
             Overlooks(d, a.loadedGeneration, a.generation) || MisreadsVersion(d, a.version, a.versionWasActive)
    ensures !PointersConsistent(PublishSpec(d, s, count, now))
  {
    var a, after := d.attempts[s], PublishSpec(d, s, count, now);
    assert AttemptConsistent(d, a) && AttemptKnown(d, a);
    if Overlooks(d, a.loadedGeneration, a.generation) {
      var g := d.activeGeneration.value;
      assert after.generations[g].state == GenerationActive && after.activeGeneration != Some(g);
    } else {
      PublishGenerations(d, s, count, now);
      assert after.versions[a.version] != VersionActive;
      assert after.generations[a.generation].version == a.version;
    }
  }

  // ---- Rollback ----

  lemma RollbackSwitches(d: Document, p: Pending)
    requires Consistent(d) && p.Restoring? && SessionConsistent(d, p) && Known(d, p) && !StaleRollback(d, p)
    ensures SwitchIsFresh(d, p.loadedVersion, p.version, p.versionWasActive) && !LeavesPointer(d, p.loadedVersion, p.version)
  {
  }

  lemma RollbackStates(d: Document, p: Pending, now: int)
    requires PointersConsistent(d) && p.Restoring? && SessionConsistent(d, p) && !StaleRollback(d, p)
    ensures var after := RollbackSpec(d, p, now);
            forall g :: g in after.generations ==> (after.generations[g].state == GenerationActive <==> g == p.target)
  {
  }

  lemma RollbackKeepsConsistent(d: Document, p: Pending, now: int)
    requires Consistent(d) && p.Restoring? && SessionConsistent(d, p) && Known(d, p) && !StaleRollback(d, p)
    ensures Consistent(RollbackSpec(d, p, now))
  {
    var after := RollbackSpec(d, p, now);
    RollbackSwitches(d, p);
    SwitchedVersionsAreConsistent(d, p.loadedVersion, p.version, p.versionWasActive);
    RollbackAgrees(d, p, now);
    RollbackGenerations(d, p, now);
    RollbackStates(d, p, now);
    assert GenerationRows(after);
    RollbackIdsStay(d, p, now);
    SessionsStay(d, after);
  }

  lemma RollbackIdsStay(d: Document, p: Pending, now: int)
    requires p.Restoring? && Known(d, p)
    ensures IdsStay(d, RollbackSpec(d, p, now))
  {
    RollbackGenerations(d, p, now);
  }

  lemma StaleRollbackBreaks(d: Document, p: Pending, now: int)
    requires Consistent(d) && p.Restoring? && SessionConsistent(d, p) && Known(d, p) && StaleRollback(d, p)
    ensures !PointersConsistent(RollbackSpec(d, p, now))
  {
    var after := RollbackSpec(d, p, now);
    RollbackGenerations(d, p, now);
    if p.target in d.generations && Overlooks(d, p.loadedGeneration, p.target) {
      var g := d.activeGeneration.value;
      assert after.generations[g].state == GenerationActive && after.activeGeneration != Some(g);
    } else if p.target in d.generations && MisreadsVersion(d, p.version, p.versionWasActive) {
      assert after.versions[p.version] != VersionActive;
      assert after.generations[p.target].version == p.version;
    }
  }

  // ---- The remaining steps ----

  lemma FailKeepsConsistent(d: Document, s: SessionId, staged: nat)
    requires Consistent(d) && s in d.attempts
    ensures Consistent(FailSpec(d, s, staged))
  {
    var after := FailSpec(d, s, staged);
    assert AttemptConsistent(d, d.attempts[s]) && AttemptKnown(d, d.attempts[s]);
    FailAgrees(d, s, staged);
    assert IdsStay(d, after);
    SessionsStay(d, after);
    assert GenerationRows(after);
  }

  lemma RemovalKeepsConsistent(d: Document, g: GenerationId)
    requires Consistent(d) && d.activeGeneration != Some(g)
    ensures Consistent(RemovalSpec(d, g))
  {
    RemovalAgrees(d, g);
    assert IdsStay(d, RemovalSpec(d, g));
    SessionsStay(d, RemovalSpec(d, g));
  }

  lemma ClosedIsConsistent(d: Document, s: SessionId)
    requires Consistent(d)
    ensures Consistent(Closed(d, s))
  {
    ClosedAgrees(d, s);
    assert IdsStay(d, Closed(d, s));
    SessionsStay(d, Closed(d, s));
  }

  lemma ReadIsConsistent(d: Document, step: Step)
    requires Consistent(d) && Enabled(d, step) && IsRead(step)
    ensures SessionConsistent(d, Read(d, step))
  {
    assert step.session in d.pending ==> SessionConsistent(d, d.pending[step.session]) && Known(d, d.pending[step.session]);
  }

  lemma ReadKeepsConsistent(d: Document, step: Step)
    requires Consistent(d) && Enabled(d, step) && IsRead(step)
    ensures Consistent(Apply(d, step))
  {
    var after := Apply(d, step);
    ReadAgrees(d, step);
    ReadIsConsistent(d, step);
    SessionsStay(d, after.(pending := d.pending));
    forall s | s in after.pending ensures SessionConsistent(after, after.pending[s]) {
      assert s in d.pending && after.pending[s] == d.pending[s] ==> SessionConsistent(d, d.pending[s]);
    }
  }

  lemma OpeningKeepsConsistent(d: Document, step: Step)
    requires Consistent(d) && Enabled(d, step) && (step.AddVersion? || step.Abandon?)
    ensures Consistent(Apply(d, step))
  {
    OpeningAgrees(d, step);
    SessionsStay(d, Apply(d, step));
  }

  lemma InsertKeepsConsistent(d: Document, step: Step)
    requires Consistent(d) && Enabled(d, step) && step.Insert?
    ensures Consistent(Apply(d, step))
  {
    var s, after := step.session, Apply(d, step);
    OpeningAgrees(d, step);
    assert SessionConsistent(d, d.pending[s]) && Known(d, d.pending[s]);
    SessionsStay(d, after.(attempts := d.attempts));
    forall t | t in after.attempts ensures AttemptConsistent(after, after.attempts[t]) {
      assert t != s ==> t in d.attempts && AttemptConsistent(d, d.attempts[t]);
    }
    assert forall t :: t in after.pending ==> SessionConsistent(after.(attempts := d.attempts), after.pending[t]);
  }

  // ---- Every step ----

  lemma CommitRollbackDecides(d: Document, s: SessionId, now: int)
    requires Consistent(d) && Enabled(d, CommitRollback(s, now))
    ensures var step := CommitRollback(s, now);
            if Stale(d, step) then !PointersConsistent(Apply(d, step)) else Consistent(Apply(d, step))
  {
    var p, closed := d.pending[s], Closed(d, s);
    assert Known(d, p) && SessionConsistent(d, p);
    ClosedIsConsistent(d, s);
    if Lands(d, p) {
      assert Known(closed, p) && SessionConsistent(closed, p);
      if Stale(d, CommitRollback(s, now)) {
        StaleRollbackBreaks(closed, p, now);
      } else {
        RollbackKeepsConsistent(closed, p, now);
      }
    }
  }

  /** Each step keeps the document consistent or breaks its pointers and states, and its guard says
      which. */
  lemma StepIsConsistentIffFresh(d: Document, step: Step)
    requires Consistent(d) && Enabled(d, step)
    ensures if Stale(d, step) then !PointersConsistent(Apply(d, step)) else Consistent(Apply(d, step))
  {
    if IsRead(step) {
      ReadKeepsConsistent(d, step);
    } else {
      match step
      case Fail(s, staged) => FailKeepsConsistent(d, s, staged);
      case Publish(s, count, now) =>
        if Stale(d, step) {
          StalePublishBreaks(d, s, count, now);
        } else {
          PublishKeepsConsistent(d, s, count, now);
        }
      case CommitRollback(s, now) => CommitRollbackDecides(d, s, now);
      case Remove(s) =>
        ClosedIsConsistent(d, s);
        if !Stale(d, step) {
          RemovalKeepsConsistent(Closed(d, s), d.pending[s].target);
        }
      case Drop(s) => ClosedIsConsistent(d, s);
      case Insert(_, _) => InsertKeepsConsistent(d, step);
      case _ => OpeningKeepsConsistent(d, step);
    }
  }

  // ---- Whole runs ----

  ghost predicate NoneIsStale(history: seq<Document>, steps: seq<Step>)
    requires IsRun(history, steps)
  {
    forall i :: 0 <= i < |steps| ==> !Stale(history[i], steps[i])
  }

  lemma {:induction false} ConsistentUntil(history: seq<Document>, steps: seq<Step>, i: nat)
    requires IsRun(history, steps) && i <= |steps|
    requires forall k :: 0 <= k < i ==> !Stale(history[k], steps[k])
    ensures Consistent(history[i])
  {
    if i > 0 {
      ConsistentUntil(history, steps, i - 1);
      StepIsConsistentIffFresh(history[i - 1], steps[i - 1]);
    }
  }

  lemma {:induction false} FirstStale(history: seq<Document>, steps: seq<Step>, n: nat) returns (i: nat)
    requires IsRun(history, steps) && n < |steps| && Stale(history[n], steps[n])
    ensures i <= n && Stale(history[i], steps[i]) && forall k :: 0 <= k < i ==> !Stale(history[k], steps[k])
  {
    if k :| 0 <= k < n && Stale(history[k], steps[k]) {
      i := FirstStale(history, steps, k);
    } else {
      i := n;
    }
  }

  /** Over all runs: in every state the pointed-to generation exists, and it and its version are the
      only active ones, if and only if no write overlooks what was committed since its session read. */
  lemma ConsistentThroughoutIffNoneIsStale(history: seq<Document>, steps: seq<Step>)
    requires IsRun(history, steps)
    ensures (forall i :: 0 <= i <= |steps| ==> PointersConsistent(history[i])) <==> NoneIsStale(history, steps)
  {
    if NoneIsStale(history, steps) {
      forall i | 0 <= i <= |steps| ensures PointersConsistent(history[i]) {
        ConsistentUntil(history, steps, i);
      }
    } else {
      var n :| 0 <= n < |steps| && Stale(history[n], steps[n]);
      var i := FirstStale(history, steps, n);
      ConsistentUntil(history, steps, i);
      StepIsConsistentIffFresh(history[i], steps[i]);
      assert !PointersConsistent(history[i + 1]);
    }
  }

  // ---- The flags of the chunk rows ----

  /** Only chunks of the active version are flagged active. */
  predicate FlagsFollow(d: Document) {
    forall key :: key in d.chunks && d.chunks[key].active ==> d.activeVersion == Some(d.chunks[key].version)
  }

  lemma PublishFlags(d: Document, s: SessionId, count: nat, now: int)
    requires Consistent(d) && FlagsFollow(d) && s in d.attempts && count > 0
    requires var a := d.attempts[s];
             !Overlooks(d, a.loadedGeneration, a.generation) && !MisreadsVersion(d, a.version, a.versionWasActive)
    ensures FlagsFollow(PublishSpec(d, s, count, now))
  {
    var a, after := d.attempts[s], PublishSpec(d, s, count, now);
    PublishSwitches(d, s);
    assert SwitchedPointer(d.activeVersion, a.loadedVersion, a.version) == Some(a.version);
    assert AttemptConsistent(d, a);
  }

  lemma RollbackFlags(d: Document, p: Pending, now: int)
    requires Consistent(d) && p.Restoring? && SessionConsistent(d, p) && Known(d, p) && !StaleRollback(d, p)
    ensures FlagsFollow(RollbackSpec(d, p, now))
  {
    RollbackSwitches(d, p);
  }

  lemma FailFlags(d: Document, s: SessionId, staged: nat)
    requires FlagsFollow(d) && s in d.attempts
    ensures FlagsFollow(FailSpec(d, s, staged))
  {
  }

  lemma StepKeepsFlags(d: Document, step: Step)
    requires Consistent(d) && FlagsFollow(d) && Enabled(d, step) && !Stale(d, step)
    ensures FlagsFollow(Apply(d, step))
  {
    if step.Publish? {
      PublishFlags(d, step.session, step.count, step.now);
    } else if step.Fail? {
      FailFlags(d, step.session, step.staged);
    } else if step.CommitRollback? {
      var p, closed := d.pending[step.session], Closed(d, step.session);
      assert Known(d, p) && SessionConsistent(d, p);
      ClosedIsConsistent(d, step.session);
      if Lands(d, p) {
        assert Known(closed, p) && SessionConsistent(closed, p);
        RollbackFlags(closed, p, step.now);
      }
    }
  }

  /** Over all runs without a stale write, a chunk is flagged active only while its version is the active
      one; with what retrieval sees, those of the active generation all are. */
  lemma {:induction false} FlagsFollowThroughout(history: seq<Document>, steps: seq<Step>, i: nat)
    requires IsRun(history, steps) && NoneIsStale(history, steps) && i <= |steps|
    ensures FlagsFollow(history[i])
  {
    if i > 0 {
      FlagsFollowThroughout(history, steps, i - 1);
      ConsistentUntil(history, steps, i - 1);
      StepKeepsFlags(history[i - 1], steps[i - 1]);
    }
  }

  // ---- Generations that were rolled back to ----

  /** The document keeps every generation that it was ever rolled back to. */
  predicate KeepsAudited(d: Document) {
    forall g :: g in d.audited ==> g in d.generations
  }

  /** A removal whose target was rolled back to since the check; or a rollback to a generation that is
      gone, which goes through when it has nothing to write on that row. */
  predicate Forgets(d: Document, step: Step)
    requires Enabled(d, step)
  {
    match step
    case Remove(s) => d.pending[s].target in d.audited
    case CommitRollback(s, _) => Lands(d, d.pending[s]) && d.pending[s].target !in d.generations
    case _ => false
  }

  lemma StepKeepsAuditedIffNotForgetting(d: Document, step: Step)
    requires KeepsAudited(d) && Enabled(d, step)
    ensures KeepsAudited(Apply(d, step)) <==> !Forgets(d, step)
  {
    match step
    case Remove(s) =>
      var after := Apply(d, step);
      assert d.pending[s].target !in after.generations;
    case CommitRollback(s, now) =>
      var p := d.pending[s];
      if Lands(d, p) {
        var after := Apply(d, step);
        assert after.generations.Keys == d.generations.Keys;
        assert p.target in after.audited;
      }
    case _ =>
  }

  lemma {:induction false} AuditedKeptUntil(history: seq<Document>, steps: seq<Step>, i: nat)
    requires IsRun(history, steps) && i <= |steps|
    requires forall k :: 0 <= k < i ==> !Forgets(history[k], steps[k])
    ensures KeepsAudited(history[i])
  {
    if i > 0 {
      AuditedKeptUntil(history, steps, i - 1);
      StepKeepsAuditedIffNotForgetting(history[i - 1], steps[i - 1]);
    }
  }

  lemma {:induction false} FirstForgetting(history: seq<Document>, steps: seq<Step>, n: nat) returns (i: nat)
    requires IsRun(history, steps) && n < |steps| && Forgets(history[n], steps[n])
    ensures i <= n && Forgets(history[i], steps[i]) && forall k :: 0 <= k < i ==> !Forgets(history[k], steps[k])
  {
    if k :| 0 <= k < n && Forgets(history[k], steps[k]) {
      i := FirstForgetting(history, steps, k);
    } else {
      i := n;
    }
  }

  ghost predicate NoneForgets(history: seq<Document>, steps: seq<Step>)
    requires IsRun(history, steps)
  {
    forall i :: 0 <= i < |steps| ==> !Forgets(history[i], steps[i])
  }

  /** Over all runs: cleanup never removes a generation that was ever rolled back to, if and only if no
      write of the run is one of these two. */
  lemma AuditedKeptThroughoutIffNoneForgets(history: seq<Document>, steps: seq<Step>)
    requires IsRun(history, steps)
    ensures (forall i :: 0 <= i <= |steps| ==> KeepsAudited(history[i]))
       <==> NoneForgets(history, steps)
  {
    if i :| 0 <= i < |steps| && Forgets(history[i], steps[i]) {
      var first := FirstForgetting(history, steps, i);
      AuditedKeptUntil(history, steps, first);
      StepKeepsAuditedIffNotForgetting(history[first], steps[first]);
      assert !KeepsAudited(history[first + 1]);
    } else {
      forall i | 0 <= i <= |steps| ensures KeepsAudited(history[i]) {
        AuditedKeptUntil(history, steps, i);
      }
    }
  }

  // ---- Sessions one after another ----

  /** At most one session is between its reads and its writes. */
  ghost predicate OneAtATime(d: Document) {
    && (forall s, t :: s in d.pending && t in d.pending ==> s == t)
    && (forall s, t :: s in d.attempts && t in d.attempts ==> s == t)
    && (d.pending == map[] || d.attempts == map[])
  }

  /** What the session read is still so. */
  ghost predicate ReadIsCurrent(d: Document, p: Pending) {
    && (HasPointers(p) ==> p.loadedGeneration == d.activeGeneration)
    && (p.VersionRead? || p.DocumentRead? || p.NumberRead? || p.Restoring? ==>
          !MisreadsVersion(d, p.version, p.versionWasActive))
    && (HasTarget(p) ==> !MisreadsTarget(d, p.target, p.targetWasActive))
    && (p.Unpointed? || p.Removing? ==> d.activeGeneration != Some(p.target))
    && (p.Removing? ==> p.target !in d.audited)
  }

  ghost predicate ReadsAreCurrent(d: Document) {
    && (forall s :: s in d.pending ==> ReadIsCurrent(d, d.pending[s]))
    && (forall s :: s in d.attempts ==>
          var a := d.attempts[s];
          a.loadedGeneration == d.activeGeneration && !MisreadsVersion(d, a.version, a.versionWasActive))
  }

  lemma SerialStepIsCurrent(d: Document, step: Step)
    requires Enabled(d, step) && ReadsAreCurrent(d) && OneAtATime(d) && OneAtATime(Apply(d, step))
    ensures ReadsAreCurrent(Apply(d, step))
  {
    var after := Apply(d, step);
    if IsRead(step) {
      assert step.session in d.pending ==> ReadIsCurrent(d, d.pending[step.session]);
      assert ReadIsCurrent(d, Read(d, step));
    } else if step.Insert? {
      assert ReadIsCurrent(d, d.pending[step.session]);
    }
    forall s | s in after.pending ensures ReadIsCurrent(after, after.pending[s]) {
      assert s in d.pending && after.pending[s] == d.pending[s] ==> ReadIsCurrent(d, d.pending[s]);
    }
  }

  lemma {:induction false} SerialReadsAreCurrent(history: seq<Document>, steps: seq<Step>, i: nat)
    requires IsRun(history, steps) && i <= |steps|
    requires forall k :: 0 <= k <= |steps| ==> OneAtATime(history[k])
    ensures ReadsAreCurrent(history[i])
  {
    if i > 0 {
      SerialReadsAreCurrent(history, steps, i - 1);
      assert OneAtATime(history[i - 1]) && OneAtATime(history[i]);
      SerialStepIsCurrent(history[i - 1], steps[i - 1]);
    }
  }

  lemma CurrentIsFresh(d: Document, step: Step)
    requires Enabled(d, step) && ReadsAreCurrent(d)
    ensures !Stale(d, step) && !Forgets(d, step)
  {
    match step
    case CommitRollback(s, _) => assert ReadIsCurrent(d, d.pending[s]);
    case Remove(s) => assert ReadIsCurrent(d, d.pending[s]);
    case _ =>
  }

  /** When sessions do not overlap, no write is stale, none hides the document and none forgets. */
  lemma SerialRunsAreFresh(history: seq<Document>, steps: seq<Step>)
    requires IsRun(history, steps)
    requires forall k :: 0 <= k <= |steps| ==> OneAtATime(history[k])
    ensures NoneIsStale(history, steps) && NoneBlinds(history, steps) && NoneForgets(history, steps)
  {
    forall i | 0 <= i < |steps| ensures !Stale(history[i], steps[i]) && !Forgets(history[i], steps[i]) {
      SerialReadsAreCurrent(history, steps, i);
      CurrentIsFresh(history[i], steps[i]);
    }
    forall i | 0 <= i < |steps| ensures !Blinds(history[i], steps[i]) {
      ConsistentUntil(history, steps, i);
      FreshIsNotBlinding(history[i], steps[i]);
    }
  }
}
