/**
 Publication of index generations for one document: attempts that publish or fail, rollback to an
 earlier generation, and retention cleanup. Each of the three reads the rows it needs one query after
 the other, then waits, and writes from what it read; other sessions may commit before each of its
 queries and before its writes. The unique number of a generation makes an attempt wait for another
 one that has inserted the same number. The indexes hold no authority: each call to them either
 returns or raises, and retrieval re-checks what they return against these rows.
 */
module Publication {
  import opened Options

  type VersionId = nat
  type GenerationId = nat
  type SessionId = nat

  datatype VersionState = VersionStaging | VersionActive | VersionSuperseded

  datatype GenerationState = GenerationActive | GenerationSuperseded | GenerationFailed

  datatype Generation = Generation(
    version: VersionId, number: nat, state: GenerationState, chunkCount: nat, supersededAt: Option<int>)

  /** A chunk row's unique key. */
  datatype ChunkKey = ChunkKey(generation: GenerationId, ordinal: nat)

  datatype Chunk = Chunk(version: VersionId, active: bool)

  /** An attempt that has inserted its generation. Its pointers are those that it read before; the
      session never refreshes these columns. */
  datatype Attempt = Attempt(
    version: VersionId, versionWasActive: bool,
    loadedVersion: Option<VersionId>, loadedGeneration: Option<GenerationId>,
    number: nat, generation: GenerationId)

  /** What a session has read and not yet acted on: an attempt without a generation, a rollback, a
      removal. */
  datatype Pending =
    | VersionRead(version: VersionId, versionWasActive: bool)
    | DocumentRead(
        version: VersionId, versionWasActive: bool,
        loadedVersion: Option<VersionId>, loadedGeneration: Option<GenerationId>)
    | NumberRead(
        version: VersionId, versionWasActive: bool,
        loadedVersion: Option<VersionId>, loadedGeneration: Option<GenerationId>, number: nat)
    | PointersRead(target: GenerationId, loadedVersion: Option<VersionId>, loadedGeneration: Option<GenerationId>)
    | TargetRead(
        target: GenerationId, loadedVersion: Option<VersionId>, loadedGeneration: Option<GenerationId>,
        targetWasActive: bool, version: VersionId)
    | Restoring(
        target: GenerationId, loadedVersion: Option<VersionId>, loadedGeneration: Option<GenerationId>,
        targetWasActive: bool, version: VersionId, versionWasActive: bool)
    | Selected(target: GenerationId)
    | Unpointed(target: GenerationId)
    | Removing(target: GenerationId)

  /** `issued` holds every generation id ever given out. */
  datatype Document = Document(
    activeVersion: Option<VersionId>, activeGeneration: Option<GenerationId>,
    versions: map<VersionId, VersionState>, generations: map<GenerationId, Generation>,
    chunks: map<ChunkKey, Chunk>, audited: set<GenerationId>, issued: set<GenerationId>,
    attempts: map<SessionId, Attempt>, pending: map<SessionId, Pending>)

  const EMPTY := Document(None, None, map[], map[], map[], {}, {}, map[], map[])

  // ---- What retrieval can see ----

  predicate Visible(d: Document, key: ChunkKey) {
    && key in d.chunks
    && d.chunks[key].active
    && d.activeVersion == Some(d.chunks[key].version)
    && (d.activeGeneration.None? || d.activeGeneration == Some(key.generation))
  }

  function VisibleChunks(d: Document): set<ChunkKey> {
    set key | key in d.chunks && Visible(d, key)
  }

  /** The complete chunk set of a generation with `n` chunks. */
  function AllChunks(g: GenerationId, n: nat): set<ChunkKey> {
    set i | 0 <= i < n :: ChunkKey(g, i)
  }

  // ---- The writes ----

  function Retire(versions: map<VersionId, VersionState>, v: Option<VersionId>): map<VersionId, VersionState> {
    if v.Some? && v.value in versions then versions[v.value := VersionSuperseded] else versions
  }

  /** The version rows after a switch to `v`. A column whose new value equals the value that the
      session loaded is not written; the same holds for the two functions below. */
  function SwitchedVersions(versions: map<VersionId, VersionState>, loaded: Option<VersionId>, v: VersionId, wasActive: bool)
    : map<VersionId, VersionState>
  {
    var retired := Retire(versions, if loaded == Some(v) then None else loaded);
    if wasActive then retired else retired[v := VersionActive]
  }

  function SwitchedPointer(active: Option<VersionId>, loaded: Option<VersionId>, v: VersionId): Option<VersionId> {
    if loaded == Some(v) then active else Some(v)
  }

  function Restored(generations: map<GenerationId, Generation>, g: GenerationId, wasActive: bool): map<GenerationId, Generation> {
    if wasActive || g !in generations then generations
    else generations[g := generations[g].(state := GenerationActive, supersededAt := None)]
  }

  function Supersede(generations: map<GenerationId, Generation>, g: Option<GenerationId>, except: GenerationId, now: int): map<GenerationId, Generation> {
    if g.Some? && g.value != except && g.value in generations
      then generations[g.value := generations[g.value].(state := GenerationSuperseded, supersededAt := Some(now))]
    else generations
  }

  function NewChunks(a: Attempt, n: nat): map<ChunkKey, Chunk> {
    map key | key in AllChunks(a.generation, n) :: Chunk(a.version, false)
  }

  /** The three bulk updates of the active flag, in order. */
  function Deactivate(chunks: map<ChunkKey, Chunk>, v: Option<VersionId>): map<ChunkKey, Chunk> {
    map key | key in chunks :: if Some(chunks[key].version) == v then chunks[key].(active := false) else chunks[key]
  }

  function DeactivateOthers(chunks: map<ChunkKey, Chunk>, v: VersionId, g: GenerationId): map<ChunkKey, Chunk> {
    map key | key in chunks ::
      if chunks[key].version == v && key.generation != g then chunks[key].(active := false) else chunks[key]
  }

  function ActivateVersion(chunks: map<ChunkKey, Chunk>, v: VersionId): map<ChunkKey, Chunk> {
    map key | key in chunks :: if chunks[key].version == v then chunks[key].(active := true) else chunks[key]
  }

  function ActivateOnly(chunks: map<ChunkKey, Chunk>, g: GenerationId): map<ChunkKey, Chunk> {
    map key | key in chunks :: chunks[key].(active := key.generation == g)
  }

  function PublishSpec(d: Document, s: SessionId, count: nat, now: int): Document
    requires s in d.attempts
  {
    var a := d.attempts[s];
    var stored := d.chunks + NewChunks(a, count);
    var added := d.generations[a.generation := Generation(a.version, a.number, GenerationActive, count, None)];
    d.(chunks := ActivateVersion(
                   DeactivateOthers(Deactivate(stored, a.loadedVersion), a.version, a.generation), a.version),
       versions := SwitchedVersions(d.versions, a.loadedVersion, a.version, a.versionWasActive),
       activeVersion := SwitchedPointer(d.activeVersion, a.loadedVersion, a.version),
       activeGeneration := Some(a.generation),
       generations := Supersede(added, a.loadedGeneration, a.generation, now),
       attempts := d.attempts - {s})
  }

  function FailSpec(d: Document, s: SessionId, staged: nat): Document
    requires s in d.attempts
  {
    var a := d.attempts[s];
    d.(generations := d.generations[a.generation := Generation(a.version, a.number, GenerationFailed, 0, None)],
       chunks := d.chunks + NewChunks(a, staged),
       attempts := d.attempts - {s})
  }

  /** The write of the target's row fails when the row is gone, unless there is nothing to write. */
  predicate Lands(d: Document, p: Pending)
    requires p.Restoring?
  {
    p.target in d.generations || p.targetWasActive
  }

  function RollbackSpec(d: Document, p: Pending, now: int): Document
    requires p.Restoring?
  {
    d.(chunks := ActivateOnly(d.chunks, p.target),
       versions := SwitchedVersions(d.versions, p.loadedVersion, p.version, p.versionWasActive),
       activeVersion := SwitchedPointer(d.activeVersion, p.loadedVersion, p.version),
       activeGeneration := Some(p.target),
       generations := Supersede(Restored(d.generations, p.target, p.targetWasActive), p.loadedGeneration, p.target, now),
       audited := d.audited + {p.target})
  }

  function RemovalSpec(d: Document, g: GenerationId): Document {
    d.(generations := d.generations - {g},
       chunks := map key | key in d.chunks && key.generation != g :: d.chunks[key])
  }

  // ---- The steps ----

  /** One more than the greatest number; 1 when there is none. */
  predicate IsNextNumber(generations: map<GenerationId, Generation>, number: nat) {
    && (forall g :: g in generations ==> generations[g].number < number)
    && (number == 1 || exists g :: g in generations && generations[g].number + 1 == number)
  }

  datatype Step =
    | AddVersion(version: VersionId)
    | ReadVersion(session: SessionId, version: VersionId)
    | ReadDocument(session: SessionId)
    | ReadNumber(session: SessionId, number: nat)
    | Insert(session: SessionId, generation: GenerationId)
    | Abandon(session: SessionId)                           // crash or lost lease
    | Fail(session: SessionId, staged: nat)                 // so many chunks were stored
    | Publish(session: SessionId, count: nat, now: int)
    | ReadPointers(session: SessionId, target: GenerationId)
    | ReadTarget(session: SessionId)
    | ReadTargetVersion(session: SessionId)
    | CommitRollback(session: SessionId, now: int)
    | Select(session: SessionId, target: GenerationId, cutoff: int)
    | CheckPointer(session: SessionId)
    | CheckAudit(session: SessionId, supported: bool)
    | Remove(session: SessionId)
    | Drop(session: SessionId)            // crash, a failure before a generation exists, or an index that refused

  predicate Restorable(d: Document, g: GenerationId) {
    && g in d.generations
    && (d.generations[g].state == GenerationActive || d.generations[g].state == GenerationSuperseded)
    && d.generations[g].chunkCount > 0
  }

  predicate WasPublished(d: Document, v: VersionId) {
    v in d.versions && d.versions[v] != VersionStaging
  }

  /** The three checks of a rollback. */
  predicate Rollbackable(d: Document, g: GenerationId) {
    d.activeGeneration != Some(g) && Restorable(d, g) && WasPublished(d, d.generations[g].version)
  }

  /** Superseded at or before a time. */
  predicate SupersededBy(row: Generation, time: int) {
    row.state == GenerationSuperseded && row.supersededAt.Some? && row.supersededAt.value <= time
  }

  predicate Expired(d: Document, g: GenerationId, cutoff: int) {
    g in d.generations && SupersededBy(d.generations[g], cutoff)
  }

  predicate Removable(d: Document, g: GenerationId, cutoff: int, supported: bool) {
    Expired(d, g, cutoff) && d.activeGeneration != Some(g) && g !in d.audited && supported
  }

  predicate IsNew(d: Document, s: SessionId) {
    s !in d.pending && s !in d.attempts
  }

  /** The unique key of generations, of which inserted rows are part before their commit. */
  predicate NumberIsFree(d: Document, number: nat) {
    && (forall g :: g in d.generations ==> d.generations[g].number != number)
    && (forall s :: s in d.attempts ==> d.attempts[s].number != number)
  }

  /** New ids are fresh. */
  predicate Enabled(d: Document, step: Step) {
    match step
    case AddVersion(v) => v !in d.versions
    case ReadVersion(s, v) => IsNew(d, s) && v in d.versions
    case ReadDocument(s) => s in d.pending && d.pending[s].VersionRead?
    case ReadNumber(s, number) => s in d.pending && d.pending[s].DocumentRead? && IsNextNumber(d.generations, number)
    case Insert(s, g) =>
      s in d.pending && d.pending[s].NumberRead? && NumberIsFree(d, d.pending[s].number) && g !in d.issued && s !in d.attempts
    case Abandon(s) => s in d.attempts
    case Fail(s, _) => s in d.attempts
    case Publish(s, count, _) => s in d.attempts && count > 0
    case ReadPointers(s, g) => IsNew(d, s) && d.activeGeneration != Some(g)
    case ReadTarget(s) => s in d.pending && d.pending[s].PointersRead? && Restorable(d, d.pending[s].target)
    case ReadTargetVersion(s) => s in d.pending && d.pending[s].TargetRead? && WasPublished(d, d.pending[s].version)
    case CommitRollback(s, _) => s in d.pending && d.pending[s].Restoring?
    case Select(s, g, cutoff) => IsNew(d, s) && Expired(d, g, cutoff)
    case CheckPointer(s) => s in d.pending && d.pending[s].Selected? && d.activeGeneration != Some(d.pending[s].target)
    case CheckAudit(s, supported) =>
      s in d.pending && d.pending[s].Unpointed? && d.pending[s].target !in d.audited && supported
    case Remove(s) => s in d.pending && d.pending[s].Removing?
    case Drop(s) => s in d.pending
  }

  function Closed(d: Document, s: SessionId): Document {
    d.(pending := d.pending - {s})
  }

  /** What the three queries of a rollback find when no session commits between them. */
  function LoadFor(d: Document, g: GenerationId): Pending
    requires Rollbackable(d, g)
  {
    var v := d.generations[g].version;
    Restoring(g, d.activeVersion, d.activeGeneration, d.generations[g].state == GenerationActive,
              v, d.versions[v] == VersionActive)
  }

  /** What an attempt, a rollback or a removal has read after its next query. */
  function Read(d: Document, step: Step): Pending
    requires Enabled(d, step) && IsRead(step)
  {
    match step
    case ReadVersion(s, v) => VersionRead(v, d.versions[v] == VersionActive)
    case ReadDocument(s) =>
      var p := d.pending[s];
      DocumentRead(p.version, p.versionWasActive, d.activeVersion, d.activeGeneration)
    case ReadNumber(s, number) =>
      var p := d.pending[s];
      NumberRead(p.version, p.versionWasActive, p.loadedVersion, p.loadedGeneration, number)
    case ReadPointers(s, g) => PointersRead(g, d.activeVersion, d.activeGeneration)
    case ReadTarget(s) =>
      var p := d.pending[s];
      TargetRead(p.target, p.loadedVersion, p.loadedGeneration,
                 d.generations[p.target].state == GenerationActive, d.generations[p.target].version)
    case ReadTargetVersion(s) =>
      var p := d.pending[s];
      Restoring(p.target, p.loadedVersion, p.loadedGeneration, p.targetWasActive,
                p.version, d.versions[p.version] == VersionActive)
    case Select(s, g, _) => Selected(g)
    case CheckPointer(s) => Unpointed(d.pending[s].target)
    case CheckAudit(s, _) => Removing(d.pending[s].target)
  }

  predicate IsRead(step: Step) {
    || step.ReadVersion? || step.ReadDocument? || step.ReadNumber?
    || step.ReadPointers? || step.ReadTarget? || step.ReadTargetVersion?
    || step.Select? || step.CheckPointer? || step.CheckAudit?
  }

  function Apply(d: Document, step: Step): Document
    requires Enabled(d, step)
  {
    if IsRead(step) then d.(pending := d.pending[step.session := Read(d, step)])
    else
      match step
      case AddVersion(v) => d.(versions := d.versions[v := VersionStaging])
      case Insert(s, g) =>
        var p := d.pending[s];
        var a := Attempt(p.version, p.versionWasActive, p.loadedVersion, p.loadedGeneration, p.number, g);
        Closed(d, s).(attempts := d.attempts[s := a], issued := d.issued + {g})
      case Abandon(s) => d.(attempts := d.attempts - {s})
      case Fail(s, staged) => FailSpec(d, s, staged)
      case Publish(s, count, now) => PublishSpec(d, s, count, now)
      case CommitRollback(s, now) =>
        if Lands(d, d.pending[s]) then RollbackSpec(Closed(d, s), d.pending[s], now) else Closed(d, s)
      case Remove(s) => RemovalSpec(Closed(d, s), d.pending[s].target)
      case Drop(s) => Closed(d, s)
  }

  // ---- Whole runs ----

  /** A run from a new document; `history[i]` is the document before step i. */
  ghost predicate IsRun(history: seq<Document>, steps: seq<Step>) {
    && |history| == |steps| + 1
    && history[0] == EMPTY
    && forall i :: 0 <= i < |steps| ==> Enabled(history[i], steps[i]) && history[i + 1] == Apply(history[i], steps[i])
  }

  lemma ExtendRun(history: seq<Document>, steps: seq<Step>, step: Step)
    requires IsRun(history, steps) && Enabled(history[|steps|], step)
    ensures IsRun(history + [Apply(history[|steps|], step)], steps + [step])
  {
  }
}
