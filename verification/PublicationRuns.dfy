/**
 Concrete runs in which sessions overlap and the document suffers: two active generations, a document
 that disappears from retrieval, a pointer to a generation that is gone, a version that is pointed to
 and superseded, and a number below one that exists.
 */
module PublicationRuns {
  import opened Options
  import opened Publication
  import opened Visibility
  import opened Consistency

  function Last(history: seq<Document>): Document
    requires history != []
  {
    history[|history| - 1]
  }

  lemma Extend(history0: seq<Document>, steps0: seq<Step>, step: Step) returns (history: seq<Document>, steps: seq<Step>)
    requires IsRun(history0, steps0) && Enabled(Last(history0), step)
    ensures IsRun(history, steps) && Last(history) == Apply(Last(history0), step)
    ensures RowsAgree(Last(history0)) && !Blinds(Last(history0), step) ==> RowsAgree(Last(history))
  {
    ExtendRun(history0, steps0, step);
    history, steps := history0 + [Apply(Last(history0), step)], steps0 + [step];
    if RowsAgree(Last(history0)) {
      StepShowsOrBlinds(Last(history0), step);
    }
  }

  /** An attempt makes its three queries one after the other and inserts its generation. */
  lemma Begin(history0: seq<Document>, steps0: seq<Step>, s: SessionId, v: VersionId, g: GenerationId, number: nat)
    returns (history: seq<Document>, steps: seq<Step>)
    requires IsRun(history0, steps0)
    requires var d := Last(history0);
             && v in d.versions && IsNew(d, s) && g !in d.issued
             && IsNextNumber(d.generations, number) && NumberIsFree(d, number)
    ensures IsRun(history, steps)
    ensures var d := Last(history0);
            Last(history) == d.(
              attempts := d.attempts[s := Attempt(v, d.versions[v] == VersionActive, d.activeVersion, d.activeGeneration, number, g)],
              issued := d.issued + {g})
    ensures RowsAgree(Last(history0)) ==> RowsAgree(Last(history))
  {
    history, steps := Extend(history0, steps0, ReadVersion(s, v));
    history, steps := Extend(history, steps, ReadDocument(s));
    history, steps := Number(history, steps, s, g, number);
    assert Last(history).pending == Last(history0).pending;
  }

  lemma Number(history0: seq<Document>, steps0: seq<Step>, s: SessionId, g: GenerationId, number: nat)
    returns (history: seq<Document>, steps: seq<Step>)
    requires IsRun(history0, steps0)
    requires var d := Last(history0);
             && s in d.pending && d.pending[s].DocumentRead? && s !in d.attempts && g !in d.issued
             && IsNextNumber(d.generations, number) && NumberIsFree(d, number)
    ensures IsRun(history, steps)
    ensures var d := Last(history0);
            var p := d.pending[s];
            Last(history) == d.(
              attempts := d.attempts[s := Attempt(p.version, p.versionWasActive, p.loadedVersion, p.loadedGeneration, number, g)],
              issued := d.issued + {g}, pending := d.pending - {s})
    ensures RowsAgree(Last(history0)) ==> RowsAgree(Last(history))
  {
    history, steps := Extend(history0, steps0, ReadNumber(s, number));
    assert Last(history).pending - {s} == Last(history0).pending - {s};
    history, steps := Extend(history, steps, Insert(s, g));
  }

  /** A rollback makes its three queries one after the other. */
  lemma OpenRollback(history0: seq<Document>, steps0: seq<Step>, s: SessionId, g: GenerationId)
    returns (history: seq<Document>, steps: seq<Step>)
    requires IsRun(history0, steps0) && IsNew(Last(history0), s) && Rollbackable(Last(history0), g)
    ensures IsRun(history, steps)
    ensures var d := Last(history0); Last(history) == d.(pending := d.pending[s := LoadFor(d, g)])
    ensures RowsAgree(Last(history0)) ==> RowsAgree(Last(history))
  {
    history, steps := Extend(history0, steps0, ReadPointers(s, g));
    history, steps := Extend(history, steps, ReadTarget(s));
    history, steps := Extend(history, steps, ReadTargetVersion(s));
    assert Last(history).pending == Last(history0).pending[s := LoadFor(Last(history0), g)];
  }

  lemma OpenRemoval(history0: seq<Document>, steps0: seq<Step>, s: SessionId, g: GenerationId, cutoff: int)
    returns (history: seq<Document>, steps: seq<Step>)
    requires IsRun(history0, steps0) && IsNew(Last(history0), s) && Removable(Last(history0), g, cutoff, true)
    ensures IsRun(history, steps)
    ensures var d := Last(history0); Last(history) == d.(pending := d.pending[s := Removing(g)])
    ensures RowsAgree(Last(history0)) ==> RowsAgree(Last(history))
  {
    history, steps := Extend(history0, steps0, Select(s, g, cutoff));
    history, steps := Extend(history, steps, CheckPointer(s));
    history, steps := Extend(history, steps, CheckAudit(s, true));
    assert Last(history).pending == Last(history0).pending[s := Removing(g)];
  }

  lemma FirstBuild() returns (history: seq<Document>, steps: seq<Step>)
    ensures IsRun(history, steps) && RowsAgree(Last(history))
    ensures Last(history) == EMPTY.(versions := map[0 := VersionStaging, 1 := VersionStaging],
                                    attempts := map[9 := Attempt(0, false, None, None, 1, 10)], issued := {10})
  {
    history, steps := [EMPTY], [];
    assert RowsAgree(EMPTY);
    history, steps := Extend(history, steps, AddVersion(0));
    history, steps := Extend(history, steps, AddVersion(1));
    history, steps := Begin(history, steps, 9, 0, 10, 1);
  }

  /** Version 0 published as generation 10. */
  lemma PublishedOnce() returns (history: seq<Document>, steps: seq<Step>)
    ensures IsRun(history, steps) && RowsAgree(Last(history))
    ensures var d := Last(history);
            && d.generations == map[10 := Generation(0, 1, GenerationActive, 1, None)]
            && d.versions == map[0 := VersionActive, 1 := VersionStaging]
            && d.activeVersion == Some(0) && d.activeGeneration == Some(10)
            && d.attempts == map[] && d.pending == map[] && d.audited == {} && d.issued == {10}
  {
    history, steps := FirstBuild();
    history, steps := Extend(history, steps, Publish(9, 1, 1));
  }

  lemma BuildingAgain(v: VersionId) returns (history: seq<Document>, steps: seq<Step>)
    requires v <= 1
    ensures IsRun(history, steps) && RowsAgree(Last(history))
    ensures var d := Last(history);
            && d.generations == map[10 := Generation(0, 1, GenerationActive, 1, None)]
            && d.versions == map[0 := VersionActive, 1 := VersionStaging]
            && d.activeVersion == Some(0) && d.activeGeneration == Some(10)
            && d.attempts == map[9 := Attempt(v, v == 0, Some(0), Some(10), 2, 11)]
            && d.pending == map[] && d.audited == {} && d.issued == {10, 11}
  {
    history, steps := PublishedOnce();
    assert Last(history).generations[10].number + 1 == 2;
    history, steps := Begin(history, steps, 9, v, 11, 2);
  }

  lemma SecondPublication(d: Document, v: VersionId)
    requires v <= 1 && d.generations == map[10 := Generation(0, 1, GenerationActive, 1, None)]
    requires d.versions == map[0 := VersionActive, 1 := VersionStaging] && d.activeVersion == Some(0)
    requires d.attempts == map[9 := Attempt(v, v == 0, Some(0), Some(10), 2, 11)]
    ensures var after := PublishSpec(d, 9, 1, 2);
            && after.generations == map[10 := Generation(0, 1, GenerationSuperseded, 1, Some(2)),
                                        11 := Generation(v, 2, GenerationActive, 1, None)]
            && after.versions == (if v == 0 then map[0 := VersionActive, 1 := VersionStaging]
                                  else map[0 := VersionSuperseded, 1 := VersionActive])
            && after.activeVersion == Some(v) && after.attempts == map[]
  {
  }

  /** Then version `v`, the same or another, published as generation 11. */
  lemma PublishedTwice(v: VersionId) returns (history: seq<Document>, steps: seq<Step>)
    requires v <= 1
    ensures IsRun(history, steps) && RowsAgree(Last(history))
    ensures var d := Last(history);
            && d.generations == map[10 := Generation(0, 1, GenerationSuperseded, 1, Some(2)),
                                    11 := Generation(v, 2, GenerationActive, 1, None)]
            && d.versions == (if v == 0 then map[0 := VersionActive, 1 := VersionStaging]
                              else map[0 := VersionSuperseded, 1 := VersionActive])
            && d.activeVersion == Some(v) && d.activeGeneration == Some(11)
            && d.attempts == map[] && d.pending == map[] && d.audited == {} && d.issued == {10, 11}
  {
    history, steps := BuildingAgain(v);
    SecondPublication(Last(history), v);
    history, steps := Extend(history, steps, Publish(9, 1, 2));
  }

  lemma BuildingThird(v: VersionId) returns (history: seq<Document>, steps: seq<Step>)
    requires v <= 1
    ensures IsRun(history, steps) && RowsAgree(Last(history))
    ensures var d := Last(history);
            && d.generations == map[10 := Generation(0, 1, GenerationSuperseded, 1, Some(2)),
                                    11 := Generation(v, 2, GenerationActive, 1, None)]
            && d.versions == (if v == 0 then map[0 := VersionActive, 1 := VersionStaging]
                              else map[0 := VersionSuperseded, 1 := VersionActive])
            && d.activeVersion == Some(v) && d.activeGeneration == Some(11)
            && d.attempts == map[9 := Attempt(v, true, Some(v), Some(11), 3, 12)] && d.pending == map[]
  {
    history, steps := PublishedTwice(v);
    assert Last(history).generations[11].number + 1 == 3;
    history, steps := Begin(history, steps, 9, v, 12, 3);
  }

  /** Version `v` is being built again as generation 12 when a rollback to generation 10 commits. */
  lemma RolledBackMeanwhile(v: VersionId) returns (history: seq<Document>, steps: seq<Step>)
    requires v <= 1
    ensures IsRun(history, steps) && RowsAgree(Last(history))
    ensures var d := Last(history);
            && d.generations == map[10 := Generation(0, 1, GenerationActive, 1, None),
                                    11 := Generation(v, 2, GenerationSuperseded, 1, Some(3))]
            && d.activeVersion == Some(0) && d.activeGeneration == Some(10)
            && d.attempts == map[9 := Attempt(v, true, Some(v), Some(11), 3, 12)]
  {
    history, steps := BuildingThird(v);
    history, steps := OpenRollback(history, steps, 0, 10);
    history, steps := Extend(history, steps, CommitRollback(0, 3));
  }

  /** A rebuild publishes over a rollback: two generations end up active. */
  lemma StalePublicationLeavesTwoActive() returns (history: seq<Document>, steps: seq<Step>)
    ensures IsRun(history, steps)
    ensures var d := Last(history);
            && 10 in d.generations && d.generations[10].state == GenerationActive
            && 12 in d.generations && d.generations[12].state == GenerationActive
  {
    history, steps := RolledBackMeanwhile(0);
    history, steps := Extend(history, steps, Publish(9, 1, 4));
  }

  /** The same over a rollback to another version: generation 12 is active and complete, and retrieval
      sees nothing of the document. */
  lemma StalePublicationHidesDocument() returns (history: seq<Document>, steps: seq<Step>)
    ensures IsRun(history, steps)
    ensures var d := Last(history);
            && d.activeVersion == Some(0) && d.activeGeneration == Some(12)
            && 12 in d.generations && d.generations[12].version == 1 && d.generations[12].chunkCount == 1
            && ChunkKey(12, 0) in d.chunks && VisibleChunks(d) == {}
  {
    history, steps := RolledBackMeanwhile(1);
    HiddenByPublication(Last(history));
    history, steps := Extend(history, steps, Publish(9, 1, 4));
  }

  lemma HiddenByPublication(d: Document)
    requires RowsAgree(d) && d.activeVersion == Some(0)
    requires d.attempts == map[9 := Attempt(1, true, Some(1), Some(11), 3, 12)]
    ensures var after := PublishSpec(d, 9, 1, 4);
            ChunkKey(12, 0) in after.chunks && VisibleChunks(after) == {}
  {
    var after := PublishSpec(d, 9, 1, 4);
    PublishChunks(d, 9, 1, 4);
    assert AttemptKnown(d, d.attempts[9]);
    assert ChunkKey(12, 0) in AllChunks(12, 1);
    forall key | key in after.chunks ensures !Visible(after, key) {
      assert key.generation == 12 ==> key !in d.chunks && after.chunks[key].version == 1;
    }
  }

  lemma RollbackOpen() returns (history: seq<Document>, steps: seq<Step>)
    ensures IsRun(history, steps)
    ensures var d := Last(history);
            && d.generations == map[10 := Generation(0, 1, GenerationSuperseded, 1, Some(2)),
                                    11 := Generation(0, 2, GenerationActive, 1, None)]
            && d.versions == map[0 := VersionActive, 1 := VersionStaging]
            && d.activeVersion == Some(0) && d.activeGeneration == Some(11)
            && d.attempts == map[] && d.issued == {10, 11}
            && d.pending == map[0 := Restoring(10, Some(0), Some(11), false, 0, true)]
  {
    history, steps := PublishedTwice(0);
    history, steps := OpenRollback(history, steps, 0, 10);
  }

  lemma RollbackAndBuildOpen() returns (history: seq<Document>, steps: seq<Step>)
    ensures IsRun(history, steps)
    ensures var d := Last(history);
            && d.generations == map[10 := Generation(0, 1, GenerationSuperseded, 1, Some(2)),
                                    11 := Generation(0, 2, GenerationActive, 1, None)]
            && d.attempts == map[9 := Attempt(0, true, Some(0), Some(11), 3, 12)]
            && 0 in d.pending && d.pending[0] == Restoring(10, Some(0), Some(11), false, 0, true)
  {
    history, steps := RollbackOpen();
    assert Last(history).generations[11].number + 1 == 3;
    history, steps := Begin(history, steps, 9, 0, 12, 3);
  }

  /** A rollback to generation 10 is open when generation 12 is published. */
  lemma PublishedMeanwhile() returns (history: seq<Document>, steps: seq<Step>)
    ensures IsRun(history, steps)
    ensures var d := Last(history);
            && d.generations == map[10 := Generation(0, 1, GenerationSuperseded, 1, Some(2)),
                                    11 := Generation(0, 2, GenerationSuperseded, 1, Some(3)),
                                    12 := Generation(0, 3, GenerationActive, 1, None)]
            && d.activeGeneration == Some(12)
            && 0 in d.pending && d.pending[0] == Restoring(10, Some(0), Some(11), false, 0, true)
  {
    history, steps := RollbackAndBuildOpen();
    history, steps := Extend(history, steps, Publish(9, 1, 3));
  }

  /** A rollback writes over a publication that committed while it waited for the indexes: two
      generations end up active, though the publication itself was fresh. */
  lemma StaleRollbackLeavesTwoActive() returns (history: seq<Document>, steps: seq<Step>)
    ensures IsRun(history, steps)
    ensures var d := Last(history);
            && 10 in d.generations && d.generations[10].state == GenerationActive
            && 12 in d.generations && d.generations[12].state == GenerationActive
  {
    history, steps := PublishedMeanwhile();
    history, steps := Extend(history, steps, CommitRollback(0, 4));
  }

  lemma RemovalAndRollbackOpen() returns (history: seq<Document>, steps: seq<Step>)
    ensures IsRun(history, steps)
    ensures var d := Last(history);
            && d.generations == map[10 := Generation(0, 1, GenerationSuperseded, 1, Some(2)),
                                    11 := Generation(0, 2, GenerationActive, 1, None)]
            && d.versions == map[0 := VersionActive, 1 := VersionStaging]
            && d.activeVersion == Some(0) && d.activeGeneration == Some(11) && d.attempts == map[]
            && d.pending == map[0 := Removing(10), 1 := Restoring(10, Some(0), Some(11), false, 0, true)]
  {
    history, steps := PublishedTwice(0);
    history, steps := OpenRemoval(history, steps, 0, 10, 5);
    history, steps := OpenRollback(history, steps, 1, 10);
  }

  lemma RolledBackBeforeRemoval() returns (history: seq<Document>, steps: seq<Step>)
    ensures IsRun(history, steps)
    ensures var d := Last(history);
            && d.activeGeneration == Some(10) && 10 in d.audited
            && 0 in d.pending && d.pending[0] == Removing(10)
  {
    history, steps := RemovalAndRollbackOpen();
    history, steps := Extend(history, steps, CommitRollback(1, 3));
  }

  /** A cleanup removes the generation that was rolled back to after its check: the document points to a
      generation that is gone, and retrieval sees nothing. */
  lemma LateRemovalHidesDocument() returns (history: seq<Document>, steps: seq<Step>)
    ensures IsRun(history, steps)
    ensures var d := Last(history);
            && d.activeGeneration == Some(10) && 10 in d.audited && 10 !in d.generations && VisibleChunks(d) == {}
  {
    history, steps := RolledBackBeforeRemoval();
    history, steps := Extend(history, steps, Remove(0));
    var d := Last(history);
    assert forall key :: key in d.chunks ==> !Visible(d, key);
  }

  lemma Overtaking() returns (history: seq<Document>, steps: seq<Step>)
    ensures IsRun(history, steps)
    ensures var d := Last(history);
            && d.generations == map[10 := Generation(0, 1, GenerationActive, 1, None)]
            && d.activeVersion == Some(0) && d.activeGeneration == Some(10)
            && d.attempts == map[9 := Attempt(0, true, Some(0), Some(10), 2, 11)] && d.issued == {10, 11}
            && 0 in d.pending && d.pending[0] == DocumentRead(0, true, Some(0), Some(10))
  {
    history, steps := PublishedOnce();
    history, steps := Extend(history, steps, ReadVersion(0, 0));
    history, steps := Extend(history, steps, ReadDocument(0));
    assert Last(history).generations[10].number + 1 == 2;
    history, steps := Begin(history, steps, 9, 0, 11, 2);
  }

  /** Generation 11 is published between the reads of an attempt and its numbering. */
  lemma OvertakenAttempt() returns (history: seq<Document>, steps: seq<Step>)
    ensures IsRun(history, steps)
    ensures var d := Last(history);
            && d.generations == map[10 := Generation(0, 1, GenerationSuperseded, 1, Some(2)),
                                    11 := Generation(0, 2, GenerationActive, 1, None)]
            && d.attempts == map[] && d.issued == {10, 11}
            && 0 in d.pending && d.pending[0] == DocumentRead(0, true, Some(0), Some(10))
  {
    history, steps := Overtaking();
    history, steps := Extend(history, steps, Publish(9, 1, 2));
  }

  /** The attempt goes on with the pointers that it read: two generations end up active. */
  lemma OvertakenAttemptLeavesTwoActive() returns (history: seq<Document>, steps: seq<Step>)
    ensures IsRun(history, steps)
    ensures var d := Last(history);
            && 11 in d.generations && d.generations[11].state == GenerationActive
            && 12 in d.generations && d.generations[12].state == GenerationActive
  {
    history, steps := OvertakenAttempt();
    assert Last(history).generations[11].number + 1 == 3;
    history, steps := Number(history, steps, 0, 12, 3);
    history, steps := Extend(history, steps, Publish(0, 1, 3));
  }

  // ---- A rollback between the queries of an attempt ----

  lemma RollbackOpenBetweenQueries() returns (history: seq<Document>, steps: seq<Step>)
    ensures IsRun(history, steps)
    ensures var d := Last(history);
            && d.generations == map[10 := Generation(0, 1, GenerationSuperseded, 1, Some(2)),
                                    11 := Generation(1, 2, GenerationActive, 1, None)]
            && d.versions == map[0 := VersionSuperseded, 1 := VersionActive]
            && d.activeVersion == Some(1) && d.activeGeneration == Some(11)
            && d.attempts == map[] && d.issued == {10, 11}
            && d.pending == map[0 := VersionRead(1, true), 1 := Restoring(10, Some(1), Some(11), false, 0, false)]
  {
    history, steps := PublishedTwice(1);
    history, steps := Extend(history, steps, ReadVersion(0, 1));
    history, steps := OpenRollback(history, steps, 1, 10);
  }

  /** An attempt for version 1 has read its version when a rollback to version 0 commits. */
  lemma RolledBackBetweenQueries() returns (history: seq<Document>, steps: seq<Step>)
    ensures IsRun(history, steps)
    ensures var d := Last(history);
            && d.generations == map[10 := Generation(0, 1, GenerationActive, 1, None),
                                    11 := Generation(1, 2, GenerationSuperseded, 1, Some(3))]
            && d.versions == map[0 := VersionActive, 1 := VersionSuperseded]
            && d.activeVersion == Some(0) && d.activeGeneration == Some(10)
            && d.attempts == map[] && d.issued == {10, 11}
            && d.pending == map[0 := VersionRead(1, true)]
  {
    history, steps := RollbackOpenBetweenQueries();
    history, steps := Extend(history, steps, CommitRollback(1, 3));
  }

  lemma MisreadAttempt() returns (history: seq<Document>, steps: seq<Step>)
    ensures IsRun(history, steps)
    ensures var d := Last(history);
            && d.versions == map[0 := VersionActive, 1 := VersionSuperseded]
            && d.activeVersion == Some(0) && d.activeGeneration == Some(10)
            && d.attempts == map[0 := Attempt(1, true, Some(0), Some(10), 3, 12)]
  {
    history, steps := RolledBackBetweenQueries();
    history, steps := Extend(history, steps, ReadDocument(0));
    assert Last(history).generations[11].number + 1 == 3;
    history, steps := Number(history, steps, 0, 12, 3);
  }

  /** The attempt publishes over nothing that it has not read, and does not write the state that it
      believes to be there: the version that the document points to stays superseded. */
  lemma MisreadVersionStaysSuperseded() returns (history: seq<Document>, steps: seq<Step>)
    ensures IsRun(history, steps)
    ensures var d := Last(history);
            && d.activeVersion == Some(1) && d.activeGeneration == Some(12)
            && d.versions == map[0 := VersionSuperseded, 1 := VersionSuperseded]
  {
    history, steps := MisreadAttempt();
    history, steps := Extend(history, steps, Publish(0, 1, 4));
  }

  // ---- A removal of the greatest number ----

  lemma RolledBackOnce() returns (history: seq<Document>, steps: seq<Step>)
    ensures IsRun(history, steps)
    ensures var d := Last(history);
            && d.generations == map[10 := Generation(0, 1, GenerationActive, 1, None),
                                    11 := Generation(0, 2, GenerationSuperseded, 1, Some(3))]
            && d.versions == map[0 := VersionActive, 1 := VersionStaging]
            && d.activeVersion == Some(0) && d.activeGeneration == Some(10)
            && d.attempts == map[] && d.pending == map[] && d.audited == {10} && d.issued == {10, 11}
  {
    history, steps := PublishedTwice(0);
    history, steps := OpenRollback(history, steps, 1, 10);
    history, steps := Extend(history, steps, CommitRollback(1, 3));
  }

  /** Generation 11, with the greatest number, expires while an attempt has inserted number 3. */
  lemma GreatestRemoved() returns (history: seq<Document>, steps: seq<Step>)
    ensures IsRun(history, steps)
    ensures var d := Last(history);
            && d.generations == map[10 := Generation(0, 1, GenerationActive, 1, None)]
            && 0 in d.versions && d.pending == map[] && d.issued == {10, 11, 12}
            && d.attempts == map[9 := Attempt(0, true, Some(0), Some(10), 3, 12)]
  {
    history, steps := RolledBackOnce();
    assert Last(history).generations[11].number + 1 == 3;
    history, steps := Begin(history, steps, 9, 0, 12, 3);
    history, steps := OpenRemoval(history, steps, 0, 11, 5);
    history, steps := Extend(history, steps, Remove(0));
  }

  lemma TwoNumberedAttempts() returns (history: seq<Document>, steps: seq<Step>)
    ensures IsRun(history, steps)
    ensures var d := Last(history);
            && d.generations == map[10 := Generation(0, 1, GenerationActive, 1, None)]
            && d.attempts.Keys == {8, 9} && d.attempts[9].number == 3 && d.attempts[9].generation == 12
            && d.attempts[8].number == 2 && d.attempts[8].generation == 13
  {
    history, steps := GreatestRemoved();
    assert Last(history).generations[10].number + 1 == 2;
    history, steps := Begin(history, steps, 8, 0, 13, 2);
  }

  /** Two attempts have inserted generations at once, and the later one adds the smaller number. */
  lemma UndercutAttemptAddsSmallerNumber() returns (history: seq<Document>, steps: seq<Step>)
    ensures IsRun(history, steps) && |steps| > 0 && steps[|steps| - 1] == Fail(8, 0)
    ensures var (before, d) := (history[|steps| - 1], Last(history));
            && 12 in before.generations && before.generations[12].number == 3 && 13 !in before.generations
            && 13 in d.generations && d.generations[13].number == 2
  {
    history, steps := TwoNumberedAttempts();
    history, steps := Extend(history, steps, Fail(9, 0));
    var before := history;
    ExtendRun(history, steps, Fail(8, 0));
    history, steps := history + [Apply(Last(before), Fail(8, 0))], steps + [Fail(8, 0)];
  }
}
