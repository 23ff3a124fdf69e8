/**
 The numbers of a document's generations, over all interleavings. An attempt takes one more than the
 greatest number that it finds; what exists in between may be removed, and the unique key settles who
 keeps a number that two attempts have read.
 */
module Numbering {
  import opened Options
  import opened Publication

  function Numbers(d: Document): set<nat> {
    set g | g in d.generations :: d.generations[g].number
  }

  /** Generations, and attempts that have inserted one, have numbers of their own. */
  ghost predicate NumbersDiffer(d: Document) {
    && (forall g, h :: g in d.generations && h in d.generations && g != h ==>
          d.generations[g].number != d.generations[h].number)
    && (forall s, t :: s in d.attempts && t in d.attempts && s != t ==> d.attempts[s].number != d.attempts[t].number)
    && (forall s :: s in d.attempts ==> d.attempts[s].number !in Numbers(d))
  }

  /** The generation rows of `after` are among those of `d`, up to the states. */
  predicate FewerNumbers(d: Document, after: Document) {
    forall g :: g in after.generations ==> g in d.generations && after.generations[g].number == d.generations[g].number
  }

  predicate AddsNumber(d: Document, after: Document, g: GenerationId, number: nat) {
    && after.generations.Keys == d.generations.Keys + {g}
    && after.generations[g].number == number
    && forall h :: h in d.generations && h != g ==> after.generations[h].number == d.generations[h].number
  }

  lemma PublishAddsNumber(d: Document, s: SessionId, count: nat, now: int)
    requires s in d.attempts
    ensures AddsNumber(d, PublishSpec(d, s, count, now), d.attempts[s].generation, d.attempts[s].number)
  {
  }

  lemma RollbackAddsNone(d: Document, p: Pending, now: int)
    requires p.Restoring?
    ensures FewerNumbers(d, RollbackSpec(d, p, now)) && FewerNumbers(RollbackSpec(d, p, now), d)
  {
  }

  lemma FewerNumbersDiffer(d: Document, after: Document)
    requires NumbersDiffer(d) && FewerNumbers(d, after)
    requires forall s :: s in after.attempts ==> s in d.attempts && after.attempts[s] == d.attempts[s]
    ensures NumbersDiffer(after)
    ensures Numbers(after) <= Numbers(d)
  {
    forall g | g in after.generations ensures after.generations[g].number in Numbers(d) {
      assert d.generations[g].number in Numbers(d);
    }
  }

  lemma AddedNumbers(d: Document, after: Document, g: GenerationId, number: nat)
    requires g !in d.generations && AddsNumber(d, after, g, number)
    ensures Numbers(after) == Numbers(d) + {number}
  {
    forall h | h in after.generations ensures after.generations[h].number in Numbers(d) + {number} {
      assert h != g ==> d.generations[h].number in Numbers(d);
    }
    forall h | h in d.generations ensures d.generations[h].number in Numbers(after) {
      assert after.generations[h].number in Numbers(after);
    }
    assert after.generations[g].number in Numbers(after);
  }

  lemma AddedNumbersDiffer(d: Document, after: Document, s: SessionId)
    requires NumbersDiffer(d) && s in d.attempts && after.attempts == d.attempts - {s}
    requires d.attempts[s].generation !in d.generations
    requires AddsNumber(d, after, d.attempts[s].generation, d.attempts[s].number)
    ensures NumbersDiffer(after)
  {
    var a := d.attempts[s];
    AddedNumbers(d, after, a.generation, a.number);
    forall g | g in d.generations ensures after.generations[g].number != a.number {
      assert d.generations[g].number in Numbers(d);
    }
    forall g, h | g in after.generations && h in after.generations && g != h
      ensures after.generations[g].number != after.generations[h].number
    {
      assert g in d.generations || h in d.generations;
    }
  }

  lemma RemovedNumbersDiffer(d: Document, g: GenerationId)
    requires NumbersDiffer(d)
    ensures NumbersDiffer(RemovalSpec(d, g))
    ensures Numbers(RemovalSpec(d, g)) ==
              if g in d.generations then Numbers(d) - {d.generations[g].number} else Numbers(d)
  {
    var after := RemovalSpec(d, g);
    FewerNumbersDiffer(d, after);
    forall h | h in d.generations && h != g ensures d.generations[h].number in Numbers(after) {
      assert after.generations[h] == d.generations[h];
    }
  }

  /** The numbers after a step. */
  ghost predicate NumbersAfter(d: Document, step: Step, after: Document)
    requires Enabled(d, step)
  {
    Numbers(after) ==
      if step.Publish? || step.Fail? then Numbers(d) + {d.attempts[step.session].number}
      else if step.Remove? && d.pending[step.session].target in d.generations then
        Numbers(d) - {d.generations[d.pending[step.session].target].number}
      else Numbers(d)
  }

  lemma CommitRollbackKeepsNumbers(d: Document, s: SessionId, now: int)
    requires Enabled(d, CommitRollback(s, now)) && NumbersDiffer(d)
    ensures var after := Apply(d, CommitRollback(s, now));
            NumbersDiffer(after) && Numbers(after) == Numbers(d)
  {
    var after := Apply(d, CommitRollback(s, now));
    if Lands(d, d.pending[s]) {
      RollbackAddsNone(Closed(d, s), d.pending[s], now);
    }
    FewerNumbersDiffer(d, after);
    FewerNumbersDiffer(after, d.(attempts := after.attempts));
  }

  /** Ids are given out once. */
  ghost predicate IdsFresh(d: Document) {
    && (forall g :: g in d.generations ==> g in d.issued)
    && (forall s :: s in d.attempts ==> d.attempts[s].generation in d.issued && d.attempts[s].generation !in d.generations)
    && (forall s, t :: s in d.attempts && t in d.attempts && s != t ==>
          d.attempts[s].generation != d.attempts[t].generation)
  }

  lemma FewerIdsFresh(d: Document, after: Document)
    requires IdsFresh(d) && after.issued == d.issued && after.generations.Keys <= d.generations.Keys
    requires forall s :: s in after.attempts ==> s in d.attempts && after.attempts[s] == d.attempts[s]
    ensures IdsFresh(after)
  {
  }

  lemma AddingKeepsIdsFresh(d: Document, after: Document, s: SessionId)
    requires IdsFresh(d) && s in d.attempts && after.attempts == d.attempts - {s} && after.issued == d.issued
    requires after.generations.Keys == d.generations.Keys + {d.attempts[s].generation}
    ensures IdsFresh(after)
  {
  }

  lemma StepKeepsIdsFresh(d: Document, step: Step)
    requires Enabled(d, step) && IdsFresh(d)
    ensures IdsFresh(Apply(d, step))
  {
    var after := Apply(d, step);
    if step.Publish? {
      PublishAddsNumber(d, step.session, step.count, step.now);
      AddingKeepsIdsFresh(d, after, step.session);
    } else if step.Fail? {
      AddingKeepsIdsFresh(d, after, step.session);
    } else if step.CommitRollback? {
      if Lands(d, d.pending[step.session]) {
        RollbackAddsNone(Closed(d, step.session), d.pending[step.session], step.now);
      }
      FewerIdsFresh(d, after);
    } else if !step.Insert? {
      FewerIdsFresh(d, after);
    }
  }

  lemma AddingKeepsNumbersDifferent(d: Document, step: Step)
    requires Enabled(d, step) && NumbersDiffer(d) && IdsFresh(d) && (step.Publish? || step.Fail?)
    ensures NumbersDiffer(Apply(d, step)) && NumbersAfter(d, step, Apply(d, step))
  {
    var s, after := step.session, Apply(d, step);
    if step.Publish? {
      PublishAddsNumber(d, s, step.count, step.now);
    }
    AddedNumbersDiffer(d, after, s);
    AddedNumbers(d, after, d.attempts[s].generation, d.attempts[s].number);
  }

  lemma InsertKeepsNumbersDifferent(d: Document, step: Step)
    requires Enabled(d, step) && step.Insert? && NumbersDiffer(d)
    ensures NumbersDiffer(Apply(d, step)) && Numbers(Apply(d, step)) == Numbers(d)
  {
    assert Apply(d, step).generations == d.generations;
  }

  lemma ReadKeepsNumbersDifferent(d: Document, step: Step)
    requires Enabled(d, step) && NumbersDiffer(d)
    requires IsRead(step) || step.AddVersion? || step.Abandon? || step.Drop?
    ensures NumbersDiffer(Apply(d, step)) && Numbers(Apply(d, step)) == Numbers(d)
  {
    assert Apply(d, step).generations == d.generations;
  }

  lemma StepKeepsNumbersDifferent(d: Document, step: Step)
    requires Enabled(d, step) && NumbersDiffer(d) && IdsFresh(d)
    ensures NumbersDiffer(Apply(d, step)) && NumbersAfter(d, step, Apply(d, step))
  {
    if step.Publish? || step.Fail? {
      AddingKeepsNumbersDifferent(d, step);
    } else if step.CommitRollback? {
      CommitRollbackKeepsNumbers(d, step.session, step.now);
    } else if step.Remove? {
      RemovedNumbersDiffer(Closed(d, step.session), d.pending[step.session].target);
    } else if step.Insert? {
      InsertKeepsNumbersDifferent(d, step);
    } else {
      ReadKeepsNumbersDifferent(d, step);
    }
  }

  /** Over all runs, stale writes included: no two generations share a number, nor does an attempt share
      one with a generation or another attempt. */
  lemma {:induction false} NumbersDifferThroughout(history: seq<Document>, steps: seq<Step>, i: nat)
    requires IsRun(history, steps) && i <= |steps|
    ensures NumbersDiffer(history[i]) && IdsFresh(history[i])
  {
    if i > 0 {
      NumbersDifferThroughout(history, steps, i - 1);
      StepKeepsNumbersDifferent(history[i - 1], steps[i - 1]);
      StepKeepsIdsFresh(history[i - 1], steps[i - 1]);
    }
  }

  // ---- Growth ----

  /** An attempt that has read its number, inserted or not. */
  predicate Holds(d: Document, s: SessionId, number: nat) {
    || (s in d.attempts && d.attempts[s].number == number)
    || (s in d.pending && d.pending[s].NumberRead? && d.pending[s].number == number)
  }

  /** The number before is still there; and so is the number itself, if there is a greater one. */
  predicate Anchored(numbers: set<nat>, n: nat) {
    && n > 0
    && (n == 1 || n - 1 in numbers)
    && (n in numbers || forall m :: m in numbers ==> m < n)
  }

  ghost predicate AllAnchored(d: Document) {
    forall s: SessionId, n: nat :: Holds(d, s, n) ==> Anchored(Numbers(d), n)
  }

  /** A removal of the number that a session has counted from, or of that number or a greater one. */
  ghost predicate Undercuts(d: Document, step: Step)
    requires Enabled(d, step)
  {
    && step.Remove?
    && d.pending[step.session].target in d.generations
    && exists s: SessionId, n: nat :: Holds(d, s, n) && n <= d.generations[d.pending[step.session].target].number + 1
  }

  lemma NextNumberIsAnchored(d: Document, number: nat)
    requires IsNextNumber(d.generations, number)
    ensures Anchored(Numbers(d), number)
  {
    if g :| g in d.generations && d.generations[g].number + 1 == number {
      assert d.generations[g].number in Numbers(d);
    }
  }

  lemma AnchoredAfterAdding(numbers: set<nat>, n: nat, added: nat)
    requires Anchored(numbers, n) && Anchored(numbers, added) && added !in numbers
    ensures Anchored(numbers + {added}, n)
  {
  }

  lemma AnchoredAfterRemoving(numbers: set<nat>, n: nat, removed: nat)
    requires Anchored(numbers, n) && removed + 1 < n
    ensures Anchored(numbers - {removed}, n)
  {
  }

  lemma HeldAfter(d: Document, step: Step, s: SessionId, n: nat)
    requires Enabled(d, step) && Holds(Apply(d, step), s, n)
    ensures Holds(d, s, n) || (step.ReadNumber? && IsNextNumber(d.generations, n))
  {
  }

  lemma NumberStaysAnchored(d: Document, step: Step, n: nat)
    requires Enabled(d, step) && NumbersDiffer(d) && IdsFresh(d) && AllAnchored(d)
    requires Anchored(Numbers(d), n)
    requires step.Remove? && d.pending[step.session].target in d.generations ==>
               d.generations[d.pending[step.session].target].number + 1 < n
    ensures Anchored(Numbers(Apply(d, step)), n)
  {
    StepKeepsNumbersDifferent(d, step);
    if step.Publish? || step.Fail? {
      var added := d.attempts[step.session].number;
      assert Holds(d, step.session, added);
      AnchoredAfterAdding(Numbers(d), n, added);
    } else if step.Remove? && d.pending[step.session].target in d.generations {
      AnchoredAfterRemoving(Numbers(d), n, d.generations[d.pending[step.session].target].number);
    }
  }

  lemma StepKeepsAnchored(d: Document, step: Step)
    requires Enabled(d, step) && NumbersDiffer(d) && IdsFresh(d) && AllAnchored(d) && !Undercuts(d, step)
    ensures AllAnchored(Apply(d, step))
  {
    forall s: SessionId, n: nat | Holds(Apply(d, step), s, n) ensures Anchored(Numbers(Apply(d, step)), n) {
      HeldAfter(d, step, s, n);
      if !Holds(d, s, n) {
        NextNumberIsAnchored(d, n);
      }
      NumberStaysAnchored(d, step, n);
    }
  }

  ghost predicate NoneUndercuts(history: seq<Document>, steps: seq<Step>)
    requires IsRun(history, steps)
  {
    forall i :: 0 <= i < |steps| ==> !Undercuts(history[i], steps[i])
  }

  lemma {:induction false} AnchoredUntil(history: seq<Document>, steps: seq<Step>, i: nat)
    requires IsRun(history, steps) && i <= |steps| && NoneUndercuts(history, steps)
    ensures AllAnchored(history[i])
  {
    if i > 0 {
      AnchoredUntil(history, steps, i - 1);
      NumbersDifferThroughout(history, steps, i - 1);
      StepKeepsAnchored(history[i - 1], steps[i - 1]);
    }
  }

  /** While no removal undercuts a number that a session holds, what an attempt adds has a number above
      all that exist then, and one attempt at most has inserted its generation. */
  lemma NumbersGrowUnlessUndercut(history: seq<Document>, steps: seq<Step>, i: nat)
    requires IsRun(history, steps) && i <= |steps| && NoneUndercuts(history, steps)
    ensures var d := history[i];
            && (forall s, t :: s in d.attempts && t in d.attempts ==> s == t)
            && (forall s, g :: s in d.attempts && g in d.generations ==> d.generations[g].number < d.attempts[s].number)
  {
    var d := history[i];
    AnchoredUntil(history, steps, i);
    NumbersDifferThroughout(history, steps, i);
    forall s | s in d.attempts ensures Holds(d, s, d.attempts[s].number) {
    }
    forall s, g | s in d.attempts && g in d.generations ensures d.generations[g].number < d.attempts[s].number {
      assert Anchored(Numbers(d), d.attempts[s].number);
      assert d.generations[g].number in Numbers(d);
    }
  }
}
