/**
 What retention cleanup takes away, over all interleavings: only what had been superseded for the
 retention period when it was selected, counted from the write that superseded it.
 */
module Retention {
  import opened Options
  import opened Publication

  /** The generation that a session of a cleanup is about. */
  predicate IsAbout(d: Document, s: SessionId, g: GenerationId) {
    && s in d.pending
    && (d.pending[s].Selected? || d.pending[s].Unpointed? || d.pending[s].Removing?)
    && d.pending[s].target == g
  }

  /** Step `k` selected the generation for the session, by its state, its time and the cutoff. */
  predicate SelectedAt(history: seq<Document>, steps: seq<Step>, k: nat, s: SessionId, g: GenerationId)
    requires |history| == |steps| + 1
  {
    && k < |steps| && steps[k].Select? && steps[k].session == s && steps[k].target == g
    && g in history[k].generations
    && history[k].generations[g].state == GenerationSuperseded
    && history[k].generations[g].supersededAt.Some?
    && history[k].generations[g].supersededAt.value <= steps[k].cutoff
  }

  /** What the last step was to a session that is about `g` after it: its selection, one of its two checks,
      or none of its own. */
  ghost predicate Moves(before: Document, step: Step, after: Document, s: SessionId, g: GenerationId)
    requires s in after.pending
  {
    || (s in before.pending && before.pending[s] == after.pending[s])
    || (step.Select? && step.session == s && step.target == g && after.pending[s].Selected?
        && g in before.generations && SupersededBy(before.generations[g], step.cutoff))
    || (step.CheckPointer? && step.session == s && after.pending[s].Unpointed?
        && IsAbout(before, s, g) && before.activeGeneration != Some(g))
    || (step.CheckAudit? && step.session == s && after.pending[s].Removing?
        && IsAbout(before, s, g) && before.pending[s].Unpointed? && g !in before.audited)
  }

  lemma AboutBefore(d: Document, step: Step, s: SessionId, g: GenerationId)
    requires Enabled(d, step) && IsAbout(Apply(d, step), s, g)
    ensures Moves(d, step, Apply(d, step), s, g)
  {
  }

  lemma LastMove(history: seq<Document>, steps: seq<Step>, i: nat, s: SessionId, g: GenerationId)
    requires IsRun(history, steps) && i <= |steps| && IsAbout(history[i], s, g)
    ensures i > 0 && Moves(history[i - 1], steps[i - 1], history[i], s, g)
  {
    assert Enabled(history[i - 1], steps[i - 1]) && history[i] == Apply(history[i - 1], steps[i - 1]);
    AboutBefore(history[i - 1], steps[i - 1], s, g);
  }

  lemma {:induction false} WasSelected(history: seq<Document>, steps: seq<Step>, i: nat, s: SessionId, g: GenerationId) returns (k: nat)
    requires IsRun(history, steps) && i <= |steps| && IsAbout(history[i], s, g)
    ensures k < i && SelectedAt(history, steps, k, s, g)
  {
    LastMove(history, steps, i, s, g);
    if steps[i - 1].Select? && steps[i - 1].session == s {
      k := i - 1;
    } else {
      k := WasSelected(history, steps, i - 1, s, g);
    }
  }

  /** After the check of the pointer, and after that of the audit log. */
  lemma {:induction false} WasUnpointed(history: seq<Document>, steps: seq<Step>, i: nat, s: SessionId, g: GenerationId) returns (k: nat, m: nat)
    requires IsRun(history, steps) && i <= |steps|
    requires IsAbout(history[i], s, g) && (history[i].pending[s].Unpointed? || history[i].pending[s].Removing?)
    ensures k < m < i && SelectedAt(history, steps, k, s, g) && history[m].activeGeneration != Some(g)
  {
    LastMove(history, steps, i, s, g);
    if steps[i - 1].CheckPointer? && steps[i - 1].session == s {
      m := i - 1;
      k := WasSelected(history, steps, m, s, g);
    } else {
      k, m := WasUnpointed(history, steps, i - 1, s, g);
    }
  }

  lemma {:induction false} WasUnaudited(history: seq<Document>, steps: seq<Step>, i: nat, s: SessionId, g: GenerationId)
    returns (k: nat, m: nat, n: nat)
    requires IsRun(history, steps) && i <= |steps| && IsAbout(history[i], s, g) && history[i].pending[s].Removing?
    ensures k < m < n < i && SelectedAt(history, steps, k, s, g)
    ensures history[m].activeGeneration != Some(g) && g !in history[n].audited
  {
    LastMove(history, steps, i, s, g);
    if steps[i - 1].CheckAudit? && steps[i - 1].session == s {
      n := i - 1;
      k, m := WasUnpointed(history, steps, n, s, g);
    } else {
      k, m, n := WasUnaudited(history, steps, i - 1, s, g);
    }
  }

  /** A state that says when the generation was superseded was written by a publication or a rollback at
      that time. */
  lemma {:induction false} SupersededWhen(history: seq<Document>, steps: seq<Step>, i: nat, g: GenerationId) returns (k: nat)
    requires IsRun(history, steps) && i <= |steps|
    requires g in history[i].generations && history[i].generations[g].state == GenerationSuperseded
    ensures k < i && (steps[k].Publish? || steps[k].CommitRollback?)
    ensures history[i].generations[g].supersededAt == Some(steps[k].now)
  {
    assert Enabled(history[i - 1], steps[i - 1]) && history[i] == Apply(history[i - 1], steps[i - 1]);
    if g in history[i - 1].generations && history[i - 1].generations[g] == history[i].generations[g] {
      k := SupersededWhen(history, steps, i - 1, g);
    } else {
      k := i - 1;
      SupersededNow(history[i - 1], steps[i - 1], g);
    }
  }

  lemma SupersededNow(d: Document, step: Step, g: GenerationId)
    requires Enabled(d, step)
    requires var after := Apply(d, step);
             && g in after.generations && after.generations[g].state == GenerationSuperseded
             && (g in d.generations ==> d.generations[g] != after.generations[g])
    ensures step.Publish? || step.CommitRollback?
    ensures Apply(d, step).generations[g].supersededAt == Some(step.now)
  {
    match step
    case Publish(s, count, now) => PublishSupersedes(d, s, count, now, g);
    case CommitRollback(s, now) =>
      if Lands(d, d.pending[s]) {
        RollbackSupersedes(Closed(d, s), d.pending[s], now, g);
      }
    case _ =>
  }

  lemma PublishSupersedes(d: Document, s: SessionId, count: nat, now: int, g: GenerationId)
    requires s in d.attempts
    requires var after := PublishSpec(d, s, count, now);
             && g in after.generations && after.generations[g].state == GenerationSuperseded
             && (g in d.generations ==> d.generations[g] != after.generations[g])
    ensures PublishSpec(d, s, count, now).generations[g].supersededAt == Some(now)
  {
  }

  lemma RollbackSupersedes(d: Document, p: Pending, now: int, g: GenerationId)
    requires p.Restoring?
    requires var after := RollbackSpec(d, p, now);
             && g in after.generations && after.generations[g].state == GenerationSuperseded
             && (g in d.generations ==> d.generations[g] != after.generations[g])
    ensures RollbackSpec(d, p, now).generations[g].supersededAt == Some(now)
  {
  }

  /** Over all runs, whatever commits in between: when a cleanup removes a generation, its session had
      selected it in a state in which a publication or a rollback had superseded it at or before the
      cutoff, and had then seen, in this order, that the document does not point to it and that it was
      never rolled back to. */
  lemma RemovedWasExpired(history: seq<Document>, steps: seq<Step>, i: nat) returns (w: nat, k: nat, m: nat, n: nat)
    requires IsRun(history, steps) && i < |steps| && steps[i].Remove?
    requires history[i].pending[steps[i].session].target in history[i].generations
    ensures var g := history[i].pending[steps[i].session].target;
            && w < k < m < n < i
            && (steps[w].Publish? || steps[w].CommitRollback?)
            && steps[k].Select? && steps[k].target == g && g in history[k].generations
            && history[k].generations[g].state == GenerationSuperseded
            && history[k].generations[g].supersededAt == Some(steps[w].now) && steps[w].now <= steps[k].cutoff
            && history[m].activeGeneration != Some(g) && g !in history[n].audited
            && g !in history[i + 1].generations
  {
    var s := steps[i].session;
    var g := history[i].pending[s].target;
    assert Enabled(history[i], steps[i]) && history[i + 1] == Apply(history[i], steps[i]);
    k, m, n := WasUnaudited(history, steps, i, s, g);
    w := SupersededWhen(history, steps, k, g);
  }

  /** And nothing but a removal takes a generation away. */
  lemma OnlyRemovalsTakeAway(d: Document, step: Step, g: GenerationId)
    requires Enabled(d, step) && g in d.generations && g !in Apply(d, step).generations
    ensures step.Remove? && d.pending[step.session].target == g
  {
  }
}
