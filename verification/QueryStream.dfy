/**
 One streamed query: the events a client sees, the answer that is stored, and how cancellation and
 failure change both. The fixed sentences shown to users are represented by constants.
 */
module QueryStream {
  import opened Options
  import opened ModelGateway

  datatype Status = Success | Degraded | Refusal | Failed | Cancelled

  datatype Evidence = Evidence(chunkId: string, text: string)

  /** A reference to the evidence at a position, counted from 1. */
  datatype Citation = Citation(chunkId: string, position: nat)

  datatype Event =
    | QueryEvent
    | AnswerEvent(delta: string)
    | CitationEvent(citation: Citation)
    | TerminalEvent(status: Status)

  datatype Retrieval = Retrieval(evidence: seq<Evidence>, conflict: bool, degraded: bool)

  datatype Outcome = Outcome(status: Status, text: string, citations: seq<Citation>)

  datatype Answer = Answer(text: string, status: Status, citations: seq<Citation>)

  const INPUT_REFUSED := "input-refused"
  const NO_EVIDENCE := "no-evidence"
  const CONFLICT_HEADER := "conflicting-sources"
  const OUTPUT_REFUSED := "output-refused"
  const STREAM_FAILED := "stream-failed"
  const EMPTY_ANSWER := "empty-answer"
  const EVIDENCE_CHANGED := "evidence-changed"

  /** Everything a run meets. `cancelled(n)` is what the n-th look at the cancellation flag sees. */
  datatype Environment = Environment(
    cancelled: nat -> bool,
    inputFlagged: bool,
    retrieval: Option<Retrieval>,   // None: retrieval raises
    unsafeEvidence: string -> bool,
    unsafeOutput: string -> bool,
    streaming: bool,
    provider: ProviderRun,          // the gateway's stream, when streaming
    completion: Option<string>,     // the gateway's answer, when buffered; None: it raises
    activeChunks: set<string>)      // still visible when the answer is validated

  /** The flag is set once and stays set. */
  ghost predicate SetOnce(cancelled: nat -> bool) {
    forall m: nat, n: nat :: m <= n && cancelled(m) ==> cancelled(n)
  }

  // ---- The cancellation registry ----

  class CancellationRegistry {
    /** Registered query ids and whether their flag is set. */
    var flags: map<string, bool>

    constructor ()
      ensures flags == map[]
    {
      flags := map[];
    }

    /** A flag that was set before the query registered is kept. */
    method GetOrRegister(queryId: string) returns (isSet: bool)
      modifies this
      ensures isSet == (queryId in old(flags) && old(flags)[queryId])
      ensures flags == old(flags)[queryId := isSet]
    {
      if queryId !in flags {
        flags := flags[queryId := false];
      }
      isSet := flags[queryId];
    }

    method Cancel(queryId: string) returns (first: bool)
      modifies this
      ensures first == !(queryId in old(flags) && old(flags)[queryId])
      ensures flags == old(flags)[queryId := true]
    {
      var already := GetOrRegister(queryId);
      flags := flags[queryId := true];
      first := !already;
    }

    method Discard(queryId: string)
      modifies this
      ensures flags == old(flags) - {queryId}
    {
      flags := flags - {queryId};
    }
  }

  // ---- Pieces of a run ----

  function Join(parts: seq<string>): string {
    if parts == [] then "" else Join(parts[..|parts| - 1]) + parts[|parts| - 1]
  }

  /** Citations of the evidence that passes the content check, with their positions. */
  function Drafts(env: Environment, evidence: seq<Evidence>): seq<Citation> {
    if evidence == [] then []
    else
      var n := |evidence|;
      Drafts(env, evidence[..n - 1])
      + if env.unsafeEvidence(evidence[n - 1].text) then [] else [Citation(evidence[n - 1].chunkId, n)]
  }

  predicate PassesAt(env: Environment, evidence: seq<Evidence>, i: int) {
    0 <= i < |evidence| && !env.unsafeEvidence(evidence[i].text)
  }

  /** The drafts cite exactly the evidence that passes, by its place among all of it. */
  lemma {:induction false} DraftsCiteWhatPasses(env: Environment, evidence: seq<Evidence>, c: Citation)
    ensures c in Drafts(env, evidence) <==>
              PassesAt(env, evidence, c.position - 1) && evidence[c.position - 1].chunkId == c.chunkId
  {
    if evidence != [] {
      var n := |evidence| - 1;
      DraftsCiteWhatPasses(env, evidence[..n], c);
      assert c.position - 1 < n ==> (PassesAt(env, evidence, c.position - 1) <==> PassesAt(env, evidence[..n], c.position - 1));
    }
  }

  /** And in its order. */
  lemma {:induction false} DraftsAreInOrder(env: Environment, evidence: seq<Evidence>)
    ensures InOrder(Drafts(env, evidence), |evidence|)
  {
    if evidence != [] {
      DraftsAreInOrder(env, evidence[..|evidence| - 1]);
    }
  }

  /** Positions rise, up to the last one. */
  predicate InOrder(citations: seq<Citation>, last: nat) {
    && (forall i :: 0 <= i < |citations| ==> citations[i].position <= last)
    && (forall i, j :: 0 <= i < j < |citations| ==> citations[i].position < citations[j].position)
  }

  method SafeEvidence(env: Environment, evidence: seq<Evidence>) returns (drafts: seq<Citation>)
    ensures drafts == Drafts(env, evidence)
  {
    drafts := [];
    for i := 0 to |evidence|
      invariant drafts == Drafts(env, evidence[..i])
    {
      assert evidence[..i + 1][..i] == evidence[..i];
      if env.unsafeEvidence(evidence[i].text) {
        continue;
      }
      drafts := drafts + [Citation(evidence[i].chunkId, i + 1)];
    }
    assert evidence[..|evidence|] == evidence;
  }

  function Digits(n: nat): string {
    if n < 10 then [('0' as nat + n) as char] else Digits(n / 10) + [('0' as nat + n % 10) as char]
  }

  /** Conflicting sources are quoted one after another, each with its number, whether or not they
      passed the check. */
  function ConflictText(evidence: seq<Evidence>): string {
    if evidence == [] then CONFLICT_HEADER
    else ConflictText(evidence[..|evidence| - 1]) + "\n\n" + Excerpt(evidence[|evidence| - 1], |evidence|)
  }

  function Excerpt(e: Evidence, position: nat): string {
    e.text + " [" + Digits(position) + "]"
  }

  /** The number that a decimal text stands for. */
  function NumberIn(text: string): nat {
    if text == "" then 0
    else
      var c := text[|text| - 1];
      NumberIn(text[..|text| - 1]) * 10 + if '0' <= c <= '9' then c as nat - '0' as nat else 0
  }

  lemma {:induction false} DigitsAreTheNumber(n: nat)
    ensures NumberIn(Digits(n)) == n && forall i :: 0 <= i < |Digits(n)| ==> '0' <= Digits(n)[i] <= '9'
  {
    if n < 10 {
      assert Digits(n)[..0] == "";
    } else {
      DigitsAreTheNumber(n / 10);
      assert Digits(n)[..|Digits(n)| - 1] == Digits(n / 10);
    }
  }

  function Excerpts(evidence: seq<Evidence>): seq<string> {
    seq(|evidence|, i requires 0 <= i < |evidence| => Excerpt(evidence[i], i + 1))
  }

  function Joined(parts: seq<string>, separator: string): string {
    if parts == [] then "" else if |parts| == 1 then parts[0] else parts[0] + separator + Joined(parts[1..], separator)
  }

  lemma {:induction false} JoinedAppend(parts: seq<string>, last: string, separator: string)
    requires parts != []
    ensures Joined(parts + [last], separator) == Joined(parts, separator) + separator + last
  {
    if |parts| > 1 {
      JoinedAppend(parts[1..], last, separator);
      assert (parts + [last])[1..] == parts[1..] + [last];
      assert Joined(parts + [last], separator)
          == parts[0] + separator + (Joined(parts[1..], separator) + separator + last)
          == Joined(parts, separator) + separator + last;
    } else {
      assert (parts + [last])[1..] == [last];
    }
  }

  /** The text is the header and all the excerpts, between blank lines. */
  lemma {:induction false} ConflictTextIsJoined(evidence: seq<Evidence>)
    requires evidence != []
    ensures ConflictText(evidence) == CONFLICT_HEADER + "\n\n" + Joined(Excerpts(evidence), "\n\n")
  {
    var n := |evidence| - 1;
    var last := Excerpt(evidence[n], n + 1);
    assert Excerpts(evidence) == Excerpts(evidence[..n]) + [last];
    if n > 0 {
      var before := Excerpts(evidence[..n]);
      ConflictTextIsJoined(evidence[..n]);
      JoinedAppend(before, last, "\n\n");
      Regroup(CONFLICT_HEADER + "\n\n", Joined(before, "\n\n"), "\n\n", last);
    }
  }

  lemma Regroup(a: string, b: string, c: string, d: string)
    ensures a + b + c + d == a + (b + c + d)
  {
  }

  function PostValidate(env: Environment, o: Outcome): Outcome {
    if o.citations == [] then o
    else if forall c :: c in o.citations ==> c.chunkId in env.activeChunks then o
    else Outcome(Failed, EVIDENCE_CHANGED, [])
  }

  predicate PrefixesPass(env: Environment, parts: seq<string>) {
    forall k :: 0 < k <= |parts| ==> !env.unsafeOutput(Join(parts[..k]))
  }

  /** The n-th delta has text, and the whole text up to it fails the output check. */
  predicate UnsafeAt(env: Environment, deltas: seq<Delta>, n: nat) {
    0 < n <= |deltas| && deltas[n - 1].text != "" && env.unsafeOutput(TextOf(deltas[..n]))
  }

  ghost predicate SomePrefixUnsafe(env: Environment, deltas: seq<Delta>) {
    exists n: nat :: UnsafeAt(env, deltas, n)
  }

  ghost predicate SeenCancelled(env: Environment, from: nat, until: nat) {
    exists n: nat :: from <= n < until && env.cancelled(n)
  }

  lemma OneMorePasses(env: Environment, parts: seq<string>, text: string)
    requires PrefixesPass(env, parts) && !env.unsafeOutput(Join(parts) + text)
    ensures PrefixesPass(env, parts + [text]) && Join(parts + [text]) == Join(parts) + text
  {
    assert (parts + [text])[..|parts|] == parts;
    forall k | 0 < k <= |parts| + 1 ensures !env.unsafeOutput(Join((parts + [text])[..k])) {
      if k <= |parts| {
        assert (parts + [text])[..k] == parts[..k];
      } else {
        assert (parts + [text])[..k] == parts + [text];
      }
    }
  }

  /** The streaming loop. Each wait for a delta looks at the flag first; a delta is shown only when
      the whole text including it passes the output check. */
  method StreamParts(env: Environment, looks0: nat) returns (parts: seq<string>, error: bool, looks: nat)
    ensures looks > looks0
    ensures PrefixesPass(env, parts)
    ensures forall p :: p in parts ==> p != ""
    ensures Join(parts) <= TextOf(env.provider.deltas)
    ensures !error ==> Join(parts) == TextOf(env.provider.deltas) && !env.provider.failed
    ensures error <==> SeenCancelled(env, looks0, looks) || env.provider.failed
                       || SomePrefixUnsafe(env, env.provider.deltas)
  {
    var deltas := env.provider.deltas;
    parts, error, looks := [], false, looks0;
    for i := 0 to |deltas|
      invariant looks >= looks0
      invariant PrefixesPass(env, parts)
      invariant forall p :: p in parts ==> p != ""
      invariant Join(parts) == TextOf(deltas[..i])
      invariant !SeenCancelled(env, looks0, looks)
      invariant forall n: nat :: n <= i ==> !UnsafeAt(env, deltas, n)
    {
      PrefixText(deltas, i);
      looks := looks + 1;
      if env.cancelled(looks - 1) {
        assert SeenCancelled(env, looks0, looks);
        return parts, true, looks;
      }
      assert deltas[..i + 1][..i] == deltas[..i];
      var text := deltas[i].text;
      if text != "" {
        if env.unsafeOutput(Join(parts) + text) {
          assert TextOf(deltas[..i + 1]) == Join(parts) + text;
          assert UnsafeAt(env, deltas, i + 1);
          return parts, true, looks;
        }
        OneMorePasses(env, parts, text);
        parts := parts + [text];
      }
    }
    assert deltas[..|deltas|] == deltas;
    looks := looks + 1;
    error := env.cancelled(looks - 1) || env.provider.failed;
    assert env.cancelled(looks - 1) <==> SeenCancelled(env, looks0, looks);
  }

  lemma {:induction false} PrefixText(deltas: seq<Delta>, i: nat)
    requires i <= |deltas|
    ensures TextOf(deltas[..i]) <= TextOf(deltas)
  {
    TextOfAppend(deltas[..i], deltas[i..]);
    assert deltas == deltas[..i] + deltas[i..];
  }

  // ---- The run ----

  /** Where the shown text came from. */
  datatype Source = NoText | FixedSentence | QuotedSources | Model

  /** How the part of the run inside the `try` block ended before anything was stored. */
  datatype Ending = Produced(outcome: Outcome) | CancelRaised | ErrorRaised

  datatype Production = Production(ending: Ending, deltas: seq<string>, looks: nat, source: Source)

  /** The outcome that the environment calls for when nobody cancels; None when it raises. */
  ghost function Expected(env: Environment): Option<Outcome> {
    if env.inputFlagged then Some(Outcome(Refusal, INPUT_REFUSED, []))
    else if env.retrieval.None? then None
    else
      var retrieval := env.retrieval.value;
      var drafts := Drafts(env, retrieval.evidence);
      var good := if retrieval.degraded then Degraded else Success;
      if drafts == [] then Some(Outcome(Refusal, NO_EVIDENCE, []))
      else if retrieval.conflict then Some(Outcome(Degraded, ConflictText(retrieval.evidence), drafts))
      else if env.streaming then Some(ExpectedStream(env, drafts, good))
      else if env.completion.None? then None
      else if env.unsafeOutput(env.completion.value) then Some(Outcome(Refusal, OUTPUT_REFUSED, []))
      else Some(Outcome(good, env.completion.value, drafts))
  }

  ghost function ExpectedStream(env: Environment, drafts: seq<Citation>, good: Status): Outcome {
    var text := TextOf(env.provider.deltas);
    if env.provider.failed || SomePrefixUnsafe(env, env.provider.deltas) then Outcome(Failed, STREAM_FAILED, [])
    else if text == "" then Outcome(Failed, EMPTY_ANSWER, [])
    else Outcome(good, text, drafts)
  }

  ghost predicate SomePasses(env: Environment) {
    env.retrieval.Some? && exists i :: PassesAt(env, env.retrieval.value.evidence, i)
  }

  /** A model is asked: the question passes, some evidence does, and the sources agree. */
  ghost predicate Asks(env: Environment) {
    !env.inputFlagged && SomePasses(env) && !env.retrieval.value.conflict
  }

  /** The model's whole answer is there, and passes the check throughout. */
  ghost predicate Generates(env: Environment) {
    if env.streaming then
      !env.provider.failed && !SomePrefixUnsafe(env, env.provider.deltas) && TextOf(env.provider.deltas) != ""
    else env.completion.Some? && !env.unsafeOutput(env.completion.value)
  }

  /** Which environments lead to which status, text and citations, read from the outcome's side. */
  lemma OutcomesByStatus(env: Environment)
    ensures Expected(env).None? <==>
              !env.inputFlagged && (env.retrieval.None? || (Asks(env) && !env.streaming && env.completion.None?))
    ensures Expected(env).Some? ==>
              var o := Expected(env).value;
              && (o.status == Success <==> Asks(env) && Generates(env) && !env.retrieval.value.degraded)
              && (o.status == Degraded <==>
                    !env.inputFlagged && SomePasses(env)
                    && (env.retrieval.value.conflict || (Generates(env) && env.retrieval.value.degraded)))
              && (o.status == Refusal <==> env.inputFlagged || !SomePasses(env) || (Asks(env) && !env.streaming && !Generates(env)))
              && (o.status == Failed <==> Asks(env) && env.streaming && !Generates(env))
              && o.status != Cancelled
              && (o.status == Success || o.status == Degraded ==>
                    && o.citations == Drafts(env, env.retrieval.value.evidence)
                    && o.text == (if env.retrieval.value.conflict then ConflictText(env.retrieval.value.evidence)
                                  else if env.streaming then TextOf(env.provider.deltas) else env.completion.value))
              && (o.status == Refusal || o.status == Failed ==> o.citations == [])
  {
    DraftsEmptyIffNonePasses(env);
  }

  lemma DraftsEmptyIffNonePasses(env: Environment)
    ensures env.retrieval.Some? ==> (SomePasses(env) <==> Drafts(env, env.retrieval.value.evidence) != [])
  {
    if env.retrieval.Some? {
      var evidence := env.retrieval.value.evidence;
      var drafts := Drafts(env, evidence);
      if i :| PassesAt(env, evidence, i) {
        DraftsCiteWhatPasses(env, evidence, Citation(evidence[i].chunkId, i + 1));
      } else if drafts != [] {
        DraftsCiteWhatPasses(env, evidence, drafts[0]);
      }
    }
  }

  /** Without a cancellation, the production ends as the environment calls for. */
  ghost predicate AsExpected(env: Environment, p: Production) {
    !SeenCancelled(env, 0, p.looks) ==>
      match Expected(env)
      case None => p.ending.ErrorRaised?
      case Some(o) => p.ending == Produced(o)
  }

  /** What holds of every production, whatever the environment does. */
  ghost predicate Sound(env: Environment, p: Production) {
    && p.looks > 0
    && (p.ending.CancelRaised? ==> env.cancelled(p.looks - 1))
    && (p.source.Model? ==> PrefixesPass(env, p.deltas))
    && (p.source.QuotedSources? ==>
          env.retrieval.Some? && p.deltas == [ConflictText(env.retrieval.value.evidence)])
    && (p.ending.Produced? ==>
          var o := p.ending.outcome;
          && o.status != Cancelled
          && (o.status == Failed ==> o.citations == [])
          && (o.status == Refusal ==> o.citations == [] && p.source.FixedSentence?)
          && (o.status != Failed ==> o.text == Join(p.deltas)))
  }

  /** The text parts in order, up to but not including the final check of the flag. */
  method Produce(env: Environment) returns (p: Production)
    ensures Sound(env, p) && AsExpected(env, p)
    ensures p.ending.ErrorRaised? ==> Expected(env).None?
  {
    var looks := 1;
    if env.cancelled(looks - 1) {
      return Production(CancelRaised, [], looks, NoText);
    }
    if env.inputFlagged {
      return Fixed(env, Outcome(Refusal, INPUT_REFUSED, []), looks, FixedSentence);
    }
    if env.retrieval.None? {
      return Production(ErrorRaised, [], looks, NoText);
    }
    var retrieval := env.retrieval.value;
    looks := looks + 1;
    if env.cancelled(looks - 1) {
      return Production(CancelRaised, [], looks, NoText);
    }
    var drafts := SafeEvidence(env, retrieval.evidence);
    if drafts == [] {
      return Fixed(env, Outcome(Refusal, NO_EVIDENCE, []), looks, FixedSentence);
    }
    if retrieval.conflict {
      return Fixed(env, Outcome(Degraded, ConflictText(retrieval.evidence), drafts), looks, QuotedSources);
    }
    var good := if retrieval.degraded then Degraded else Success;
    if env.streaming {
      p := ProduceStreamed(env, drafts, good, looks);
    } else {
      p := ProduceBuffered(env, drafts, good, looks);
    }
  }

  /** A run whose text is sent as one answer event after the fact. */
  function Fixed(env: Environment, o: Outcome, looks: nat, source: Source): (p: Production)
    requires looks > 0 && !source.Model? && (o.status == Degraded || (o.status == Refusal && o.citations == [] && source.FixedSentence?))
    requires source.QuotedSources? ==> env.retrieval.Some? && o.text == ConflictText(env.retrieval.value.evidence)
    ensures Sound(env, p)
  {
    assert Join([o.text]) == Join([o.text][..0]) + o.text;
    Production(Produced(o), [o.text], looks, source)
  }

  method ProduceStreamed(env: Environment, drafts: seq<Citation>, good: Status, looks0: nat) returns (p: Production)
    requires good == Degraded || good == Success
    ensures Sound(env, p) && p.ending.Produced?
    ensures p.looks > looks0
    ensures !SeenCancelled(env, looks0, p.looks) ==> p.ending.outcome == ExpectedStream(env, drafts, good)
  {
    var parts, error, looks := StreamParts(env, looks0);
    var outcome;
    if error {
      outcome := Outcome(Failed, STREAM_FAILED, []);
    } else if Join(parts) == "" {
      outcome := Outcome(Failed, EMPTY_ANSWER, []);
    } else {
      outcome := Outcome(good, Join(parts), drafts);
    }
    p := Production(Produced(outcome), parts, looks, Model);
  }

  method ProduceBuffered(env: Environment, drafts: seq<Citation>, good: Status, looks0: nat) returns (p: Production)
    requires good == Degraded || good == Success
    ensures Sound(env, p)
    ensures p.looks == looks0 + 1
    ensures p.ending.ErrorRaised? ==> env.completion.None?
    ensures !env.cancelled(looks0) ==>
              p.ending == (if env.completion.None? then ErrorRaised
                           else if env.unsafeOutput(env.completion.value)
                             then Produced(Outcome(Refusal, OUTPUT_REFUSED, []))
                           else Produced(Outcome(good, env.completion.value, drafts)))
  {
    var looks := looks0 + 1;
    if env.cancelled(looks - 1) {
      return Production(CancelRaised, [], looks, NoText);
    }
    if env.completion.None? {
      return Production(ErrorRaised, [], looks, NoText);
    }
    var text := env.completion.value;
    if env.unsafeOutput(text) {
      return Fixed(env, Outcome(Refusal, OUTPUT_REFUSED, []), looks, FixedSentence);
    }
    assert Join([text]) == Join([text][..0]) + text == text;
    forall k | 0 < k <= |[text]| ensures !env.unsafeOutput(Join([text][..k])) {
      assert [text][..k] == [text];
    }
    p := Production(Produced(Outcome(good, text, drafts)), [text], looks, Model);
  }

  /** A finished run. */
  datatype Finished = Finished(deltas: seq<string>, citations: seq<Citation>, status: Status,
                               stored: Option<Answer>, looks: nat, raised: bool, source: Source)

  function Answers(deltas: seq<string>): seq<Event> {
    seq(|deltas|, i requires 0 <= i < |deltas| => AnswerEvent(deltas[i]))
  }

  function Citations(citations: seq<Citation>): seq<Event> {
    seq(|citations|, i requires 0 <= i < |citations| => CitationEvent(citations[i]))
  }

  /** The grammar: query, answers, citations, one terminal. */
  function Transcript(run: Finished): seq<Event> {
    [QueryEvent] + Answers(run.deltas) + Citations(run.citations) + [TerminalEvent(run.status)]
  }

  /** The query comes first, then the deltas, then the citations, each in order, and one status last. */
  predicate ByPosition(events: seq<Event>, run: Finished) {
    var n, m := |run.deltas|, |run.citations|;
    && |events| == n + m + 2 && events[0] == QueryEvent && events[n + m + 1] == TerminalEvent(run.status)
    && (forall i :: 0 <= i < n ==> events[1 + i] == AnswerEvent(run.deltas[i]))
    && (forall i :: 0 <= i < m ==> events[1 + n + i] == CitationEvent(run.citations[i]))
  }

  lemma TranscriptByPosition(run: Finished)
    ensures ByPosition(Transcript(run), run)
  {
  }

  /** Without a cancellation a run ends as the environment calls for. Every run that finishes
      speaks the grammar; what it stores is exactly what it streamed; failed
      and cancelled runs cite and store nothing; text from the model was checked prefix by prefix
      (the quoted sources of a conflict are not checked at all);
      and a cancellation seen at any look wins unless retrieval or the provider call raised. */
  method ExecuteStream(env: Environment) returns (events: seq<Event>, run: Finished)
    requires SetOnce(env.cancelled)
    ensures events == Transcript(run)
    ensures ByPosition(events, run)
    ensures run.stored.Some? <==> run.status != Failed && run.status != Cancelled
    ensures run.stored.Some? ==> run.stored == Some(Answer(Join(run.deltas), run.status, run.citations))
    ensures run.stored.None? ==> run.citations == []
    ensures run.citations != [] ==> forall c :: c in run.citations ==> c.chunkId in env.activeChunks
    ensures run.source.Model? ==> PrefixesPass(env, run.deltas)
    ensures run.source.QuotedSources? ==>
              env.retrieval.Some? && run.deltas == [ConflictText(env.retrieval.value.evidence)]
    ensures run.raised ==> run.status == Failed && Expected(env).None?
    ensures !run.raised ==> (run.status == Cancelled <==> SeenCancelled(env, 0, run.looks))
    ensures !SeenCancelled(env, 0, run.looks) ==>
              match Expected(env)
              case None => run.raised
              case Some(o) =>
                var v := PostValidate(env, o);
                !run.raised && run.status == v.status && run.citations == v.citations
                && (v.status != Failed ==> Join(run.deltas) == v.text)
    ensures !SeenCancelled(env, 0, run.looks) && Expected(env).Some? ==>
              var o := Expected(env).value;
              if exists c :: c in o.citations && c.chunkId !in env.activeChunks then
                run.status == Failed && run.stored.None? && run.citations == []
              else
                && run.status == o.status && run.citations == o.citations
                && (o.status != Failed ==> run.stored == Some(Answer(o.text, o.status, o.citations)))
  {
    events := [QueryEvent];
    var p := Produce(env);
    events := events + Answers(p.deltas);
    match p.ending {
      case ErrorRaised =>
        run := Finished(p.deltas, [], Failed, None, p.looks, true, p.source);
      case CancelRaised =>
        run := Finished(p.deltas, [], Cancelled, None, p.looks, false, p.source);
      case Produced(produced) =>
        var looks := p.looks + 1;
        if env.cancelled(looks - 1) {
          run := Finished(p.deltas, [], Cancelled, None, looks, false, p.source);
        } else {
          var outcome := PostValidate(env, produced);
          if outcome.status != Failed {
            run := Finished(p.deltas, outcome.citations, outcome.status,
                            Some(Answer(outcome.text, outcome.status, outcome.citations)), looks, false, p.source);
          } else {
            run := Finished(p.deltas, [], Failed, None, looks, false, p.source);
          }
        }
    }
    events := events + Citations(run.citations);
    events := events + [TerminalEvent(run.status)];
    TranscriptByPosition(run);
  }
}
