/**
 The model gateway: request-rate limit, retry, circuit breaker, optional fallback, and the stream
 that must never splice two attempts together.
 */
module ModelGateway {
  import opened Options
  import SlidingWindow

  /** An unknown cost makes every later total unknown. */
  datatype Usage = Usage(inputTokens: int, outputTokens: int, cost: Option<real>)

  function AddUsage(a: Usage, b: Usage): Usage {
    Usage(a.inputTokens + b.inputTokens, a.outputTokens + b.outputTokens,
          if a.cost.Some? && b.cost.Some? then Some(a.cost.value + b.cost.value) else None)
  }

  datatype Delta = Delta(text: string, usage: Option<Usage>)

  /** What one provider stream does: the deltas it yields, and then an end or an exception. */
  datatype ProviderRun = ProviderRun(deltas: seq<Delta>, failed: bool)

  function TextOf(deltas: seq<Delta>): string {
    if deltas == [] then "" else TextOf(deltas[..|deltas| - 1]) + deltas[|deltas| - 1].text
  }

  function WithUsage(total: Usage, deltas: seq<Delta>): Usage {
    if deltas == [] then total
    else
      var before := WithUsage(total, deltas[..|deltas| - 1]);
      match deltas[|deltas| - 1].usage
      case Some(usage) => AddUsage(before, usage)
      case None => before
  }

  // ---- What recorded usage is a sum of ----

  function InputTokens(deltas: seq<Delta>): int {
    if deltas == [] then 0
    else (if deltas[0].usage.Some? then deltas[0].usage.value.inputTokens else 0) + InputTokens(deltas[1..])
  }

  function OutputTokens(deltas: seq<Delta>): int {
    if deltas == [] then 0
    else (if deltas[0].usage.Some? then deltas[0].usage.value.outputTokens else 0) + OutputTokens(deltas[1..])
  }

  predicate CostsKnown(deltas: seq<Delta>) {
    forall i :: 0 <= i < |deltas| && deltas[i].usage.Some? ==> deltas[i].usage.value.cost.Some?
  }

  function Costs(deltas: seq<Delta>): real {
    if deltas == [] then 0.0
    else (if deltas[0].usage.Some? && deltas[0].usage.value.cost.Some? then deltas[0].usage.value.cost.value else 0.0) + Costs(deltas[1..])
  }

  /** `after` is `before` with the usage of all the deltas: tokens add up, and so do costs, while every one
      is known. */
  predicate Records(before: Usage, deltas: seq<Delta>, after: Usage) {
    && after.inputTokens == before.inputTokens + InputTokens(deltas)
    && after.outputTokens == before.outputTokens + OutputTokens(deltas)
    && (after.cost.Some? <==> before.cost.Some? && CostsKnown(deltas))
    && (after.cost.Some? ==> after.cost.value == before.cost.value + Costs(deltas))
  }

  lemma {:induction false} SumsAppend(a: seq<Delta>, b: seq<Delta>)
    ensures InputTokens(a + b) == InputTokens(a) + InputTokens(b)
    ensures OutputTokens(a + b) == OutputTokens(a) + OutputTokens(b)
    ensures Costs(a + b) == Costs(a) + Costs(b)
  {
    if a == [] {
      assert a + b == b;
    } else {
      SumsAppend(a[1..], b);
      assert (a + b)[1..] == a[1..] + b;
    }
  }

  /** What the gateway records for a stream of deltas is their sum. */
  lemma {:induction false} RecordedIsSum(total: Usage, deltas: seq<Delta>)
    ensures Records(total, deltas, WithUsage(total, deltas))
  {
    if deltas != [] {
      var n := |deltas| - 1;
      RecordedIsSum(total, deltas[..n]);
      SumsAppend(deltas[..n], [deltas[n]]);
      assert deltas == deltas[..n] + [deltas[n]];
      OneDelta(deltas[n]);
      assert CostsKnown(deltas) <==> CostsKnown(deltas[..n]) && CostsKnown([deltas[n]]);
    }
  }

  lemma OneDelta(d: Delta)
    ensures InputTokens([d]) == if d.usage.Some? then d.usage.value.inputTokens else 0
    ensures OutputTokens([d]) == if d.usage.Some? then d.usage.value.outputTokens else 0
    ensures Costs([d]) == if d.usage.Some? && d.usage.value.cost.Some? then d.usage.value.cost.value else 0.0
    ensures CostsKnown([d]) <==> (d.usage.Some? ==> d.usage.value.cost.Some?)
  {
    assert [d][1..] == [];
  }

  datatype Circuit = Circuit(failures: nat, openedAt: Option<real>)

  const CLOSED := Circuit(0, None)

  function CountFailure(c: Circuit, threshold: nat, now: real): Circuit {
    Circuit(c.failures + 1, if c.failures + 1 >= threshold then Some(now) else c.openedAt)
  }

  datatype Origin = Nobody | Primary(attempt: nat) | Fallback

  /** The outcome of a stream: what was yielded, whether it ended normally, how many primary
      attempts started, whose text it is, and the circuit afterwards. */
  datatype Served = Served(yielded: seq<Delta>, completed: bool, started: nat, origin: Origin, circuit: Circuit)

  /** The stream from attempt `k` on, nothing having been emitted yet. */
  function Serve(primary: seq<ProviderRun>, fallback: Option<ProviderRun>, k: nat, circuit: Circuit,
                 threshold: nat, clock: nat -> real): Served
    requires k <= |primary|
    decreases |primary| - k
  {
    if k == |primary| then
      match fallback
      case Some(run) => Served(run.deltas, !run.failed, k, Fallback, circuit)
      case None => Served([], false, k, Nobody, circuit)
    else
      var run := primary[k];
      if !run.failed then Served(run.deltas, true, k + 1, Primary(k), CLOSED)
      else if TextOf(run.deltas) != "" then Served(run.deltas, false, k + 1, Primary(k), circuit)
      else
        var rest := Serve(primary, fallback, k + 1, CountFailure(circuit, threshold, clock(k + 1)), threshold, clock);
        rest.(yielded := run.deltas + rest.yielded)
  }

  function FallbackDeltas(fallback: Option<ProviderRun>): seq<Delta> {
    match fallback
    case Some(run) => run.deltas
    case None => []
  }

  /** `whole` is `rest` with `sofar` already yielded. */
  predicate Continues(whole: Served, sofar: seq<Delta>, rest: Served) {
    whole == rest.(yielded := sofar + rest.yielded)
  }

  lemma NextAttempt(whole: Served, sofar: seq<Delta>, primary: seq<ProviderRun>, fallback: Option<ProviderRun>,
                    k: nat, circuit: Circuit, threshold: nat, clock: nat -> real)
    requires k < |primary|
    requires Continues(whole, sofar, Serve(primary, fallback, k, circuit, threshold, clock))
    ensures var run := primary[k]; var now := sofar + run.deltas;
            if run.failed && TextOf(run.deltas) == "" then
              Continues(whole, now, Serve(primary, fallback, k + 1, CountFailure(circuit, threshold, clock(k + 1)), threshold, clock))
            else whole == Served(now, !run.failed, k + 1, Primary(k), if run.failed then circuit else CLOSED)
  {
    var run := primary[k];
    if run.failed && TextOf(run.deltas) == "" {
      var rest := Serve(primary, fallback, k + 1, CountFailure(circuit, threshold, clock(k + 1)), threshold, clock);
      assert sofar + (run.deltas + rest.yielded) == sofar + run.deltas + rest.yielded;
    }
  }

  lemma LastResort(whole: Served, sofar: seq<Delta>, primary: seq<ProviderRun>, fallback: Option<ProviderRun>,
                   circuit: Circuit, threshold: nat, clock: nat -> real)
    requires Continues(whole, sofar, Serve(primary, fallback, |primary|, circuit, threshold, clock))
    ensures whole == Served(sofar + FallbackDeltas(fallback), fallback.Some? && !fallback.value.failed, |primary|,
                            if fallback.Some? then Fallback else Nobody, circuit)
  {
  }

  lemma {:induction false} TextOfAppend(a: seq<Delta>, b: seq<Delta>)
    ensures TextOf(a + b) == TextOf(a) + TextOf(b)
  {
    if b == [] {
      assert a + b == a;
    } else {
      TextOfAppend(a, b[..|b| - 1]);
      var t := b[|b| - 1].text;
      assert (a + b)[..|a + b| - 1] == a + b[..|b| - 1] && (a + b)[|a + b| - 1] == b[|b| - 1];
      assert (TextOf(a) + TextOf(b[..|b| - 1])) + t == TextOf(a) + (TextOf(b[..|b| - 1]) + t);
    }
  }

  lemma {:induction false} UsageOfAppend(total: Usage, a: seq<Delta>, b: seq<Delta>)
    ensures WithUsage(total, a + b) == WithUsage(WithUsage(total, a), b)
  {
    if b == [] {
      assert a + b == a;
    } else {
      UsageOfAppend(total, a, b[..|b| - 1]);
      assert (a + b)[..|a + b| - 1] == a + b[..|b| - 1];
    }
  }

  /** The usage recorded by the stream from attempt `k` on. */
  function Charged(total: Usage, primary: seq<ProviderRun>, fallback: Option<ProviderRun>, k: nat): Usage
    requires k <= |primary|
    decreases |primary| - k
  {
    if k == |primary| then WithUsage(total, FallbackDeltas(fallback))
    else
      var next := WithUsage(total, primary[k].deltas);
      if primary[k].failed && TextOf(primary[k].deltas) == "" then Charged(next, primary, fallback, k + 1) else next
  }

  /** The recorded usage is the sum of the usage events that were yielded, over all attempts. */
  lemma {:induction false} ChargedIsYielded(total: Usage, primary: seq<ProviderRun>, fallback: Option<ProviderRun>, k: nat,
                                            circuit: Circuit, threshold: nat, clock: nat -> real)
    requires k <= |primary|
    ensures Charged(total, primary, fallback, k)
         == WithUsage(total, Serve(primary, fallback, k, circuit, threshold, clock).yielded)
    ensures Records(total, Serve(primary, fallback, k, circuit, threshold, clock).yielded, Charged(total, primary, fallback, k))
    decreases |primary| - k
  {
    if k < |primary| && primary[k].failed && TextOf(primary[k].deltas) == "" {
      var next := CountFailure(circuit, threshold, clock(k + 1));
      ChargedIsYielded(WithUsage(total, primary[k].deltas), primary, fallback, k + 1, next, threshold, clock);
      UsageOfAppend(total, primary[k].deltas, Serve(primary, fallback, k + 1, next, threshold, clock).yielded);
    }
    RecordedIsSum(total, Serve(primary, fallback, k, circuit, threshold, clock).yielded);
  }

  /** No splicing: for every pattern of failures, all the text is that of one attempt; every earlier
      attempt failed without text; a normal end yields the text of an attempt that succeeded; and the
      fallback is used only when each primary attempt failed without text. */
  lemma {:induction false} NoSplicing(primary: seq<ProviderRun>, fallback: Option<ProviderRun>, k: nat,
                                      circuit: Circuit, threshold: nat, clock: nat -> real)
    requires k <= |primary|
    ensures var s := Serve(primary, fallback, k, circuit, threshold, clock);
            && k <= s.started <= |primary|
            && (forall i :: k <= i < s.started - (if s.origin.Primary? then 1 else 0) ==>
                  primary[i].failed && TextOf(primary[i].deltas) == "")
            && (match s.origin
                case Primary(a) =>
                  && k <= a && a == s.started - 1
                  && TextOf(s.yielded) == TextOf(primary[a].deltas)
                  && s.completed == !primary[a].failed
                  && (s.completed ==> s.circuit == CLOSED)
                case Fallback =>
                  && s.started == |primary| && fallback.Some?
                  && TextOf(s.yielded) == TextOf(fallback.value.deltas)
                  && s.completed == !fallback.value.failed
                case Nobody =>
                  s.started == |primary| && TextOf(s.yielded) == "" && !s.completed && fallback.None?)
    decreases |primary| - k
  {
    if k < |primary| && primary[k].failed && TextOf(primary[k].deltas) == "" {
      var next := CountFailure(circuit, threshold, clock(k + 1));
      NoSplicing(primary, fallback, k + 1, next, threshold, clock);
      TextOfAppend(primary[k].deltas, Serve(primary, fallback, k + 1, next, threshold, clock).yielded);
    }
  }

  /** What one complete (not streamed) provider call does. */
  datatype CallResult = Answered(text: string, usage: Usage) | Retryable | Fatal

  datatype Completed = Completed(response: Option<string>, calls: nat, circuit: Circuit, usage: Usage)

  function CompleteFrom(primary: seq<CallResult>, fallback: Option<CallResult>, k: nat, circuit: Circuit,
                        usage: Usage, threshold: nat, clock: nat -> real): Completed
    requires k <= |primary|
    decreases |primary| - k
  {
    if k == |primary| then AskFallback(fallback, k, circuit, usage)
    else
      match primary[k]
      case Answered(text, u) => Completed(Some(text), k + 1, CLOSED, AddUsage(usage, u))
      case Fatal => Completed(None, k + 1, circuit, usage)
      case Retryable =>
        CompleteFrom(primary, fallback, k + 1, CountFailure(circuit, threshold, clock(k + 1)), usage, threshold, clock)
  }

  function CompleteSpec(primary: seq<CallResult>, fallback: Option<CallResult>, circuit: Circuit, usage: Usage,
                        recovery: real, threshold: nat, clock: nat -> real): Completed
  {
    if circuit.openedAt.None? then CompleteFrom(primary, fallback, 0, circuit, usage, threshold, clock)
    else if clock(0) - circuit.openedAt.value >= recovery
      then CompleteFrom(primary, fallback, 0, CLOSED, usage, threshold, clock)
    else AskFallback(fallback, 0, circuit, usage)
  }

  function AskFallback(fallback: Option<CallResult>, calls: nat, circuit: Circuit, usage: Usage): Completed {
    match fallback
    case Some(Answered(text, u)) => Completed(Some(text), calls, circuit, AddUsage(usage, u))
    case _ => Completed(None, calls, circuit, usage)
  }

  class ModelGateway {
    const retries: nat
    const failureThreshold: nat
    const recoverySeconds: real
    const requestsPerMinute: int
    var circuit: Circuit
    var totalUsage: Usage
    var requestTimes: seq<real>

    constructor (retries: nat, failureThreshold: nat, recoverySeconds: real, requestsPerMinute: int)
      ensures this.retries == retries && this.failureThreshold == failureThreshold
      ensures this.recoverySeconds == recoverySeconds && this.requestsPerMinute == requestsPerMinute
      ensures circuit == CLOSED && totalUsage == Usage(0, 0, Some(0.0)) && requestTimes == []
    {
      this.retries := retries;
      this.failureThreshold := failureThreshold;
      this.recoverySeconds := recoverySeconds;
      this.requestsPerMinute := requestsPerMinute;
      circuit := CLOSED;
      totalUsage := Usage(0, 0, Some(0.0));
      requestTimes := [];
    }

    /** The one-minute window of the limiters. */
    method CheckRateLimit(now: real) returns (admitted: bool)
      modifies this`requestTimes
      ensures (admitted, requestTimes) == SlidingWindow.Admit(old(requestTimes), now, requestsPerMinute, 60.0)
    {
      ghost var before := requestTimes;
      while requestTimes != [] && now - requestTimes[0] >= 60.0
        invariant SlidingWindow.Prune(requestTimes, now, 60.0) == SlidingWindow.Prune(before, now, 60.0)
        decreases |requestTimes|
      {
        requestTimes := requestTimes[1..];
      }
      admitted := |requestTimes| < requestsPerMinute;
      if admitted {
        requestTimes := requestTimes + [now];
      }
    }

    /** An open circuit closes itself once the recovery time is over. */
    method CircuitOpen(now: real) returns (open: bool)
      modifies this`circuit
      ensures open == (old(circuit).openedAt.Some? && now - old(circuit).openedAt.value < recoverySeconds)
      ensures circuit == if old(circuit).openedAt.Some? && !open then CLOSED else old(circuit)
    {
      if circuit.openedAt.None? {
        return false;
      }
      if now - circuit.openedAt.value >= recoverySeconds {
        circuit := CLOSED;
        return false;
      }
      return true;
    }

    method RecordFailure(now: real)
      modifies this`circuit
      ensures circuit == CountFailure(old(circuit), failureThreshold, now)
    {
      circuit := circuit.(failures := circuit.failures + 1);
      if circuit.failures >= failureThreshold {
        circuit := circuit.(openedAt := Some(now));
      }
    }

    /** Forwards one provider stream, recording usage as it goes. */
    method Forward(run: ProviderRun, yielded0: seq<Delta>) returns (yielded: seq<Delta>, emitted: bool)
      modifies this`totalUsage
      ensures yielded == yielded0 + run.deltas
      ensures emitted == (TextOf(run.deltas) != "")
      ensures totalUsage == WithUsage(old(totalUsage), run.deltas)
    {
      yielded, emitted := yielded0, false;
      ghost var before := totalUsage;
      for i := 0 to |run.deltas|
        invariant yielded == yielded0 + run.deltas[..i]
        invariant emitted == (TextOf(run.deltas[..i]) != "")
        invariant totalUsage == WithUsage(before, run.deltas[..i])
      {
        assert run.deltas[..i + 1][..i] == run.deltas[..i];
        var event := run.deltas[i];
        if event.text != "" {
          emitted := true;
        }
        if event.usage.Some? {
          totalUsage := AddUsage(totalUsage, event.usage.value);
        }
        yielded := yielded + [event];
      }
      assert run.deltas[..|run.deltas|] == run.deltas;
    }

    /** The stream. `primary[k]` is what attempt k would do, and `clock(0)` and `clock(k + 1)` are
        the times read by the rate limit and by a failure of attempt k. A refused call yields
        nothing and starts nothing. */
    method StreamEvents(primary: seq<ProviderRun>, fallback: Option<ProviderRun>, allowFallback: bool, clock: nat -> real)
      returns (yielded: seq<Delta>, completed: bool, started: nat)
      requires |primary| == retries + 1
      modifies this
      ensures var (admitted, times) := SlidingWindow.Admit(old(requestTimes), clock(0), requestsPerMinute, 60.0);
              && requestTimes == times
              && totalUsage == WithUsage(old(totalUsage), yielded)
              && Records(old(totalUsage), yielded, totalUsage)
              && (!admitted ==> yielded == [] && !completed && started == 0 && circuit == old(circuit))
              && (admitted ==>
                    var s := Serve(primary, if allowFallback then fallback else None, 0, old(circuit), failureThreshold, clock);
                    yielded == s.yielded && completed == s.completed && started == s.started && circuit == s.circuit)
    {
      yielded, completed, started := [], false, 0;
      ghost var usage0 := totalUsage;
      var admitted := CheckRateLimit(clock(0));
      if admitted {
        var spare := if allowFallback then fallback else None;
        ChargedIsYielded(totalUsage, primary, spare, 0, circuit, failureThreshold, clock);
        yielded, completed, started := StreamAttempts(primary, spare, clock);
      }
      RecordedIsSum(usage0, yielded);
    }

    /** The retry loop: a failure before the first text is retried, a later one ends the stream. */
    method StreamAttempts(primary: seq<ProviderRun>, fallback: Option<ProviderRun>, clock: nat -> real)
      returns (yielded: seq<Delta>, completed: bool, started: nat)
      requires |primary| == retries + 1
      modifies this`circuit, this`totalUsage
      ensures var s := Serve(primary, fallback, 0, old(circuit), failureThreshold, clock);
              yielded == s.yielded && completed == s.completed && started == s.started && circuit == s.circuit
      ensures totalUsage == Charged(old(totalUsage), primary, fallback, 0)
    {
      yielded, completed, started := [], false, 0;
      ghost var whole := Serve(primary, fallback, 0, circuit, failureThreshold, clock);
      ghost var charged := Charged(totalUsage, primary, fallback, 0);
      while started <= retries
        invariant started <= retries + 1
        invariant charged == Charged(totalUsage, primary, fallback, started)
        invariant Continues(whole, yielded, Serve(primary, fallback, started, circuit, failureThreshold, clock))
        decreases retries + 1 - started
      {
        var attempt := started;
        started := started + 1;
        NextAttempt(whole, yielded, primary, fallback, attempt, circuit, failureThreshold, clock);
        var ended: bool;
        yielded, ended := StreamAttempt(primary[attempt], yielded, clock(attempt + 1));
        if ended {
          completed := !primary[attempt].failed;
          return;
        }
      }
      LastResort(whole, yielded, primary, fallback, circuit, failureThreshold, clock);
      yielded, completed := StreamFallback(fallback, yielded);
    }

    /** One primary attempt. It ends the stream unless it fails with no text forwarded. */
    method StreamAttempt(run: ProviderRun, yielded0: seq<Delta>, now: real) returns (yielded: seq<Delta>, ended: bool)
      modifies this`circuit, this`totalUsage
      ensures yielded == yielded0 + run.deltas
      ensures ended == (!run.failed || TextOf(run.deltas) != "")
      ensures circuit == if !run.failed then CLOSED
                         else if ended then old(circuit) else CountFailure(old(circuit), failureThreshold, now)
      ensures totalUsage == WithUsage(old(totalUsage), run.deltas)
    {
      var emitted: bool;
      yielded, emitted := Forward(run, yielded0);
      ended := !run.failed || emitted;
      if !run.failed {
        circuit := CLOSED;
      } else if !emitted {
        RecordFailure(now);
      }
    }

    /** The last resort, after every primary attempt. */
    method StreamFallback(fallback: Option<ProviderRun>, yielded0: seq<Delta>) returns (yielded: seq<Delta>, completed: bool)
      modifies this`totalUsage
      ensures yielded == yielded0 + FallbackDeltas(fallback)
      ensures completed == (fallback.Some? && !fallback.value.failed)
      ensures totalUsage == WithUsage(old(totalUsage), FallbackDeltas(fallback))
    {
      yielded, completed := yielded0, false;
      if fallback.Some? {
        var emitted: bool;
        yielded, emitted := Forward(fallback.value, yielded);
        completed := !fallback.value.failed;
      }
    }

    /** A complete answer: no primary call while the circuit is open, at most retries + 1 otherwise. */
    method Complete(primary: seq<CallResult>, fallback: Option<CallResult>, allowFallback: bool, clock: nat -> real)
      returns (response: Option<string>, calls: nat)
      requires |primary| == retries + 1
      modifies this`circuit, this`totalUsage
      ensures Completed(response, calls, circuit, totalUsage)
           == CompleteSpec(primary, if allowFallback then fallback else None, old(circuit), old(totalUsage),
                           recoverySeconds, failureThreshold, clock)
      ensures response.None? ==> totalUsage == old(totalUsage)
      ensures response.Some? ==>
                && calls <= |primary| && ((calls > 0 && primary[calls - 1].Answered?) || (fallback.Some? && fallback.value.Answered?))
                && var answer := if calls > 0 && primary[calls - 1].Answered? then primary[calls - 1] else fallback.value;
                   response.value == answer.text && Records(old(totalUsage), [Delta(answer.text, Some(answer.usage))], totalUsage)
    {
      response, calls := None, 0;
      var open := CircuitOpen(clock(0));
      ghost var spare := if allowFallback then fallback else None;
      ghost var whole := CompleteFrom(primary, spare, 0, circuit, totalUsage, failureThreshold, clock);
      ghost var usage0 := totalUsage;
      while !open && calls <= retries
        invariant calls <= retries + 1 && totalUsage == usage0
        invariant open ==> calls == 0 && circuit == old(circuit)
        invariant forall i :: 0 <= i < calls ==> primary[i].Retryable?
        invariant !open ==> whole == CompleteFrom(primary, spare, calls, circuit, totalUsage, failureThreshold, clock)
        decreases retries + 1 - calls
      {
        var attempt := calls;
        calls := calls + 1;
        match primary[attempt] {
          case Answered(text, usage) =>
            circuit := CLOSED;
            totalUsage := AddUsage(totalUsage, usage);
            AddedOnce(usage0, text, usage);
            return Some(text), calls;
          case Fatal =>
            return None, calls;
          case Retryable =>
            RecordFailure(clock(attempt + 1));
        }
      }
      if allowFallback && fallback.Some? && fallback.value.Answered? {
        totalUsage := AddUsage(totalUsage, fallback.value.usage);
        AddedOnce(usage0, fallback.value.text, fallback.value.usage);
        response := Some(fallback.value.text);
      }
    }
  }

  lemma AddedOnce(total: Usage, text: string, usage: Usage)
    ensures Records(total, [Delta(text, Some(usage))], AddUsage(total, usage))
  {
    OneDelta(Delta(text, Some(usage)));
  }

  /** What a complete call answers: the first attempt that is no connection failure decides; when all fail
      to connect, or the circuit is still open, the fallback does. */
  lemma CompleteMeans(primary: seq<CallResult>, fallback: Option<CallResult>, circuit: Circuit, usage: Usage,
                      recovery: real, threshold: nat, clock: nat -> real)
    ensures var c := CompleteSpec(primary, fallback, circuit, usage, recovery, threshold, clock);
            if circuit.openedAt.Some? && clock(0) < circuit.openedAt.value + recovery then
              c.calls == 0 && c.circuit == circuit && c.response == FallbackText(fallback)
            else FirstDecides(primary, fallback, 0, c)
  {
    if circuit.openedAt.None? || clock(0) - circuit.openedAt.value >= recovery {
      FirstAnswerDecides(primary, fallback, 0, if circuit.openedAt.None? then circuit else CLOSED, usage, threshold, clock);
    }
  }

  function FallbackText(fallback: Option<CallResult>): Option<string> {
    if fallback.Some? && fallback.value.Answered? then Some(fallback.value.text) else None
  }

  predicate FirstDecides(primary: seq<CallResult>, fallback: Option<CallResult>, k: nat, c: Completed)
    requires k <= |primary|
  {
    && k <= c.calls <= |primary|
    && (forall i :: k <= i < c.calls - 1 ==> primary[i].Retryable?)
    && if c.calls > k && !primary[c.calls - 1].Retryable? then
         && c.response == (if primary[c.calls - 1].Answered? then Some(primary[c.calls - 1].text) else None)
         && (primary[c.calls - 1].Answered? ==> c.circuit == CLOSED)
       else c.calls == |primary| && c.response == FallbackText(fallback)
  }

  lemma {:induction false} FirstAnswerDecides(primary: seq<CallResult>, fallback: Option<CallResult>, k: nat,
                                              circuit: Circuit, usage: Usage, threshold: nat, clock: nat -> real)
    requires k <= |primary|
    ensures FirstDecides(primary, fallback, k, CompleteFrom(primary, fallback, k, circuit, usage, threshold, clock))
    decreases |primary| - k
  {
    if k < |primary| && primary[k].Retryable? {
      FirstAnswerDecides(primary, fallback, k + 1, CountFailure(circuit, threshold, clock(k + 1)), usage, threshold, clock);
    }
  }

  /** A stream that no attempt serves, or that the fallback serves, has counted a failure for each primary
      attempt, and opens the circuit when they reach the threshold. */
  lemma {:induction false} FailedStreamCounts(primary: seq<ProviderRun>, fallback: Option<ProviderRun>, k: nat,
                                              circuit: Circuit, threshold: nat, clock: nat -> real)
    requires k <= |primary|
    ensures var s := Serve(primary, fallback, k, circuit, threshold, clock);
            match s.origin
            case Primary(a) => s.completed || s.circuit.failures == circuit.failures + a - k
            case _ => && s.circuit.failures == circuit.failures + |primary| - k
                      && (k < |primary| && s.circuit.failures >= threshold ==> s.circuit.openedAt == Some(clock(|primary|)))
    decreases |primary| - k
  {
    if k < |primary| && primary[k].failed && TextOf(primary[k].deltas) == "" {
      FailedStreamCounts(primary, fallback, k + 1, CountFailure(circuit, threshold, clock(k + 1)), threshold, clock);
    }
  }

  /** The breaker's promise: a call that begins while the circuit is closed starts at most one more
      primary attempt than there are retries, and if every one of them fails to connect and the
      failures reach the threshold, it leaves the circuit open. */
  lemma {:induction false} ExhaustedRetriesOpenCircuit(primary: seq<CallResult>, fallback: Option<CallResult>, k: nat,
                                                       circuit: Circuit, usage: Usage, threshold: nat, clock: nat -> real)
    requires k <= |primary| && (forall i :: k <= i < |primary| ==> primary[i].Retryable?)
    ensures var c := CompleteFrom(primary, fallback, k, circuit, usage, threshold, clock);
            && c.calls == |primary|
            && c.circuit.failures == circuit.failures + |primary| - k
            && (k < |primary| && c.circuit.failures >= threshold ==> c.circuit.openedAt == Some(clock(|primary|)))
    decreases |primary| - k
  {
    if k < |primary| {
      ExhaustedRetriesOpenCircuit(primary, fallback, k + 1, CountFailure(circuit, threshold, clock(k + 1)), usage, threshold, clock);
    }
  }
}
