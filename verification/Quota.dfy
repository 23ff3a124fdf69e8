/**
 Durable tenant quotas: reserve before expensive work, then release or consume, and reconcile the
 used amount with what is really stored. Each call runs under the row lock of its counter.
 */
module Quota {
  import opened Options

  datatype Key = Key(tenant: string, resource: string)

  datatype Usage = Usage(used: nat, reserved: nat, revision: nat)

  datatype Reservation = Reservation(key: Key, amount: nat, revision: nat)

  datatype QuotaError = InvalidAmount | ConfigurationUnavailable | QuotaExceeded | ReservationStale

  datatype Outcome<T> = Done(value: T) | Refused(error: QuotaError)

  type Counters = map<Key, Usage>

  /** The counter row, created on first use. */
  function Locked(counters: Counters, key: Key): Usage {
    if key in counters then counters[key] else Usage(0, 0, 1)
  }

  function AfterReserve(u: Usage, amount: nat): Usage {
    u.(reserved := u.reserved + amount, revision := u.revision + 1)
  }

  function AfterRelease(u: Usage, amount: nat, consume: bool): Usage
    requires amount <= u.reserved
  {
    Usage(if consume then u.used + amount else u.used, u.reserved - amount, u.revision + 1)
  }

  class QuotaLedger {
    var counters: Counters

    constructor ()
      ensures counters == map[]
    {
      counters := map[];
    }

    /** `limit` is what the active configuration allows; None when no configuration is active. */
    method Reserve(key: Key, amount: int, limit: Option<int>) returns (r: Outcome<Reservation>)
      modifies this
      ensures (r, counters) == ReserveSpec(old(counters), key, amount, limit)
      ensures var u := Locked(old(counters), key);
              && (r == Refused(InvalidAmount) <==> amount <= 0)
              && (r == Refused(ConfigurationUnavailable) <==> amount > 0 && limit.None?)
              && (r == Refused(QuotaExceeded) <==> amount > 0 && limit.Some? && u.used + u.reserved + amount > limit.value)
              && (r.Refused? ==> counters == old(counters))
              && (r.Done? ==>
                    && r.value == Reservation(key, amount, u.revision + 1)
                    && counters == old(counters)[key := Usage(u.used, u.reserved + amount, u.revision + 1)])
      ensures r.Done? && key !in old(counters) ==> counters[key] == Usage(0, amount, 2)
    {
      if amount <= 0 {
        return Refused(InvalidAmount);
      }
      if limit.None? {
        return Refused(ConfigurationUnavailable);
      }
      var usage := Locked(counters, key);
      if usage.used + usage.reserved + amount > limit.value {
        return Refused(QuotaExceeded);
      }
      usage := usage.(reserved := usage.reserved + amount);
      usage := usage.(revision := usage.revision + 1);
      counters := counters[key := usage];
      r := Done(Reservation(key, amount, usage.revision));
    }

    method Release(reservation: Reservation, consume: bool) returns (r: Outcome<Usage>)
      modifies this
      ensures (r, counters) == ReleaseSpec(old(counters), reservation, consume)
      ensures var u := Locked(old(counters), reservation.key);
              if u.reserved < reservation.amount then r == Refused(ReservationStale) && counters == old(counters)
              else
                var after := Usage(if consume then u.used + reservation.amount else u.used,
                                   u.reserved - reservation.amount, u.revision + 1);
                r == Done(after) && counters == old(counters)[reservation.key := after]
    {
      var usage := Locked(counters, reservation.key);
      if usage.reserved < reservation.amount {
        return Refused(ReservationStale);
      }
      usage := usage.(reserved := usage.reserved - reservation.amount);
      if consume {
        usage := usage.(used := usage.used + reservation.amount);
      }
      usage := usage.(revision := usage.revision + 1);
      counters := counters[reservation.key := usage];
      r := Done(usage);
    }

    method Reconcile(actual: seq<(Key, nat)>)
      modifies this
      ensures counters == ReconcileSpec(old(counters), actual)
    {
      ghost var before := counters;
      for i := 0 to |actual|
        invariant counters == ReconcileSpec(before, actual[..i])
      {
        assert actual[..i + 1][..i] == actual[..i];
        var (key, used) := actual[i];
        var usage := Locked(counters, key);
        usage := usage.(used := used);
        usage := usage.(revision := usage.revision + 1);
        counters := counters[key := usage];
      }
      assert actual[..|actual|] == actual;
    }
  }

  function ReserveSpec(counters: Counters, key: Key, amount: int, limit: Option<int>): (Outcome<Reservation>, Counters) {
    if amount <= 0 then (Refused(InvalidAmount), counters)
    else if limit.None? then (Refused(ConfigurationUnavailable), counters)
    else
      var u := Locked(counters, key);
      if u.used + u.reserved + amount > limit.value then (Refused(QuotaExceeded), counters)
      else (Done(Reservation(key, amount, u.revision + 1)), counters[key := AfterReserve(u, amount)])
  }

  function ReleaseSpec(counters: Counters, r: Reservation, consume: bool): (Outcome<Usage>, Counters) {
    var u := Locked(counters, r.key);
    if u.reserved < r.amount then (Refused(ReservationStale), counters)
    else
      var after := AfterRelease(u, r.amount, consume);
      (Done(after), counters[r.key := after])
  }

  function ReconcileSpec(counters: Counters, actual: seq<(Key, nat)>): Counters {
    if actual == [] then counters
    else
      var before := ReconcileSpec(counters, actual[..|actual| - 1]);
      var (key, used) := actual[|actual| - 1];
      var u := Locked(before, key);
      before[key := Usage(used, u.reserved, u.revision + 1)]
  }

  // ---- Whole runs ----

  /** The counters together with the reservations that callers still hold. */
  datatype World = World(counters: Counters, held: seq<Reservation>)

  datatype Call =
    | ReserveCall(key: Key, amount: int, limit: Option<int>)
    | ReleaseCall(index: nat, consume: bool)
    | ReconcileCall(actual: seq<(Key, nat)>)

  /** One call by a caller who releases a reservation only while holding it. */
  function Step(w: World, c: Call): World {
    match c
    case ReserveCall(key, amount, limit) =>
      var (r, counters) := ReserveSpec(w.counters, key, amount, limit);
      if r.Done? then World(counters, w.held + [r.value]) else w
    case ReleaseCall(i, consume) =>
      if i >= |w.held| then w
      else
        var (r, counters) := ReleaseSpec(w.counters, w.held[i], consume);
        if r.Done? then World(counters, w.held[..i] + w.held[i + 1..]) else w
    case ReconcileCall(actual) =>
      w.(counters := ReconcileSpec(w.counters, actual))
  }

  function Run(calls: seq<Call>): World {
    if calls == [] then World(map[], [])
    else Step(Run(calls[..|calls| - 1]), calls[|calls| - 1])
  }

  function Outstanding(held: seq<Reservation>, key: Key): nat {
    if held == [] then 0
    else
      var n := |held| - 1;
      Outstanding(held[..n], key) + if held[n].key == key then held[n].amount else 0
  }

  lemma {:induction false} OutstandingWithout(held: seq<Reservation>, i: nat, key: Key)
    requires i < |held|
    ensures Outstanding(held, key)
         == Outstanding(held[..i] + held[i + 1..], key) + if held[i].key == key then held[i].amount else 0
  {
    var n := |held| - 1;
    var rest := held[..i] + held[i + 1..];
    if i == n {
      assert rest == held[..n];
    } else {
      OutstandingWithout(held[..n], i, key);
      assert rest[..|rest| - 1] == held[..n][..i] + held[..n][i + 1..];
    }
  }

  lemma {:induction false} ReconcileKeepsReserved(counters: Counters, actual: seq<(Key, nat)>, key: Key)
    ensures Locked(ReconcileSpec(counters, actual), key).reserved == Locked(counters, key).reserved
  {
    if actual != [] {
      ReconcileKeepsReserved(counters, actual[..|actual| - 1], key);
    }
  }

  function TimesListed(actual: seq<(Key, nat)>, key: Key): nat {
    if actual == [] then 0
    else TimesListed(actual[..|actual| - 1], key) + if actual[|actual| - 1].0 == key then 1 else 0
  }

  /** Reconciliation leaves each counter with the amount that is listed for it last, and one revision more
      for each time that it is listed; counters that are not listed stay. */
  lemma {:induction false} ReconcileSetsUsed(counters: Counters, actual: seq<(Key, nat)>, key: Key)
    ensures var before, after := Locked(counters, key), Locked(ReconcileSpec(counters, actual), key);
            && after.revision == before.revision + TimesListed(actual, key)
            && (TimesListed(actual, key) == 0 ==> after == before)
            && (forall i :: 0 <= i < |actual| && actual[i].0 == key && (forall j :: i < j < |actual| ==> actual[j].0 != key) ==>
                  after.used == actual[i].1)
  {
    if actual != [] {
      var n := |actual| - 1;
      ReconcileSetsUsed(counters, actual[..n], key);
      forall i | 0 <= i < |actual| && actual[i].0 == key && (forall j :: i < j < |actual| ==> actual[j].0 != key)
        ensures Locked(ReconcileSpec(counters, actual), key).used == actual[i].1
      {
        if i < n {
          assert actual[..n][i] == actual[i] && actual[n].0 != key;
        }
      }
    }
  }

  /** Conservation: over any run, every counter's reserved amount is what callers still hold. */
  lemma {:induction false} ReservedIsOutstanding(calls: seq<Call>, key: Key)
    ensures Locked(Run(calls).counters, key).reserved == Outstanding(Run(calls).held, key)
  {
    if calls != [] {
      var before := Run(calls[..|calls| - 1]);
      ReservedIsOutstanding(calls[..|calls| - 1], key);
      match calls[|calls| - 1] {
        case ReserveCall(k, amount, limit) =>
          var (r, counters) := ReserveSpec(before.counters, k, amount, limit);
          if r.Done? {
            assert (before.held + [r.value])[..|before.held|] == before.held;
          }
        case ReleaseCall(i, consume) =>
          if i < |before.held| {
            OutstandingWithout(before.held, i, key);
          }
        case ReconcileCall(actual) =>
          ReconcileKeepsReserved(before.counters, actual, key);
      }
    }
  }

  /** So releasing a held reservation is never reported stale; consuming it moves the amount from
      reserved to used and keeps their sum. */
  lemma HeldReservationReleases(calls: seq<Call>, i: nat, consume: bool)
    requires i < |Run(calls).held|
    ensures var w := Run(calls);
            var r := w.held[i];
            var (outcome, counters) := ReleaseSpec(w.counters, r, consume);
            var u, v := Locked(w.counters, r.key), Locked(counters, r.key);
            && outcome.Done?
            && (consume ==> v.used + v.reserved == u.used + u.reserved)
            && (!consume ==> v.used == u.used && v.reserved + r.amount == u.reserved)
  {
    var w := Run(calls);
    ReservedIsOutstanding(calls, w.held[i].key);
    OutstandingWithout(w.held, i, w.held[i].key);
  }

  /** No successful reservation leaves the total above the limit that the call read, and a refusal
      for excess means that it would have. */
  lemma ReserveRespectsLimit(calls: seq<Call>, key: Key, amount: int, limit: int)
    requires amount > 0
    ensures var w := Run(calls);
            var (outcome, counters) := ReserveSpec(w.counters, key, amount, Some(limit));
            var total := Locked(w.counters, key).used + Outstanding(w.held, key) + amount;
            && (outcome.Done? <==> total <= limit)
            && (outcome.Done? ==> Locked(counters, key).used + Locked(counters, key).reserved == total)
            && (outcome.Refused? ==> outcome.error == QuotaExceeded && counters == w.counters)
  {
    ReservedIsOutstanding(calls, key);
  }

  /** The guarantee needs each reservation to be released once: a second release of the same one is
      accepted exactly when the others of its key hold at least its amount, and then it takes that
      amount from them. */
  lemma SecondReleaseTakesFromOthers(calls: seq<Call>, i: nat, consume: bool)
    requires i < |Run(calls).held|
    ensures var w := Run(calls);
            var r := w.held[i];
            var others := Outstanding(w.held[..i] + w.held[i + 1..], r.key);
            var (first, once) := ReleaseSpec(w.counters, r, consume);
            var (second, twice) := ReleaseSpec(once, r, consume);
            && (second.Done? <==> others >= r.amount)
            && (second.Done? ==> Locked(twice, r.key).reserved + r.amount == others)
  {
    var w := Run(calls);
    ReservedIsOutstanding(calls, w.held[i].key);
    OutstandingWithout(w.held, i, w.held[i].key);
  }
}
