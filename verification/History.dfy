/**
 What the breaker and the bench are supposed to remember, read off the history of everything that
 happened. A history is any interleaving of the atomic steps of any number of requests and probes.
 */
module History {
  import opened Sequences

  datatype Step =
    | Failed(provider: string, at: int)
    | Succeeded(provider: string)
    | Benched(key: string, at: int)
    | Unbenched(key: string)
    | BenchCleared
    | Began(id: int)
    | Ended(id: int)

  /** A step and the request that took it. */
  datatype Entry = Entry(actor: nat, step: Step)

  type Log = seq<Entry>

  const BENCH_DURATION: int := 3600

  // ---- breakers ----

  /** Failures of a provider since it last answered, trips notwithstanding. */
  function Run(h: Log, provider: string): nat {
    if h == [] then 0
    else match h[|h| - 1].step
      case Failed(p, _) => Run(h[..|h| - 1], provider) + (if p == provider then 1 else 0)
      case Succeeded(p) => if p == provider then 0 else Run(h[..|h| - 1], provider)
      case _ => Run(h[..|h| - 1], provider)
  }

  /** A trip count below one trips on every failure, like one. */
  function Every(trip: int): nat {
    if trip < 1 then 1 else trip
  }

  /** When a provider last tripped, unless it has answered since. */
  function LastTrip(h: Log, provider: string, trip: int): Option<int> {
    if h == [] then None
    else match h[|h| - 1].step
      case Failed(p, at) =>
        if p == provider && Run(h, provider) % Every(trip) == 0 then Some(at) else LastTrip(h[..|h| - 1], provider, trip)
      case Succeeded(p) => if p == provider then None else LastTrip(h[..|h| - 1], provider, trip)
      case _ => LastTrip(h[..|h| - 1], provider, trip)
  }

  predicate Refused(h: Log, provider: string, trip: int, cooldown: int, t: int) {
    var u := LastTrip(h, provider, trip);
    u.Some? && t <= u.value + cooldown
  }

  /** The i-th step is the failure that completes another `trip` failures in a row. */
  predicate TripAt(h: Log, provider: string, trip: int, i: nat)
    requires i < |h|
  {
    h[i].step.Failed? && h[i].step.provider == provider && Run(h[..i + 1], provider) % Every(trip) == 0
  }

  predicate SuccessAt(h: Log, provider: string, i: nat)
    requires i < |h|
  {
    h[i].step == Succeeded(provider)
  }

  /** The latest trip or success of a provider is step i, and it is a trip. */
  ghost predicate TrippedLast(h: Log, provider: string, trip: int, i: int) {
    && 0 <= i < |h| && TripAt(h, provider, trip, i)
    && forall j :: i < j < |h| ==> !TripAt(h, provider, trip, j) && !SuccessAt(h, provider, j)
  }

  /** A provider is refused exactly when its latest trip-or-success is a trip within the cooldown. */
  lemma {:induction false} RefusedMeans(h: Log, provider: string, trip: int, cooldown: int, t: int)
    ensures Refused(h, provider, trip, cooldown, t) <==>
      exists i :: TrippedLast(h, provider, trip, i) && t <= h[i].step.at + cooldown
  {
    if h != [] {
      var n := |h| - 1;
      var h' := h[..n];
      assert h[..n + 1] == h;
      RefusedMeans(h', provider, trip, cooldown, t);
      if TripAt(h, provider, trip, n) {
        assert TrippedLast(h, provider, trip, n);
        assert forall i :: TrippedLast(h, provider, trip, i) ==> i == n;
      } else if !SuccessAt(h, provider, n) {
        forall i: int ensures TrippedLast(h, provider, trip, i) <==> TrippedLast(h', provider, trip, i) {
          TrippedLastPrefix(h, provider, trip, i);
        }
      }
    }
  }

  lemma TrippedLastPrefix(h: Log, provider: string, trip: int, i: int)
    requires h != [] && !TripAt(h, provider, trip, |h| - 1) && !SuccessAt(h, provider, |h| - 1)
    ensures TrippedLast(h, provider, trip, i) <==> TrippedLast(h[..|h| - 1], provider, trip, i)
  {
    var h' := h[..|h| - 1];
    forall j | 0 <= j < |h'|
      ensures TripAt(h, provider, trip, j) == TripAt(h', provider, trip, j)
      ensures SuccessAt(h, provider, j) == SuccessAt(h', provider, j)
    {
      assert h[..j + 1] == h'[..j + 1] && h[j] == h'[j];
    }
    if TrippedLast(h, provider, trip, i) {
      assert i < |h'|;
      forall j | i < j < |h'| ensures !TripAt(h', provider, trip, j) && !SuccessAt(h', provider, j) {
        assert !TripAt(h, provider, trip, j) && !SuccessAt(h, provider, j);
      }
    }
    if TrippedLast(h', provider, trip, i) {
      forall j | i < j < |h| ensures !TripAt(h, provider, trip, j) && !SuccessAt(h, provider, j) {
        assert j < |h'| ==> !TripAt(h', provider, trip, j) && !SuccessAt(h', provider, j);
      }
    }
  }

  // ---- bench ----

  /** When a model was last benched, unless it was released or the bench cleared since. */
  function LastBench(h: Log, key: string): Option<int> {
    if h == [] then None
    else match h[|h| - 1].step
      case Benched(k, at) => if k == key then Some(at) else LastBench(h[..|h| - 1], key)
      case Unbenched(k) => if k == key then None else LastBench(h[..|h| - 1], key)
      case BenchCleared => None
      case _ => LastBench(h[..|h| - 1], key)
  }

  predicate OnBench(h: Log, key: string, t: int) {
    var u := LastBench(h, key);
    u.Some? && t <= u.value + BENCH_DURATION
  }

  predicate Touches(s: Step, key: string) {
    (s.Benched? && s.key == key) || s == Unbenched(key) || s.BenchCleared?
  }

  /** Step i is the latest one that benches or releases the model. */
  ghost predicate TouchedLast(h: Log, key: string, i: int) {
    0 <= i < |h| && Touches(h[i].step, key) && forall j :: i < j < |h| ==> !Touches(h[j].step, key)
  }

  /** A model is on the bench exactly when the latest step that touches it is a benching within the hour. */
  lemma {:induction false} OnBenchMeans(h: Log, key: string, t: int)
    ensures OnBench(h, key, t) <==>
      exists i :: TouchedLast(h, key, i) && h[i].step.Benched? && t <= h[i].step.at + 3600
  {
    if h != [] {
      var n := |h| - 1;
      OnBenchMeans(h[..n], key, t);
      if Touches(h[n].step, key) {
        assert TouchedLast(h, key, n);
        assert forall i :: TouchedLast(h, key, i) ==> i == n;
      } else {
        forall i: int ensures TouchedLast(h, key, i) <==> TouchedLast(h[..n], key, i) {}
      }
    }
  }

  /** Nothing in these steps releases the model. */
  predicate KeepsBenched(later: Log, key: string) {
    forall i :: 0 <= i < |later| ==> later[i].step != Unbenched(key) && !later[i].step.BenchCleared?
  }

  /** Once benched, a model stays benched for the hour whatever else happens, short of a release. */
  lemma {:induction false} BenchLasts(h: Log, later: Log, key: string, u: int, t: int)
    requires LastBench(h, key) == Some(u) && t <= u + BENCH_DURATION
    requires KeepsBenched(later, key)
    requires forall i :: 0 <= i < |later| && later[i].step.Benched? ==> later[i].step.at >= u
    ensures OnBench(h + later, key, t)
  {
    if later == [] {
      assert h + later == h;
    } else {
      var rest, last := later[..|later| - 1], later[|later| - 1];
      assert last.step != Unbenched(key) && !last.step.BenchCleared?;
      assert h + later == (h + rest) + [last];
      BenchLasts(h, rest, key, u, t);
      SnocParts(h + rest, last);
    }
  }

  /** Benchings carry times that never run backwards nor ahead of the clock. */
  ghost predicate Timely(h: Log, now: int) {
    && (forall i :: 0 <= i < |h| && h[i].step.Benched? ==> h[i].step.at <= now)
    && forall i, j :: 0 <= i < j < |h| && h[i].step.Benched? && h[j].step.Benched? ==> h[i].step.at <= h[j].step.at
  }

  lemma TimelySnoc(h: Log, e: Entry, now: int)
    requires Timely(h, now) && (e.step.Benched? ==> e.step.at == now)
    ensures Timely(h + [e], now)
  {}

  /** A model nobody's steps touch is on the bench, or off it, as before. */
  lemma {:induction false} BenchUntouched(h: Log, more: Log, key: string)
    requires forall i :: 0 <= i < |more| ==> !Touches(more[i].step, key)
    ensures LastBench(h + more, key) == LastBench(h, key)
  {
    if more == [] {
      assert h + more == h;
    } else {
      var rest, last := more[..|more| - 1], more[|more| - 1];
      assert h + more == (h + rest) + [last];
      assert !Touches(last.step, key);
      BenchSnoc(h + rest, last, key);
      BenchUntouched(h, rest, key);
    }
  }

  // ---- failures since the last trip or success ----

  /** A trip or a success: what sets a breaker's counter back. */
  predicate ResetAt(h: Log, provider: string, trip: int, i: nat)
    requires i < |h|
  {
    TripAt(h, provider, trip, i) || SuccessAt(h, provider, i)
  }

  /** A provider's failures from step i on. */
  function FailuresFrom(h: Log, provider: string, i: nat): nat {
    if |h| <= i then 0
    else FailuresFrom(h[..|h| - 1], provider, i) + (if h[|h| - 1].step.Failed? && h[|h| - 1].step.provider == provider then 1 else 0)
  }

  /** Nothing from step i on sets the counter back, and the step before does, if there is one. */
  ghost predicate SinceReset(h: Log, provider: string, trip: int, i: nat) {
    && i <= |h|
    && (i > 0 ==> ResetAt(h, provider, trip, i - 1))
    && forall j :: i <= j < |h| ==> !ResetAt(h, provider, trip, j)
  }

  lemma ResetPrefix(h: Log, provider: string, trip: int, j: nat)
    requires j < |h| - 1
    ensures ResetAt(h, provider, trip, j) <==> ResetAt(h[..|h| - 1], provider, trip, j)
  {
    assert h[..j + 1] == h[..|h| - 1][..j + 1];
  }

  lemma ResetsStay(h: Log, provider: string, trip: int, i: nat)
    requires h != [] && i < |h| && SinceReset(h, provider, trip, i)
    ensures SinceReset(h[..|h| - 1], provider, trip, i)
  {
    var h' := h[..|h| - 1];
    forall j | i <= j < |h'| ensures !ResetAt(h', provider, trip, j) {
      assert !ResetAt(h, provider, trip, j);
      ResetPrefix(h, provider, trip, j);
    }
    if i > 0 {
      ResetPrefix(h, provider, trip, i - 1);
    }
  }

  /** The counter is the number of failures since the latest trip or success, and always below the trip count. */
  lemma {:induction false} CounterMeans(h: Log, provider: string, trip: int, i: nat)
    requires SinceReset(h, provider, trip, i)
    ensures Run(h, provider) % Every(trip) == FailuresFrom(h, provider, i) < Every(trip)
  {
    if h != [] {
      var n := |h| - 1;
      assert h[..n + 1] == h;
      if i == |h| {
        assert ResetAt(h, provider, trip, n);
      } else {
        assert !ResetAt(h, provider, trip, n);
        ResetsStay(h, provider, trip, i);
        CounterMeans(h[..n], provider, trip, i);
        CounterSteps(h, provider, trip);
      }
    }
  }

  /** A breaker trips on the failure that makes it `trip` in a row since the latest trip or success; on every one below a count of two. */
  lemma TripsExactly(h: Log, provider: string, trip: int, i: nat, from: nat)
    requires i < |h| && from <= i && SinceReset(h[..i], provider, trip, from)
    ensures TripAt(h, provider, trip, i) <==>
      h[i].step.Failed? && h[i].step.provider == provider && FailuresFrom(h[..i], provider, from) + 1 >= trip
  {
    CounterMeans(h[..i], provider, trip, from);
    assert h[..i + 1][..i] == h[..i];
    if h[i].step.Failed? && h[i].step.provider == provider {
      NextModulo(Run(h[..i], provider), Every(trip));
    }
  }

  lemma CounterSteps(h: Log, provider: string, trip: int)
    requires h != [] && !ResetAt(h, provider, trip, |h| - 1)
    ensures Run(h, provider) % Every(trip) ==
      Run(h[..|h| - 1], provider) % Every(trip) + (if h[|h| - 1].step.Failed? && h[|h| - 1].step.provider == provider then 1 else 0)
  {
    assert h[..|h|] == h;
    NextModulo(Run(h[..|h| - 1], provider), Every(trip));
  }

  /** There is always a latest trip or success to count from, or the beginning. */
  lemma LatestReset(h: Log, provider: string, trip: int) returns (i: nat)
    ensures SinceReset(h, provider, trip, i)
  {
    i := |h|;
    while i > 0 && !ResetAt(h, provider, trip, i - 1)
      invariant i <= |h| && forall j :: i <= j < |h| ==> !ResetAt(h, provider, trip, j)
    {
      i := i - 1;
    }
  }

  // ---- calls in flight ----

  /** Calls begun and not ended. */
  function InFlight(h: Log): set<int> {
    if h == [] then {}
    else match h[|h| - 1].step
      case Began(id) => InFlight(h[..|h| - 1]) + {id}
      case Ended(id) => InFlight(h[..|h| - 1]) - {id}
      case _ => InFlight(h[..|h| - 1])
  }

  /** The steps one request has taken, in order. */
  function Mine(h: Log, actor: nat): seq<Step> {
    Map((e: Entry) => e.step, Filter(TakenBy(actor), h))
  }

  function TakenBy(actor: nat): Entry -> bool {
    (e: Entry) => e.actor == actor
  }

  /** Unfolds the readings of a history by its last step. */
  lemma LogSnoc(h: Log, e: Entry)
    ensures InFlight(h + [e]) == if e.step.Began? then InFlight(h) + {e.step.id} else if e.step.Ended? then InFlight(h) - {e.step.id} else InFlight(h)
    ensures forall a :: Mine(h + [e], a) == if e.actor == a then Mine(h, a) + [e.step] else Mine(h, a)
  {
    SnocParts(h, e);
    forall a ensures Mine(h + [e], a) == if e.actor == a then Mine(h, a) + [e.step] else Mine(h, a) {
      FilterSnoc(TakenBy(a), h, e);
      if e.actor == a {
        MapSnoc((x: Entry) => x.step, Filter(TakenBy(a), h), e);
      } else {
        assert Filter(TakenBy(a), h) + [] == Filter(TakenBy(a), h);
      }
    }
  }

  lemma MineAppend(h: Log, more: Log, actor: nat)
    ensures Mine(h + more, actor) == Mine(h, actor) + Mine(more, actor)
  {
    FilterAppend(TakenBy(actor), h, more);
    MapAppend((e: Entry) => e.step, Filter(TakenBy(actor), h), Filter(TakenBy(actor), more));
  }

  /** A step among a request's own stands somewhere in the history. */
  lemma MineStands(h: Log, actor: nat, s: Step) returns (i: nat)
    requires s in Mine(h, actor)
    ensures i < |h| && h[i] == Entry(actor, s)
  {
    var own := Filter(TakenBy(actor), h);
    var j :| 0 <= j < |own| && Map((e: Entry) => e.step, own)[j] == s;
    FilterMember(TakenBy(actor), h, own[j]);
    i :| 0 <= i < |h| && h[i] == own[j];
  }

  lemma StandsMine(h: Log, actor: nat, i: nat)
    requires i < |h| && h[i].actor == actor
    ensures h[i].step in Mine(h, actor)
  {
    FilterMember(TakenBy(actor), h, h[i]);
    var own := Filter(TakenBy(actor), h);
    var j :| 0 <= j < |own| && own[j] == h[i];
    assert Map((e: Entry) => e.step, own)[j] == h[i].step;
  }

  lemma BreakerSnoc(h: Log, e: Entry, provider: string, trip: int)
    ensures Run(h + [e], provider) ==
      if e.step.Failed? && e.step.provider == provider then Run(h, provider) + 1
      else if e.step == Succeeded(provider) then 0 else Run(h, provider)
    ensures LastTrip(h + [e], provider, trip) ==
      if e.step.Failed? && e.step.provider == provider && (Run(h, provider) + 1) % Every(trip) == 0 then Some(e.step.at)
      else if e.step == Succeeded(provider) then None else LastTrip(h, provider, trip)
  {
    SnocParts(h, e);
  }

  lemma BenchSnoc(h: Log, e: Entry, key: string)
    ensures LastBench(h + [e], key) ==
      if e.step.Benched? && e.step.key == key then Some(e.step.at)
      else if e.step == Unbenched(key) || e.step.BenchCleared? then None else LastBench(h, key)
  {
    SnocParts(h, e);
  }

  /** Counting to m and starting over is counting modulo m. */
  lemma NextModulo(r: nat, m: nat)
    requires m >= 1
    ensures (r + 1) % m == if r % m + 1 == m then 0 else r % m + 1
  {
    var q, x := r / m, r % m;
    assert r == m * q + x;
    if x + 1 == m {
      assert r + 1 == m * (q + 1);
      Remainder(r + 1, m, q + 1, 0);
    } else {
      Remainder(r + 1, m, q, x + 1);
    }
  }

  lemma Remainder(n: nat, m: nat, q: nat, x: nat)
    requires x < m && n == m * q + x
    ensures n % m == x
  {
    var q', x' := n / m, n % m;
    assert n == m * q' + x' && x' < m;
    assert m * (q - q') == x' - x;
    assert m * (q' - q) == x - x';
    if q > q' {
      SmallProduct(m, q - q');
    } else if q < q' {
      SmallProduct(m, q' - q);
    }
  }

  lemma SmallProduct(m: nat, k: nat)
    requires k >= 1
    ensures m * k >= m
  {}
}
