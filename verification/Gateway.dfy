/**
 The gateway's shared state: a circuit breaker per provider, a bench per model and the calls in
 flight. Every method that holds a lock in the source is one atomic step here, taken by some actor;
 the ghost history is the interleaving of all of them. `now` stands for the clock.
 */
module Gateway {
  import opened Sequences
  import opened Models
  import opened Catalogue
  import opened History

  datatype Breaker = Breaker(failures: int, openUntil: Option<int>)

  datatype LiveCall = LiveCall(place: Candidate, requested: string, task: Task, streaming: bool, startedAt: int)

  datatype LastCall = LastCall(
    place: Candidate, requested: string, task: Task, status: string, cacheHit: bool,
    latency: int, finishedAt: int, failure: string)

  // ---- what each structure must agree on with the history ----

  ghost predicate BreakersAgree(breakers: map<string, Breaker>, h: Log, trip: int, cooldown: int) {
    forall name ::
      var b := if name in breakers then breakers[name] else Breaker(0, None);
      BreakerAgrees(b, h, name, trip, cooldown)
  }

  ghost predicate BreakerAgrees(b: Breaker, h: Log, name: string, trip: int, cooldown: int) {
    && b.failures == Run(h, name) % Every(trip)
    && b.openUntil == match LastTrip(h, name, trip) { case None => None case Some(u) => Some(u + cooldown) }
  }

  /** An entry the bench has dropped without being told to had run out anyway. */
  ghost predicate BenchAgrees(bench: map<string, int>, h: Log, now: int) {
    forall key ::
      if key in bench then LastBench(h, key) == Some(bench[key] - BENCH_DURATION) else !OnBench(h, key, now)
  }

  ghost predicate LiveAgrees(inFlight: map<int, LiveCall>, seqNo: int, h: Log) {
    inFlight.Keys == InFlight(h) && forall id :: id in inFlight ==> id <= seqNo
  }

  class Gateway {
    const trip: int
    const cooldown: int
    var now: int
    var breakers: map<string, Breaker>
    var bench: map<string, int>
    var seqNo: int
    var inFlight: map<int, LiveCall>
    var last: Option<LastCall>
    ghost var history: Log

    ghost predicate Valid()
      reads this
    {
      && BreakersAgree(breakers, history, trip, cooldown)
      && BenchAgrees(bench, history, now)
      && LiveAgrees(inFlight, seqNo, history)
      && Timely(history, now)
    }

    constructor (trip: int, cooldown: int, now: int)
      ensures Valid() && history == [] && this.trip == trip && this.cooldown == cooldown
    {
      this.trip, this.cooldown, this.now := trip, cooldown, now;
      breakers, bench, seqNo, inFlight, last := map[], map[], 0, map[], None;
      history := [];
    }

    /** Appends a step that leaves two of the three structures as they were. */
    ghost method Note(actor: nat, step: Step)
      modifies this`history
      ensures history == old(history) + [Entry(actor, step)]
    {
      history := history + [Entry(actor, step)];
    }

    method Tick(ticks: nat)
      requires Valid()
      modifies this`now
      ensures Valid() && now == old(now) + ticks
    {
      now := now + ticks;
      assert forall key :: key !in bench ==> !OnBench(history, key, old(now));
    }

    // ---- breaker ----

    method Allow(provider: string) returns (ok: bool)
      requires Valid()
      ensures ok == !Refused(history, provider, trip, cooldown, now)
    {
      assert BreakerAgrees(if provider in breakers then breakers[provider] else Breaker(0, None), history, provider, trip, cooldown);
      if provider !in breakers {
        return true;
      }
      ok := breakers[provider].openUntil.None? || now > breakers[provider].openUntil.value;
    }

    method RecordFailure(provider: string, ghost actor: nat)
      requires Valid()
      modifies this`breakers, this`history
      ensures Valid() && history == old(history) + [Entry(actor, Failed(provider, now))]
    {
      ghost var e := Entry(actor, Failed(provider, now));
      ghost var h := history;
      ghost var before := breakers;
      var b := if provider in breakers then breakers[provider] else Breaker(0, None);
      assert BreakerAgrees(b, h, provider, trip, cooldown);
      NextModulo(Run(h, provider), Every(trip));
      b := b.(failures := b.failures + 1);
      if b.failures >= trip {
        b := Breaker(0, Some(now + cooldown));
      }
      breakers := breakers[provider := b];
      TimelySnoc(history, e, now);
      Note(actor, e.step);
      BreakerSnoc(h, e, provider, trip);
      BreakersOthers(before, breakers, h, e, provider, trip, cooldown);
      BenchUnmoved(bench, h, e, now);
      LogSnoc(h, e);
    }

    method RecordSuccess(provider: string, ghost actor: nat)
      requires Valid()
      modifies this`breakers, this`history
      ensures Valid() && history == old(history) + [Entry(actor, Succeeded(provider))]
    {
      ghost var e := Entry(actor, Succeeded(provider));
      ghost var h := history;
      ghost var before := breakers;
      if provider in breakers {
        breakers := breakers[provider := Breaker(0, None)];
      }
      TimelySnoc(history, e, now);
      Note(actor, e.step);
      BreakerSnoc(h, e, provider, trip);
      BreakersOthers(before, breakers, h, e, provider, trip, cooldown);
      BenchUnmoved(bench, h, e, now);
      LogSnoc(h, e);
    }

    // ---- bench ----

    /** Dropping an expired entry on the way out changes no answer, now or later. */
    method IsBenched(place: Candidate) returns (r: bool)
      requires Valid()
      modifies this`bench
      ensures Valid() && r == OnBench(history, FileKey(place), now)
    {
      var key := FileKey(place);
      if key !in bench {
        return false;
      }
      if now > bench[key] {
        bench := bench - {key};
        return false;
      }
      return true;
    }

    method BenchOne(place: Candidate, ghost actor: nat)
      requires Valid()
      modifies this`bench, this`history
      ensures Valid() && history == old(history) + [Entry(actor, Benched(FileKey(place), now))]
    {
      ghost var e := Entry(actor, Benched(FileKey(place), now));
      ghost var h := history;
      bench := bench[FileKey(place) := now + BENCH_DURATION];
      TimelySnoc(history, e, now);
      Note(actor, e.step);
      forall key ensures if key in bench then LastBench(history, key) == Some(bench[key] - BENCH_DURATION) else !OnBench(history, key, now) {
        BenchSnoc(h, e, key);
      }
      BreakersUnmoved(breakers, h, e, trip, cooldown);
      LogSnoc(h, e);
    }

    method Unbench(place: Candidate, ghost actor: nat)
      requires Valid()
      modifies this`bench, this`history
      ensures Valid() && history == old(history) + [Entry(actor, Unbenched(FileKey(place)))]
    {
      ghost var e := Entry(actor, Unbenched(FileKey(place)));
      ghost var h := history;
      bench := bench - {FileKey(place)};
      TimelySnoc(history, e, now);
      Note(actor, e.step);
      forall key ensures if key in bench then LastBench(history, key) == Some(bench[key] - BENCH_DURATION) else !OnBench(history, key, now) {
        BenchSnoc(h, e, key);
      }
      BreakersUnmoved(breakers, h, e, trip, cooldown);
      LogSnoc(h, e);
    }

    method ClearBench(ghost actor: nat)
      requires Valid()
      modifies this`bench, this`history
      ensures Valid() && history == old(history) + [Entry(actor, BenchCleared)]
    {
      ghost var e := Entry(actor, BenchCleared);
      ghost var h := history;
      bench := map[];
      TimelySnoc(history, e, now);
      Note(actor, e.step);
      forall key ensures !OnBench(history, key, now) {
        BenchSnoc(h, e, key);
      }
      BreakersUnmoved(breakers, h, e, trip, cooldown);
      LogSnoc(h, e);
    }

    // ---- calls in flight ----

    method Begin(call: LiveCall, ghost actor: nat) returns (id: int)
      requires Valid()
      modifies this`seqNo, this`inFlight, this`history
      ensures Valid() && history == old(history) + [Entry(actor, Began(id))]
      ensures id == seqNo > old(seqNo) && id !in old(inFlight) && inFlight == old(inFlight)[id := call]
    {
      seqNo := seqNo + 1;
      id := seqNo;
      inFlight := inFlight[id := call];
      ghost var e := Entry(actor, Began(id));
      ghost var h := history;
      TimelySnoc(history, e, now);
      Note(actor, e.step);
      BreakersUnmoved(breakers, h, e, trip, cooldown);
      BenchUnmoved(bench, h, e, now);
      LogSnoc(h, e);
    }

    method End(id: int, status: string, failure: string, latency: int, ghost actor: nat)
      requires Valid()
      modifies this`inFlight, this`last, this`history
      ensures Valid() && history == old(history) + [Entry(actor, Ended(id))]
      ensures inFlight == old(inFlight) - {id}
      ensures last == if id in old(inFlight)
                      then var call := old(inFlight)[id];
                           Some(LastCall(call.place, call.requested, call.task, status, false, latency, now, failure))
                      else old(last)
    {
      ghost var e := Entry(actor, Ended(id));
      ghost var h := history;
      if id in inFlight {
        var call := inFlight[id];
        inFlight := inFlight - {id};
        last := Some(LastCall(call.place, call.requested, call.task, status, false, latency, now, failure));
      }
      TimelySnoc(history, e, now);
      Note(actor, e.step);
      BreakersUnmoved(breakers, h, e, trip, cooldown);
      BenchUnmoved(bench, h, e, now);
      LogSnoc(h, e);
    }
  }

  // ---- frames ----

  lemma BreakersOthers(before: map<string, Breaker>, after: map<string, Breaker>, h: Log, e: Entry, provider: string, trip: int, cooldown: int)
    requires BreakersAgree(before, h, trip, cooldown)
    requires (e.step.Failed? && e.step.provider == provider) || e.step == Succeeded(provider)
    requires forall name :: name != provider ==> (name in after <==> name in before) && (name in after ==> after[name] == before[name])
    requires BreakerAgrees(if provider in after then after[provider] else Breaker(0, None), h + [e], provider, trip, cooldown)
    ensures BreakersAgree(after, h + [e], trip, cooldown)
  {
    forall name ensures BreakerAgrees(if name in after then after[name] else Breaker(0, None), h + [e], name, trip, cooldown) {
      BreakerSnoc(h, e, name, trip);
      assert BreakerAgrees(if name in before then before[name] else Breaker(0, None), h, name, trip, cooldown);
    }
  }

  lemma BreakersUnmoved(breakers: map<string, Breaker>, h: Log, e: Entry, trip: int, cooldown: int)
    requires BreakersAgree(breakers, h, trip, cooldown) && !e.step.Failed? && !e.step.Succeeded?
    ensures BreakersAgree(breakers, h + [e], trip, cooldown)
  {
    forall name ensures BreakerAgrees(if name in breakers then breakers[name] else Breaker(0, None), h + [e], name, trip, cooldown) {
      BreakerSnoc(h, e, name, trip);
      assert BreakerAgrees(if name in breakers then breakers[name] else Breaker(0, None), h, name, trip, cooldown);
    }
  }

  lemma BenchUnmoved(bench: map<string, int>, h: Log, e: Entry, now: int)
    requires BenchAgrees(bench, h, now) && !e.step.Benched? && !e.step.Unbenched? && !e.step.BenchCleared?
    ensures BenchAgrees(bench, h + [e], now)
  {
    forall key ensures if key in bench then LastBench(h + [e], key) == Some(bench[key] - BENCH_DURATION) else !OnBench(h + [e], key, now) {
      BenchSnoc(h, e, key);
    }
  }
}
