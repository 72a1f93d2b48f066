/**
 The failover walk over a planned chain, run against an arbitrary upstream and interleaved with
 arbitrary steps of other requests and probes wherever this request does not hold a lock.
 */
module Chain {
  import opened Sequences
  import opened Models
  import opened Catalogue
  import opened History
  import opened Gateway
  import opened Interference
  import opened Allowance

  /** What one upstream attempt does: chunks passed on, then an answer or an error text. */
  datatype Outcome = Outcome(chunks: seq<string>, error: Option<string>, latency: int)

  /** What became of one candidate. */
  datatype Visit = NoKey | CoolingDown | Tried(outcome: Outcome)

  datatype Failure = Failure(place: Candidate, reason: string)

  datatype Result =
    | Answered(place: Candidate)
    | Interrupted(error: string)
    | Exhausted(failures: seq<Failure>)

  datatype Request = Request(model: string, task: Task, streaming: bool)

  // ---- what the client gets ----

  function Reason(v: Visit): string
    requires v.Tried? ==> v.outcome.error.Some?
  {
    match v
    case NoKey => "no API key configured"
    case CoolingDown => "in cooldown after repeated failures"
    case Tried(o) => o.error.value
  }

  /** What the client sees of the i-th candidate's answer while it comes in. */
  function Chunks(i: nat, v: Visit, streaming: bool): seq<(int, string)> {
    if streaming && v.Tried? then Map((chunk: string) => (i, chunk), v.outcome.chunks) else []
  }

  /** The chunks the client got, each with the position of the candidate it came from. */
  function Delivered(visits: seq<Visit>, streaming: bool): seq<(int, string)> {
    if visits == [] then []
    else
      var n := |visits| - 1;
      Delivered(visits[..n], streaming) + Chunks(n, visits[n], streaming)
  }

  /** The walk moved on from this visit: it failed before the client saw anything of it. */
  predicate PassedOver(v: Visit, streaming: bool) {
    v.Tried? ==> v.outcome.error.Some? && (streaming ==> v.outcome.chunks == [])
  }

  lemma {:induction false} NothingDelivered(visits: seq<Visit>, streaming: bool)
    requires forall i :: 0 <= i < |visits| ==> PassedOver(visits[i], streaming)
    ensures Delivered(visits, streaming) == []
  {
    if visits != [] {
      NothingDelivered(visits[..|visits| - 1], streaming);
    }
  }

  /** A walk that stops at the first visit it cannot pass over delivers from that one candidate only. */
  lemma OneSource(visits: seq<Visit>, streaming: bool)
    requires forall i :: 0 <= i < |visits| - 1 ==> PassedOver(visits[i], streaming)
    ensures forall d :: d in Delivered(visits, streaming) ==> d.0 == |visits| - 1
  {
    if visits != [] {
      NothingDelivered(visits[..|visits| - 1], streaming);
    }
  }

  /** What holds of the candidates a walk has left behind. */
  ghost predicate LeftBehind(cands: seq<Candidate>, keys: map<string, string>, streaming: bool, upstream: nat -> Outcome,
                             visits: seq<Visit>, failures: seq<Failure>)
  {
    && |failures| == |visits| <= |cands|
    && forall i :: 0 <= i < |visits| ==>
         && TrueTo(cands, keys, upstream, visits, i)
         && PassedOver(visits[i], streaming)
         && failures[i] == Failure(cands[i], Reason(visits[i]))
  }

  /** A visit reflects the key table and the upstream's own behaviour. */
  ghost predicate TrueTo(cands: seq<Candidate>, keys: map<string, string>, upstream: nat -> Outcome, visits: seq<Visit>, i: nat)
    requires i < |visits| <= |cands|
  {
    && (visits[i].NoKey? <==> !Keyed(keys, cands[i].provider))
    && (visits[i].Tried? ==> visits[i].outcome == upstream(i))
  }

  lemma LeaveBehind(cands: seq<Candidate>, keys: map<string, string>, streaming: bool, upstream: nat -> Outcome,
                    visits: seq<Visit>, failures: seq<Failure>, v: Visit)
    requires LeftBehind(cands, keys, streaming, upstream, visits, failures) && |visits| < |cands|
    requires TrueTo(cands, keys, upstream, visits + [v], |visits|) && PassedOver(v, streaming)
    ensures LeftBehind(cands, keys, streaming, upstream, visits + [v], failures + [Failure(cands[|visits|], Reason(v))])
  {
    SnocParts(visits, v);
    forall i | 0 <= i < |visits| ensures TrueTo(cands, keys, upstream, visits + [v], i) {
      assert TrueTo(cands, keys, upstream, visits, i);
    }
  }

  /** A walk so far: each visit true to the keys and the upstream, every one but the last passed over. */
  ghost predicate Visited(cands: seq<Candidate>, keys: map<string, string>, streaming: bool, upstream: nat -> Outcome, visits: seq<Visit>) {
    && |visits| <= |cands|
    && (forall i :: 0 <= i < |visits| ==> TrueTo(cands, keys, upstream, visits, i))
    && forall i :: 0 <= i < |visits| - 1 ==> PassedOver(visits[i], streaming)
  }

  /** How a walk may end. */
  ghost predicate Concludes(cands: seq<Candidate>, keys: map<string, string>, streaming: bool, upstream: nat -> Outcome,
                            visits: seq<Visit>, delivered: seq<(int, string)>, result: Result)
  {
    var n := |visits| - 1;
    && Visited(cands, keys, streaming, upstream, visits)
    && delivered == Delivered(visits, streaming)
    && (forall d :: d in delivered ==> d.0 == n)
    && match result
       case Answered(place) =>
         n >= 0 && place == cands[n] && visits[n].Tried? && visits[n].outcome.error.None?
       case Interrupted(error) =>
         n >= 0 && visits[n].Tried? && visits[n].outcome.error == Some(error) && delivered != []
       case Exhausted(failures) =>
         && delivered == [] && |visits| == |cands| == |failures|
         && forall i :: 0 <= i < |cands| ==>
              PassedOver(visits[i], streaming) && failures[i] == Failure(cands[i], Reason(visits[i]))
  }

  /** The walk ends at this visit: it answered, or the client has seen part of it. */
  predicate Final(o: Outcome, streaming: bool) {
    o.error.None? || (streaming && o.chunks != [])
  }

  function Ending(c: Candidate, o: Outcome): Result {
    if o.error.None? then Answered(c) else Interrupted(o.error.value)
  }

  lemma ConcludeAtLast(cands: seq<Candidate>, keys: map<string, string>, streaming: bool, upstream: nat -> Outcome,
                       visits: seq<Visit>, failures: seq<Failure>, o: Outcome)
    requires LeftBehind(cands, keys, streaming, upstream, visits, failures) && |visits| < |cands|
    requires Keyed(keys, cands[|visits|].provider) && o == upstream(|visits|) && Final(o, streaming)
    ensures Concludes(cands, keys, streaming, upstream, visits + [Tried(o)], Chunks(|visits|, Tried(o), streaming), Ending(cands[|visits|], o))
  {
    var all := visits + [Tried(o)];
    LastVisit(cands, keys, streaming, upstream, visits, failures, Tried(o));
    OneSource(all, streaming);
    if streaming && o.chunks != [] {
      assert |Delivered(all, streaming)| == |o.chunks|;
    }
  }

  lemma LastVisit(cands: seq<Candidate>, keys: map<string, string>, streaming: bool, upstream: nat -> Outcome,
                  visits: seq<Visit>, failures: seq<Failure>, v: Visit)
    requires LeftBehind(cands, keys, streaming, upstream, visits, failures) && |visits| < |cands|
    requires TrueTo(cands, keys, upstream, visits + [v], |visits|)
    ensures Visited(cands, keys, streaming, upstream, visits + [v])
    ensures Delivered(visits + [v], streaming) == Chunks(|visits|, v, streaming)
  {
    var all := visits + [v];
    SnocParts(visits, v);
    NothingDelivered(visits, streaming);
    assert [] + Chunks(|visits|, v, streaming) == Chunks(|visits|, v, streaming);
    forall i | 0 <= i < |all| ensures TrueTo(cands, keys, upstream, all, i) {
      assert i < |visits| ==> TrueTo(cands, keys, upstream, visits, i);
    }
  }

  lemma ConcludeAtEnd(cands: seq<Candidate>, keys: map<string, string>, streaming: bool, upstream: nat -> Outcome,
                      visits: seq<Visit>, failures: seq<Failure>)
    requires LeftBehind(cands, keys, streaming, upstream, visits, failures) && |visits| == |cands|
    ensures Concludes(cands, keys, streaming, upstream, visits, [], Exhausted(failures))
  {
    NothingDelivered(visits, streaming);
  }

  /** The client hears the last candidate tried, every chunk as it came, and nobody else. */
  ghost predicate Heard(streaming: bool, upstream: nat -> Outcome, visits: seq<Visit>, delivered: seq<(int, string)>) {
    if streaming && visits != [] && visits[|visits| - 1].Tried? then
      var n, chunks := |visits| - 1, upstream(|visits| - 1).chunks;
      |delivered| == |chunks| && forall j :: 0 <= j < |chunks| ==> delivered[j] == (n, chunks[j])
    else delivered == []
  }

  lemma ClientHears(cands: seq<Candidate>, keys: map<string, string>, streaming: bool, upstream: nat -> Outcome,
                    visits: seq<Visit>, delivered: seq<(int, string)>, result: Result)
    requires Concludes(cands, keys, streaming, upstream, visits, delivered, result)
    ensures streaming && visits != [] && visits[|visits| - 1].Tried? ==>
      Map((d: (int, string)) => d.1, delivered) == upstream(|visits| - 1).chunks
    ensures !(streaming && visits != [] && visits[|visits| - 1].Tried?) ==> delivered == []
    ensures Heard(streaming, upstream, visits, delivered)
  {
    if visits != [] {
      var n := |visits| - 1;
      NothingDelivered(visits[..n], streaming);
      assert TrueTo(cands, keys, upstream, visits, n);
      assert delivered == [] + Chunks(n, visits[n], streaming) == Chunks(n, visits[n], streaming);
    }
  }

  /** An exhausted walk tells of each candidate, in order, why it did not serve: its own error where it was tried. */
  lemma ExhaustedTells(cands: seq<Candidate>, keys: map<string, string>, streaming: bool, upstream: nat -> Outcome,
                       visits: seq<Visit>, delivered: seq<(int, string)>, failures: seq<Failure>, i: nat)
    requires Concludes(cands, keys, streaming, upstream, visits, delivered, Exhausted(failures)) && i < |cands|
    ensures |failures| == |visits| == |cands| && failures[i].place == cands[i]
    ensures !Keyed(keys, cands[i].provider) <==> failures[i].reason == "no API key configured" && visits[i].NoKey?
    ensures visits[i].CoolingDown? ==> failures[i].reason == "in cooldown after repeated failures"
    ensures visits[i].Tried? ==> Some(failures[i].reason) == upstream(i).error && (streaming ==> upstream(i).chunks == [])
  {
    assert TrueTo(cands, keys, upstream, visits, i) && PassedOver(visits[i], streaming);
  }

  // ---- what one visit leaves in the history ----

  /** What a visit is judged by: what the catalogue shows, the reading of errors, the keys and the breaker's settings. */
  datatype Setting = Setting(
    seen: Seen, faults: Faults, lower: string -> string, keys: map<string, string>, trip: int, cooldown: int)

  /** The settings of a walk's visits: only what the catalogue shows may differ. */
  function Settings(views: nat -> Seen, faults: Faults, lower: string -> string, keys: map<string, string>, trip: int, cooldown: int)
    : nat -> Setting
  {
    (i: nat) => Setting(views(i), faults, lower, keys, trip, cooldown)
  }

  /** The moment a provider's breaker was asked. */
  datatype Moment = Moment(log: Log, at: int)

  /** One visit as the history saw it: when the breaker was asked, and the steps taken after that. */
  datatype Leg = Leg(asked: Moment, steps: seq<Step>)

  /** The verdict on the provider and the benchings: exactly one of them, unless the error calls for a whole pool. */
  ghost predicate Reported(w: Setting, c: Candidate, error: Option<string>, steps: seq<Step>, from: int, to: int) {
    match error
    case None => steps == [Succeeded(c.provider)]
    case Some(text) =>
      if w.faults.AccessDenied(text) then BenchSteps(steps, OwedKeys(w.seen, w.faults, w.lower, c, text), from, to)
      else |steps| == 1 && steps[0].Failed? && steps[0].provider == c.provider && from <= steps[0].at <= to
  }

  /** An attempt goes in flight, ends, and is reported; a candidate skipped leaves no trace. */
  ghost predicate VisitSteps(w: Setting, c: Candidate, v: Visit, steps: seq<Step>, from: int, to: int) {
    match v
    case Tried(o) =>
      && |steps| >= 2 && steps[0].Began? && steps[1] == Ended(steps[0].id)
      && Reported(w, c, o.error, steps[2..], from, to)
    case _ => steps == []
  }

  ghost predicate RefusedAt(w: Setting, c: Candidate, m: Moment) {
    Refused(m.log, c.provider, w.trip, w.cooldown, m.at)
  }

  /** A keyed candidate is passed over exactly if its breaker refuses when asked, between two spots of the history. */
  ghost predicate LegOf(w: Setting, c: Candidate, v: Visit, leg: Leg, from: Spot, to: Spot) {
    && from.log <= leg.asked.log <= to.log && from.now <= leg.asked.at <= to.now
    && (v.CoolingDown? <==> Keyed(w.keys, c.provider) && RefusedAt(w, c, leg.asked))
    && VisitSteps(w, c, v, leg.steps, leg.asked.at, to.now)
  }

  /** What an attempt leaves, outcome by outcome. */
  lemma AttemptLeaves(w: Setting, c: Candidate, o: Outcome, steps: seq<Step>, from: int, to: int)
    requires VisitSteps(w, c, Tried(o), steps, from, to)
    ensures |steps| >= 2 && steps[0].Began? && steps[1] == Ended(steps[0].id)
    ensures o.error.None? ==> steps[2..] == [Succeeded(c.provider)]
    ensures o.error.Some? && !w.faults.refused(o.error.value) && !w.faults.spent(o.error.value) && !w.faults.wrongKind(o.error.value) ==>
      |steps| == 3 && steps[2].Failed? && steps[2].provider == c.provider && from <= steps[2].at <= to
    ensures o.error.Some? && (w.faults.refused(o.error.value) || w.faults.spent(o.error.value) || w.faults.wrongKind(o.error.value)) ==>
      |steps| >= 3 && forall i :: 2 <= i < |steps| ==> steps[i].Benched?
  {
    if o.error.Some? && w.faults.AccessDenied(o.error.value) {
      var more, owed := steps[2..], OwedKeys(w.seen, w.faults, w.lower, c, o.error.value);
      forall i | 0 <= i < |more| ensures more[i].Benched? {
        assert BenchStep(more[i], owed[i], from, to);
      }
      assert |owed| >= 1;
    }
  }

  function StepsOf(legs: seq<Leg>): seq<Step> {
    Concat(Map((leg: Leg) => leg.steps, legs))
  }

  /** Every visit has its leg, and the breaker was asked for each after all the steps of the visits before it. */
  ghost predicate Legs(ws: nat -> Setting, cands: seq<Candidate>, visits: seq<Visit>, legs: seq<Leg>, from: Spot, to: Spot, me: nat) {
    && |legs| == |visits| <= |cands|
    && forall i :: 0 <= i < |legs| ==> LegAt(ws(i), cands[i], visits[i], legs, i, from, to, me)
  }

  ghost predicate LegAt(w: Setting, c: Candidate, v: Visit, legs: seq<Leg>, i: nat, from: Spot, to: Spot, me: nat)
    requires i < |legs|
  {
    LegOf(w, c, v, legs[i], from, to) && Mine(legs[i].asked.log, me) == Mine(from.log, me) + StepsOf(legs[..i])
  }

  lemma StepsOfSnoc(legs: seq<Leg>, leg: Leg)
    ensures StepsOf(legs + [leg]) == StepsOf(legs) + leg.steps
  {
    MapSnoc((x: Leg) => x.steps, legs, leg);
    SnocParts(Map((x: Leg) => x.steps, legs), leg.steps);
  }

  lemma LegOfWider(w: Setting, c: Candidate, v: Visit, leg: Leg, from: Spot, a: Spot, b: Spot, to: Spot)
    requires LegOf(w, c, v, leg, a, b) && Grown(from, a) && Grown(b, to)
    ensures LegOf(w, c, v, leg, from, to)
  {
    PrefixChain(from.log, a.log, leg.asked.log);
    PrefixChain(leg.asked.log, b.log, to.log);
    VisitStepsWider(w, c, v, leg.steps, leg.asked.at, leg.asked.at, b.now, to.now);
  }

  lemma VisitStepsWider(w: Setting, c: Candidate, v: Visit, steps: seq<Step>, from: int, a: int, b: int, to: int)
    requires VisitSteps(w, c, v, steps, a, b) && from <= a && b <= to
    ensures VisitSteps(w, c, v, steps, from, to)
  {}

  lemma PrefixChain(a: Log, b: Log, c: Log)
    requires a <= b <= c
    ensures a <= c
  {}

  lemma LegsOn(ws: nat -> Setting, cands: seq<Candidate>, visits: seq<Visit>, v: Visit, legs: seq<Leg>, leg: Leg,
               from: Spot, mid: Spot, to: Spot, me: nat)
    requires Legs(ws, cands, visits, legs, from, mid, me) && |visits| < |cands|
    requires Stepped(from, mid, me, StepsOf(legs)) && Stepped(mid, to, me, leg.steps)
    requires LegOf(ws(|visits|), cands[|visits|], v, leg, mid, to) && Mine(leg.asked.log, me) == Mine(mid.log, me)
    ensures Legs(ws, cands, visits + [v], legs + [leg], from, to, me)
    ensures Stepped(from, to, me, StepsOf(legs + [leg]))
  {
    StepsOfSnoc(legs, leg);
    SteppedOn(from, mid, to, me, StepsOf(legs), leg.steps);
    forall i | 0 <= i < |legs + [leg]| ensures LegAt(ws(i), cands[i], (visits + [v])[i], legs + [leg], i, from, to, me) {
      assert (legs + [leg])[..i] == legs[..i];
      if i < |legs| {
        assert LegAt(ws(i), cands[i], visits[i], legs, i, from, mid, me);
        LegOfWider(ws(i), cands[i], visits[i], legs[i], from, from, mid, to);
      } else {
        assert legs[..i] == legs;
        LegOfWider(ws(i), cands[i], v, leg, from, mid, to, to);
      }
    }
  }

  // ---- nothing left in flight ----

  /** Every call these steps begin is no longer in flight, and its id will not come back. */
  ghost predicate Landed(steps: seq<Step>, at: Spot) {
    forall s :: s in steps && s.Began? ==> s.id !in at.live && s.id <= at.seqNo
  }

  lemma LandedOn(first: seq<Step>, second: seq<Step>, a: Spot, b: Spot)
    requires Landed(first, a) && Grown(a, b) && Landed(second, b)
    ensures Landed(first + second, b)
  {}

  lemma ReportLands(w: Setting, c: Candidate, error: Option<string>, steps: seq<Step>, from: int, to: int, at: Spot)
    requires Reported(w, c, error, steps, from, to)
    ensures Landed(steps, at)
  {
    forall s | s in steps ensures !s.Began? {
      var i :| 0 <= i < |steps| && steps[i] == s;
      if error.Some? && w.faults.AccessDenied(error.value) {
        assert BenchStep(steps[i], OwedKeys(w.seen, w.faults, w.lower, c, error.value)[i], from, to);
      }
    }
  }

  /** A walk so far: a leg for each visit, this request's steps just those of the legs, and no call left behind. */
  ghost predicate Accounted(ws: nat -> Setting, cands: seq<Candidate>, visits: seq<Visit>, legs: seq<Leg>, from: Spot, to: Spot, me: nat) {
    && Legs(ws, cands, visits, legs, from, to, me)
    && Stepped(from, to, me, StepsOf(legs))
    && Landed(StepsOf(legs), to)
  }

  lemma AccountedOn(ws: nat -> Setting, cands: seq<Candidate>, visits: seq<Visit>, v: Visit, legs: seq<Leg>, leg: Leg,
                    from: Spot, mid: Spot, to: Spot, me: nat)
    requires Accounted(ws, cands, visits, legs, from, mid, me) && |visits| < |cands|
    requires Stepped(mid, to, me, leg.steps) && Landed(leg.steps, to)
    requires LegOf(ws(|visits|), cands[|visits|], v, leg, mid, to) && Mine(leg.asked.log, me) == Mine(mid.log, me)
    ensures Accounted(ws, cands, visits + [v], legs + [leg], from, to, me)
  {
    LegsOn(ws, cands, visits, v, legs, leg, from, mid, to, me);
    StepsOfSnoc(legs, leg);
    LandedOn(StepsOf(legs), leg.steps, mid, to);
  }

  // ---- the walk ----

  /**
   Walks the chain; `views(i)` is what the catalogue shows the i-th visit, for discovery may change it
   at any time. Whatever the upstreams and the other requests do: only the last candidate visited can
   have reached the client; an error without partial output names every candidate, once, in order; a
   keyed candidate is skipped exactly when its breaker refuses it at that moment; the steps this
   request takes are, in order, those its visits owe and no others; and no call the walk began is
   left in flight.
   */
  method AttemptChain(g: Gateway, views: nat -> Seen, faults: Faults, lower: string -> string,
                      cands: seq<Candidate>, keys: map<string, string>, req: Request,
                      upstream: nat -> Outcome, others: (nat, nat) -> seq<OtherStep>, ghost me: nat)
    returns (result: Result, delivered: seq<(int, string)>, visits: seq<Visit>, ghost legs: seq<Leg>)
    requires g.Valid() && forall i :: views(i).Filed()
    modifies g
    ensures g.Valid()
    ensures Concludes(cands, keys, req.streaming, upstream, visits, delivered, result)
    ensures Heard(req.streaming, upstream, visits, delivered)
    ensures var ws := Settings(views, faults, lower, keys, g.trip, g.cooldown);
            Accounted(ws, cands, visits, legs, old(SpotOf(g)), SpotOf(g), me)
  {
    var ws := Settings(views, faults, lower, keys, g.trip, g.cooldown);
    ghost var start := SpotOf(g);
    var failures: seq<Failure> := [];
    visits, legs := [], [];
    assert Accounted(ws, cands, visits, legs, start, start, me) by { SteppedNone(start, start, me); }
    while |visits| < |cands|
      invariant g.Valid()
      invariant LeftBehind(cands, keys, req.streaming, upstream, visits, failures)
      invariant Accounted(ws, cands, visits, legs, start, SpotOf(g), me)
      decreases |cands| - |visits|
    {
      var i := |visits|;
      ghost var mid := SpotOf(g);
      var visit;
      ghost var leg;
      visit, leg := VisitOne(g, ws(i), cands[i], req, upstream(i), (j: nat) => others(i, j), me);
      AccountedOn(ws, cands, visits, visit, legs, leg, start, mid, SpotOf(g), me);
      legs := legs + [leg];
      if visit.Tried? && Final(visit.outcome, req.streaming) {
        ConcludeAtLast(cands, keys, req.streaming, upstream, visits, failures, visit.outcome);
        result, delivered, visits := Ending(cands[i], visit.outcome), Chunks(i, visit, req.streaming), visits + [visit];
        ClientHears(cands, keys, req.streaming, upstream, visits, delivered, result);
        return;
      }
      LeaveBehind(cands, keys, req.streaming, upstream, visits, failures, visit);
      failures := failures + [Failure(cands[i], Reason(visit))];
      visits := visits + [visit];
    }
    ConcludeAtEnd(cands, keys, req.streaming, upstream, visits, failures);
    result, delivered := Exhausted(failures), [];
    ClientHears(cands, keys, req.streaming, upstream, visits, delivered, result);
  }

  /** One turn of the loop: the key, the breaker, then the upstream, with other requests in between. */
  method VisitOne(g: Gateway, w: Setting, c: Candidate, req: Request, answer: Outcome, others: nat -> seq<OtherStep>, ghost me: nat)
    returns (visit: Visit, ghost leg: Leg)
    requires g.Valid() && w.seen.Filed() && w.trip == g.trip && w.cooldown == g.cooldown
    modifies g
    ensures g.Valid()
    ensures visit.NoKey? <==> !Keyed(w.keys, c.provider)
    ensures visit.Tried? ==> visit.outcome == answer
    ensures LegOf(w, c, visit, leg, old(SpotOf(g)), SpotOf(g)) && Mine(leg.asked.log, me) == old(Mine(g.history, me))
    ensures Stepped(old(SpotOf(g)), SpotOf(g), me, leg.steps) && Landed(leg.steps, SpotOf(g))
  {
    ghost var start := SpotOf(g);
    Interfere(g, others(0), None, me);
    ghost var mid := SpotOf(g);
    leg := Leg(Moment(g.history, g.now), []);
    if !Keyed(w.keys, c.provider) {
      return NoKey, leg;
    }
    var ok := g.Allow(c.provider);
    if !ok {
      return CoolingDown, leg;
    }
    ghost var steps := TryOne(g, w, c, req, answer, others, me);
    SteppedOn(start, mid, SpotOf(g), me, [], steps);
    leg := leg.(steps := steps);
    visit := Tried(answer);
  }

  /** One upstream attempt, answered while others go on, then settled and reported. */
  method TryOne(g: Gateway, w: Setting, c: Candidate, req: Request, answer: Outcome, others: nat -> seq<OtherStep>, ghost me: nat)
    returns (ghost steps: seq<Step>)
    requires g.Valid() && w.seen.Filed()
    modifies g
    ensures g.Valid() && Stepped(old(SpotOf(g)), SpotOf(g), me, steps) && Landed(steps, SpotOf(g))
    ensures VisitSteps(w, c, Tried(answer), steps, old(g.now), g.now)
  {
    ghost var start := SpotOf(g);
    steps := CallUpstream(g, c, req, answer, others, me);
    ghost var mid := SpotOf(g);
    ghost var more := Report(g, w, c, answer.error, others, me);
    SteppedOn(start, mid, SpotOf(g), me, steps, more);
    ReportLands(w, c, answer.error, more, mid.now, g.now, SpotOf(g));
    LandedOn(steps, more, mid, SpotOf(g));
    ReportOf(w, c, answer, steps, more, start.now, mid.now, g.now);
    steps := steps + more;
  }

  lemma ReportOf(w: Setting, c: Candidate, answer: Outcome, call: seq<Step>, report: seq<Step>, from: int, mid: int, to: int)
    requires |call| == 2 && call[0].Began? && call[1] == Ended(call[0].id) && from <= mid
    requires Reported(w, c, answer.error, report, mid, to)
    ensures VisitSteps(w, c, Tried(answer), call + report, from, to)
  {
    assert (call + report)[2..] == report;
  }

  /** The call is in flight while others step in, and is the last one reported when it leaves. */
  method CallUpstream(g: Gateway, c: Candidate, req: Request, answer: Outcome, others: nat -> seq<OtherStep>, ghost me: nat)
    returns (ghost steps: seq<Step>)
    requires g.Valid()
    modifies g
    ensures g.Valid() && Stepped(old(SpotOf(g)), SpotOf(g), me, steps) && Landed(steps, SpotOf(g))
    ensures |steps| == 2 && steps[0].Began? && steps[1] == Ended(steps[0].id)
    ensures g.last == Some(LastCall(c, req.model, req.task, StatusOf(answer), false, answer.latency, g.now, ErrorText(answer)))
    ensures g.last.value.status == "success" && g.last.value.failure == "" <==> answer.error.None?
    ensures answer.error.Some? ==> g.last.value.status == "error" && g.last.value.failure == answer.error.value
  {
    ghost var start := SpotOf(g);
    Interfere(g, others(1), None, me);
    ghost var mid := SpotOf(g);
    var id := Launch(g, LiveCall(c, req.model, req.task, req.streaming, g.now), me);
    SteppedOn(start, mid, SpotOf(g), me, [], [Began(id)]);
    mid := SpotOf(g);
    Interfere(g, others(2), Some(id), me);
    SteppedOn(start, mid, SpotOf(g), me, [Began(id)], []);
    mid := SpotOf(g);
    Land(g, id, answer, me);
    SteppedOn(start, mid, SpotOf(g), me, [Began(id)], [Ended(id)]);
    steps := [Began(id), Ended(id)];
  }

  function StatusOf(answer: Outcome): string {
    if answer.error.Some? then "error" else "success"
  }

  function ErrorText(answer: Outcome): string {
    if answer.error.Some? then answer.error.value else ""
  }

  method Launch(g: Gateway, call: LiveCall, ghost me: nat) returns (id: int)
    requires g.Valid()
    modifies g`seqNo, g`inFlight, g`history
    ensures g.Valid() && Stepped(old(SpotOf(g)), SpotOf(g), me, [Began(id)])
    ensures id == g.seqNo && id in g.inFlight && g.inFlight[id] == call
  {
    id := g.Begin(call, me);
    SteppedOnce(old(SpotOf(g)), SpotOf(g), Entry(me, Began(id)), me);
  }

  method Land(g: Gateway, id: int, answer: Outcome, ghost me: nat)
    requires g.Valid() && id in g.inFlight
    modifies g`inFlight, g`last, g`history
    ensures g.Valid() && Stepped(old(SpotOf(g)), SpotOf(g), me, [Ended(id)]) && id !in g.inFlight
    ensures var call := old(g.inFlight)[id];
            g.last == Some(LastCall(call.place, call.requested, call.task, StatusOf(answer), false, answer.latency, g.now, ErrorText(answer)))
  {
    g.End(id, StatusOf(answer), ErrorText(answer), answer.latency, me);
    SteppedOnce(old(SpotOf(g)), SpotOf(g), Entry(me, Ended(id)), me);
  }

  /** An access refusal says nothing about the provider's health; any other failure counts against it. */
  method Report(g: Gateway, w: Setting, c: Candidate, error: Option<string>, others: nat -> seq<OtherStep>, ghost me: nat)
    returns (ghost steps: seq<Step>)
    requires g.Valid() && w.seen.Filed()
    modifies g
    ensures g.Valid() && Stepped(old(SpotOf(g)), SpotOf(g), me, steps)
    ensures Reported(w, c, error, steps, old(g.now), g.now)
  {
    if error.Some? && w.faults.AccessDenied(error.value) {
      steps := BenchIfAccessDenied(g, w.seen, w.faults, w.lower, c, error.value, (j: nat) => others(j + 4), me);
    } else {
      ghost var start := SpotOf(g);
      Interfere(g, others(3), None, me);
      ghost var mid := SpotOf(g);
      ghost var step := Judge(g, c, error.None?, me);
      SteppedOn(start, mid, SpotOf(g), me, [], [step]);
      steps := [step];
    }
  }

  method Judge(g: Gateway, c: Candidate, succeeded: bool, ghost me: nat) returns (ghost step: Step)
    requires g.Valid()
    modifies g`breakers, g`history
    ensures g.Valid() && Stepped(old(SpotOf(g)), SpotOf(g), me, [step])
    ensures step == if succeeded then Succeeded(c.provider) else Failed(c.provider, g.now)
  {
    if succeeded {
      step := Succeeded(c.provider);
      g.RecordSuccess(c.provider, me);
    } else {
      step := Failed(c.provider, g.now);
      g.RecordFailure(c.provider, me);
    }
    SteppedOnce(old(SpotOf(g)), SpotOf(g), Entry(me, step), me);
  }

  // ---- what a spent allowance met on the way leaves behind ----

  lemma LegStepsAmong(legs: seq<Leg>, i: nat)
    requires i < |legs|
    ensures forall s :: s in legs[i].steps ==> s in StepsOf(legs)
  {
    var before, after := legs[..i], legs[i + 1..];
    assert legs == (before + [legs[i]]) + after;
    StepsOfSnoc(before, legs[i]);
    MapAppend((leg: Leg) => leg.steps, before + [legs[i]], after);
    ConcatAppend(Map((leg: Leg) => leg.steps, before + [legs[i]]), Map((leg: Leg) => leg.steps, after));
  }

  /** The steps of a stretch of the history are found in it, and in every longer one. */
  lemma SteppedStands(from: Spot, to: Spot, me: nat, steps: seq<Step>, h: Log)
    requires Stepped(from, to, me, steps) && to.log <= h
    ensures forall s :: s in steps ==> s in Mine(h[|from.log|..], me)
  {
    var mid, rest := to.log[|from.log|..], h[|to.log|..];
    assert to.log == from.log + mid && h[|from.log|..] == mid + rest;
    MineAppend(from.log, mid, me);
    MineAppend(mid, rest, me);
    assert Mine(mid, me) == Mine(to.log, me)[|Mine(from.log, me)|..] == steps;
  }

  /** The visit ran into a spent free allowance. */
  ghost predicate Spent(w: Setting, c: Candidate, v: Visit) {
    v.Tried? && v.outcome.error.Some? && w.faults.spent(v.outcome.error.value) && FreeHere(w.seen.check, c, w.lower)
  }

  /** After the walk, however long, the provider's free models are out for the hour short of a release. */
  lemma WalkBenchesPool(ws: nat -> Setting, cands: seq<Candidate>, visits: seq<Visit>, legs: seq<Leg>, from: Spot, to: Spot, me: nat,
                        i: nat, p: Profile, h: Log, now: int)
    returns (j: nat)
    requires Accounted(ws, cands, visits, legs, from, to, me)
    requires i < |visits| && Spent(ws(i), cands[i], visits[i])
    requires Known(ws(i).seen.listing, p) && p.Free() && p.provider == cands[i].provider
    requires to.log <= h && Timely(h, now)
    ensures j >= |from.log| && HeldFrom(h, FileKey(p.Place()), j, legs[i].asked.at) && h[j].actor == me
  {
    var w := ws(i);
    assert LegAt(w, cands[i], visits[i], legs, i, from, to, me);
    var steps, error := legs[i].steps, visits[i].outcome.error.value;
    var owed := steps[2..];
    assert Reported(w, cands[i], Some(error), owed, legs[i].asked.at, to.now);
    LegStepsAmong(legs, i);
    SteppedStands(from, to, me, StepsOf(legs), h);
    assert forall s :: s in owed ==> s in steps;
    PrefixChain(from.log, to.log, h);
    j := SpentAllowance(w.seen, w.faults, w.lower, cands[i], error, owed, h, |from.log|, me, legs[i].asked.at, to.now, now, p);
  }
}
