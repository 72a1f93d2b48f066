/** Steps that other requests and probes take on the gateway while one request is under way. */
module Interference {
  import opened Sequences
  import opened Models
  import opened History
  import opened Gateway

  datatype OtherStep =
    | Fails(provider: string)
    | Succeeds(provider: string)
    | Benches(place: Candidate)
    | Releases(place: Candidate)
    | Clears
    | Looks(place: Candidate)
    | Begins(call: LiveCall)
    | Ends(id: int)
    | Waits(ticks: nat)

  /** What never goes backwards: the history, the clock, and the ids of calls. */
  datatype Spot = Spot(log: Log, now: int, live: set<int>, seqNo: int)

  ghost function SpotOf(g: Gateway): Spot
    reads g
  {
    Spot(g.history, g.now, g.inFlight.Keys, g.seqNo)
  }

  /** Time has passed: the history is longer, and calls in flight that were not are new ones. */
  ghost predicate Grown(a: Spot, b: Spot) {
    && a.log <= b.log && a.now <= b.now && a.seqNo <= b.seqNo
    && forall id :: id in b.live && id !in a.live ==> id > a.seqNo
  }

  /** Time has passed in which a request took just these steps, in this order. */
  ghost predicate Stepped(a: Spot, b: Spot, me: nat, steps: seq<Step>) {
    Grown(a, b) && Mine(b.log, me) == Mine(a.log, me) + steps
  }

  lemma SteppedNone(a: Spot, b: Spot, me: nat)
    requires Grown(a, b) && Mine(b.log, me) == Mine(a.log, me)
    ensures Stepped(a, b, me, [])
  {}

  lemma SteppedOn(a: Spot, b: Spot, c: Spot, me: nat, first: seq<Step>, second: seq<Step>)
    requires Stepped(a, b, me, first) && Stepped(b, c, me, second)
    ensures Stepped(a, c, me, first + second)
  {
    AppendAssociates(Mine(a.log, me), first, second);
  }

  /** One locked step, by this request or another. */
  lemma SteppedOnce(a: Spot, b: Spot, e: Entry, me: nat)
    requires Grown(a, b) && b.log == a.log + [e]
    ensures Stepped(a, b, me, if e.actor == me then [e.step] else [])
  {
    LogSnoc(a.log, e);
  }

  /** The request's own call, if it has one in flight, is still there. */
  predicate StaysInFlight(a: map<int, LiveCall>, b: map<int, LiveCall>, own: Option<int>) {
    own.Some? && own.value in a ==> own.value in b && b[own.value] == a[own.value]
  }

  /** A step of another request on the breakers or the bench. */
  method InterfereShared(g: Gateway, step: OtherStep, ghost me: nat)
    requires g.Valid() && !step.Begins? && !step.Ends? && !step.Waits?
    modifies g`breakers, g`bench, g`history
    ensures g.Valid() && Stepped(old(SpotOf(g)), SpotOf(g), me, [])
  {
    ghost var start := SpotOf(g);
    match step {
      case Fails(provider) => g.RecordFailure(provider, me + 1);
      case Succeeds(provider) => g.RecordSuccess(provider, me + 1);
      case Benches(place) => g.BenchOne(place, me + 1);
      case Releases(place) => g.Unbench(place, me + 1);
      case Clears => g.ClearBench(me + 1);
      case Looks(place) => var r := g.IsBenched(place);
    }
    if g.history == start.log {
      SteppedNone(start, SpotOf(g), me);
    } else {
      SteppedOnce(start, SpotOf(g), g.history[|start.log|], me);
    }
  }

  /** A step of another request on the calls in flight; requests end only the calls they began. */
  method InterfereLive(g: Gateway, step: OtherStep, own: Option<int>, ghost me: nat)
    requires g.Valid() && (step.Begins? || step.Ends?)
    modifies g`seqNo, g`inFlight, g`last, g`history
    ensures g.Valid() && Stepped(old(SpotOf(g)), SpotOf(g), me, [])
    ensures StaysInFlight(old(g.inFlight), g.inFlight, own)
  {
    ghost var start := SpotOf(g);
    if step.Begins? {
      var id := g.Begin(step.call, me + 1);
      SteppedOnce(start, SpotOf(g), Entry(me + 1, Began(id)), me);
    } else if own != Some(step.id) {
      g.End(step.id, "success", "", 0, me + 1);
      SteppedOnce(start, SpotOf(g), Entry(me + 1, Ended(step.id)), me);
    } else {
      SteppedNone(start, SpotOf(g), me);
    }
  }

  method InterfereOnce(g: Gateway, step: OtherStep, own: Option<int>, ghost me: nat)
    requires g.Valid()
    modifies g
    ensures g.Valid() && Stepped(old(SpotOf(g)), SpotOf(g), me, [])
    ensures StaysInFlight(old(g.inFlight), g.inFlight, own)
  {
    if step.Waits? {
      g.Tick(step.ticks);
      SteppedNone(old(SpotOf(g)), SpotOf(g), me);
    } else if step.Begins? || step.Ends? {
      InterfereLive(g, step, own, me);
    } else {
      InterfereShared(g, step, me);
    }
  }

  /** Any number of steps of other requests; this one's own steps, and its call in flight, are as they were. */
  method Interfere(g: Gateway, steps: seq<OtherStep>, own: Option<int>, ghost me: nat)
    requires g.Valid()
    modifies g
    ensures g.Valid() && Stepped(old(SpotOf(g)), SpotOf(g), me, [])
    ensures StaysInFlight(old(g.inFlight), g.inFlight, own)
  {
    ghost var start := SpotOf(g);
    SteppedNone(start, start, me);
    for i := 0 to |steps|
      invariant g.Valid() && Stepped(start, SpotOf(g), me, [])
      invariant StaysInFlight(old(g.inFlight), g.inFlight, own)
    {
      ghost var mid := SpotOf(g);
      InterfereOnce(g, steps[i], own, me);
      SteppedOn(start, mid, SpotOf(g), me, [], []);
    }
  }
}
