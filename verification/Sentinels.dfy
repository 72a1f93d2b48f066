/**
 What the names that ask the gateway to choose do in a plan, read from the request as the caller
 writes it.
 */
module Sentinels {
  import opened Sequences
  import opened StableSort
  import opened Models
  import opened Scoring
  import opened Catalogue
  import opened Ordering
  import opened RoundRobin
  import opened Picking
  import opened Planner

  /** The request asks the gateway to choose; sending no name at all does too. */
  predicate IsSentinel(model: string, env: Surroundings) {
    env.names.lower(env.trim(model)) in {"", "auto", "auto:free", "auto:code", "auto:chat", "auto:fast", "auto:cheap"}
  }

  lemma FreeMode(freeFlag: bool, model: string, env: Surroundings)
    ensures FreeOnly(freeFlag, model, env) <==> freeFlag || env.names.lower(env.trim(model)) == "auto:free"
  {}

  /** The gateway chooses always, never, or when the caller declines to: no name, the router's own name, or a sentinel. */
  lemma SmartMode(cfg: Config, model: string, env: Surroundings)
    ensures SmartRouting(cfg, model, env) <==>
      cfg.routingMode == "always"
      || (cfg.routingMode != "off" && (model == "" || env.sameFold(model, cfg.routerModel) || IsSentinel(model, env)))
  {}

  /** No sentinel counts as naming a model; every other name does. */
  lemma NamedMode(model: string, env: Surroundings)
    ensures NamesModel(model, env) <==>
      env.trim(model) != "" && !env.sameFold(env.trim(model), "auto:free") && !IsSentinel(env.trim(model), env)
  {}

  /** Two sentinels fix the task wherever the gateway chooses; otherwise the prompt decides. */
  lemma TaskFixed(cfg: Config, env: Surroundings, freeFlag: bool, model: string, detected: Task)
    requires cfg.routingMode != "off" || freeFlag
    ensures TaskFor(cfg, env, freeFlag, model, detected) ==
      if env.names.lower(env.trim(model)) == "auto:code" then "code_generation"
      else if env.names.lower(env.trim(model)) == "auto:chat" then "conversation"
      else detected
  {}

  // ---- how the gateway ranks ----

  /** Each provider's best curated model for a task under some measure, best first. */
  function CuratedBy(k: Knowledge, task: Task, measure: Profile -> real): seq<Candidate> {
    var suited := Filter((p: Profile) => task in p.tasks, k.profiles);
    BestOfEach(Map(PlaceOf, Restrict(k, Sort(ByKey(measure), if suited == [] then k.profiles else suited), task)))
  }

  /** The usable best by this measure, or else what discovery offers for the objective. */
  ghost predicate ChosenBy(k: Knowledge, cfg: Config, env: Surroundings, task: Task, measure: Profile -> real, objective: string,
                           planned: seq<Candidate>)
  {
    var usable := Filter(Serviceable(k, env), CuratedBy(k, task, measure));
    if usable != [] then planned == usable
    else
      var ordered := Sort(BestFirst(k, task, objective, env.names), Restrict(k, AllDiscovered(k.discovered), task));
      WellFiled(k.discovered) ==>
        planned == AutomaticChain(Eligible(ordered, env.keys, env.benched), cfg.attemptsPerProvider, cfg.maxAttempts)
  }

  lemma CuratedSame(k: Knowledge, task: Task, measure: Profile -> real, other: Profile -> real)
    requires forall p, q :: measure(p) < measure(q) <==> other(p) < other(q)
    ensures CuratedBy(k, task, measure) == CuratedBy(k, task, other)
  {
    var suited := Filter((p: Profile) => task in p.tasks, k.profiles);
    SortSame(ByKey(measure), ByKey(other), if suited == [] then k.profiles else suited);
  }

  /** Dollars for a million tokens, three read for one written. */
  function Cost(): Profile -> real {
    (p: Profile) => (3.0 * p.inputCost + p.outputCost) / 4.0
  }

  /** The measured latency where there is one, else the published one. */
  function Latency(): Profile -> real {
    (p: Profile) => (if p.observed > 0 then p.observed else p.latencyMs) as real
  }

  /** A second against a dollar. */
  function Balance(): Profile -> real {
    (p: Profile) => Latency()(p) / 1000.0 + Cost()(p)
  }

  /** The source's score, objective by objective. */
  lemma ScoreReads(p: Profile, objective: string)
    ensures objective == "cost" ==> Score(p, objective) == Cost()(p)
    ensures objective == "latency" ==> Score(p, objective) == Latency()(p) / 1000.0
    ensures objective !in {"cost", "latency"} ==> Score(p, objective) == Balance()(p)
  {
    assert p.BlendedCost() == Cost()(p);
    assert p.EffectiveLatency() as real == Latency()(p);
  }

  lemma ChosenSame(k: Knowledge, cfg: Config, env: Surroundings, task: Task, measure: Profile -> real, other: Profile -> real,
                   objective: string, planned: seq<Candidate>)
    requires forall p, q :: measure(p) < measure(q) <==> other(p) < other(q)
    requires ChosenBy(k, cfg, env, task, measure, objective, planned)
    ensures ChosenBy(k, cfg, env, task, other, objective, planned)
  {
    CuratedSame(k, task, measure, other);
  }

  function Scored(objective: string): Profile -> real {
    (p: Profile) => Score(p, objective)
  }

  /** A smart plan ranks by the objective in force. */
  lemma SmartPlanIs(k: Knowledge, cfg: Config, env: Surroundings, model: string, task: Task,
                    order: seq<string>, orders: seq<seq<string>>, planned: seq<Candidate>)
    requires !FreeOnly(false, model, env) && SmartRouting(cfg, model, env)
    requires PlannedAs(k, cfg, env, false, model, task, order, orders, planned)
    ensures var objective := ObjectiveFor(cfg, IntentFor(model, env));
      ChosenBy(k, cfg, env, task, Scored(objective), objective, planned)
  {
    var objective := ObjectiveFor(cfg, IntentFor(model, env));
    var suited := Filter((p: Profile) => task in p.tasks, k.profiles);
    SortSame(ByKey(Scored(objective)), ByKey((p: Profile) => Score(p, objective)), if suited == [] then k.profiles else suited);
  }

  lemma ChosenByCost(k: Knowledge, cfg: Config, env: Surroundings, task: Task, planned: seq<Candidate>)
    requires ChosenBy(k, cfg, env, task, Scored("cost"), "cost", planned)
    ensures ChosenBy(k, cfg, env, task, Cost(), "cost", planned)
  {
    forall p ensures Scored("cost")(p) == Cost()(p) { ScoreReads(p, "cost"); }
    ChosenSame(k, cfg, env, task, Scored("cost"), Cost(), "cost", planned);
  }

  lemma ChosenByLatency(k: Knowledge, cfg: Config, env: Surroundings, task: Task, planned: seq<Candidate>)
    requires ChosenBy(k, cfg, env, task, Scored("latency"), "latency", planned)
    ensures ChosenBy(k, cfg, env, task, Latency(), "latency", planned)
  {
    forall p ensures Scored("latency")(p) == Latency()(p) / 1000.0 { ScoreReads(p, "latency"); }
    ChosenSame(k, cfg, env, task, Scored("latency"), Latency(), "latency", planned);
  }

  lemma ChosenByBalance(k: Knowledge, cfg: Config, env: Surroundings, task: Task, objective: string, planned: seq<Candidate>)
    requires objective !in {"cost", "latency"} && ChosenBy(k, cfg, env, task, Scored(objective), objective, planned)
    ensures ChosenBy(k, cfg, env, task, Balance(), objective, planned)
  {
    forall p ensures Scored(objective)(p) == Balance()(p) { ScoreReads(p, objective); }
    ChosenSame(k, cfg, env, task, Scored(objective), Balance(), objective, planned);
  }

  /** "auto:cheap" ranks by cost, whatever the deployment's own objective. */
  lemma CheapByCost(k: Knowledge, cfg: Config, env: Surroundings, model: string, task: Task,
                    order: seq<string>, orders: seq<seq<string>>, planned: seq<Candidate>)
    requires cfg.routingMode != "off" && env.names.lower(env.trim(model)) == "auto:cheap"
    requires PlannedAs(k, cfg, env, false, model, task, order, orders, planned)
    ensures ChosenBy(k, cfg, env, task, Cost(), "cost", planned)
  {
    SmartPlanIs(k, cfg, env, model, task, order, orders, planned);
    ChosenByCost(k, cfg, env, task, planned);
  }

  /** "auto:fast" ranks by latency. */
  lemma FastByLatency(k: Knowledge, cfg: Config, env: Surroundings, model: string, task: Task,
                      order: seq<string>, orders: seq<seq<string>>, planned: seq<Candidate>)
    requires cfg.routingMode != "off" && env.names.lower(env.trim(model)) == "auto:fast"
    requires PlannedAs(k, cfg, env, false, model, task, order, orders, planned)
    ensures ChosenBy(k, cfg, env, task, Latency(), "latency", planned)
  {
    SmartPlanIs(k, cfg, env, model, task, order, orders, planned);
    ChosenByLatency(k, cfg, env, task, planned);
  }

  /** "auto:code" and "auto:chat" weigh both. */
  lemma TasksBalanced(k: Knowledge, cfg: Config, env: Surroundings, model: string, task: Task,
                      order: seq<string>, orders: seq<seq<string>>, planned: seq<Candidate>)
    requires cfg.routingMode != "off" && env.names.lower(env.trim(model)) in {"auto:code", "auto:chat"}
    requires PlannedAs(k, cfg, env, false, model, task, order, orders, planned)
    ensures ChosenBy(k, cfg, env, task, Balance(), "balanced", planned)
  {
    SmartPlanIs(k, cfg, env, model, task, order, orders, planned);
    ChosenByBalance(k, cfg, env, task, "balanced", planned);
  }

  /** "auto" and no name at all leave the objective to the deployment. */
  lemma AutoByDefault(k: Knowledge, cfg: Config, env: Surroundings, model: string, task: Task,
                      order: seq<string>, orders: seq<seq<string>>, planned: seq<Candidate>)
    requires cfg.routingMode != "off" && env.names.lower(env.trim(model)) in {"", "auto"}
    requires PlannedAs(k, cfg, env, false, model, task, order, orders, planned)
    ensures cfg.routingObjective == "cost" ==> ChosenBy(k, cfg, env, task, Cost(), "cost", planned)
    ensures cfg.routingObjective == "latency" ==> ChosenBy(k, cfg, env, task, Latency(), "latency", planned)
    ensures cfg.routingObjective !in {"cost", "latency"} ==> ChosenBy(k, cfg, env, task, Balance(), cfg.routingObjective, planned)
  {
    SmartPlanIs(k, cfg, env, model, task, order, orders, planned);
    if cfg.routingObjective == "cost" {
      ChosenByCost(k, cfg, env, task, planned);
    } else if cfg.routingObjective == "latency" {
      ChosenByLatency(k, cfg, env, task, planned);
    } else {
      ChosenByBalance(k, cfg, env, task, cfg.routingObjective, planned);
    }
  }

  // ---- in the order of the measure ----

  /** Whatever is kept of a sorted list, provider by provider, is still in its order. */
  lemma {:induction false} BestsInOrder(places: seq<Candidate>, i: nat, j: nat) returns (a: nat, b: nat)
    requires i < j < |BestOfEach(places)|
    ensures a < b < |places| && places[a] == BestOfEach(places)[i] && places[b] == BestOfEach(places)[j]
  {
    var n := |places| - 1;
    if j < |BestOfEach(places[..n])| {
      a, b := BestsInOrder(places[..n], i, j);
    } else {
      a := BestStands(places[..n], i);
      b := n;
    }
  }

  lemma {:induction false} BestStands(places: seq<Candidate>, i: nat) returns (a: nat)
    requires i < |BestOfEach(places)|
    ensures a < |places| && places[a] == BestOfEach(places)[i]
  {
    var n := |places| - 1;
    if i < |BestOfEach(places[..n])| {
      a := BestStands(places[..n], i);
    } else {
      a := n;
    }
  }

  lemma ByKeyStrictWeak(measure: Profile -> real)
    ensures StrictWeak(ByKey(measure))
  {}

  lemma {:induction false} FilterKeepsOrder(keep: Profile -> bool, measure: Profile -> real, s: seq<Profile>)
    requires Sorted(ByKey(measure), s)
    ensures Sorted(ByKey(measure), Filter(keep, s))
  {
    if s != [] {
      var n := |s| - 1;
      FilterKeepsOrder(keep, measure, s[..n]);
      forall x | x in Filter(keep, s[..n]) ensures !ByKey(measure)(s[n], x) {
        FilterMember(keep, s[..n], x);
        var i :| 0 <= i < n && s[i] == x;
      }
    }
  }

  /** Of two providers' best models the one tried first measures no worse. */
  lemma CuratedAscends(k: Knowledge, task: Task, measure: Profile -> real, i: nat, j: nat) returns (p: Profile, q: Profile)
    requires i < j < |CuratedBy(k, task, measure)|
    ensures p in k.profiles && p.Place() == CuratedBy(k, task, measure)[i]
    ensures q in k.profiles && q.Place() == CuratedBy(k, task, measure)[j]
    ensures measure(p) <= measure(q)
  {
    var suited := Filter((x: Profile) => task in x.tasks, k.profiles);
    var pool := if suited == [] then k.profiles else suited;
    var sorted := Sort(ByKey(measure), pool);
    var ranked := Restrict(k, sorted, task);
    ByKeyStrictWeak(measure);
    SortIsStable(ByKey(measure), pool);
    FilterKeepsOrder((x: Profile) => k.Tagged(x, task), measure, sorted);
    var a, b := BestsInOrder(Map(PlaceOf, ranked), i, j);
    p, q := ranked[a], ranked[b];
    CuratedIsListed(k, task, measure, p);
    CuratedIsListed(k, task, measure, q);
  }

  lemma CuratedIsListed(k: Knowledge, task: Task, measure: Profile -> real, p: Profile)
    requires
      var suited := Filter((x: Profile) => task in x.tasks, k.profiles);
      p in Restrict(k, Sort(ByKey(measure), if suited == [] then k.profiles else suited), task)
    ensures p in k.profiles
  {
    var suited := Filter((x: Profile) => task in x.tasks, k.profiles);
    var pool := if suited == [] then k.profiles else suited;
    FilterMember((x: Profile) => k.Tagged(x, task), Sort(ByKey(measure), pool), p);
    SortPermutes(ByKey(measure), pool);
    assert p in multiset(Sort(ByKey(measure), pool));
    FilterMember((x: Profile) => task in x.tasks, k.profiles, p);
  }

  // ---- sentinels in free-only mode ----

  lemma NothingNamedFree(k: Knowledge, env: Surroundings, model: string, order: seq<string>)
    requires Enumerates(order, k.discovered) && forall c :: !(Placed(k, env, model, c) && FreeTest(k, env)(c))
    ensures Filter(FreeTest(k, env), PlacementsOf(k, env, model, order)) == []
  {
    var named := Filter(FreeTest(k, env), PlacementsOf(k, env, model, order));
    if named != [] {
      NamedFree(k, env, model, order, named[0]);
    }
  }

  /** A sentinel that pins no free place of its own gets the free pool, never nothing for being a name. */
  lemma SentinelGetsFreePool(k: Knowledge, cfg: Config, env: Surroundings, freeFlag: bool, model: string, task: Task,
                             order: seq<string>, orders: seq<seq<string>>, planned: seq<Candidate>)
    requires freeFlag || env.names.lower(env.trim(model)) == "auto:free"
    requires IsSentinel(env.trim(model), env) && forall c :: !(Placed(k, env, model, c) && FreeTest(k, env)(c))
    requires PlannedAs(k, cfg, env, freeFlag, model, task, order, orders, planned) && WellFiled(k.discovered)
    ensures planned == FreeChain(k, cfg, env, task, IntentFor(model, env))
  {
    NothingNamedFree(k, env, model, order);
    NamedMode(model, env);
    assert PlannedFree(k, cfg, env, model, task, order, planned);
  }
}
