/**
 From a requested model name to an ordered chain of candidates. The catalogue is read through its
 own methods, so every walk over its map may come in a different order; `benched` is the bench as
 it stands while the plan is drawn up.
 */
module Planner {
  import opened Sequences
  import opened StableSort
  import opened Models
  import opened Discovery
  import opened Scoring
  import opened Catalogue
  import opened Ordering
  import opened RoundRobin
  import opened Picking
  import opened Probing

  datatype Config = Config(
    attemptsPerProvider: int,
    maxAttempts: int,
    routingMode: string,
    routingObjective: string,
    routerModel: string,
    defaultModel: string,
    fallbackModels: seq<string>)

  /** What a plan is drawn up against: the keys, the configured providers and the bench. */
  datatype Surroundings = Surroundings(
    keys: map<string, string>,
    registry: set<string>,
    benched: Candidate -> bool,
    names: Names,
    trim: string -> string,
    sameFold: (string, string) -> bool)

  datatype Intent = Intent(task: Task, objective: string, freeOnly: bool, known: bool)

  const AUTO := "auto"
  const FREE := "auto:free"

  function IntentFor(model: string, env: Surroundings): Intent {
    var m := env.names.lower(env.trim(model));
    if m == AUTO || m == "" then Intent("", "", false, true)
    else if m == FREE then Intent("", "", true, true)
    else if m == "auto:code" then Intent("code_generation", "balanced", false, true)
    else if m == "auto:chat" then Intent("conversation", "balanced", false, true)
    else if m == "auto:fast" then Intent("", "latency", false, true)
    else if m == "auto:cheap" then Intent("", "cost", false, true)
    else Intent("", "", false, false)
  }

  function ObjectiveFor(cfg: Config, intent: Intent): string {
    if intent.objective != "" then intent.objective else cfg.routingObjective
  }

  function NativeProvider(model: string, env: Surroundings): string {
    var m := env.names.lower(model);
    if "gpt-" <= m || "chatgpt" <= m || "o1" <= m || "o3" <= m || "o4" <= m then "openai"
    else if "claude" <= m then "anthropic"
    else if "gemini" <= m then "google"
    else ""
  }

  /** strings.Cut at the first colon. */
  function ColonAt(s: string): (i: nat)
    ensures i <= |s| && (i < |s| ==> s[i] == ':') && ':' !in s[..i]
  {
    if s == "" || s[0] == ':' then 0 else ColonAt(s[1..]) + 1
  }

  /** "provider:model" names that provider alone, as long as the prefix is a configured one. */
  predicate Pins(model: string, env: Surroundings, c: Candidate) {
    var i := ColonAt(model);
    i < |model| && model[..i] in env.registry && i + 1 < |model| && c == Candidate(model[..i], model[i + 1..])
  }

  /** The candidate is the named model itself, wherever it is served. */
  predicate IsNamed(model: string, env: Surroundings, c: Candidate) {
    Pins(model, env, c) || env.names.lower(c.model) == env.names.lower(model)
  }

  /** The profile lists the candidate's model at the candidate's provider as free. */
  ghost predicate FreeAs(k: Knowledge, env: Surroundings, c: Candidate, p: Profile) {
    Known(k, p) && p.Free() && p.provider == c.provider && env.names.lower(p.model) == env.names.lower(c.model)
  }

  ghost predicate FreeThere(k: Knowledge, env: Surroundings, c: Candidate) {
    exists p :: FreeAs(k, env, c, p)
  }

  predicate Available(k: Knowledge, env: Surroundings, c: Candidate) {
    !env.benched(c) && (k.AnyConfirmed() ==> k.Confirmed(c))
  }

  /** What free-only routing may ever try. */
  ghost predicate FreeAndAvailable(k: Knowledge, env: Surroundings, c: Candidate) {
    Keyed(env.keys, c.provider) && Available(k, env, c) && FreeThere(k, env, c)
  }

  // ---- automatic candidates ----

  /** None stands for the nil slice, which callers read as "no restriction". */
  method TaggedFor(k: Knowledge, pool: seq<Profile>, task: Task) returns (out: Option<seq<Profile>>)
    ensures (if out.None? then pool else out.value) == Restrict(k, pool, task)
    ensures out.None? <==> forall p :: p in pool ==> !k.Tagged(p, task)
  {
    var tagged := (p: Profile) => k.Tagged(p, task);
    forall p ensures p in Filter(tagged, pool) <==> p in pool && k.Tagged(p, task) {
      FilterMember(tagged, pool, p);
    }
    if !k.HasTagsFor(task) {
      FilterNone(tagged, pool);
      return None;
    }
    var found: seq<Profile> := [];
    for i := 0 to |pool|
      invariant found == Filter(tagged, pool[..i])
    {
      PrefixSnoc(pool, i);
      FilterSnoc(tagged, pool[..i], pool[i]);
      if k.Tagged(pool[i], task) {
        found := found + [pool[i]];
      }
    }
    WholePrefix(pool);
    if found == [] {
      FilterEmpty(tagged, pool);
      return None;
    }
    assert found[0] in Filter(tagged, pool);
    out := Some(found);
  }

  lemma FilterEmpty<T>(keep: T -> bool, s: seq<T>)
    requires Filter(keep, s) == []
    ensures forall x :: x in s ==> !keep(x)
  {
    forall x | x in s ensures !keep(x) {
      FilterMember(keep, s, x);
    }
  }

  method RestrictToTagged(k: Knowledge, pool: seq<Profile>, task: Task) returns (out: seq<Profile>)
    ensures out == Restrict(k, pool, task)
    ensures forall p :: p in out ==> p in pool
  {
    var tagged := TaggedFor(k, pool, task);
    out := if tagged.None? then pool else tagged.value;
    forall p | p in out ensures p in pool {
      FilterMember((q: Profile) => k.Tagged(q, task), pool, p);
    }
  }

  /** What discovery offers, in one well-defined order, cut into a capped round robin. */
  ghost function DiscoveredChain(k: Knowledge, cfg: Config, env: Surroundings, task: Task, intent: Intent): seq<Candidate> {
    var ordered := Sort(BestFirst(k, task, ObjectiveFor(cfg, intent), env.names), Restrict(k, AllDiscovered(k.discovered), task));
    AutomaticChain(Eligible(ordered, env.keys, env.benched), cfg.attemptsPerProvider, cfg.maxAttempts)
  }

  /** The fallback on what providers report: a capped round robin over one well-defined order. */
  method DiscoveredCandidates(catalog: Catalog, cfg: Config, env: Surroundings, task: Task, intent: Intent)
    returns (out: seq<Candidate>)
    ensures WellFiled(catalog.discovered) ==> out == DiscoveredChain(catalog.View(), cfg, env, task, intent)
  {
    var k := catalog.View();
    var discovered := catalog.Discovered();
    var pool := RestrictToTagged(k, discovered, task);
    ThreePasses(k, pool, task, ObjectiveFor(cfg, intent), env.names);
    var ranked := RankForTask(pool, task, ObjectiveFor(cfg, intent), env.names);
    ranked := Sort(FalseFirst(Specialised(env.names)), ranked);
    ranked := PreferConfirmed(k, ranked);
    out := PickOnePerProvider(ranked, env.keys, env.benched, cfg.attemptsPerProvider, cfg.maxAttempts);
  }

  /** The models free routing ranks: free, narrowed by tags, then by confirmations. */
  ghost function RoutablePool(k: Knowledge, task: Task): seq<Profile> {
    ConfirmedOnly(k, Restrict(k, FreePool(k), task))
  }

  /** Once anything is confirmed only confirmed models are routed to. */
  method NarrowToConfirmed(k: Knowledge, pool: seq<Profile>) returns (out: seq<Profile>)
    ensures out == ConfirmedOnly(k, pool)
  {
    if !k.AnyConfirmed() {
      return pool;
    }
    var confirmed := (p: Profile) => k.Confirmed(p.Place());
    out := [];
    for i := 0 to |pool|
      invariant out == Filter(confirmed, pool[..i])
    {
      PrefixSnoc(pool, i);
      FilterSnoc(confirmed, pool[..i], pool[i]);
      if k.Confirmed(pool[i].Place()) {
        out := out + [pool[i]];
      }
    }
    WholePrefix(pool);
  }

  ghost function FreeChain(k: Knowledge, cfg: Config, env: Surroundings, task: Task, intent: Intent): seq<Candidate> {
    var ordered := RankForTask(RoutablePool(k, task), task, ObjectiveFor(cfg, intent), env.names);
    AutomaticChain(Eligible(ordered, env.keys, env.benched), cfg.attemptsPerProvider, cfg.maxAttempts)
  }

  method FreeCandidates(catalog: Catalog, cfg: Config, env: Surroundings, task: Task, intent: Intent)
    returns (out: seq<Candidate>)
    ensures WellFiled(catalog.discovered) ==> out == FreeChain(catalog.View(), cfg, env, task, intent)
    ensures forall c :: c in out ==> FreeAndAvailable(catalog.View(), env, c)
  {
    var k := catalog.View();
    var free := catalog.FreeModels();
    var pool := RestrictToTagged(k, free, task);
    PreferAfterOnly(k, pool, task, ObjectiveFor(cfg, intent), env.names);
    var narrowed := NarrowToConfirmed(k, pool);
    var ranked := RankForTask(narrowed, task, ObjectiveFor(cfg, intent), env.names);
    var preferred := PreferConfirmed(k, ranked);
    out := PickOnePerProvider(preferred, env.keys, env.benched, cfg.attemptsPerProvider, cfg.maxAttempts);
    forall c | c in out ensures FreeAndAvailable(k, env, c) {
      ChainFromEligible(Eligible(preferred, env.keys, env.benched), cfg.attemptsPerProvider, cfg.maxAttempts, c);
      var p := EligibleComesFrom(preferred, env.keys, env.benched, c);
      RankMember(ConfirmedOnly(k, pool), task, ObjectiveFor(cfg, intent), env.names);
      FilterMember((q: Profile) => k.Confirmed(q.Place()), pool, p);
      assert FreeAs(k, env, c, p);
    }
  }

  lemma EligibleComesFrom(pool: seq<Profile>, keys: map<string, string>, benched: Candidate -> bool, c: Candidate) returns (p: Profile)
    requires c in Eligible(pool, keys, benched)
    ensures p in pool && p.Place() == c && Keyed(keys, c.provider) && !benched(c)
  {
    var place := (q: Profile) => q.Place();
    FilterMember((d: Candidate) => Keyed(keys, d.provider) && !benched(d), Map(place, pool), c);
    var i :| 0 <= i < |pool| && Map(place, pool)[i] == c;
    p := pool[i];
  }

  /** Whatever free routing can return is tried again by every free sweep. */
  lemma RoutedIsProbed(k: Knowledge, cfg: Config, env: Surroundings, task: Task, intent: Intent, sweepObjective: string, c: Candidate)
    requires WellFiled(k.discovered) && c in FreeChain(k, cfg, env, task, intent)
    ensures
      var core := Sort(SweepOrder(k), SweepPool(k, env.keys, sweepObjective, env.names));
      c in Extras(k, env.keys, Map(PlaceOf, core), AllDiscovered(k.discovered))
  {
    var narrowed := Restrict(k, FreePool(k), task);
    var ordered := RankForTask(RoutablePool(k, task), task, ObjectiveFor(cfg, intent), env.names);
    ChainFromEligible(Eligible(ordered, env.keys, env.benched), cfg.attemptsPerProvider, cfg.maxAttempts, c);
    var p := EligibleComesFrom(ordered, env.keys, env.benched, c);
    RankMember(RoutablePool(k, task), task, ObjectiveFor(cfg, intent), env.names);
    FilterMember((q: Profile) => k.Confirmed(q.Place()), narrowed, p);
    FilterMember((q: Profile) => k.Tagged(q, task), FreePool(k), p);
    ListedMember(k.profiles, IsFree, k.discovered, SomeOrder(k.discovered.Keys), p);
    SweepCoversFreePool(k, env.keys, sweepObjective, env.names, p);
  }

  /** A benched model, wherever it ranks, is picked for no automatic chain. */
  lemma BenchedNotPicked(pool: seq<Profile>, env: Surroundings, attempts: int, maxAttempts: int, c: Candidate)
    requires env.benched(c)
    ensures c !in AutomaticChain(Eligible(pool, env.keys, env.benched), attempts, maxAttempts)
  {
    if c in AutomaticChain(Eligible(pool, env.keys, env.benched), attempts, maxAttempts) {
      ChainFromEligible(Eligible(pool, env.keys, env.benched), attempts, maxAttempts, c);
      var p := EligibleComesFrom(pool, env.keys, env.benched, c);
    }
  }

  // ---- named candidates ----

  /** Where a name can be served: at the provider it pins, wherever it is listed, or by its vendor's naming convention. */
  function PlacementsOf(k: Knowledge, env: Surroundings, requested: string, order: seq<string>): seq<Candidate>
    requires forall name :: name in order ==> name in k.discovered
  {
    var m := env.trim(requested);
    var i := ColonAt(m);
    if m == "" then []
    else if i < |m| && m[..i] in env.registry && i + 1 < |m| then [Candidate(m[..i], m[i + 1..])]
    else
      var found := Resolved(k.profiles, k.discovered, order, env.names.lower(m), env.names.lower);
      if found != [] then Map(PlaceOf, found)
      else if NativeProvider(m, env) != "" then [Candidate(NativeProvider(m, env), m)]
      else []
  }

  method Placements(catalog: Catalog, env: Surroundings, requested: string) returns (out: seq<Candidate>, ghost order: seq<string>)
    ensures Enumerates(order, catalog.discovered) && out == PlacementsOf(catalog.View(), env, requested, order)
  {
    order := SomeOrder(catalog.discovered.Keys);
    var model := env.trim(requested);
    if model == "" {
      return [], order;
    }
    var i := ColonAt(model);
    if i < |model| && model[..i] in env.registry && i + 1 < |model| {
      return [Candidate(model[..i], model[i + 1..])], order;
    }
    var resolved;
    resolved, order := catalog.Resolve(model, env.names.lower);
    out := Map(PlaceOf, resolved);
    if out != [] {
      return;
    }
    var native := NativeProvider(model, env);
    if native != "" {
      return [Candidate(native, model)], order;
    }
  }

  ghost predicate KnownAs(k: Knowledge, env: Surroundings, model: string, p: Profile) {
    Known(k, p) && env.names.lower(p.model) == env.names.lower(model)
  }

  /** The same places as a set, which no map order can change. */
  ghost predicate Placed(k: Knowledge, env: Surroundings, requested: string, c: Candidate) {
    var m := env.trim(requested);
    && m != ""
    && if exists d :: Pins(m, env, d) then Pins(m, env, c)
       else if exists p :: KnownAs(k, env, m, p) then exists p :: KnownAs(k, env, m, p) && p.Place() == c
       else NativeProvider(m, env) != "" && c == Candidate(NativeProvider(m, env), m)
  }

  lemma PlacementsMember(k: Knowledge, env: Surroundings, requested: string, order: seq<string>, c: Candidate)
    requires Enumerates(order, k.discovered)
    ensures c in PlacementsOf(k, env, requested, order) <==> Placed(k, env, requested, c)
    ensures Placed(k, env, requested, c) ==> IsNamed(env.trim(requested), env, c)
  {
    var m := env.trim(requested);
    var i := ColonAt(m);
    if i < |m| && m[..i] in env.registry && i + 1 < |m| {
      assert Pins(m, env, Candidate(m[..i], m[i + 1..]));
    } else if m != "" {
      var found := Resolved(k.profiles, k.discovered, order, env.names.lower(m), env.names.lower);
      forall p ensures p in found <==> KnownAs(k, env, m, p) {
        ResolvedMember(k.profiles, k.discovered, order, env.names.lower(m), env.names.lower, p);
      }
      PlacesOf(found, c);
      if found != [] {
        assert KnownAs(k, env, m, found[0]) by { assert found[0] in found; }
      }
    }
  }

  lemma PlacesOf(ps: seq<Profile>, c: Candidate)
    ensures c in Map(PlaceOf, ps) <==> exists p :: p in ps && p.Place() == c
  {
    if c in Map(PlaceOf, ps) {
      var i :| 0 <= i < |ps| && Map(PlaceOf, ps)[i] == c;
      assert ps[i] in ps;
    }
    if p :| p in ps && p.Place() == c {
      var i :| 0 <= i < |ps| && ps[i] == p;
      assert Map(PlaceOf, ps)[i] == c;
    }
  }

  function KeyedAt(keys: map<string, string>): Candidate -> bool {
    (c: Candidate) => Keyed(keys, c.provider)
  }

  method FilterToKeyed(cands: seq<Candidate>, keys: map<string, string>) returns (out: seq<Candidate>)
    ensures out == Filter(KeyedAt(keys), cands)
  {
    out := [];
    for i := 0 to |cands|
      invariant out == Filter(KeyedAt(keys), cands[..i])
    {
      PrefixSnoc(cands, i);
      FilterSnoc(KeyedAt(keys), cands[..i], cands[i]);
      if Keyed(keys, cands[i].provider) {
        out := out + [cands[i]];
      }
    }
    WholePrefix(cands);
  }

  /** The free-only screen for a named candidate. */
  ghost function FreeTest(k: Knowledge, env: Surroundings): Candidate -> bool {
    (c: Candidate) => c.model != "" && FreeAndAvailable(k, env, c)
  }

  method FreeAndUp(catalog: Catalog, env: Surroundings, c: Candidate) returns (r: bool)
    ensures r <==> c.model != "" && FreeThere(catalog.View(), env, c) && Available(catalog.View(), env, c)
  {
    var k := catalog.View();
    var resolved, order := catalog.Resolve(c.model, env.names.lower);
    for j := 0 to |resolved|
      invariant forall i :: 0 <= i < j ==> !(resolved[i].provider == c.provider && resolved[i].Free() && Available(k, env, c))
    {
      var p := resolved[j];
      if p.provider == c.provider && p.Free() && Available(k, env, c) {
        assert p in resolved && FreeAs(k, env, c, p);
        return true;
      }
    }
    return false;
  }

  /** A model was named, and not merely "free" asked for. */
  predicate FreeAsked(model: string, env: Surroundings) {
    model != "" && !env.sameFold(env.trim(model), FREE)
  }

  /** The caller's own model wherever it is free and answering, in the order of its placements; nothing else. */
  method FreeNamed(catalog: Catalog, env: Surroundings, model: string) returns (out: seq<Candidate>, ghost order: seq<string>)
    ensures Enumerates(order, catalog.discovered)
    ensures out == if FreeAsked(model, env) then Filter(FreeTest(catalog.View(), env), PlacementsOf(catalog.View(), env, model, order)) else []
  {
    out, order := [], SomeOrder(catalog.discovered.Keys);
    if model == "" || env.sameFold(env.trim(model), FREE) {
      return;
    }
    ghost var test := FreeTest(catalog.View(), env);
    var placed;
    placed, order := Placements(catalog, env, model);
    var keyed := FilterToKeyed(placed, env.keys);
    for i := 0 to |keyed|
      invariant out == Filter(test, keyed[..i])
    {
      PrefixSnoc(keyed, i);
      FilterSnoc(test, keyed[..i], keyed[i]);
      FilterMember(KeyedAt(env.keys), placed, keyed[i]);
      var up := FreeAndUp(catalog, env, keyed[i]);
      if up {
        out := out + [keyed[i]];
      }
    }
    WholePrefix(keyed);
    FilterTwice(test, KeyedAt(env.keys), test, placed);
  }

  /** Screens the gateway's own choices: keyed, not benched, still listed by their provider. */
  method Usable(k: Knowledge, env: Surroundings, cands: seq<Candidate>) returns (out: seq<Candidate>)
    ensures out == Filter(Serviceable(k, env), cands)
  {
    out := [];
    for i := 0 to |cands|
      invariant out == Filter(Serviceable(k, env), cands[..i])
    {
      PrefixSnoc(cands, i);
      FilterSnoc(Serviceable(k, env), cands[..i], cands[i]);
      if Keyed(env.keys, cands[i].provider) && !env.benched(cands[i]) && StillListed(k, env, cands[i]) {
        out := out + [cands[i]];
      }
    }
    WholePrefix(cands);
  }

  function Serviceable(k: Knowledge, env: Surroundings): Candidate -> bool {
    (c: Candidate) => Keyed(env.keys, c.provider) && !env.benched(c) && StillListed(k, env, c)
  }

  /** An undiscovered provider is given the benefit of the doubt. */
  predicate StillListed(k: Knowledge, env: Surroundings, c: Candidate) {
    c.provider !in k.discovered || k.discovered[c.provider] == [] ||
    exists i :: 0 <= i < |k.discovered[c.provider]| && env.names.lower(k.discovered[c.provider][i].model) == env.names.lower(c.model)
  }

  /** The elements not taken already, each at its first appearance. */
  function Uniques(cands: seq<Candidate>, taken: set<Candidate>): seq<Candidate> {
    if cands == [] then []
    else
      var before, last := Uniques(cands[..|cands| - 1], taken), cands[|cands| - 1];
      if last in taken || last in before then before else before + [last]
  }

  lemma {:induction false} UniquesAre(cands: seq<Candidate>, taken: set<Candidate>)
    ensures Distinct(Uniques(cands, taken))
    ensures forall c :: c in Uniques(cands, taken) <==> c in cands && c !in taken
  {
    if cands != [] {
      UniquesAre(cands[..|cands| - 1], taken);
      assert cands == cands[..|cands| - 1] + [cands[|cands| - 1]];
    }
  }

  method Collect(cands: seq<Candidate>, seen: set<Candidate>) returns (out: seq<Candidate>, seen': set<Candidate>)
    ensures out == Uniques(cands, seen) && seen' == seen + (set c | c in out)
  {
    out, seen' := [], seen;
    for i := 0 to |cands|
      invariant out == Uniques(cands[..i], seen) && seen' == seen + (set c | c in out)
    {
      assert cands[..i + 1][..i] == cands[..i];
      if cands[i] !in seen' {
        seen' := seen' + {cands[i]};
        out := out + [cands[i]];
      }
    }
    WholePrefix(cands);
  }

  function NamedOr(requested: string, otherwise: string): string {
    if requested == "" then otherwise else requested
  }

  /** Placements of the fallback models, in the configured order; the i-th is looked up under the map order orders[i]. */
  function FallbackPlaces(k: Knowledge, env: Surroundings, models: seq<string>, orders: seq<seq<string>>): seq<Candidate>
    requires |models| == |orders|
    requires forall i, name :: 0 <= i < |orders| && name in orders[i] ==> name in k.discovered
  {
    if models == [] then []
    else
      var n := |models| - 1;
      FallbackPlaces(k, env, models[..n], orders[..n]) + PlacementsOf(k, env, models[n], orders[n])
  }

  ghost predicate AllEnumerate(orders: seq<seq<string>>, d: Discovered) {
    forall i :: 0 <= i < |orders| ==> Enumerates(orders[i], d)
  }

  /** The caller's model wherever it is keyed. */
  function OwnPlaces(k: Knowledge, cfg: Config, env: Surroundings, requested: string, order: seq<string>): seq<Candidate>
    requires forall name :: name in order ==> name in k.discovered
  {
    Uniques(Filter(KeyedAt(env.keys), PlacementsOf(k, env, NamedOr(requested, cfg.defaultModel), order)), {})
  }

  /** The caller's model wherever it is keyed, then the usable fallbacks; nothing twice. */
  function NamedChain(k: Knowledge, cfg: Config, env: Surroundings, requested: string, order: seq<string>, orders: seq<seq<string>>): seq<Candidate>
    requires forall name :: name in order ==> name in k.discovered
    requires |cfg.fallbackModels| == |orders|
    requires forall i, name :: 0 <= i < |orders| && name in orders[i] ==> name in k.discovered
  {
    var mine := OwnPlaces(k, cfg, env, requested, order);
    mine + Uniques(Filter(Serviceable(k, env), FallbackPlaces(k, env, cfg.fallbackModels, orders)), set c | c in mine)
  }

  method NamedCandidates(catalog: Catalog, cfg: Config, env: Surroundings, requested: string)
    returns (out: seq<Candidate>, ghost order: seq<string>, ghost orders: seq<seq<string>>)
    ensures Enumerates(order, catalog.discovered) && AllEnumerate(orders, catalog.discovered) && |orders| == |cfg.fallbackModels|
    ensures out == NamedChain(catalog.View(), cfg, env, requested, order, orders)
  {
    var model := requested;
    if model == "" {
      model := cfg.defaultModel;
    }
    var placed;
    placed, order := Placements(catalog, env, model);
    var keyed := FilterToKeyed(placed, env.keys);
    var mine, seen := Collect(keyed, {});
    var usable;
    usable, orders := UsableFallbacks(catalog, cfg, env);
    assert seen == (set c | c in mine);
    var rest, seen' := Collect(usable, seen);
    out := mine + rest;
  }

  method UsableFallbacks(catalog: Catalog, cfg: Config, env: Surroundings) returns (usable: seq<Candidate>, ghost orders: seq<seq<string>>)
    ensures AllEnumerate(orders, catalog.discovered) && |orders| == |cfg.fallbackModels|
    ensures usable == Filter(Serviceable(catalog.View(), env), FallbackPlaces(catalog.View(), env, cfg.fallbackModels, orders))
  {
    var fallbacks: seq<Candidate> := [];
    orders := [];
    for f := 0 to |cfg.fallbackModels|
      invariant |orders| == f && AllEnumerate(orders, catalog.discovered)
      invariant fallbacks == FallbackPlaces(catalog.View(), env, cfg.fallbackModels[..f], orders)
    {
      var more;
      ghost var order;
      more, order := Placements(catalog, env, cfg.fallbackModels[f]);
      assert cfg.fallbackModels[..f + 1][..f] == cfg.fallbackModels[..f] && (orders + [order])[..f] == orders;
      fallbacks := fallbacks + more;
      orders := orders + [order];
    }
    WholePrefix(cfg.fallbackModels);
    usable := Usable(catalog.View(), env, fallbacks);
  }

  ghost predicate PlacedAny(k: Knowledge, env: Surroundings, models: seq<string>, c: Candidate) {
    exists f :: 0 <= f < |models| && Placed(k, env, models[f], c)
  }

  lemma PlacedAnySnoc(k: Knowledge, env: Surroundings, models: seq<string>, model: string, c: Candidate)
    ensures PlacedAny(k, env, models + [model], c) <==> PlacedAny(k, env, models, c) || Placed(k, env, model, c)
  {
    var all := models + [model];
    if PlacedAny(k, env, models, c) {
      var f :| 0 <= f < |models| && Placed(k, env, models[f], c);
      assert all[f] == models[f];
    }
    if Placed(k, env, model, c) {
      assert all[|models|] == model;
    }
  }

  lemma {:induction false} FallbackMember(k: Knowledge, env: Surroundings, models: seq<string>, orders: seq<seq<string>>, c: Candidate)
    requires |models| == |orders| && AllEnumerate(orders, k.discovered)
    ensures c in FallbackPlaces(k, env, models, orders) <==> PlacedAny(k, env, models, c)
  {
    if models != [] {
      var n := |models| - 1;
      FallbackMember(k, env, models[..n], orders[..n], c);
      PlacementsMember(k, env, models[n], orders[n], c);
      PlacedAnySnoc(k, env, models[..n], models[n], c);
      assert models == models[..n] + [models[n]];
    }
  }

  /**
   What a named chain contains, whatever order the maps were walked in: no candidate twice; first the
   places of the caller's own model, however unusable; then exactly the usable places of fallbacks.
   */
  lemma NamedChainMeans(k: Knowledge, cfg: Config, env: Surroundings, requested: string, order: seq<string>, orders: seq<seq<string>>)
    requires Enumerates(order, k.discovered) && AllEnumerate(orders, k.discovered) && |orders| == |cfg.fallbackModels|
    ensures
      var chain, mine := NamedChain(k, cfg, env, requested, order, orders), OwnPlaces(k, cfg, env, requested, order);
      && Distinct(chain) && mine <= chain
      && (forall c :: c in mine <==> Keyed(env.keys, c.provider) && Placed(k, env, NamedOr(requested, cfg.defaultModel), c))
      && (forall c :: c in mine ==> IsNamed(env.trim(NamedOr(requested, cfg.defaultModel)), env, c))
      && (forall c :: c in chain <==> c in mine || (Serviceable(k, env)(c) && IsFallback(k, cfg, env, c)))
  {
    var mine := OwnPlaces(k, cfg, env, requested, order);
    var model := NamedOr(requested, cfg.defaultModel);
    var places, backs := PlacementsOf(k, env, model, order), FallbackPlaces(k, env, cfg.fallbackModels, orders);
    var rest := Uniques(Filter(Serviceable(k, env), backs), set c | c in mine);
    UniquesAre(Filter(KeyedAt(env.keys), places), {});
    UniquesAre(Filter(Serviceable(k, env), backs), set c | c in mine);
    forall c ensures c in mine <==> Keyed(env.keys, c.provider) && Placed(k, env, model, c) {
      FilterMember(KeyedAt(env.keys), places, c);
      PlacementsMember(k, env, model, order, c);
    }
    forall c | c in mine ensures IsNamed(env.trim(model), env, c) {
      PlacementsMember(k, env, model, order, c);
    }
    forall c ensures c in rest <==> c !in mine && Serviceable(k, env)(c) && IsFallback(k, cfg, env, c) {
      FilterMember(Serviceable(k, env), backs, c);
      FallbackMember(k, env, cfg.fallbackModels, orders, c);
    }
    DistinctJoin(mine, rest);
  }

  ghost predicate IsFallback(k: Knowledge, cfg: Config, env: Surroundings, c: Candidate) {
    PlacedAny(k, env, cfg.fallbackModels, c)
  }

  lemma DistinctJoin<T>(a: seq<T>, b: seq<T>)
    requires Distinct(a) && Distinct(b) && forall x :: x in b ==> x !in a
    ensures Distinct(a + b) && a <= a + b
    ensures forall x :: x in a + b <==> x in a || x in b
  {
    forall i, j | 0 <= i < j < |a + b| ensures (a + b)[i] != (a + b)[j] {
      if j >= |a| {
        assert (a + b)[j] == b[j - |a|] && b[j - |a|] in b;
      }
    }
  }

  // ---- the whole plan ----

  /** The curated catalogue ranked for a task; the whole of it when nothing claims the task. */
  method Rank(k: Knowledge, task: Task, objective: string) returns (out: seq<Profile>)
    ensures var suited := Filter((p: Profile) => task in p.tasks, k.profiles);
      out == Sort(ByKey((p: Profile) => Score(p, objective)), if suited == [] then k.profiles else suited)
  {
    var supports := (p: Profile) => task in p.tasks;
    out := [];
    for i := 0 to |k.profiles|
      invariant out == Filter(supports, k.profiles[..i])
    {
      PrefixSnoc(k.profiles, i);
      FilterSnoc(supports, k.profiles[..i], k.profiles[i]);
      if task in k.profiles[i].tasks {
        out := out + [k.profiles[i]];
      }
    }
    WholePrefix(k.profiles);
    if out == [] {
      out := k.profiles;
    }
    out := Sort(ByKey((p: Profile) => Score(p, objective)), out);
  }

  /** Each key's first element, keys in order of first appearance. */
  ghost predicate Bests(s: seq<Candidate>, out: seq<Candidate>) {
    && Map(ProviderOf, out) == Firsts(ProviderOf, s)
    && forall i :: 0 <= i < |out| ==> Queue(ProviderOf, s, out[i].provider) != [] && out[i] == Queue(ProviderOf, s, out[i].provider)[0]
  }

  function BestOfEach(s: seq<Candidate>): seq<Candidate> {
    if s == [] then []
    else
      var before, last := BestOfEach(s[..|s| - 1]), s[|s| - 1];
      if last.provider in Map(ProviderOf, before) then before else before + [last]
  }

  /** Keeping whatever comes from a new provider keeps each provider's best. */
  lemma {:induction false} BestOfEachIsBest(s: seq<Candidate>)
    ensures Bests(s, BestOfEach(s))
  {
    if s != [] {
      BestOfEachIsBest(s[..|s| - 1]);
      BestsSnoc(s[..|s| - 1], BestOfEach(s[..|s| - 1]), s[|s| - 1]);
      assert s == s[..|s| - 1] + [s[|s| - 1]];
    }
  }

  lemma BestsSnoc(s: seq<Candidate>, out: seq<Candidate>, c: Candidate)
    requires Bests(s, out)
    ensures Bests(s + [c], if c.provider in Map(ProviderOf, out) then out else out + [c])
  {
    SnocParts(s, c);
    var out' := if c.provider in Map(ProviderOf, out) then out else out + [c];
    NewQueue(s, c);
    forall i | 0 <= i < |out'| ensures
      var q := Queue(ProviderOf, s + [c], out'[i].provider);
      q != [] && out'[i] == q[0]
    {
      QueueSnoc(ProviderOf, s, c, out'[i].provider);
    }
  }

  lemma NewQueue(s: seq<Candidate>, c: Candidate)
    ensures c.provider !in Firsts(ProviderOf, s) ==> Queue(ProviderOf, s, c.provider) == []
  {
    if c.provider !in Firsts(ProviderOf, s) {
      NoQueue(ProviderOf, s, c.provider);
    }
  }

  /** The curated models for a task, best score first. */
  function RankedPool(k: Knowledge, cfg: Config, task: Task, intent: Intent): seq<Profile> {
    var suited := Filter((p: Profile) => task in p.tasks, k.profiles);
    var ranked := Sort(ByKey((p: Profile) => Score(p, ObjectiveFor(cfg, intent))), if suited == [] then k.profiles else suited);
    Restrict(k, ranked, task)
  }

  /** Each provider's best curated model for the task, providers in the order of their best. */
  method RankedCandidates(k: Knowledge, cfg: Config, task: Task, intent: Intent) returns (out: seq<Candidate>)
    ensures out == BestOfEach(Map(PlaceOf, RankedPool(k, cfg, task, intent)))
  {
    var all := Rank(k, task, ObjectiveFor(cfg, intent));
    var ranked := RestrictToTagged(k, all, task);
    out := FirstOfEach(Map(PlaceOf, ranked));
  }

  method FirstOfEach(places: seq<Candidate>) returns (out: seq<Candidate>)
    ensures out == BestOfEach(places)
  {
    out := [];
    var seen: set<string> := {};
    for i := 0 to |places|
      invariant out == BestOfEach(places[..i])
      invariant forall name :: name in seen <==> name in Map(ProviderOf, out)
    {
      assert places[..i + 1][..i] == places[..i];
      if places[i].provider !in seen {
        seen := seen + {places[i].provider};
        assert Map(ProviderOf, out + [places[i]]) == Map(ProviderOf, out) + [places[i].provider];
        out := out + [places[i]];
      }
    }
    WholePrefix(places);
  }

  function Allowed(k: Knowledge): Candidate -> bool {
    (c: Candidate) => !k.Blacklisted(c)
  }

  method ExcludeBlacklisted(k: Knowledge, cands: seq<Candidate>) returns (out: seq<Candidate>)
    ensures out == Filter(Allowed(k), cands)
  {
    out := [];
    for i := 0 to |cands|
      invariant out == Filter(Allowed(k), cands[..i])
    {
      PrefixSnoc(cands, i);
      FilterSnoc(Allowed(k), cands[..i], cands[i]);
      if !k.Blacklisted(cands[i]) {
        out := out + [cands[i]];
      }
    }
    WholePrefix(cands);
  }

  predicate FreeOnly(deploymentFlag: bool, model: string, env: Surroundings) {
    deploymentFlag || IntentFor(model, env).freeOnly
  }

  /** A caller who chose a model, rather than asking the gateway to choose. */
  predicate NamesModel(model: string, env: Surroundings) {
    var m := env.trim(model);
    m != "" && !env.sameFold(m, FREE) && !IntentFor(m, env).known
  }

  predicate SmartRouting(cfg: Config, model: string, env: Surroundings) {
    if cfg.routingMode == "always" then true
    else if cfg.routingMode == "off" then false
    else model == "" || env.sameFold(model, cfg.routerModel) || IntentFor(model, env).known
  }

  /** The chain a request gets before the blacklist, case by case. */
  ghost predicate PlannedAs(k: Knowledge, cfg: Config, env: Surroundings, freeFlag: bool, model: string, task: Task,
                            order: seq<string>, orders: seq<seq<string>>, out: seq<Candidate>)
  {
    && Enumerates(order, k.discovered) && AllEnumerate(orders, k.discovered) && |orders| == |cfg.fallbackModels|
    && if FreeOnly(freeFlag, model, env) then PlannedFree(k, cfg, env, model, task, order, out)
       else if SmartRouting(cfg, model, env) then PlannedSmart(k, cfg, env, model, task, out)
       else out == NamedChain(k, cfg, env, model, order, orders)
  }

  /** Free-only: the named model where it is free, nothing at all for another named one, else the free pool. */
  ghost predicate PlannedFree(k: Knowledge, cfg: Config, env: Surroundings, model: string, task: Task, order: seq<string>, out: seq<Candidate>)
    requires Enumerates(order, k.discovered)
  {
    var named := if FreeAsked(model, env) then Filter(FreeTest(k, env), PlacementsOf(k, env, model, order)) else [];
    if named != [] then out == named
    else if NamesModel(model, env) then out == []
    else WellFiled(k.discovered) ==> out == FreeChain(k, cfg, env, task, IntentFor(model, env))
  }

  /** Smart: the usable best of each provider, or what discovery offers when none is usable. */
  ghost predicate PlannedSmart(k: Knowledge, cfg: Config, env: Surroundings, model: string, task: Task, out: seq<Candidate>) {
    var usable := Filter(Serviceable(k, env), BestOfEach(Map(PlaceOf, RankedPool(k, cfg, task, IntentFor(model, env)))));
    if usable != [] then out == usable
    else WellFiled(k.discovered) ==> out == DiscoveredChain(k, cfg, env, task, IntentFor(model, env))
  }

  /** A sentinel that names a task overrides the detected one. */
  function TaskFor(cfg: Config, env: Surroundings, freeFlag: bool, model: string, detected: Task): Task {
    if (FreeOnly(freeFlag, model, env) || SmartRouting(cfg, model, env)) && IntentFor(model, env).task != "" then IntentFor(model, env).task
    else detected
  }

  method PlanCandidates(catalog: Catalog, cfg: Config, env: Surroundings, freeFlag: bool, model: string, detected: Task)
    returns (out: seq<Candidate>, task: Task, ghost order: seq<string>, ghost orders: seq<seq<string>>)
    ensures task == TaskFor(cfg, env, freeFlag, model, detected)
    ensures PlannedAs(catalog.View(), cfg, env, freeFlag, model, task, order, orders, out)
    ensures freeFlag || env.names.lower(env.trim(model)) == "auto:free" ==> forall c :: c in out ==> FreeAndAvailable(catalog.View(), env, c)
  {
    task := detected;
    order := SomeOrder(catalog.discovered.Keys);
    orders := seq(|cfg.fallbackModels|, i => order);
    var intent := IntentFor(model, env);
    if FreeOnly(freeFlag, model, env) {
      if intent.task != "" {
        task := intent.task;
      }
      var named;
      named, order := FreeNamed(catalog, env, model);
      if |named| > 0 {
        forall c | c in named ensures FreeAndAvailable(catalog.View(), env, c) {
          FilterMember(FreeTest(catalog.View(), env), PlacementsOf(catalog.View(), env, model, order), c);
        }
        return named, task, order, orders;
      }
      if NamesModel(model, env) {
        return [], task, order, orders;
      }
      out := FreeCandidates(catalog, cfg, env, task, intent);
      return;
    }
    if SmartRouting(cfg, model, env) {
      if intent.task != "" {
        task := intent.task;
      }
      var ranked := RankedCandidates(catalog.View(), cfg, task, intent);
      out := Usable(catalog.View(), env, ranked);
      if out == [] {
        out := DiscoveredCandidates(catalog, cfg, env, task, intent);
      }
      return;
    }
    out, order, orders := NamedCandidates(catalog, cfg, env, model);
  }

  /** The planned chain, with what an operator has forbidden left out. */
  method Plan(catalog: Catalog, cfg: Config, env: Surroundings, freeFlag: bool, model: string, detected: Task)
    returns (out: seq<Candidate>, task: Task, ghost planned: seq<Candidate>, ghost order: seq<string>, ghost orders: seq<seq<string>>)
    ensures task == TaskFor(cfg, env, freeFlag, model, detected)
    ensures PlannedAs(catalog.View(), cfg, env, freeFlag, model, task, order, orders, planned)
    ensures out == Filter(Allowed(catalog.View()), planned)
    ensures forall c :: c in out <==> c in planned && c.provider + "/" + c.model !in catalog.blacklist
    ensures freeFlag || env.names.lower(env.trim(model)) == "auto:free" ==> forall c :: c in planned ==> FreeAndAvailable(catalog.View(), env, c)
  {
    var cands;
    cands, task, order, orders := PlanCandidates(catalog, cfg, env, freeFlag, model, detected);
    planned := cands;
    out := ExcludeBlacklisted(catalog.View(), cands);
    forall c ensures c in out <==> c in planned && c.provider + "/" + c.model !in catalog.blacklist {
      FilterMember(Allowed(catalog.View()), planned, c);
    }
  }

  /** A plan holds a benched model only where the caller named it and left the choice to nobody. */
  lemma BenchedStaysOut(k: Knowledge, cfg: Config, env: Surroundings, freeFlag: bool, model: string, task: Task,
                        order: seq<string>, orders: seq<seq<string>>, planned: seq<Candidate>, c: Candidate)
    requires PlannedAs(k, cfg, env, freeFlag, model, task, order, orders, planned) && WellFiled(k.discovered)
    requires env.benched(c) && c in planned
    ensures !freeFlag && env.names.lower(env.trim(model)) != "auto:free"
    ensures !SmartRouting(cfg, model, env)
    ensures Placed(k, env, NamedOr(model, cfg.defaultModel), c)
  {
    if FreeOnly(freeFlag, model, env) {
      BenchedNotFree(k, cfg, env, model, task, order, planned, c);
    } else if SmartRouting(cfg, model, env) {
      BenchedNotSmart(k, cfg, env, model, task, planned, c);
    } else {
      NamedChainMeans(k, cfg, env, model, order, orders);
    }
  }

  lemma BenchedNotFree(k: Knowledge, cfg: Config, env: Surroundings, model: string, task: Task, order: seq<string>, planned: seq<Candidate>, c: Candidate)
    requires Enumerates(order, k.discovered) && WellFiled(k.discovered) && env.benched(c)
    requires PlannedFree(k, cfg, env, model, task, order, planned)
    ensures c !in planned
  {
    var ordered := RankForTask(RoutablePool(k, task), task, ObjectiveFor(cfg, IntentFor(model, env)), env.names);
    BenchedNotPicked(ordered, env, cfg.attemptsPerProvider, cfg.maxAttempts, c);
    FilterMember(FreeTest(k, env), PlacementsOf(k, env, model, order), c);
  }

  lemma BenchedNotSmart(k: Knowledge, cfg: Config, env: Surroundings, model: string, task: Task, planned: seq<Candidate>, c: Candidate)
    requires WellFiled(k.discovered) && env.benched(c)
    requires PlannedSmart(k, cfg, env, model, task, planned)
    ensures c !in planned
  {
    var objective := ObjectiveFor(cfg, IntentFor(model, env));
    var ordered := Sort(BestFirst(k, task, objective, env.names), Restrict(k, AllDiscovered(k.discovered), task));
    BenchedNotPicked(ordered, env, cfg.attemptsPerProvider, cfg.maxAttempts, c);
    FilterMember(Serviceable(k, env), BestOfEach(Map(PlaceOf, RankedPool(k, cfg, task, IntentFor(model, env)))), c);
  }

  /** The free price has a source: the curated entry, or the provider's last answer, which publishes it for this very model. */
  ghost predicate ZeroTraced(k: Knowledge, answers: Answers, p: Profile, units: Units) {
    p in k.profiles || PublishedFree(answers, p, units)
  }

  /**
   Free-only safety, for every catalogue, bench and probe state: whatever is planned is keyed, not
   blacklisted, not benched, confirmed once anything is, and free at that provider, by a
   price its last answer publishes unless the entry is curated; and a model the caller named is never
   exchanged for another one.
   */
  lemma FreeOnlyIsSafe(k: Knowledge, cfg: Config, env: Surroundings, freeFlag: bool, model: string, task: Task,
                       order: seq<string>, orders: seq<seq<string>>, planned: seq<Candidate>, c: Candidate, answers: Answers, units: Units)
    requires freeFlag || env.names.lower(env.trim(model)) == "auto:free"
    requires WellFiled(k.discovered)
    requires PlannedAs(k, cfg, env, freeFlag, model, task, order, orders, planned)
    requires c in Filter(Allowed(k), planned)
    ensures c.provider in env.keys && env.keys[c.provider] != "" && !env.benched(c)
    ensures c.provider + "/" + c.model !in k.blacklist
    ensures k.confirmed != {} ==> c.provider + "/" + c.model in k.confirmed
    ensures exists p :: FreeAs(k, env, c, p) && (AsAnswered(k.discovered, answers, units) ==> ZeroTraced(k, answers, p, units))
    ensures NamesModel(model, env) ==> IsNamed(env.trim(model), env, c)
  {
    FilterMember(Allowed(k), planned, c);
    var named := if FreeAsked(model, env) then Filter(FreeTest(k, env), PlacementsOf(k, env, model, order)) else [];
    if named != [] {
      FilterMember(FreeTest(k, env), PlacementsOf(k, env, model, order), c);
      PlacementsMember(k, env, model, order, c);
    } else {
      FreeChainSafe(k, cfg, env, task, IntentFor(model, env), c);
    }
    assert FreeAndAvailable(k, env, c);
    var p :| FreeAs(k, env, c, p);
    if AsAnswered(k.discovered, answers, units) {
      AnsweredMeans(k.discovered, answers, units);
    }
  }

  lemma FreeChainSafe(k: Knowledge, cfg: Config, env: Surroundings, task: Task, intent: Intent, c: Candidate)
    requires c in FreeChain(k, cfg, env, task, intent)
    ensures FreeAndAvailable(k, env, c) && FreeListed(k, c)
  {
    var narrowed := Restrict(k, FreePool(k), task);
    var ordered := RankForTask(RoutablePool(k, task), task, ObjectiveFor(cfg, intent), env.names);
    ChainFromEligible(Eligible(ordered, env.keys, env.benched), cfg.attemptsPerProvider, cfg.maxAttempts, c);
    var p := EligibleComesFrom(ordered, env.keys, env.benched, c);
    RankMember(RoutablePool(k, task), task, ObjectiveFor(cfg, intent), env.names);
    FilterMember((q: Profile) => k.Confirmed(q.Place()), narrowed, p);
    FilterMember((q: Profile) => k.Tagged(q, task), FreePool(k), p);
    ListedMember(k.profiles, IsFree, k.discovered, SomeOrder(k.discovered.Keys), p);
    assert FreeAs(k, env, c, p);
  }

  // ---- free by name, priced by place ----

  /** Free-only routing takes it for free because another spelling of its name is listed free at its provider. */
  ghost predicate Disguised(k: Knowledge, env: Surroundings, c: Candidate) {
    FreeTest(k, env)(c) && !FreeListed(k, c)
  }

  /** What a free-only plan holds when a model was named: its placements that pass the screen. */
  lemma NamedFree(k: Knowledge, env: Surroundings, model: string, order: seq<string>, c: Candidate)
    requires Enumerates(order, k.discovered)
    ensures c in Filter(FreeTest(k, env), PlacementsOf(k, env, model, order)) <==> Placed(k, env, model, c) && FreeTest(k, env)(c)
  {
    FilterMember(FreeTest(k, env), PlacementsOf(k, env, model, order), c);
    PlacementsMember(k, env, model, order, c);
  }

  /**
   Every model planned in free-only mode is itself listed free, under exactly its own name, if and
   only if the caller named none whose free listing is spelled in another letter case.
   */
  lemma FreeByItsOwnName(k: Knowledge, cfg: Config, env: Surroundings, freeFlag: bool, model: string, task: Task,
                         order: seq<string>, orders: seq<seq<string>>, planned: seq<Candidate>)
    requires freeFlag || env.names.lower(env.trim(model)) == "auto:free"
    requires WellFiled(k.discovered)
    requires PlannedAs(k, cfg, env, freeFlag, model, task, order, orders, planned)
    ensures (forall c :: c in planned ==> FreeListed(k, c))
      <==> !(FreeAsked(model, env) && exists c :: Placed(k, env, model, c) && Disguised(k, env, c))
  {
    var named := if FreeAsked(model, env) then Filter(FreeTest(k, env), PlacementsOf(k, env, model, order)) else [];
    forall c ensures c in named <==> FreeAsked(model, env) && Placed(k, env, model, c) && FreeTest(k, env)(c) {
      NamedFree(k, env, model, order, c);
    }
    forall c | named == [] && c in planned ensures FreeListed(k, c) {
      FreeChainSafe(k, cfg, env, task, IntentFor(model, env), c);
    }
  }

  /** Two listings of one provider: "M" for money, "m" for nothing. */
  function TwoSpellings(): Knowledge {
    var r := Reliability(0, 0, 0);
    Knowledge([Profile("M", "p", 0, 1.0, 1.0, [], 0, true, r), Profile("m", "p", 0, 0.0, 0.0, [], 0, true, r)],
              map[], {}, {}, map[], {})
  }

  lemma TwoSpellingsRead(k: Knowledge, env: Surroundings, c: Candidate)
    requires k == TwoSpellings() && c == Candidate("p", "M")
    requires env.trim("M") == "M" && env.names.lower("M") == "m" == env.names.lower("m")
    ensures Placed(k, env, "M", c) && FreeThere(k, env, c) && !FreeListed(k, c)
  {
    assert KnownAs(k, env, "M", k.profiles[0]) && k.profiles[0].Place() == c;
    assert FreeAs(k, env, c, k.profiles[1]);
  }

  /** Asked for "M" in free-only mode the priced listing is planned. */
  lemma PricedSpellingPlanned(env: Surroundings)
    requires Keyed(env.keys, "p") && !env.benched(Candidate("p", "M"))
    requires env.trim("M") == "M" && env.names.lower("M") == "m" == env.names.lower("m")
    ensures var c := Candidate("p", "M");
      && c in Filter(FreeTest(TwoSpellings(), env), PlacementsOf(TwoSpellings(), env, "M", []))
      && !FreeListed(TwoSpellings(), c)
  {
    var k, c := TwoSpellings(), Candidate("p", "M");
    TwoSpellingsRead(k, env, c);
    assert Available(k, env, c);
    NamedFree(k, env, "M", [], c);
  }

  // ---- names and places, in so many words ----

  /** "provider:model", cut at the first colon, pins a configured provider. */
  lemma PinMeans(provider: string, name: string, env: Surroundings, c: Candidate)
    requires ':' !in provider && provider in env.registry && name != ""
    ensures Pins(provider + ":" + name, env, c) <==> c.provider == provider && c.model == name
  {
    ColonAfter(provider, ":" + name);
    assert (provider + ":" + name)[..|provider|] == provider && (provider + ":" + name)[|provider| + 1..] == name;
    assert provider + ":" + name == provider + (":" + name);
  }

  lemma {:induction false} ColonAfter(head: string, tail: string)
    requires ':' !in head && tail != "" && tail[0] == ':'
    ensures ColonAt(head + tail) == |head|
  {
    if head == "" {
      assert head + tail == tail;
    } else {
      assert head[0] in head && (head + tail)[1..] == head[1..] + tail;
      ColonAfter(head[1..], tail);
    }
  }

  /** The vendors' own naming: what an unlisted name is sent to, by how it begins. */
  lemma VendorNames(model: string, rest: string, env: Surroundings)
    ensures env.names.lower(model) in {"gpt-" + rest, "chatgpt" + rest, "o1" + rest, "o3" + rest, "o4" + rest} ==>
      NativeProvider(model, env) == "openai"
    ensures env.names.lower(model) == "claude" + rest ==> NativeProvider(model, env) == "anthropic"
    ensures env.names.lower(model) == "gemini" + rest ==> NativeProvider(model, env) == "google"
    ensures env.names.lower(model) == "" || env.names.lower(model)[0] !in {'g', 'c', 'o'} ==> NativeProvider(model, env) == ""
  {
    var m := env.names.lower(model);
    if m == "claude" + rest {
      assert m[1] == 'l';
    } else if m == "gemini" + rest {
      assert m[1] == 'e';
    }
  }

  /** A free model the caller names is honoured, wherever it is keyed and answering, and then nothing else is planned. */
  lemma NamedFreeHonoured(k: Knowledge, cfg: Config, env: Surroundings, freeFlag: bool, model: string, task: Task,
                          order: seq<string>, orders: seq<seq<string>>, planned: seq<Candidate>, place: Candidate)
    requires freeFlag || env.names.lower(env.trim(model)) == "auto:free"
    requires PlannedAs(k, cfg, env, freeFlag, model, task, order, orders, planned)
    requires model != "" && !env.sameFold(env.trim(model), "auto:free")
    requires Placed(k, env, model, place) && place.model != "" && FreeAndAvailable(k, env, place)
    ensures place in planned
    ensures forall c :: c in planned <==> Placed(k, env, model, c) && c.model != "" && FreeAndAvailable(k, env, c)
  {
    var named := Filter(FreeTest(k, env), PlacementsOf(k, env, model, order));
    forall c ensures c in named <==> Placed(k, env, model, c) && c.model != "" && FreeAndAvailable(k, env, c) {
      NamedFree(k, env, model, order, c);
    }
    assert place in named && planned == named;
  }

  /** What makes one of the gateway's own choices worth an attempt. */
  lemma ServiceableMeans(k: Knowledge, env: Surroundings, c: Candidate)
    ensures Serviceable(k, env)(c) <==>
      c.provider in env.keys && env.keys[c.provider] != "" && !env.benched(c)
      && (c.provider in k.discovered && k.discovered[c.provider] != [] ==>
            exists p :: p in k.discovered[c.provider] && env.names.lower(p.model) == env.names.lower(c.model))
  {
    if c.provider in k.discovered {
      var listed := k.discovered[c.provider];
      if p :| p in listed && env.names.lower(p.model) == env.names.lower(c.model) {
        var i :| 0 <= i < |listed| && listed[i] == p;
        assert StillListed(k, env, c);
      }
      if StillListed(k, env, c) && listed != [] {
        var i :| 0 <= i < |listed| && env.names.lower(listed[i].model) == env.names.lower(c.model);
        assert listed[i] in listed;
      }
    }
  }

  /** A request without a model is planned as one for the default model. */
  lemma NoModelIsDefault(k: Knowledge, cfg: Config, env: Surroundings, order: seq<string>, orders: seq<seq<string>>)
    requires cfg.defaultModel != "" && Enumerates(order, k.discovered)
    requires |cfg.fallbackModels| == |orders| && AllEnumerate(orders, k.discovered)
    ensures NamedChain(k, cfg, env, "", order, orders) == NamedChain(k, cfg, env, cfg.defaultModel, order, orders)
  {}

  /** What is kept of a list without repeats keeps the order of first appearances. */
  lemma {:induction false} UniquesInOrder(cands: seq<Candidate>, taken: set<Candidate>, i: nat, j: nat) returns (p: nat)
    requires i < j < |Uniques(cands, taken)|
    ensures p < |cands| && cands[p] == Uniques(cands, taken)[i]
    ensures forall q :: 0 <= q <= p ==> cands[q] != Uniques(cands, taken)[j]
  {
    var n := |cands| - 1;
    UniquesAre(cands[..n], taken);
    if j < |Uniques(cands[..n], taken)| {
      p := UniquesInOrder(cands[..n], taken, i, j);
    } else {
      var x := Uniques(cands[..n], taken)[i];
      assert x in cands[..n];
      p :| 0 <= p < n && cands[..n][p] == x;
      forall q | 0 <= q <= p ensures cands[q] != cands[n] {
        assert cands[..n][q] == cands[q] && cands[..n][q] in cands[..n];
      }
    }
  }
}
