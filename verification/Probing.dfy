/** Which models a probe sweep tries, and in what order. */
module Probing {
  import opened Sequences
  import opened StableSort
  import opened Models
  import opened Scoring
  import opened Catalogue
  import opened Ordering
  import opened RoundRobin
  import opened Picking

  function KeyedProfile(keys: map<string, string>): Profile -> bool {
    (p: Profile) => Keyed(keys, p.provider)
  }

  /** Confirmed, then never tried, then tried and refused. */
  function ProbeState(k: Knowledge, p: Profile): real {
    if k.Confirmed(p.Place()) then 0.0
    else if k.Probed(p.Place()) then 2.0
    else 1.0
  }

  function InState(k: Knowledge, state: real): Profile -> bool {
    (p: Profile) => ProbeState(k, p) == state
  }

  function ByState(k: Knowledge): (Profile, Profile) -> bool {
    ByKey((p: Profile) => ProbeState(k, p))
  }

  function ByProvider(): (Profile, Profile) -> bool {
    (a: Profile, b: Profile) => Before(a.provider, b.provider)
  }

  /** One provider's models in the order a sweep tries them. */
  function ProbeOrder(k: Knowledge, models: seq<Profile>): seq<Profile> {
    Filter(InState(k, 0.0), models) + Filter(InState(k, 1.0), models) + Filter(InState(k, 2.0), models)
  }

  method SplitByProbeState(models: seq<Profile>, k: Knowledge)
    returns (confirmed: seq<Profile>, unprobed: seq<Profile>, failed: seq<Profile>)
    ensures confirmed == Filter(InState(k, 0.0), models)
    ensures unprobed == Filter(InState(k, 1.0), models)
    ensures failed == Filter(InState(k, 2.0), models)
  {
    confirmed, unprobed, failed := [], [], [];
    for i := 0 to |models|
      invariant confirmed == Filter(InState(k, 0.0), models[..i])
      invariant unprobed == Filter(InState(k, 1.0), models[..i])
      invariant failed == Filter(InState(k, 2.0), models[..i])
    {
      var p := models[i];
      PrefixSnoc(models, i);
      FilterSnoc(InState(k, 0.0), models[..i], p);
      FilterSnoc(InState(k, 1.0), models[..i], p);
      FilterSnoc(InState(k, 2.0), models[..i], p);
      if k.Confirmed(p.Place()) {
        confirmed := confirmed + [p];
      } else if k.Probed(p.Place()) {
        failed := failed + [p];
      } else {
        unprobed := unprobed + [p];
      }
    }
    WholePrefix(models);
  }

  /** Splitting by state and joining again is a stable sort by state. */
  lemma SplitIsStableSort(k: Knowledge, models: seq<Profile>)
    ensures ProbeOrder(k, models) == Sort(ByState(k), models)
  {
    var out := ProbeOrder(k, models);
    var f0, f1, f2 := Filter(InState(k, 0.0), models), Filter(InState(k, 1.0), models), Filter(InState(k, 2.0), models);
    forall x ensures Filter(Ties(ByState(k), x), models) == Filter(Ties(ByState(k), x), out) {
      var t := Ties(ByState(k), x);
      FilterAppend(t, f0 + f1, f2);
      FilterAppend(t, f0, f1);
      TiesOfState(k, models, x, 0.0);
      TiesOfState(k, models, x, 1.0);
      TiesOfState(k, models, x, 2.0);
      FilterSame(t, InState(k, ProbeState(k, x)), models);
    }
    forall p | p in f0 ensures ProbeState(k, p) == 0.0 { FilterMember(InState(k, 0.0), models, p); }
    forall p | p in f1 ensures ProbeState(k, p) == 1.0 { FilterMember(InState(k, 1.0), models, p); }
    forall p | p in f2 ensures ProbeState(k, p) == 2.0 { FilterMember(InState(k, 2.0), models, p); }
    forall i, j | 0 <= i < j < |out| ensures !ByState(k)(out[j], out[i]) {
      StateAt(k, f0, f1, f2, i);
      StateAt(k, f0, f1, f2, j);
    }
    SortUnique(ByState(k), models, out);
  }

  lemma StateAt(k: Knowledge, f0: seq<Profile>, f1: seq<Profile>, f2: seq<Profile>, i: nat)
    requires i < |f0 + f1 + f2|
    requires (forall p :: p in f0 ==> ProbeState(k, p) == 0.0) && (forall p :: p in f1 ==> ProbeState(k, p) == 1.0)
    requires forall p :: p in f2 ==> ProbeState(k, p) == 2.0
    ensures ProbeState(k, (f0 + f1 + f2)[i]) == if i < |f0| then 0.0 else if i < |f0| + |f1| then 1.0 else 2.0
  {
    var x := (f0 + f1 + f2)[i];
    if i < |f0| {
      assert x == f0[i];
    } else if i < |f0| + |f1| {
      assert x == f1[i - |f0|];
    } else {
      assert x == f2[i - |f0| - |f1|];
    }
  }

  lemma TiesOfState(k: Knowledge, models: seq<Profile>, x: Profile, state: real)
    ensures Filter(Ties(ByState(k), x), Filter(InState(k, state), models)) ==
      if ProbeState(k, x) == state then Filter(InState(k, state), models) else []
  {
    var t, f := Ties(ByState(k), x), Filter(InState(k, state), models);
    forall p | p in f ensures t(p) <==> ProbeState(k, x) == state {
      FilterMember(InState(k, state), models, p);
    }
    if ProbeState(k, x) == state {
      FilterAll(t, f);
    } else {
      FilterNone(t, f);
    }
  }

  /** The pool a free sweep works from: keyed free models in routing's own order. */
  ghost function SweepPool(k: Knowledge, keys: map<string, string>, objective: string, names: Names): seq<Profile> {
    Filter(KeyedProfile(keys), Sort(GeneralFirst("conversation", objective, names), FreePool(k)))
  }

  /** The whole order of a sweep: by provider name, then probe state, then routing's order. */
  function SweepOrder(k: Knowledge): (Profile, Profile) -> bool {
    Lex(ByProvider(), ByState(k))
  }

  lemma ByProviderStrictWeak()
    ensures StrictWeak(ByProvider())
  {
    forall a, b | ByProvider()(a, b) ensures !ByProvider()(b, a) {
      BeforeTotal(a.provider, b.provider);
    }
    forall a, b, c | ByProvider()(a, c) ensures ByProvider()(a, b) || ByProvider()(b, c) {
      BeforeTotal(a.provider, b.provider);
      if Before(b.provider, a.provider) {
        BeforeTransitive(b.provider, a.provider, c.provider);
      }
    }
  }

  /** One provider's queue after another, for providers in name order. */
  function Grouped(k: Knowledge, pool: seq<Profile>, order: seq<string>): seq<Profile> {
    if order == [] then []
    else Grouped(k, pool, order[..|order| - 1]) + ProbeOrder(k, Queue(ProfileProvider, pool, order[|order| - 1]))
  }

  predicate InOrder(order: seq<string>) {
    forall i, j :: 0 <= i < j < |order| ==> Before(order[i], order[j])
  }

  lemma ProbeOrderMember(k: Knowledge, models: seq<Profile>, p: Profile)
    ensures p in ProbeOrder(k, models) <==> p in models
  {
    SplitIsStableSort(k, models);
    SortMember(ByState(k), models);
  }

  lemma {:induction false} GroupedMember(k: Knowledge, pool: seq<Profile>, order: seq<string>, p: Profile)
    ensures p in Grouped(k, pool, order) <==> p in pool && p.provider in order
  {
    if order != [] {
      var name := order[|order| - 1];
      GroupedMember(k, pool, order[..|order| - 1], p);
      ProbeOrderMember(k, Queue(ProfileProvider, pool, name), p);
      QueueMember(ProfileProvider, pool, name, p);
      assert order == order[..|order| - 1] + [name];
    }
  }

  lemma {:induction false} GroupedSorted(k: Knowledge, pool: seq<Profile>, order: seq<string>)
    requires InOrder(order)
    ensures Sorted(SweepOrder(k), Grouped(k, pool, order))
  {
    if order != [] {
      var rest, name := order[..|order| - 1], order[|order| - 1];
      var queue := Queue(ProfileProvider, pool, name);
      GroupedSorted(k, pool, rest);
      SplitIsStableSort(k, queue);
      SortIsStable(ByState(k), queue);
      forall p | p in ProbeOrder(k, queue) ensures p.provider == name {
        QueueProvider(k, pool, name, p);
      }
      forall p | p in Grouped(k, pool, rest) ensures Before(p.provider, name) {
        GroupedMember(k, pool, rest, p);
      }
      NextGroup(k, Grouped(k, pool, rest), ProbeOrder(k, queue), name);
    }
  }

  /** A group sorted by state, behind groups of earlier providers. */
  lemma NextGroup(k: Knowledge, head: seq<Profile>, tail: seq<Profile>, name: string)
    requires Sorted(SweepOrder(k), head) && Sorted(ByState(k), tail)
    requires forall p :: p in head ==> Before(p.provider, name)
    requires forall p :: p in tail ==> p.provider == name
    ensures Sorted(SweepOrder(k), head + tail)
  {
    var all := head + tail;
    forall i, j | 0 <= i < j < |all| ensures !SweepOrder(k)(all[j], all[i]) {
      if j >= |head| {
        assert all[j] == tail[j - |head|] && tail[j - |head|] in tail;
        if i < |head| {
          assert all[i] == head[i] && head[i] in head;
          LaterProvider(k, all[i], all[j]);
        } else {
          assert all[i] == tail[i - |head|] && tail[i - |head|] in tail;
          SameProvider(k, all[i], all[j]);
        }
      }
    }
  }

  lemma LaterProvider(k: Knowledge, a: Profile, b: Profile)
    requires Before(a.provider, b.provider)
    ensures !SweepOrder(k)(b, a)
  {
    BeforeTotal(a.provider, b.provider);
  }

  lemma SameProvider(k: Knowledge, a: Profile, b: Profile)
    requires a.provider == b.provider && !ByState(k)(b, a)
    ensures !SweepOrder(k)(b, a)
  {
    BeforeTotal(a.provider, a.provider);
  }

  lemma {:induction false} GroupedTies(k: Knowledge, pool: seq<Profile>, order: seq<string>, x: Profile)
    requires InOrder(order)
    ensures Filter(Ties(SweepOrder(k), x), Grouped(k, pool, order)) ==
      if x.provider in order then Filter(Ties(SweepOrder(k), x), pool) else []
  {
    if order != [] {
      var rest, name := order[..|order| - 1], order[|order| - 1];
      var queue := Queue(ProfileProvider, pool, name);
      var t := Ties(SweepOrder(k), x);
      GroupedTies(k, pool, rest, x);
      FilterAppend(t, Grouped(k, pool, rest), ProbeOrder(k, queue));
      QueueTies(k, pool, name, x);
      assert order == rest + [name];
      BeforeTotal(name, name);
    }
  }

  lemma SweepTies(k: Knowledge, x: Profile, y: Profile)
    ensures Ties(SweepOrder(k), x)(y) <==> x.provider == y.provider && ProbeState(k, x) == ProbeState(k, y)
  {
    BeforeTotal(x.provider, y.provider);
  }

  lemma QueueProvider(k: Knowledge, pool: seq<Profile>, name: string, p: Profile)
    requires p in ProbeOrder(k, Queue(ProfileProvider, pool, name))
    ensures p.provider == name
  {
    ProbeOrderMember(k, Queue(ProfileProvider, pool, name), p);
    QueueMember(ProfileProvider, pool, name, p);
  }

  lemma QueueTies(k: Knowledge, pool: seq<Profile>, name: string, x: Profile)
    ensures Filter(Ties(SweepOrder(k), x), ProbeOrder(k, Queue(ProfileProvider, pool, name))) ==
      if x.provider == name then Filter(Ties(SweepOrder(k), x), pool) else []
  {
    if x.provider == name {
      OwnQueueTies(k, pool, x);
    } else {
      var t, out := Ties(SweepOrder(k), x), ProbeOrder(k, Queue(ProfileProvider, pool, name));
      forall y | y in out ensures !t(y) {
        QueueProvider(k, pool, name, y);
        SweepTies(k, x, y);
      }
      FilterNone(t, out);
    }
  }

  lemma OwnQueueTies(k: Knowledge, pool: seq<Profile>, x: Profile)
    ensures Filter(Ties(SweepOrder(k), x), ProbeOrder(k, Queue(ProfileProvider, pool, x.provider))) ==
      Filter(Ties(SweepOrder(k), x), pool)
  {
    var t, s, h := Ties(SweepOrder(k), x), Ties(ByState(k), x), Has(ProfileProvider, x.provider);
    var q := Queue(ProfileProvider, pool, x.provider);
    var out := ProbeOrder(k, q);
    forall y | y in out ensures t(y) <==> s(y) {
      QueueProvider(k, pool, x.provider, y);
      SweepTies(k, x, y);
    }
    FilterSame(t, s, out);
    SplitIsStableSort(k, q);
    SortIsStable(ByState(k), q);
    assert Filter(s, q) == Filter(s, out);
    forall y | y in pool ensures t(y) <==> s(y) && h(y) {
      SweepTies(k, x, y);
      assert h(y) <==> ProfileProvider(y) == x.provider;
      assert s(y) <==> ProbeState(k, x) == ProbeState(k, y);
    }
    FilterTwice(s, h, t, pool);
  }

  /** Grouping by provider and splitting by state amounts to one stable sort. */
  lemma GroupingIsStableSort(k: Knowledge, pool: seq<Profile>, order: seq<string>)
    requires InOrder(order) && forall p :: p in pool ==> p.provider in order
    ensures Grouped(k, pool, order) == Sort(SweepOrder(k), pool)
  {
    ByProviderStrictWeak();
    LexStrictWeak(ByProvider(), ByState(k));
    GroupedSorted(k, pool, order);
    forall x ensures Filter(Ties(SweepOrder(k), x), pool) == Filter(Ties(SweepOrder(k), x), Grouped(k, pool, order)) {
      GroupedTies(k, pool, order, x);
      if x.provider !in order {
        forall y | y in pool ensures !Ties(SweepOrder(k), x)(y) { SweepTies(k, x, y); }
        FilterNone(Ties(SweepOrder(k), x), pool);
      }
    }
    SortUnique(SweepOrder(k), pool, Grouped(k, pool, order));
  }

  // ---- sort.Strings on distinct names ----

  lemma {:induction false} SortedNames(names: seq<string>)
    requires Distinct(names)
    ensures InOrder(Sort(Before, names)) && forall name :: name in Sort(Before, names) <==> name in names
  {
    BeforeStrictWeak();
    SortIsStable(Before, names);
    SortPermutes(Before, names);
    var out := Sort(Before, names);
    forall name ensures name in out <==> name in names {
      assert name in out <==> name in multiset(out);
      assert name in names <==> name in multiset(names);
    }
    forall i, j | 0 <= i < j < |out| ensures Before(out[i], out[j]) {
      BeforeTotal(out[i], out[j]);
      if out[i] == out[j] {
        TwiceInSeq(out, i, j);
        DistinctOnce(names, out[i]);
      }
    }
  }

  lemma BeforeStrictWeak()
    ensures StrictWeak(Before)
  {
    forall a, b | Before(a, b) ensures !Before(b, a) { BeforeTotal(a, b); }
    forall a, b, c | Before(a, c) ensures Before(a, b) || Before(b, c) {
      BeforeTotal(a, b);
      if Before(b, a) { BeforeTransitive(b, a, c); }
    }
  }

  lemma TwiceInSeq<T>(s: seq<T>, i: nat, j: nat)
    requires i < j < |s| && s[i] == s[j]
    ensures multiset(s)[s[i]] >= 2
  {
    assert s == s[..j] + s[j..];
    assert multiset(s) == multiset(s[..j]) + multiset(s[j..]);
    assert s[..j][i] in s[..j] && s[j..][0] in s[j..];
    assert multiset(s[..j])[s[i]] >= 1 && multiset(s[j..])[s[i]] >= 1;
  }

  lemma {:induction false} DistinctOnce<T>(s: seq<T>, x: T)
    requires Distinct(s)
    ensures multiset(s)[x] <= 1
  {
    if s != [] {
      DistinctOnce(s[..|s| - 1], x);
      assert s == s[..|s| - 1] + [s[|s| - 1]];
      if s[|s| - 1] == x {
        assert x !in s[..|s| - 1];
        assert multiset(s[..|s| - 1])[x] == 0;
      }
    }
  }

  // ---- the sweep ----

  /** What a marked model adds behind the sweep, unless it is in it already. */
  function Extras(k: Knowledge, keys: map<string, string>, targets: seq<Candidate>, models: seq<Profile>): seq<Candidate> {
    if models == [] then targets
    else
      var before := Extras(k, keys, targets, models[..|models| - 1]);
      var p := models[|models| - 1];
      if Keyed(keys, p.provider) && k.TagsFor(p.Place()) != [] && p.Place() !in before then before + [p.Place()] else before
  }

  method FreeProbeTargets(catalog: Catalog, keys: map<string, string>, objective: string, names: Names)
    returns (out: seq<Candidate>)
    ensures WellFiled(catalog.discovered) ==>
      var k := catalog.View();
      out == Extras(k, keys, Map(PlaceOf, Sort(SweepOrder(k), SweepPool(k, keys, objective, names))), AllDiscovered(k.discovered))
  {
    var k := catalog.View();
    var free := catalog.FreeModels();
    var ranked := RankForTask(free, "conversation", objective, names);
    ranked := Sort(FalseFirst(Specialised(names)), ranked);
    GeneralPasses(free, "conversation", objective, names);
    var pool := [];
    for i := 0 to |ranked|
      invariant pool == Filter(KeyedProfile(keys), ranked[..i])
    {
      PrefixSnoc(ranked, i);
      FilterSnoc(KeyedProfile(keys), ranked[..i], ranked[i]);
      if Keyed(keys, ranked[i].provider) {
        pool := pool + [ranked[i]];
      }
    }
    WholePrefix(ranked);
    var core := SweepKeyed(pool, k);
    var discovered := catalog.Discovered();
    out := AddMarked(core, discovered, keys, k);
  }

  /** Groups the pool by provider, sorts the providers and splits each by probe state. */
  method SweepKeyed(pool: seq<Profile>, k: Knowledge) returns (out: seq<Candidate>)
    ensures out == Map(PlaceOf, Sort(SweepOrder(k), pool))
  {
    var order, byProvider := GroupByProvider(pool);
    forall name | name in byProvider ensures byProvider[name] == Queue(ProfileProvider, pool, name) {
      QueueShorter(ProfileProvider, pool, name);
      TakeAll(Queue(ProfileProvider, pool, name), |pool|);
    }
    FirstsAre(ProfileProvider, pool);
    SortedNames(order);
    order := Sort(Before, order);
    assert forall p :: p in pool ==> ProfileProvider(p) in order;
    GroupingIsStableSort(k, pool, order);
    var models := JoinGroups(order, byProvider, pool, k);
    out := Map(PlaceOf, models);
  }

  method JoinGroups(order: seq<string>, byProvider: map<string, seq<Profile>>, ghost pool: seq<Profile>, k: Knowledge)
    returns (models: seq<Profile>)
    requires forall name :: name in order ==> name in byProvider && byProvider[name] == Queue(ProfileProvider, pool, name)
    ensures models == Grouped(k, pool, order)
  {
    models := [];
    for i := 0 to |order|
      invariant models == Grouped(k, pool, order[..i])
    {
      var confirmed, unprobed, failed := SplitByProbeState(byProvider[order[i]], k);
      assert order[..i + 1][..i] == order[..i];
      models := models + (confirmed + unprobed + failed);
    }
    WholePrefix(order);
  }

  method AddMarked(targets: seq<Candidate>, models: seq<Profile>, keys: map<string, string>, k: Knowledge)
    returns (out: seq<Candidate>)
    ensures out == Extras(k, keys, targets, models)
  {
    out := targets;
    for i := 0 to |models|
      invariant out == Extras(k, keys, targets, models[..i])
    {
      assert models[..i + 1][..i] == models[..i];
      var p := models[i];
      if Keyed(keys, p.provider) && k.TagsFor(p.Place()) != [] {
        if p.Place() !in out {
          out := out + [p.Place()];
        }
      }
    }
    WholePrefix(models);
  }

  lemma {:induction false} ExtrasKeep(k: Knowledge, keys: map<string, string>, targets: seq<Candidate>, models: seq<Profile>)
    ensures targets <= Extras(k, keys, targets, models)
    ensures forall p :: p in models && Keyed(keys, p.provider) && k.TagsFor(p.Place()) != [] ==> p.Place() in Extras(k, keys, targets, models)
  {
    if models != [] {
      ExtrasKeep(k, keys, targets, models[..|models| - 1]);
      assert models == models[..|models| - 1] + [models[|models| - 1]];
    }
  }

  /** The sweep rearranges the keyed free pool, and reaches every model free routing could ever use. */
  lemma SweepCoversFreePool(k: Knowledge, keys: map<string, string>, objective: string, names: Names, p: Profile)
    requires WellFiled(k.discovered)
    ensures
      var pool := SweepPool(k, keys, objective, names);
      var core := Sort(SweepOrder(k), pool);
      && multiset(core) == multiset(pool)
      && (p in core <==> p.Free() && Known(k, p) && Keyed(keys, p.provider))
      && (p in core ==> p.Place() in Extras(k, keys, Map(PlaceOf, core), AllDiscovered(k.discovered)))
  {
    var pool := SweepPool(k, keys, objective, names);
    var core := Sort(SweepOrder(k), pool);
    ByProviderStrictWeak();
    LexStrictWeak(ByProvider(), ByState(k));
    SortPermutes(SweepOrder(k), pool);
    SortMember(SweepOrder(k), pool);
    GeneralPasses(FreePool(k), "conversation", objective, names);
    SortMember(GeneralFirst("conversation", objective, names), FreePool(k));
    FilterMember(KeyedProfile(keys), Sort(GeneralFirst("conversation", objective, names), FreePool(k)), p);
    ListedMember(k.profiles, IsFree, k.discovered, SomeOrder(k.discovered.Keys), p);
    ExtrasKeep(k, keys, Map(PlaceOf, core), AllDiscovered(k.discovered));
    if p in core {
      var i :| 0 <= i < |core| && core[i] == p;
      assert Map(PlaceOf, core)[i] == p.Place();
    }
  }

  /** Confirmed first, never tried next, tried and refused last. */
  lemma StateMeans(k: Knowledge, a: Profile, b: Profile)
    ensures var ca, cb := a.provider + "/" + a.model in k.confirmed, b.provider + "/" + b.model in k.confirmed;
      var ta, tb := a.provider + "/" + a.model in k.probed, b.provider + "/" + b.model in k.probed;
      ByState(k)(a, b) <==> (ca && !cb) || (!ca && !cb && !ta && tb)
  {}

  /** In a sweep no model comes after one of a later provider, or of its own provider in a worse state. */
  lemma SweepInOrder(k: Knowledge, pool: seq<Profile>, i: nat, j: nat)
    requires i < j < |Sort(SweepOrder(k), pool)|
    ensures var p, q := Sort(SweepOrder(k), pool)[i], Sort(SweepOrder(k), pool)[j];
      Before(p.provider, q.provider) || (p.provider == q.provider && !ByState(k)(q, p))
  {
    ByProviderStrictWeak();
    LexStrictWeak(ByProvider(), ByState(k));
    SortIsStable(SweepOrder(k), pool);
    var p, q := Sort(SweepOrder(k), pool)[i], Sort(SweepOrder(k), pool)[j];
    assert !SweepOrder(k)(q, p);
    BeforeTotal(p.provider, q.provider);
  }

  /** Behind the sweep come the marked models of keyed providers that are not in it, each once, and nothing else. */
  lemma {:induction false} ExtrasAre(k: Knowledge, keys: map<string, string>, targets: seq<Candidate>, models: seq<Profile>, c: Candidate)
    requires Distinct(targets)
    ensures Distinct(Extras(k, keys, targets, models))
    ensures c in Extras(k, keys, targets, models) <==>
      c in targets || exists p :: p in models && p.Place() == c && c.provider in keys && keys[c.provider] != "" && k.TagsFor(c) != []
  {
    if models != [] {
      var n := |models| - 1;
      ExtrasAre(k, keys, targets, models[..n], c);
      assert models == models[..n] + [models[n]];
    }
  }

  lemma {:induction false} FilterKeepsSorted(less: (Profile, Profile) -> bool, keep: Profile -> bool, s: seq<Profile>)
    requires Sorted(less, s)
    ensures Sorted(less, Filter(keep, s))
  {
    if s != [] {
      var n := |s| - 1;
      FilterKeepsSorted(less, keep, s[..n]);
      forall x | x in Filter(keep, s[..n]) ensures !less(s[n], x) {
        FilterMember(keep, s[..n], x);
        var i :| 0 <= i < n && s[i] == x;
      }
    }
  }

  /** Where two kept elements land: in the same order. */
  lemma KeptInOrder(keep: Profile -> bool, s: seq<Profile>, i: nat, j: nat) returns (a: nat, b: nat)
    requires i < j < |s| && keep(s[i]) && keep(s[j])
    ensures a < b < |Filter(keep, s)| && Filter(keep, s)[a] == s[i] && Filter(keep, s)[b] == s[j]
  {
    a, b := |Filter(keep, s[..i])|, |Filter(keep, s[..j])|;
    FilterPosition(keep, s, i);
    FilterPosition(keep, s, j);
    FilterPosition(keep, s[..j], i);
    assert s[..j][..i] == s[..i];
  }

  /** Models of one provider in one state are swept in the order chat traffic would rank them: general ones first, then the better rated. */
  lemma SweepRanksAsChat(k: Knowledge, keys: map<string, string>, objective: string, names: Names, i: nat, j: nat)
    requires i < j < |Sort(SweepOrder(k), SweepPool(k, keys, objective, names))|
    ensures var core := Sort(SweepOrder(k), SweepPool(k, keys, objective, names));
      var p, q := core[i], core[j];
      p.provider == q.provider && ProbeState(k, p) == ProbeState(k, q) ==>
        if names.specialised(p.model) == names.specialised(q.model)
        then Evidence(p, "conversation", objective, names) <= Evidence(q, "conversation", objective, names)
        else !names.specialised(p.model)
  {
    var pool := SweepPool(k, keys, objective, names);
    var core := Sort(SweepOrder(k), pool);
    var p, q := core[i], core[j];
    if p.provider == q.provider && ProbeState(k, p) == ProbeState(k, q) {
      var less, ties := GeneralFirst("conversation", objective, names), Ties(SweepOrder(k), p);
      GeneralPasses(FreePool(k), "conversation", objective, names);
      SortIsStable(less, FreePool(k));
      FilterKeepsSorted(less, KeyedProfile(keys), Sort(less, FreePool(k)));
      FilterKeepsSorted(less, ties, pool);
      ByProviderStrictWeak();
      LexStrictWeak(ByProvider(), ByState(k));
      SortIsStable(SweepOrder(k), pool);
      SweepTies(k, p, p);
      SweepTies(k, p, q);
      var a, b := KeptInOrder(ties, core, i, j);
      assert Filter(ties, core) == Filter(ties, pool);
      assert !less(q, p);
    }
  }
}
