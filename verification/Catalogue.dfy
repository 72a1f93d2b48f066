/**
 The routing catalogue. Discovered models live in a map by provider, which Go walks in no
 particular order; the sort that follows is what makes the listings reproducible.
 */
module Catalogue {
  import opened Sequences
  import opened StableSort
  import opened Models
  import opened Discovery

  type Discovered = map<string, seq<Profile>>

  /** What routing knows at one moment. */
  datatype Knowledge = Knowledge(
    profiles: seq<Profile>,
    discovered: Discovered,
    confirmed: set<string>,
    probed: set<string>,
    tags: map<string, seq<Task>>,
    blacklist: set<string>)
  {
    predicate Confirmed(c: Candidate) { FileKey(c) in confirmed }

    predicate Probed(c: Candidate) { FileKey(c) in probed }

    predicate Blacklisted(c: Candidate) { FileKey(c) in blacklist }

    predicate AnyConfirmed() { confirmed != {} }

    function TagsFor(c: Candidate): seq<Task> {
      if FileKey(c) in tags then tags[FileKey(c)] else []
    }

    predicate HasTagsFor(task: Task) {
      exists key :: key in tags && task in tags[key]
    }

    predicate Tagged(p: Profile, task: Task) {
      task in TagsFor(p.Place())
    }
  }

  // ---- order of strings and places ----

  /** Go's byte order on UTF-8 strings is the order of their code points. */
  predicate Before(a: string, b: string) {
    b != "" && (a == "" || a[0] < b[0] || (a[0] == b[0] && Before(a[1..], b[1..])))
  }

  predicate PlaceBefore(a: Profile, b: Profile) {
    if a.provider != b.provider then Before(a.provider, b.provider) else Before(a.model, b.model)
  }

  lemma {:induction false} BeforeTotal(a: string, b: string)
    ensures !(Before(a, b) && Before(b, a))
    ensures a == b || Before(a, b) || Before(b, a)
  {
    if a != "" && b != "" && a[0] == b[0] {
      BeforeTotal(a[1..], b[1..]);
      assert a == [a[0]] + a[1..] && b == [b[0]] + b[1..];
    }
  }

  lemma {:induction false} BeforeTransitive(a: string, b: string, c: string)
    requires Before(a, b) && Before(b, c)
    ensures Before(a, c)
  {
    if a != "" && a[0] == b[0] == c[0] {
      BeforeTransitive(a[1..], b[1..], c[1..]);
    }
  }

  lemma PlaceBeforeStrictWeak()
    ensures StrictWeak(PlaceBefore)
  {
    forall a, b | PlaceBefore(a, b) ensures !PlaceBefore(b, a) {
      BeforeTotal(a.provider, b.provider);
      BeforeTotal(a.model, b.model);
    }
    forall a, b, c | PlaceBefore(a, c) ensures PlaceBefore(a, b) || PlaceBefore(b, c) {
      PlaceBeforeSplits(a, b, c);
    }
  }

  lemma PlaceBeforeSplits(a: Profile, b: Profile, c: Profile)
    requires PlaceBefore(a, c)
    ensures PlaceBefore(a, b) || PlaceBefore(b, c)
  {
    BeforeTotal(a.provider, b.provider);
    BeforeTotal(b.provider, c.provider);
    BeforeTotal(a.model, b.model);
    BeforeTotal(b.model, c.model);
    if Before(b.provider, a.provider) && a.provider != c.provider {
      BeforeTransitive(b.provider, a.provider, c.provider);
    }
    if Before(b.model, a.model) && a.provider == c.provider {
      BeforeTransitive(b.model, a.model, c.model);
    }
  }

  /** Two models tie only when provider and name are the same. */
  lemma PlaceTies(x: Profile, y: Profile)
    ensures Ties(PlaceBefore, x)(y) <==> x.provider == y.provider && x.model == y.model
  {
    BeforeTotal(x.provider, y.provider);
    BeforeTotal(x.model, y.model);
    assert Ties(PlaceBefore, x)(y) <==> !PlaceBefore(x, y) && !PlaceBefore(y, x);
  }

  // ---- walking a map ----

  /** An order in which a range loop may visit the providers. */
  ghost predicate Enumerates(order: seq<string>, d: Discovered) {
    Distinct(order) && forall name :: name in order <==> name in d
  }

  function Gather(d: Discovered, order: seq<string>): seq<Profile>
    requires forall name :: name in order ==> name in d
  {
    if order == [] then [] else Gather(d, order[..|order| - 1]) + d[order[|order| - 1]]
  }

  /** Each provider's list names that provider, which is how discovery files them. */
  ghost predicate WellFiled(d: Discovered) {
    forall name, i :: name in d && 0 <= i < |d[name]| ==> d[name][i].provider == name
  }

  // ---- where listed models come from ----

  /** The rows each provider last answered with. */
  type Answers = map<string, seq<Row>>

  ghost predicate ListFrom(name: string, listed: seq<Profile>, rows: seq<Row>, units: Units) {
    |listed| == |rows| && forall i :: 0 <= i < |listed| ==> ReadFrom(name, listed[i], rows[i], units)
  }

  /** Every list is its provider's own answer, row by row, measurements apart. */
  ghost predicate AsAnswered(d: Discovered, answers: Answers, units: Units) {
    d.Keys == answers.Keys && forall name :: name in d ==> ListFrom(name, d[name], answers[name], units)
  }

  /** One row of the provider's last answer has the model's id and publishes both of its prices as zero. */
  predicate PublishedFree(answers: Answers, p: Profile, units: Units) {
    p.provider in answers
    && exists i :: 0 <= i < |answers[p.provider]| && answers[p.provider][i].id == p.model && PublishesZero(answers[p.provider][i], units)
  }

  /** Lists that are their providers' answers are filed under them, and free in them is only what the answers publish so. */
  lemma AnsweredMeans(d: Discovered, answers: Answers, units: Units)
    requires AsAnswered(d, answers, units)
    ensures WellFiled(d)
    ensures forall name, i :: name in d && 0 <= i < |d[name]| ==>
      i < |answers[name]| && d[name][i].model == answers[name][i].id && (d[name][i].Free() <==> PublishesZero(answers[name][i], units))
    ensures forall name, p :: name in d && p in d[name] && p.Free() ==> PublishedFree(answers, p, units)
  {
    forall name, i | name in d && 0 <= i < |d[name]|
      ensures i < |answers[name]| && d[name][i].provider == name && d[name][i].model == answers[name][i].id
      ensures d[name][i].Free() <==> PublishesZero(answers[name][i], units)
    {
      assert ListFrom(name, d[name], answers[name], units);
      ReadFromMeans(name, d[name][i], answers[name][i], units);
    }
  }

  lemma AnsweredAnew(d: Discovered, answers: Answers, units: Units, provider: string, rows: seq<Row>)
    requires AsAnswered(d, answers, units)
    ensures AsAnswered(d[provider := Map(FromDiscovered, Map(Reading(provider, units), rows))], answers[provider := rows], units)
  {}

  // ---- what traffic teaches ----

  type Measurements = map<string, Reliability>

  /** A measured latency of zero or less leaves the last one standing. */
  function Measure(p: Profile, measured: Measurements): Profile {
    if FileKey(p.Place()) !in measured then p
    else
      var r := measured[FileKey(p.Place())];
      p.(reliability := r, observed := if r.medianLatencyMs > 0 then r.medianLatencyMs else p.observed)
  }

  function Measuring(measured: Measurements): Profile -> Profile {
    (p: Profile) => Measure(p, measured)
  }

  method MeasureAll(listed: seq<Profile>, measured: Measurements) returns (out: seq<Profile>)
    ensures out == Map(Measuring(measured), listed)
  {
    out := listed;
    for i := 0 to |listed|
      invariant |out| == |listed|
      invariant forall j :: 0 <= j < i ==> out[j] == Measure(listed[j], measured)
      invariant forall j :: i <= j < |listed| ==> out[j] == listed[j]
    {
      if FileKey(out[i].Place()) in measured {
        var r := measured[FileKey(out[i].Place())];
        out := out[i := out[i].(reliability := r)];
        if r.medianLatencyMs > 0 {
          out := out[i := out[i].(observed := r.medianLatencyMs)];
        }
      }
    }
  }

  /** Measuring moves no model, changes no price and makes nothing free. */
  lemma MeasuringKeepsAnswers(d: Discovered, d': Discovered, answers: Answers, units: Units, measured: Measurements)
    requires AsAnswered(d, answers, units) && d'.Keys == d.Keys
    requires forall name :: name in d ==> d'[name] == Map(Measuring(measured), d[name])
    ensures AsAnswered(d', answers, units)
  {
    forall name | name in d' ensures ListFrom(name, d'[name], answers[name], units) {
      assert ListFrom(name, d[name], answers[name], units);
      forall i | 0 <= i < |d'[name]| ensures ReadFrom(name, d'[name][i], answers[name][i], units) {
        assert Unmeasured(Measure(d[name][i], measured)) == Unmeasured(d[name][i]);
      }
    }
  }

  lemma NoTiesElsewhere(d: Discovered, name: string, x: Profile)
    requires WellFiled(d) && name in d && name != x.provider
    ensures Filter(Ties(PlaceBefore, x), d[name]) == []
  {
    forall y | y in d[name] ensures !Ties(PlaceBefore, x)(y) {
      PlaceTies(x, y);
    }
    FilterNone(Ties(PlaceBefore, x), d[name]);
  }

  lemma GatherOneMore(d: Discovered, order: seq<string>, p: Profile -> bool)
    requires order != [] && forall name :: name in order ==> name in d
    ensures var n := |order| - 1;
      Filter(p, Gather(d, order)) == Filter(p, Gather(d, order[..n])) + Filter(p, d[order[n]])
  {
    FilterAppend(p, Gather(d, order[..|order| - 1]), d[order[|order| - 1]]);
  }

  /** Gathered models picked by a property that only one provider's models have come from that list alone. */
  lemma {:induction false} GatheredFrom(d: Discovered, order: seq<string>, p: Profile -> bool, home: string)
    requires Distinct(order) && forall name :: name in order ==> name in d
    requires forall name :: name in d && name != home ==> Filter(p, d[name]) == []
    ensures home in order ==> Filter(p, Gather(d, order)) == Filter(p, d[home])
    ensures home !in order ==> Filter(p, Gather(d, order)) == []
  {
    if order != [] {
      var rest, last := order[..|order| - 1], order[|order| - 1];
      GatheredFrom(d, rest, p, home);
      GatherOneMore(d, order, p);
      assert order == rest + [last] && last !in rest;
      if last == home {
        assert home !in rest;
      } else {
        assert Filter(p, d[last]) == [];
      }
    }
  }

  /** Among the gathered models, those tying with x come from x's own provider, in its own order. */
  lemma GatheredTies(d: Discovered, order: seq<string>, x: Profile)
    requires WellFiled(d) && Distinct(order) && forall name :: name in order ==> name in d
    ensures Filter(Ties(PlaceBefore, x), Gather(d, order)) ==
      if x.provider in order then Filter(Ties(PlaceBefore, x), d[x.provider]) else []
  {
    forall name | name in d && name != x.provider ensures Filter(Ties(PlaceBefore, x), d[name]) == [] {
      NoTiesElsewhere(d, name, x);
    }
    GatheredFrom(d, order, Ties(PlaceBefore, x), x.provider);
  }

  /** The kept models of a pool headed by curated entries, as a listing sorts them. */
  function Listed(curated: seq<Profile>, keep: Profile -> bool, d: Discovered, order: seq<string>): seq<Profile>
    requires forall name :: name in order ==> name in d
  {
    Sort(PlaceBefore, Filter(keep, curated + Gather(d, order)))
  }

  lemma TiesOfKept(curated: seq<Profile>, keep: Profile -> bool, d: Discovered, e1: seq<string>, e2: seq<string>, x: Profile)
    requires WellFiled(d) && Enumerates(e1, d) && Enumerates(e2, d)
    ensures Filter(Ties(PlaceBefore, x), Filter(keep, curated + Gather(d, e1))) ==
            Filter(Ties(PlaceBefore, x), Filter(keep, curated + Gather(d, e2)))
  {
    var p := Ties(PlaceBefore, x);
    var both := (y: Profile) => p(y) && keep(y);
    var s, t := curated + Gather(d, e1), curated + Gather(d, e2);
    FilterTwice(p, keep, both, s);
    FilterTwice(keep, p, both, s);
    FilterTwice(p, keep, both, t);
    FilterTwice(keep, p, both, t);
    FilterAppend(p, curated, Gather(d, e1));
    FilterAppend(p, curated, Gather(d, e2));
    GatheredTies(d, e1, x);
    GatheredTies(d, e2, x);
  }

  /** A listing does not depend on the order in which the map was walked. */
  lemma ListingIgnoresMapOrder(curated: seq<Profile>, keep: Profile -> bool, d: Discovered, e1: seq<string>, e2: seq<string>)
    requires WellFiled(d) && Enumerates(e1, d) && Enumerates(e2, d)
    ensures Listed(curated, keep, d, e1) == Listed(curated, keep, d, e2)
  {
    PlaceBeforeStrictWeak();
    var s, t := Filter(keep, curated + Gather(d, e1)), Filter(keep, curated + Gather(d, e2));
    forall x ensures Filter(Ties(PlaceBefore, x), s) == Filter(Ties(PlaceBefore, x), t) {
      TiesOfKept(curated, keep, d, e1, e2, x);
    }
    SortDependsOnTies(PlaceBefore, s, t);
  }

  /** Some order of the providers, for naming the one listing every order gives. */
  ghost function SomeOrder(names: set<string>): (order: seq<string>)
    ensures Distinct(order) && forall name :: name in order <==> name in names
  {
    if names == {} then []
    else
      var name :| name in names;
      SomeOrder(names - {name}) + [name]
  }

  function Everything(p: Profile): bool { true }

  function IsFree(p: Profile): bool { p.Free() }

  ghost function AllDiscovered(d: Discovered): seq<Profile> {
    Listed([], Everything, d, SomeOrder(d.Keys))
  }

  ghost function FreePool(k: Knowledge): seq<Profile> {
    Listed(k.profiles, IsFree, k.discovered, SomeOrder(k.discovered.Keys))
  }

  lemma {:induction false} GatherMember(d: Discovered, order: seq<string>, p: Profile)
    requires forall name :: name in order ==> name in d
    ensures p in Gather(d, order) <==> exists name :: name in order && p in d[name]
  {
    if order != [] {
      GatherMember(d, order[..|order| - 1], p);
      assert order == order[..|order| - 1] + [order[|order| - 1]];
    }
  }

  /** A model is known when the catalogue or its provider's own list carries it. */
  ghost predicate Known(k: Knowledge, p: Profile) {
    p in k.profiles || exists name :: name in k.discovered && p in k.discovered[name]
  }

  /** Exactly this place is listed as free. */
  ghost predicate FreeListed(k: Knowledge, c: Candidate) {
    exists p :: Known(k, p) && p.Free() && p.Place() == c
  }

  lemma ListedMember(curated: seq<Profile>, keep: Profile -> bool, d: Discovered, order: seq<string>, p: Profile)
    requires Enumerates(order, d)
    ensures p in Listed(curated, keep, d, order) <==>
      keep(p) && (p in curated || exists name :: name in d && p in d[name])
  {
    var pool := curated + Gather(d, order);
    PlaceBeforeStrictWeak();
    SortPermutes(PlaceBefore, Filter(keep, pool));
    assert p in Listed(curated, keep, d, order) <==> p in multiset(Filter(keep, pool));
    FilterMember(keep, pool, p);
    GatherMember(d, order, p);
  }

  function Named(target: string, lower: string -> string): Profile -> bool {
    (p: Profile) => lower(p.model) == target
  }

  function Cheaper(): (Profile, Profile) -> bool {
    ByKey((p: Profile) => p.BlendedCost())
  }

  // ---- the catalogue itself ----

  class Catalog {
    var profiles: seq<Profile>
    var confirmed: set<string>
    var probedAt: map<string, int>
    var tags: map<string, seq<Task>>
    var discovered: Discovered
    var blacklist: set<string>
    ghost var answers: Answers

    constructor (profiles: seq<Profile>)
      ensures View() == Knowledge(profiles, map[], {}, {}, map[], {}) && answers == map[]
    {
      answers := map[];
      this.profiles := profiles;
      confirmed, probedAt, tags, discovered, blacklist := {}, map[], map[], map[], {};
    }

    function View(): (k: Knowledge)
      reads this
      ensures k.profiles == profiles && k.discovered == discovered && k.tags == tags
      ensures k.confirmed == confirmed && k.probed == probedAt.Keys && k.blacklist == blacklist
    {
      Knowledge(profiles, discovered, confirmed, probedAt.Keys, tags, blacklist)
    }

    /** Replaces one provider's list, whatever the others say; `rows` is the answer the models were read from. */
    method SetDiscovered(provider: string, models: seq<DiscoveredModel>, ghost rows: seq<Row>)
      modifies this`discovered, this`answers
      ensures discovered == old(discovered)[provider := Map(FromDiscovered, models)]
      ensures answers == old(answers)[provider := rows]
      ensures old(WellFiled(discovered)) && (forall i :: 0 <= i < |models| ==> models[i].provider == provider) ==> WellFiled(discovered)
      ensures forall units :: old(AsAnswered(discovered, answers, units)) && models == Map(Reading(provider, units), rows) ==>
        AsAnswered(discovered, answers, units)
    {
      var converted: seq<Profile> := [];
      for i := 0 to |models|
        invariant converted == Map(FromDiscovered, models[..i])
      {
        converted := converted + [FromDiscovered(models[i])];
      }
      assert models[..|models|] == models;
      discovered := discovered[provider := converted];
      answers := answers[provider := rows];
      forall units | old(AsAnswered(discovered, answers, units)) && models == Map(Reading(provider, units), rows)
        ensures AsAnswered(discovered, answers, units)
      {
        AnsweredAnew(old(discovered), old(answers), units, provider, rows);
      }
    }

    /** Drops a provider whose key was removed. */
    method ForgetDiscovered(provider: string)
      modifies this`discovered, this`answers
      ensures discovered == old(discovered) - {provider} && answers == old(answers) - {provider}
      ensures old(WellFiled(discovered)) ==> WellFiled(discovered)
      ensures forall units :: old(AsAnswered(discovered, answers, units)) ==> AsAnswered(discovered, answers, units)
    {
      discovered := discovered - {provider};
      answers := answers - {provider};
    }

    /** Folds measured behaviour into every entry it names, curated or discovered, and touches no other. */
    method ObserveReliability(measured: Measurements)
      modifies this`profiles, this`discovered
      ensures profiles == Map(Measuring(measured), old(profiles))
      ensures discovered.Keys == old(discovered.Keys)
      ensures forall name :: name in discovered ==> discovered[name] == Map(Measuring(measured), old(discovered)[name])
      ensures old(WellFiled(discovered)) ==> WellFiled(discovered)
      ensures forall units :: old(AsAnswered(discovered, answers, units)) ==> AsAnswered(discovered, answers, units)
    {
      profiles := MeasureAll(profiles, measured);
      var left := discovered.Keys;
      while left != {}
        invariant profiles == Map(Measuring(measured), old(profiles))
        invariant left <= discovered.Keys == old(discovered.Keys)
        invariant forall name :: name in discovered ==>
          discovered[name] == if name in left then old(discovered)[name] else Map(Measuring(measured), old(discovered)[name])
        decreases left
      {
        var name :| name in left;
        var models := MeasureAll(discovered[name], measured);
        discovered := discovered[name := models];
        left := left - {name};
      }
      forall units | old(AsAnswered(discovered, answers, units)) ensures AsAnswered(discovered, answers, units) {
        MeasuringKeepsAnswers(old(discovered), discovered, answers, units, measured);
      }
    }

    /** Only keys recorded as working count as confirmed; every key in the report was attempted. */
    method SetConfirmed(report: map<string, bool>, now: int)
      modifies this`confirmed, this`probedAt
      ensures forall key :: key in confirmed <==> key in report && report[key]
      ensures probedAt.Keys == old(probedAt.Keys) + report.Keys
      ensures forall key :: key in probedAt ==> probedAt[key] == if key in report then now else old(probedAt)[key]
    {
      probedAt := map key | key in probedAt.Keys + report.Keys :: if key in report then now else probedAt[key];
      confirmed := set key | key in report && report[key];
    }

    /** Records attempts without confirming anything. */
    method MarkProbed(keys: seq<string>, now: int)
      modifies this`probedAt
      ensures forall key :: key in probedAt <==> key in old(probedAt) || key in keys
      ensures forall key :: key in probedAt ==> probedAt[key] == if key in keys then now else old(probedAt)[key]
    {
      for i := 0 to |keys|
        invariant forall key :: key in probedAt <==> key in old(probedAt) || key in keys[..i]
        invariant forall key :: key in probedAt ==> probedAt[key] == if key in keys[..i] then now else old(probedAt)[key]
      {
        probedAt := probedAt[keys[i] := now];
      }
    }

    /** Walks the map in whatever order it comes and still returns the one listing. */
    method Discovered() returns (out: seq<Profile>)
      ensures WellFiled(discovered) ==> out == AllDiscovered(discovered)
    {
      out := [];
      var left := discovered.Keys;
      ghost var order: seq<string> := [];
      while left != {}
        invariant left <= discovered.Keys && Walked(order, discovered, left)
        invariant out == Gather(discovered, order)
        decreases left
      {
        var name :| name in left;
        WalkOne(order, discovered, left, name);
        out := out + discovered[name];
        order := order + [name];
        left := left - {name};
      }
      FilterAll(Everything, Gather(discovered, order));
      assert [] + Gather(discovered, order) == Gather(discovered, order);
      out := Sort(PlaceBefore, out);
      if WellFiled(discovered) {
        ListingIgnoresMapOrder([], Everything, discovered, order, SomeOrder(discovered.Keys));
      }
    }

    method FreeModels() returns (out: seq<Profile>)
      ensures WellFiled(discovered) ==> out == FreePool(View())
      ensures forall p :: p in out <==> p.Free() && Known(View(), p)
    {
      out := FreeModelsOf(View());
    }

    /** Everywhere a name is served, cheapest first; ties fall to the curated entries, then to the map's order. */
    method Resolve(model: string, lower: string -> string) returns (out: seq<Profile>, ghost order: seq<string>)
      ensures model == "" ==> out == []
      ensures model != "" ==>
        && Enumerates(order, discovered)
        && out == Resolved(profiles, discovered, order, lower(model), lower)
        && (forall p :: p in out <==> Known(View(), p) && lower(p.model) == lower(model))
    {
      out, order := ResolveIn(View(), model, lower);
    }
  }

  // ---- the two readings that walk everything known ----

  method FreeModelsOf(k: Knowledge) returns (out: seq<Profile>)
    ensures WellFiled(k.discovered) ==> out == FreePool(k)
    ensures forall p :: p in out <==> p.Free() && Known(k, p)
  {
    var d := k.discovered;
    out := FilterFree(k.profiles);
    assert k.profiles + Gather(d, []) == k.profiles;
    var left := d.Keys;
    ghost var order: seq<string> := [];
    while left != {}
      invariant left <= d.Keys && Walked(order, d, left)
      invariant out == Filter(IsFree, k.profiles + Gather(d, order))
      decreases left
    {
      var name :| name in left;
      WalkKept(k.profiles, IsFree, order, d, left, name);
      var free := FilterFree(d[name]);
      out := out + free;
      order := order + [name];
      left := left - {name};
    }
    out := Sort(PlaceBefore, out);
    forall p ensures p in out <==> p.Free() && Known(k, p) {
      ListedMember(k.profiles, IsFree, d, order, p);
    }
    if WellFiled(d) {
      ListingIgnoresMapOrder(k.profiles, IsFree, d, order, SomeOrder(d.Keys));
    }
  }

  method ResolveIn(k: Knowledge, model: string, lower: string -> string) returns (out: seq<Profile>, ghost order: seq<string>)
    ensures model == "" ==> out == []
    ensures model != "" ==>
      && Enumerates(order, k.discovered)
      && out == Resolved(k.profiles, k.discovered, order, lower(model), lower)
      && (forall p :: p in out <==> Known(k, p) && lower(p.model) == lower(model))
  {
    out, order := [], [];
    if model == "" {
      return;
    }
    var d, target := k.discovered, lower(model);
    var same := Named(target, lower);
    out := FilterNamed(k.profiles, target, lower);
    assert k.profiles + Gather(d, []) == k.profiles;
    var left := d.Keys;
    while left != {}
      invariant left <= d.Keys && Walked(order, d, left)
      invariant out == Filter(same, k.profiles + Gather(d, order))
      decreases left
    {
      var name :| name in left;
      WalkKept(k.profiles, same, order, d, left, name);
      var found := FilterNamed(d[name], target, lower);
      out := out + found;
      order := order + [name];
      left := left - {name};
    }
    out := Sort(Cheaper(), out);
    forall p ensures p in out <==> Known(k, p) && lower(p.model) == target {
      ResolvedMember(k.profiles, d, order, target, lower, p);
    }
  }

  /** The matches for a name, in the order Resolve lists them. */
  function Resolved(profiles: seq<Profile>, d: Discovered, order: seq<string>, target: string, lower: string -> string): seq<Profile>
    requires forall name :: name in order ==> name in d
  {
    Sort(Cheaper(), Filter(Named(target, lower), profiles + Gather(d, order)))
  }

  lemma ResolvedMember(profiles: seq<Profile>, d: Discovered, order: seq<string>, target: string, lower: string -> string, p: Profile)
    requires Enumerates(order, d)
    ensures p in Resolved(profiles, d, order, target, lower) <==>
      lower(p.model) == target && (p in profiles || exists name :: name in d && p in d[name])
  {
    var found := Filter(Named(target, lower), profiles + Gather(d, order));
    CheaperStrictWeak();
    SortPermutes(Cheaper(), found);
    assert p in Resolved(profiles, d, order, target, lower) <==> p in multiset(found);
    FilterMember(Named(target, lower), profiles + Gather(d, order), p);
    GatherMember(d, order, p);
  }

  lemma CheaperStrictWeak()
    ensures StrictWeak(Cheaper())
  {}

  // ---- one provider's listings of a name ----

  function AtProvider(provider: string): Profile -> bool {
    (p: Profile) => p.provider == provider
  }

  /** The curated entries of a provider, then its own list. */
  function EntriesAt(k: Knowledge, provider: string): seq<Profile> {
    Filter(AtProvider(provider), k.profiles) + (if provider in k.discovered then k.discovered[provider] else [])
  }

  /** How one provider lists a name: cheapest first, curated before its own list where costs tie. */
  function ListingsAt(k: Knowledge, provider: string, target: string, lower: string -> string): seq<Profile> {
    Sort(Cheaper(), Filter(Named(target, lower), EntriesAt(k, provider)))
  }

  lemma GatheredAt(d: Discovered, order: seq<string>, provider: string)
    requires WellFiled(d) && Distinct(order) && forall name :: name in order ==> name in d
    ensures Filter(AtProvider(provider), Gather(d, order)) == if provider in order then d[provider] else []
  {
    forall name | name in d && name != provider ensures Filter(AtProvider(provider), d[name]) == [] {
      FilterNone(AtProvider(provider), d[name]);
    }
    GatheredFrom(d, order, AtProvider(provider), provider);
    if provider in order {
      FilterAll(AtProvider(provider), d[provider]);
    }
  }

  /** The matches at one provider come in an order no map walk changes. */
  lemma ResolvedAtProvider(k: Knowledge, order: seq<string>, provider: string, target: string, lower: string -> string)
    requires WellFiled(k.discovered) && Enumerates(order, k.discovered)
    ensures Filter(AtProvider(provider), Resolved(k.profiles, k.discovered, order, target, lower)) == ListingsAt(k, provider, target, lower)
  {
    var at, named, all := AtProvider(provider), Named(target, lower), k.profiles + Gather(k.discovered, order);
    CheaperStrictWeak();
    SortOfPart(Cheaper(), at, Filter(named, all));
    FiltersCommute(named, at, all);
    FilterAppend(at, k.profiles, Gather(k.discovered, order));
    GatheredAt(k.discovered, order, provider);
  }

  /** Whether a provider's listings of a name count as free is decided by the cheapest, curated first where costs tie. */
  predicate ServedFree(k: Knowledge, provider: string, target: string, lower: string -> string) {
    ListingsAt(k, provider, target, lower) != [] && ListingsAt(k, provider, target, lower)[0].Free()
  }

  lemma FirstCheapestSnoc(before: seq<Profile>, x: Profile, i: int)
    requires FirstCheapest(before, i)
    ensures FirstCheapest(before + [x], if x.BlendedCost() < before[i].BlendedCost() then |before| else i)
  {}

  /** Sorting puts the first of the cheapest entries in front. */
  lemma {:induction false} SortHead(s: seq<Profile>) returns (i: nat)
    requires s != []
    ensures FirstCheapest(s, i) && Sort(Cheaper(), s) != [] && Sort(Cheaper(), s)[0] == s[i]
  {
    var before, x := s[..|s| - 1], s[|s| - 1];
    assert s == before + [x];
    if before == [] {
      i := 0;
    } else {
      i := SortHead(before);
      CheaperStrictWeak();
      SortIsStable(Cheaper(), before);
      InsertHead(Sort(Cheaper(), before), x);
      FirstCheapestSnoc(before, x, i);
      if x.BlendedCost() < before[i].BlendedCost() {
        i := |before|;
      }
    }
  }

  lemma {:induction false} InsertHead(t: seq<Profile>, x: Profile)
    requires t != [] && Sorted(Cheaper(), t)
    ensures Insert(Cheaper(), t, x) != []
    ensures Insert(Cheaper(), t, x)[0] == if x.BlendedCost() < t[0].BlendedCost() then x else t[0]
  {
    var n := |t| - 1;
    if Cheaper()(x, t[n]) && n > 0 {
      InsertHead(t[..n], x);
    }
  }

  /** Nothing is cheaper, and nothing before it as cheap. */
  predicate FirstCheapest(s: seq<Profile>, i: int) {
    && 0 <= i < |s|
    && (forall j :: 0 <= j < |s| ==> s[i].BlendedCost() <= s[j].BlendedCost())
    && (forall j :: 0 <= j < i ==> s[i].BlendedCost() < s[j].BlendedCost())
  }

  /** An entry's cost is never below zero: the loader and discovery both refuse negative prices. */
  ghost predicate NoNegativeCosts(ps: seq<Profile>) {
    forall i :: 0 <= i < |ps| ==> ps[i].inputCost >= 0.0 && ps[i].outputCost >= 0.0
  }

  /**
   Served free means: among the provider's entries of that name, its curated ones first, the first
   with a zero cost is a published zero and not an unpublished price.
   */
  lemma ServedFreeMeans(k: Knowledge, provider: string, target: string, lower: string -> string)
    requires NoNegativeCosts(EntriesAt(k, provider))
    ensures
      var named := Filter(Named(target, lower), EntriesAt(k, provider));
      ServedFree(k, provider, target, lower) <==> exists i :: FirstZero(named, i) && named[i].Free()
  {
    var named := Filter(Named(target, lower), EntriesAt(k, provider));
    forall i | 0 <= i < |named| ensures named[i].BlendedCost() >= 0.0 {
      FilterMember(Named(target, lower), EntriesAt(k, provider), named[i]);
    }
    if named != [] {
      var i := SortHead(named);
      if named[i].BlendedCost() == 0.0 {
        assert FirstZero(named, i);
        assert forall j :: FirstZero(named, j) ==> j == i;
      } else {
        assert forall j :: 0 <= j < |named| ==> named[i].BlendedCost() <= named[j].BlendedCost();
      }
    }
  }

  predicate FirstZero(s: seq<Profile>, i: int) {
    0 <= i < |s| && s[i].BlendedCost() == 0.0 && forall j :: 0 <= j < i ==> s[j].BlendedCost() != 0.0
  }

  method FilterNamed(models: seq<Profile>, target: string, lower: string -> string) returns (out: seq<Profile>)
    ensures out == Filter(Named(target, lower), models)
  {
    out := [];
    for i := 0 to |models|
      invariant out == Filter(Named(target, lower), models[..i])
    {
      assert models[..i + 1] == models[..i] + [models[i]];
      FilterSnoc(Named(target, lower), models[..i], models[i]);
      if lower(models[i].model) == target {
        out := out + [models[i]];
      }
    }
    assert models[..|models|] == models;
  }

  method FilterFree(models: seq<Profile>) returns (out: seq<Profile>)
    ensures out == Filter(IsFree, models)
  {
    out := [];
    for i := 0 to |models|
      invariant out == Filter(IsFree, models[..i])
    {
      assert models[..i + 1] == models[..i] + [models[i]];
      FilterSnoc(IsFree, models[..i], models[i]);
      if models[i].Free() {
        out := out + [models[i]];
      }
    }
    assert models[..|models|] == models;
  }

  /** The part of a map walk already done. */
  ghost predicate Walked(order: seq<string>, d: Discovered, left: set<string>) {
    Distinct(order) && forall name :: name in order <==> name in d && name !in left
  }

  lemma WalkOne(order: seq<string>, d: Discovered, left: set<string>, name: string)
    requires Walked(order, d, left) && left <= d.Keys && name in left
    ensures Walked(order + [name], d, left - {name})
    ensures Gather(d, order + [name]) == Gather(d, order) + d[name]
  {
    SnocParts(order, name);
  }

  lemma WalkKept(curated: seq<Profile>, keep: Profile -> bool, order: seq<string>, d: Discovered, left: set<string>, name: string)
    requires Walked(order, d, left) && left <= d.Keys && name in left
    ensures Walked(order + [name], d, left - {name})
    ensures Filter(keep, curated + Gather(d, order + [name])) == Filter(keep, curated + Gather(d, order)) + Filter(keep, d[name])
  {
    WalkOne(order, d, left, name);
    FilterAppend(keep, curated + Gather(d, order), d[name]);
    assert curated + Gather(d, order + [name]) == (curated + Gather(d, order)) + d[name];
  }

  // ---- what the orders are ----

  lemma SameHead(a: string, b: string, i: nat)
    requires 0 < i <= |a| && i <= |b| && a[..i] == b[..i]
    ensures a[0] == b[0]
  {
    assert a[..i][0] == a[0] && b[..i][0] == b[0];
  }

  /** Byte order: a proper prefix first, else by the first letter in which the two differ. */
  lemma {:induction false} BeforeReads(a: string, b: string)
    ensures Before(a, b) <==>
      exists i :: 0 <= i <= |a| && i < |b| && a[..i] == b[..i] && (i == |a| || a[i] < b[i])
  {
    if a != "" && b != "" && a[0] == b[0] {
      BeforeReads(a[1..], b[1..]);
      if Before(a[1..], b[1..]) {
        var i :| 0 <= i <= |a[1..]| && i < |b[1..]| && a[1..][..i] == b[1..][..i] && (i == |a[1..]| || a[1..][i] < b[1..][i]);
        assert a[..i + 1] == [a[0]] + a[1..][..i] && b[..i + 1] == [b[0]] + b[1..][..i];
      }
      if i :| 0 <= i <= |a| && i < |b| && a[..i] == b[..i] && (i == |a| || a[i] < b[i]) {
        assert i > 0;
        assert a[1..][..i - 1] == a[..i][1..] == b[..i][1..] == b[1..][..i - 1];
      }
    } else if a != "" && b != "" {
      if i :| 0 <= i <= |a| && i < |b| && a[..i] == b[..i] && (i == |a| || a[i] < b[i]) {
        if i > 0 {
          SameHead(a, b, i);
        }
      }
      if a[0] < b[0] {
        assert a[..0] == b[..0];
      }
    } else if b != "" {
      assert a[..0] == b[..0];
    }
  }

  /** A listing runs through the providers in order, and through each one's models in order. */
  lemma ListedInOrder(curated: seq<Profile>, keep: Profile -> bool, d: Discovered, order: seq<string>, i: nat, j: nat)
    requires (forall name :: name in order ==> name in d) && i < j < |Listed(curated, keep, d, order)|
    ensures var p, q := Listed(curated, keep, d, order)[i], Listed(curated, keep, d, order)[j];
      Before(p.provider, q.provider) || (p.provider == q.provider && (p.model == q.model || Before(p.model, q.model)))
  {
    PlaceBeforeStrictWeak();
    SortIsStable(PlaceBefore, Filter(keep, curated + Gather(d, order)));
    var p, q := Listed(curated, keep, d, order)[i], Listed(curated, keep, d, order)[j];
    assert !PlaceBefore(q, p);
    BeforeTotal(p.provider, q.provider);
    BeforeTotal(p.model, q.model);
  }

  /** Matches for a name come cheapest first, three tokens read for one written. */
  lemma ResolvedCheapestFirst(profiles: seq<Profile>, d: Discovered, order: seq<string>, target: string, lower: string -> string, i: nat, j: nat)
    requires (forall name :: name in order ==> name in d) && i < j < |Resolved(profiles, d, order, target, lower)|
    ensures var p, q := Resolved(profiles, d, order, target, lower)[i], Resolved(profiles, d, order, target, lower)[j];
      3.0 * p.inputCost + p.outputCost <= 3.0 * q.inputCost + q.outputCost
  {
    var pool := Filter(Named(target, lower), profiles + Gather(d, order));
    CheaperStrictWeak();
    SortIsStable(Cheaper(), pool);
    assert !Cheaper()(Sort(Cheaper(), pool)[j], Sort(Cheaper(), pool)[i]);
  }

  /** A measurement replaces the record of its own entry alone, and its latency where it has one; nothing else changes. */
  lemma MeasureSays(p: Profile, measured: Measurements)
    ensures var m := Measure(p, measured);
      && m.(reliability := p.reliability, observed := p.observed) == p
      && (p.provider + "/" + p.model !in measured ==> m == p)
      && (p.provider + "/" + p.model in measured ==>
            var r := measured[p.provider + "/" + p.model];
            m.reliability == r && m.observed == (if r.medianLatencyMs > 0 then r.medianLatencyMs else p.observed))
  {}
}
