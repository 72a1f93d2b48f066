/**
 The orders routing sorts by. Each pass of the source is one stable sort; the lemmas here turn a
 sequence of passes into the single order a reader can check.
 */
module Ordering {
  import opened Sequences
  import opened StableSort
  import opened Models
  import opened Scoring
  import opened Catalogue

  function Specialised(names: Names): Profile -> bool {
    (p: Profile) => names.specialised(p.model)
  }

  function Unconfirmed(k: Knowledge): Profile -> bool {
    (p: Profile) => !k.Confirmed(p.Place())
  }

  function ByEvidence(task: Task, objective: string, names: Names): (Profile, Profile) -> bool {
    ByKey((p: Profile) => Evidence(p, task, objective, names))
  }

  /** General-purpose models before specialised ones, better evidence first inside each. */
  function GeneralFirst(task: Task, objective: string, names: Names): (Profile, Profile) -> bool {
    Lex(FalseFirst(Specialised(names)), ByEvidence(task, objective, names))
  }

  /** Confirmed models before all others, then general-purpose, then by evidence. */
  function BestFirst(k: Knowledge, task: Task, objective: string, names: Names): (Profile, Profile) -> bool {
    Lex(FalseFirst(Unconfirmed(k)), GeneralFirst(task, objective, names))
  }

  /** Confirmed models move to the front once anything is confirmed. */
  function PreferConfirmed(k: Knowledge, pool: seq<Profile>): seq<Profile> {
    if !k.AnyConfirmed() then pool else Sort(FalseFirst(Unconfirmed(k)), pool)
  }

  function ConfirmedOnly(k: Knowledge, pool: seq<Profile>): seq<Profile> {
    if !k.AnyConfirmed() then pool else Filter((p: Profile) => k.Confirmed(p.Place()), pool)
  }

  /** The tagged part of a pool, or the whole pool when no tagged model is in it. */
  function Restrict(k: Knowledge, pool: seq<Profile>, task: Task): seq<Profile> {
    var tagged := Filter((p: Profile) => k.Tagged(p, task), pool);
    if tagged == [] then pool else tagged
  }

  lemma FalseFirstStrictWeak(test: Profile -> bool)
    ensures StrictWeak(FalseFirst(test))
  {}

  lemma ByEvidenceStrictWeak(task: Task, objective: string, names: Names)
    ensures StrictWeak(ByEvidence(task, objective, names))
  {}

  /** Score, then specialised, is one sort by the pair. */
  lemma GeneralPasses(pool: seq<Profile>, task: Task, objective: string, names: Names)
    ensures Sort(FalseFirst(Specialised(names)), RankForTask(pool, task, objective, names)) ==
            Sort(GeneralFirst(task, objective, names), pool)
    ensures StrictWeak(GeneralFirst(task, objective, names))
  {
    FalseFirstStrictWeak(Specialised(names));
    ByEvidenceStrictWeak(task, objective, names);
    LexStrictWeak(FalseFirst(Specialised(names)), ByEvidence(task, objective, names));
    TwoPasses(FalseFirst(Specialised(names)), ByEvidence(task, objective, names), pool);
  }

  /** Score, then specialised, then confirmed, is one sort by the triple, whether or not anything is confirmed. */
  lemma ThreePasses(k: Knowledge, pool: seq<Profile>, task: Task, objective: string, names: Names)
    ensures PreferConfirmed(k, Sort(FalseFirst(Specialised(names)), RankForTask(pool, task, objective, names))) ==
            Sort(BestFirst(k, task, objective, names), pool)
    ensures StrictWeak(BestFirst(k, task, objective, names))
  {
    var major, minor := FalseFirst(Unconfirmed(k)), GeneralFirst(task, objective, names);
    GeneralPasses(pool, task, objective, names);
    FalseFirstStrictWeak(Unconfirmed(k));
    LexStrictWeak(major, minor);
    TwoPasses(major, minor, pool);
    if !k.AnyConfirmed() {
      SortNoOrder(major, Sort(minor, pool));
    }
  }

  /** A pool already narrowed to confirmed models is not reordered by preferring them. */
  lemma PreferAfterOnly(k: Knowledge, pool: seq<Profile>, task: Task, objective: string, names: Names)
    ensures PreferConfirmed(k, RankForTask(ConfirmedOnly(k, pool), task, objective, names)) ==
            RankForTask(ConfirmedOnly(k, pool), task, objective, names)
  {
    if k.AnyConfirmed() {
      var narrowed := ConfirmedOnly(k, pool);
      var ranked := RankForTask(narrowed, task, objective, names);
      RankMember(narrowed, task, objective, names);
      forall p | p in ranked ensures k.Confirmed(p.Place()) {
        FilterMember((q: Profile) => k.Confirmed(q.Place()), pool, p);
      }
      SortNoOrder(FalseFirst(Unconfirmed(k)), ranked);
    }
  }

  lemma RankMember(pool: seq<Profile>, task: Task, objective: string, names: Names)
    ensures forall p :: p in RankForTask(pool, task, objective, names) <==> p in pool
  {
    SortMember(ByEvidence(task, objective, names), pool);
  }

  lemma SortMember(less: (Profile, Profile) -> bool, pool: seq<Profile>)
    requires StrictWeak(less)
    ensures forall p :: p in Sort(less, pool) <==> p in pool
  {
    SortPermutes(less, pool);
    forall p ensures p in Sort(less, pool) <==> p in pool {
      assert p in Sort(less, pool) <==> p in multiset(Sort(less, pool));
      assert p in pool <==> p in multiset(pool);
    }
  }

  /** Which of two models discovery offers first: a confirmed one, then a general one, then the better rated. */
  lemma BestFirstMeans(k: Knowledge, task: Task, objective: string, names: Names, a: Profile, b: Profile)
    ensures var ca, cb := a.provider + "/" + a.model in k.confirmed, b.provider + "/" + b.model in k.confirmed;
      var sa, sb := names.specialised(a.model), names.specialised(b.model);
      BestFirst(k, task, objective, names)(a, b) <==>
        if ca != cb then ca
        else if sa != sb then sb
        else Evidence(a, task, objective, names) < Evidence(b, task, objective, names)
  {}

  /** Until anything is confirmed nothing is left out; then exactly the confirmed models stay. */
  lemma ConfirmedOnlyMeans(k: Knowledge, pool: seq<Profile>, p: Profile)
    ensures k.confirmed == {} ==> ConfirmedOnly(k, pool) == pool
    ensures k.confirmed != {} ==> (p in ConfirmedOnly(k, pool) <==> p in pool && p.provider + "/" + p.model in k.confirmed)
  {
    FilterMember((q: Profile) => k.Confirmed(q.Place()), pool, p);
  }

  /** A task some model of the pool is marked for is left to the models marked for it. */
  lemma RestrictMeans(k: Knowledge, pool: seq<Profile>, task: Task, p: Profile)
    ensures p in Restrict(k, pool, task) <==>
      p in pool && (MarkedFor(k, p, task) || forall q :: q in pool ==> !MarkedFor(k, q, task))
  {
    var tagged := (q: Profile) => k.Tagged(q, task);
    forall q ensures q in Filter(tagged, pool) <==> q in pool && MarkedFor(k, q, task) {
      FilterMember(tagged, pool, q);
    }
    if Filter(tagged, pool) != [] {
      assert Filter(tagged, pool)[0] in Filter(tagged, pool);
    }
  }

  predicate MarkedFor(k: Knowledge, p: Profile, task: Task) {
    p.provider + "/" + p.model in k.tags && task in k.tags[p.provider + "/" + p.model]
  }
}
