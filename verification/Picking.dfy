/**
 The two places that share slots among providers: the gateway's automatic chain and the
 dashboard's capped listing. Both are cuts of one round-robin interleaving.
 */
module Picking {
  import opened Sequences
  import opened Models
  import opened RoundRobin

  function ProviderOf(c: Candidate): string { c.provider }

  function ProfileProvider(p: Profile): string { p.provider }

  /** What a pool offers a caller: keyed providers only, benched models stepped over. */
  function Eligible(pool: seq<Profile>, keys: map<string, string>, benched: Candidate -> bool): seq<Candidate> {
    Filter((c: Candidate) => Keyed(keys, c.provider) && !benched(c), Map((p: Profile) => p.Place(), pool))
  }

  /** The configured depth, never less than one. */
  function Depth(attemptsPerProvider: int): nat {
    if attemptsPerProvider < 1 then 1 else attemptsPerProvider
  }

  /** The cap never stops a provider being tried once. */
  function Cap(maxAttempts: int, providers: nat): nat {
    Max(Max(maxAttempts, providers), 1)
  }

  function AutomaticChain(eligible: seq<Candidate>, attemptsPerProvider: int, maxAttempts: int): seq<Candidate> {
    Take(Interleave(Queues(ProviderOf, eligible, Depth(attemptsPerProvider))),
         Cap(maxAttempts, |Firsts(ProviderOf, eligible)|))
  }

  function SharedListing(pool: seq<Profile>, limit: nat): seq<Profile> {
    Take(Interleave(Queues(ProfileProvider, pool, |pool|)), limit)
  }

  lemma EligibleSnoc(pool: seq<Profile>, keys: map<string, string>, benched: Candidate -> bool, i: nat)
    requires i < |pool|
    ensures Eligible(pool[..i + 1], keys, benched) ==
      if Keyed(keys, pool[i].provider) && !benched(pool[i].Place())
      then Eligible(pool[..i], keys, benched) + [pool[i].Place()]
      else Eligible(pool[..i], keys, benched)
  {
    var place := (p: Profile) => p.Place();
    var keep := (c: Candidate) => Keyed(keys, c.provider) && !benched(c);
    assert Map(place, pool[..i + 1]) == Map(place, pool[..i]) + [pool[i].Place()];
    FilterSnoc(keep, Map(place, pool[..i]), pool[i].Place());
  }

  /** Usable are exactly the pool's models that are not benched, at providers with a key. */
  lemma EligibleAre(pool: seq<Profile>, keys: map<string, string>, benched: Candidate -> bool, c: Candidate)
    ensures c in Eligible(pool, keys, benched) <==>
      c.provider in keys && keys[c.provider] != "" && !benched(c)
      && exists i :: 0 <= i < |pool| && pool[i].provider == c.provider && pool[i].model == c.model
  {
    var places := Map((p: Profile) => p.Place(), pool);
    FilterMember((d: Candidate) => Keyed(keys, d.provider) && !benched(d), places, c);
    if i :| 0 <= i < |pool| && pool[i].provider == c.provider && pool[i].model == c.model {
      assert places[i] == c;
    }
    if c in places {
      var i :| 0 <= i < |places| && places[i] == c;
      assert pool[i].Place() == c;
    }
  }

  lemma QueueSnoc<T>(keyOf: T -> string, s: seq<T>, x: T, name: string)
    ensures Queue(keyOf, s + [x], name) == Queue(keyOf, s, name) + (if keyOf(x) == name then [x] else [])
    ensures Firsts(keyOf, s + [x]) == if keyOf(x) in Firsts(keyOf, s) then Firsts(keyOf, s) else Firsts(keyOf, s) + [keyOf(x)]
  {
    FilterSnoc(Has(keyOf, name), s, x);
    SnocParts(s, x);
  }

  /** The per-provider lists the gateway collects while it walks the pool. */
  ghost predicate Collected<T>(keyOf: T -> string, s: seq<T>, depth: nat, order: seq<string>, lists: map<string, seq<T>>) {
    && order == Firsts(keyOf, s)
    && (forall name :: name in lists <==> name in order)
    && (forall name :: name in lists ==> lists[name] == Take(Queue(keyOf, s, name), depth))
  }

  /** One more element in a list that keeps only the first `depth`. */
  function TakeIn<T>(list: seq<T>, x: T, depth: nat): seq<T> {
    if |list| < depth then list + [x] else list
  }

  lemma TakeInIsTake<T>(q: seq<T>, x: T, depth: nat)
    ensures TakeIn(Take(q, depth), x, depth) == Take(q + [x], depth)
  {}

  /** What one more element does to any provider's list. */
  lemma CollectInto<T>(keyOf: T -> string, s: seq<T>, x: T, depth: nat, k: string)
    ensures Take(Queue(keyOf, s + [x], k), depth) ==
      if keyOf(x) == k then TakeIn(Take(Queue(keyOf, s, k), depth), x, depth) else Take(Queue(keyOf, s, k), depth)
  {
    QueueSnoc(keyOf, s, x, k);
    if keyOf(x) == k {
      TakeInIsTake(Queue(keyOf, s, k), x, depth);
    } else {
      assert Queue(keyOf, s, k) + [] == Queue(keyOf, s, k);
    }
  }

  lemma CollectOne<T>(keyOf: T -> string, s: seq<T>, x: T, depth: nat, order: seq<string>, lists: map<string, seq<T>>)
    requires depth >= 1 && Collected(keyOf, s, depth, order, lists)
    ensures
      var name := keyOf(x);
      Collected(keyOf, s + [x], depth, if name in lists then order else order + [name],
                lists[name := TakeIn(if name in lists then lists[name] else [], x, depth)])
  {
    var name := keyOf(x);
    if name !in order {
      NoQueue(keyOf, s, name);
    }
    QueueSnoc(keyOf, s, x, name);
    var lists' := lists[name := TakeIn(if name in lists then lists[name] else [], x, depth)];
    forall k | k in lists' ensures lists'[k] == Take(Queue(keyOf, s + [x], k), depth) {
      CollectInto(keyOf, s, x, depth, k);
    }
  }

  /** The first loop of pickOnePerProvider: every provider's first `depth` usable models. */
  method CollectUsable(pool: seq<Profile>, keys: map<string, string>, benched: Candidate -> bool, depth: nat)
    returns (order: seq<string>, perProvider: map<string, seq<Candidate>>)
    requires depth >= 1
    ensures Collected(ProviderOf, Eligible(pool, keys, benched), depth, order, perProvider)
  {
    perProvider := map[];
    order := [];
    for i := 0 to |pool|
      invariant Collected(ProviderOf, Eligible(pool[..i], keys, benched), depth, order, perProvider)
    {
      var c := pool[i].Place();
      EligibleSnoc(pool, keys, benched, i);
      if Keyed(keys, c.provider) && !benched(c) {
        CollectOne(ProviderOf, Eligible(pool[..i], keys, benched), c, depth, order, perProvider);
        var list := if c.provider in perProvider then perProvider[c.provider] else [];
        if c.provider !in perProvider {
          order := order + [c.provider];
        }
        perProvider := perProvider[c.provider := if |list| < depth then list + [c] else list];
      }
    }
    WholePrefix(pool);
  }

  method PickOnePerProvider(pool: seq<Profile>, keys: map<string, string>, benched: Candidate -> bool,
                            attemptsPerProvider: int, maxAttempts: int)
    returns (out: seq<Candidate>)
    ensures out == AutomaticChain(Eligible(pool, keys, benched), attemptsPerProvider, maxAttempts)
  {
    var depth := attemptsPerProvider;
    if depth < 1 {
      depth := 1;
    }
    var order, perProvider := CollectUsable(pool, keys, benched, depth);

    var limit := maxAttempts;
    if limit < |order| {
      limit := |order|;
    }
    if limit < 1 {
      limit := 1;
    }

    out := ReadRounds(order, perProvider, depth, limit, Queues(ProviderOf, Eligible(pool, keys, benched), depth));
  }

  /** The second loop of pickOnePerProvider: one model of each provider a round, up to the limit. */
  method ReadRounds<T>(order: seq<string>, lists: map<string, seq<T>>, depth: nat, limit: nat, ghost qs: seq<seq<T>>)
    returns (out: seq<T>)
    requires limit >= 1 && |order| == |qs|
    requires forall i :: 0 <= i < |order| ==> order[i] in lists && lists[order[i]] == qs[i]
    requires forall i :: 0 <= i < |order| ==> |qs[i]| <= depth
    ensures out == Take(Interleave(qs), limit)
  {
    out := [];
    var round := 0;
    while round < depth && |out| < limit
      invariant 0 <= round <= depth
      invariant out == Rounds(qs, round) && |out| < limit
    {
      StartOfRound(qs, round);
      for i := 0 to |order|
        invariant out == UpTo(qs, round, i) && |out| < limit
      {
        NextSlot(qs, round, i);
        if round < |lists[order[i]]| {
          out := out + [lists[order[i]][round]];
          if |out| == limit {
            return;
          }
        }
      }
      EndOfRound(qs, round);
      round := round + 1;
    }
    AllRounds(qs, depth);
    TakeAll(out, limit);
  }

  method ShareAcrossProviders(pool: seq<Profile>, limit: nat) returns (out: seq<Profile>)
    ensures out == SharedListing(pool, limit)
  {
    var order, byProvider := GroupByProvider(pool);
    FirstsAre(ProfileProvider, pool);
    ghost var qs := Queues(ProfileProvider, pool, |pool|);
    assert forall i :: 0 <= i < |qs| ==> Rest(qs[i], 0) == qs[i];
    out := DrainRounds(order, byProvider, limit, qs);
  }

  /** The second loop of shareAcrossProviders: rounds over queues that are consumed as it goes. */
  method DrainRounds<T>(order: seq<string>, lists: map<string, seq<T>>, limit: nat, ghost qs: seq<seq<T>>)
    returns (out: seq<T>)
    requires Drained(order, lists, qs, 0, 0)
    ensures out == Take(Interleave(qs), limit)
  {
    out := [];
    var remaining := lists;
    ghost var round := 0;
    while |out| < limit
      invariant |out| <= limit
      invariant |out| < limit ==> out == Rounds(qs, round) && Drained(order, remaining, qs, 0, round)
      invariant |out| == limit ==> out == Take(Interleave(qs), limit)
      decreases limit - |out|
    {
      var progressed;
      out, remaining, progressed := DrainRound(order, remaining, out, limit, qs, round);
      if !progressed {
        return;
      }
      round := round + 1;
    }
  }

  /** One pass over the providers, taking the head of every queue that still has one. */
  method DrainRound<T>(order: seq<string>, lists: map<string, seq<T>>, soFar: seq<T>, limit: nat, ghost qs: seq<seq<T>>, ghost round: nat)
    returns (out: seq<T>, remaining: map<string, seq<T>>, progressed: bool)
    requires Drained(order, lists, qs, 0, round) && soFar == Rounds(qs, round) && |soFar| < limit
    ensures |out| <= limit
    ensures |out| < limit ==> out == Rounds(qs, round + 1) && Drained(order, remaining, qs, 0, round + 1)
    ensures |out| == limit || !progressed ==> out == Take(Interleave(qs), limit)
    ensures progressed ==> |out| > |soFar|
  {
    out, remaining, progressed := soFar, lists, false;
    StartOfRound(qs, round);
    for i := 0 to |order|
      invariant out == UpTo(qs, round, i) && |soFar| <= |out| < limit
      invariant progressed <==> |out| > |soFar|
      invariant Drained(order, remaining, qs, i, round)
    {
      NextSlot(qs, round, i);
      DrainOne(order, remaining, qs, i, round);
      var queue := remaining[order[i]];
      if queue != [] {
        out := out + [queue[0]];
        remaining := remaining[order[i] := queue[1..]];
        progressed := true;
        if |out| == limit {
          return;
        }
      }
    }
    EndOfRound(qs, round);
    RoundDrained(order, remaining, qs, round);
    if !progressed {
      EmptyRound(qs, round);
      TakeAll(out, limit);
    }
  }

  lemma RoundDrained<T>(order: seq<string>, lists: map<string, seq<T>>, qs: seq<seq<T>>, round: nat)
    requires Drained(order, lists, qs, |order|, round)
    ensures Drained(order, lists, qs, 0, round + 1)
  {}

  lemma EmptyRound<T>(qs: seq<seq<T>>, round: nat)
    requires |Column(qs, round)| == 0
    ensures Rounds(qs, round) == Rounds(qs, round + 1) == Interleave(qs)
  {
    ColumnEmpty(qs, round);
    AllRounds(qs, round);
  }

  /** The interleaving up to queue i of a round. */
  function UpTo<T>(qs: seq<seq<T>>, round: nat, i: nat): seq<T>
    requires i <= |qs|
  {
    Rounds(qs, round) + Column(qs[..i], round)
  }

  lemma StartOfRound<T>(qs: seq<seq<T>>, round: nat)
    ensures UpTo(qs, round, 0) == Rounds(qs, round)
  {}

  lemma NextSlot<T>(qs: seq<seq<T>>, round: nat, i: nat)
    requires i < |qs|
    ensures UpTo(qs, round, i + 1) == if round < |qs[i]| then UpTo(qs, round, i) + [qs[i][round]] else UpTo(qs, round, i)
    ensures |UpTo(qs, round, i)| >= |Rounds(qs, round)|
    ensures UpTo(qs, round, i + 1) == Take(Interleave(qs), |UpTo(qs, round, i + 1)|)
  {
    ColumnStep(qs, round, i);
  }

  lemma EndOfRound<T>(qs: seq<seq<T>>, round: nat)
    ensures UpTo(qs, round, |qs|) == Rounds(qs, round + 1)
    ensures |UpTo(qs, round, |qs|)| == |Rounds(qs, round)| + |Column(qs, round)|
  {
    assert qs[..|qs|] == qs;
  }

  /** Once no queue is longer than the rounds taken, the rounds are the interleaving. */
  lemma AllRounds<T>(qs: seq<seq<T>>, n: nat)
    requires forall i :: 0 <= i < |qs| ==> |qs[i]| <= n
    ensures Rounds(qs, n) == Interleave(qs)
  {
    LongestReached(qs, n);
    RoundsStop(qs, Longest(qs), n);
  }

  lemma TakeAll<T>(s: seq<T>, n: nat)
    requires |s| <= n
    ensures Take(s, n) == s
  {}

  lemma PrefixSnoc<T>(s: seq<T>, i: nat)
    requires i < |s|
    ensures s[..i + 1] == s[..i] + [s[i]]
  {}

  lemma WholePrefix<T>(s: seq<T>)
    ensures s[..|s|] == s
  {}

  /** Between rounds: the first i queues have given up round + 1 elements, the others `round`. */
  ghost predicate Drained<T>(order: seq<string>, lists: map<string, seq<T>>, qs: seq<seq<T>>, i: nat, round: nat) {
    && |order| == |qs|
    && Distinct(order)
    && forall k :: 0 <= k < |order| ==> order[k] in lists && lists[order[k]] == Rest(qs[k], if k < i then round + 1 else round)
  }

  lemma DrainOne<T>(order: seq<string>, lists: map<string, seq<T>>, qs: seq<seq<T>>, i: nat, round: nat)
    requires Drained(order, lists, qs, i, round) && i < |order|
    ensures order[i] in lists && (lists[order[i]] == [] <==> |qs[i]| <= round)
    ensures lists[order[i]] == [] ==> Drained(order, lists, qs, i + 1, round)
    ensures lists[order[i]] != [] ==> lists[order[i]][0] == qs[i][round]
    ensures lists[order[i]] != [] ==> Drained(order, lists[order[i] := lists[order[i]][1..]], qs, i + 1, round)
  {}

  /** The first half of shareAcrossProviders: a queue for every provider, in order of appearance. */
  method GroupByProvider(pool: seq<Profile>) returns (order: seq<string>, byProvider: map<string, seq<Profile>>)
    ensures Collected(ProfileProvider, pool, |pool|, order, byProvider)
  {
    byProvider := map[];
    order := [];
    for i := 0 to |pool|
      invariant Collected(ProfileProvider, pool[..i], |pool|, order, byProvider)
    {
      var p := pool[i];
      CollectOne(ProfileProvider, pool[..i], p, |pool|, order, byProvider);
      QueueShorter(ProfileProvider, pool[..i], p.provider);
      PrefixSnoc(pool, i);
      var list := if p.provider in byProvider then byProvider[p.provider] else [];
      if p.provider !in byProvider {
        order := order + [p.provider];
      }
      byProvider := byProvider[p.provider := list + [p]];
    }
    WholePrefix(pool);
  }

  /** What is left of a queue after n rounds. */
  function Rest<T>(s: seq<T>, n: nat): seq<T> {
    s[Min(n, |s|)..]
  }

  lemma QueueShorter<T>(keyOf: T -> string, s: seq<T>, name: string)
    ensures |Queue(keyOf, s, name)| <= |s|
  {
    FilterShorter(Has(keyOf, name), s);
  }

  // ---- what the chain promises ----

  /** How many candidates the providers can supply, each no more than `depth`. */
  function Supply(names: seq<string>, eligible: seq<Candidate>, depth: nat): nat {
    if names == [] then 0
    else Supply(names[..|names| - 1], eligible, depth) + Min(depth, |Queue(ProviderOf, eligible, names[|names| - 1])|)
  }

  lemma {:induction false} SupplyTotal(names: seq<string>, eligible: seq<Candidate>, depth: nat, qs: seq<seq<Candidate>>, n: nat)
    requires |names| == |qs| && forall i :: 0 <= i < |qs| ==> qs[i] == Take(Queue(ProviderOf, eligible, names[i]), depth)
    requires forall i :: 0 <= i < |qs| ==> |qs[i]| <= n
    ensures TotalUpTo(qs, n) == Supply(names, eligible, depth)
  {
    if names != [] {
      SupplyTotal(names[..|names| - 1], eligible, depth, qs[..|qs| - 1], n);
    }
  }

  /** The chain is as long as the cap and the providers' supply allow, and never longer. */
  lemma ChainLength(eligible: seq<Candidate>, attempts: int, maxAttempts: int)
    ensures
      var names := Firsts(ProviderOf, eligible);
      |AutomaticChain(eligible, attempts, maxAttempts)| ==
        Min(Cap(maxAttempts, |names|), Supply(names, eligible, Depth(attempts)))
  {
    var qs := Queues(ProviderOf, eligible, Depth(attempts));
    RoundsLength(qs, Longest(qs));
    SupplyTotal(Firsts(ProviderOf, eligible), eligible, Depth(attempts), qs, Longest(qs));
  }

  lemma {:induction false} EveryoneSupplies(names: seq<string>, eligible: seq<Candidate>, depth: nat)
    requires depth >= 1 && forall i :: 0 <= i < |names| ==> Queue(ProviderOf, eligible, names[i]) != []
    ensures Supply(names, eligible, depth) >= |names|
  {
    if names != [] {
      EveryoneSupplies(names[..|names| - 1], eligible, depth);
    }
  }

  /**
   The length in the configuration's own numbers. A depth below one counts as one. A cap below the
   number of providers leaves each of them its one attempt; any other cap cuts what they can supply.
   */
  lemma ChainLengthIs(eligible: seq<Candidate>, attempts: int, maxAttempts: int)
    ensures var names, chain := Firsts(ProviderOf, eligible), AutomaticChain(eligible, attempts, maxAttempts);
      && (maxAttempts < |names| ==> |chain| == |names|)
      && (attempts >= 1 && maxAttempts >= |names| ==> |chain| == Min(maxAttempts, Supply(names, eligible, attempts)))
      && (attempts < 1 && maxAttempts >= |names| ==> |chain| == |names|)
      && (eligible == [] ==> chain == [])
  {
    var names := Firsts(ProviderOf, eligible);
    ChainLength(eligible, attempts, maxAttempts);
    FirstsAre(ProviderOf, eligible);
    EveryoneSupplies(names, eligible, if attempts < 1 then 1 else attempts);
    SuppliesOne(names, eligible);
  }

  lemma {:induction false} SuppliesOne(names: seq<string>, eligible: seq<Candidate>)
    requires forall i :: 0 <= i < |names| ==> Queue(ProviderOf, eligible, names[i]) != []
    ensures Supply(names, eligible, 1) == |names|
  {
    if names != [] {
      SuppliesOne(names[..|names| - 1], eligible);
    }
  }

  /** A chain the cap does not cut is the whole interleaving. */
  lemma UncutChain(eligible: seq<Candidate>, attempts: int, maxAttempts: int)
    requires attempts >= 1 && Supply(Firsts(ProviderOf, eligible), eligible, attempts) <= maxAttempts
    ensures AutomaticChain(eligible, attempts, maxAttempts) == Interleave(Queues(ProviderOf, eligible, attempts))
  {
    var names, qs := Firsts(ProviderOf, eligible), Queues(ProviderOf, eligible, attempts);
    RoundsLength(qs, Longest(qs));
    SupplyTotal(names, eligible, attempts, qs, Longest(qs));
    TakeAll(Interleave(qs), Cap(maxAttempts, |names|));
  }

  /** A whole interleaving holds exactly the first of each provider's usable models. */
  lemma UncutPicks(eligible: seq<Candidate>, depth: nat, name: string)
    ensures Queue(ProviderOf, Interleave(Queues(ProviderOf, eligible, depth)), name) == Take(Queue(ProviderOf, eligible, name), depth)
  {
    var names, qs := Firsts(ProviderOf, eligible), Queues(ProviderOf, eligible, depth);
    QueuesOwned(ProviderOf, eligible, depth);
    if name in names {
      var i :| 0 <= i < |names| && names[i] == name;
      RoundsOf(ProviderOf, names, qs, Longest(qs), i);
      TakeAll(qs[i], Longest(qs));
    } else {
      NoneOfOther(ProviderOf, names, qs, Longest(qs), name);
      NoQueue(ProviderOf, eligible, name);
    }
  }

  /** Where the cap does not bind, each provider's picks are its first usable models, as many as configured. */
  lemma ChainContent(eligible: seq<Candidate>, attempts: int, maxAttempts: int, name: string)
    requires attempts >= 1 && Supply(Firsts(ProviderOf, eligible), eligible, attempts) <= maxAttempts
    ensures var usable := Queue(ProviderOf, eligible, name);
      Queue(ProviderOf, AutomaticChain(eligible, attempts, maxAttempts), name) ==
        if |usable| <= attempts then usable else usable[..attempts]
  {
    UncutChain(eligible, attempts, maxAttempts);
    UncutPicks(eligible, attempts, name);
  }

  /** One provider with two usable models, under the numbers the gateway ships with and under others. */
  lemma TwoModels(a: Candidate, b: Candidate)
    requires a.provider == b.provider
    ensures AutomaticChain([a, b], 2, 8) == [a, b]
    ensures AutomaticChain([a, b], 1, 8) == [a] && AutomaticChain([a, b], 0, 0) == [a] && AutomaticChain([a, b], -1, -1) == [a]
    ensures AutomaticChain([a, b], 2, 1) == [a]
  {
    OneProvider(a, b);
    ChainOfOne(a, b, 2, 8);
    ChainOfOne(a, b, 1, 8);
    ChainOfOne(a, b, 0, 0);
    ChainOfOne(a, b, -1, -1);
    ChainOfOne(a, b, 2, 1);
  }

  lemma OneProvider(a: Candidate, b: Candidate)
    requires a.provider == b.provider
    ensures Firsts(ProviderOf, [a, b]) == [a.provider] && Queue(ProviderOf, [a, b], a.provider) == [a, b]
    ensures Supply([a.provider], [a, b], 2) == 2
  {
    var name := a.provider;
    assert [a, b][..1] == [] + [a] && [a, b] == [a] + [b];
    QueueSnoc(ProviderOf, [], a, name);
    QueueSnoc(ProviderOf, [a], b, name);
    assert [name][..0] == [];
  }

  lemma ChainOfOne(a: Candidate, b: Candidate, attempts: int, maxAttempts: int)
    requires a.provider == b.provider
    ensures AutomaticChain([a, b], attempts, maxAttempts) == if attempts >= 2 && maxAttempts >= 2 then [a, b] else [a]
  {
    var chain, name := AutomaticChain([a, b], attempts, maxAttempts), a.provider;
    OneProvider(a, b);
    ChainLengthIs([a, b], attempts, maxAttempts);
    assert [name][..0] == [] && (attempts >= 1 ==> Supply([], [a, b], attempts) == 0);
    ChainTakesHeads([a, b], attempts, maxAttempts, |chain|, name);
    assert chain[..|chain|] == chain;
    forall c | c in chain ensures Has(ProviderOf, name)(c) {
      ChainFromEligible([a, b], attempts, maxAttempts, c);
    }
    FilterAll(Has(ProviderOf, name), chain);
  }

  /** Three providers and a cap of two: each still gets its one attempt, in the pool's order. */
  lemma CapSparesProviders(a: Candidate, b: Candidate, c: Candidate)
    requires a.provider != b.provider && b.provider != c.provider && a.provider != c.provider
    ensures AutomaticChain([a, b, c], 1, 2) == [a, b, c]
  {
    var pool, names := [a, b, c], [a.provider, b.provider, c.provider];
    assert pool[..2] == [a, b] && pool[..2][..1] == [a] && [a][..0] == [];
    assert [] + [a] == [a] && [a] + [b] == [a, b] && [a, b] + [c] == pool;
    QueueSnoc(ProviderOf, [], a, a.provider);
    QueueSnoc(ProviderOf, [a], b, b.provider);
    QueueSnoc(ProviderOf, [a, b], c, c.provider);
    assert Firsts(ProviderOf, pool) == names;
    ChainLengthIs(pool, 1, 2);
    EveryProviderFirst(pool, 1, 2);
    HeadOfThree(a, b, c);
  }

  lemma HeadOfThree(a: Candidate, b: Candidate, c: Candidate)
    requires a.provider != b.provider && b.provider != c.provider && a.provider != c.provider
    ensures Queue(ProviderOf, [a, b, c], a.provider) == [a] && Queue(ProviderOf, [a, b, c], b.provider) == [b]
    ensures Queue(ProviderOf, [a, b, c], c.provider) == [c]
  {
    assert [] + [a] == [a] && [a] + [b] == [a, b] && [a, b] + [c] == [a, b, c];
    forall name ensures Queue(ProviderOf, [a, b, c], name) ==
      (if a.provider == name then [a] else []) + (if b.provider == name then [b] else []) + (if c.provider == name then [c] else [])
    {
      QueueSnoc(ProviderOf, [], a, name);
      QueueSnoc(ProviderOf, [a], b, name);
      QueueSnoc(ProviderOf, [a, b], c, name);
    }
  }

  /** Every eligible provider's best model comes before anybody's second, even past the cap. */
  lemma EveryProviderFirst(eligible: seq<Candidate>, attempts: int, maxAttempts: int)
    ensures
      var names, chain := Firsts(ProviderOf, eligible), AutomaticChain(eligible, attempts, maxAttempts);
      && |names| <= |chain|
      && forall i :: 0 <= i < |names| ==>
           Queue(ProviderOf, eligible, names[i]) != [] && chain[i] == Queue(ProviderOf, eligible, names[i])[0]
  {
    var names, qs := Firsts(ProviderOf, eligible), Queues(ProviderOf, eligible, Depth(attempts));
    FirstsAre(ProviderOf, eligible);
    assert forall i :: 0 <= i < |qs| ==> qs[i] != [] && qs[i][0] == Queue(ProviderOf, eligible, names[i])[0];
    FirstRound(qs);
  }

  /** What one provider contributes to any prefix of the chain is the head of its usable list. */
  lemma ChainTakesHeads(eligible: seq<Candidate>, attempts: int, maxAttempts: int, cut: nat, name: string)
    requires cut <= |AutomaticChain(eligible, attempts, maxAttempts)|
    ensures Queue(ProviderOf, AutomaticChain(eligible, attempts, maxAttempts)[..cut], name) <=
      Take(Queue(ProviderOf, eligible, name), Depth(attempts))
  {
    var names, qs := Firsts(ProviderOf, eligible), Queues(ProviderOf, eligible, Depth(attempts));
    QueuesOwned(ProviderOf, eligible, Depth(attempts));
    assert AutomaticChain(eligible, attempts, maxAttempts)[..cut] == Interleave(qs)[..cut];
    if name in names {
      var i :| 0 <= i < |names| && names[i] == name;
      PicksArePrefix(ProviderOf, names, qs, cut, i);
    } else {
      NoneOfOther(ProviderOf, names, qs, Longest(qs), name);
      FilterMonotone(Has(ProviderOf, name), Interleave(qs)[..cut], Interleave(qs));
    }
  }

  lemma TakenMember<T>(a: seq<T>, b: seq<T>, n: nat, x: T)
    requires a <= Take(b, n) && x in a
    ensures x in b
  {
    var i :| 0 <= i < |a| && a[i] == x;
    assert Take(b, n)[i] == x && b[i] == x;
  }

  lemma ChainFromEligible(eligible: seq<Candidate>, attempts: int, maxAttempts: int, c: Candidate)
    requires c in AutomaticChain(eligible, attempts, maxAttempts)
    ensures c in eligible
  {
    var chain := AutomaticChain(eligible, attempts, maxAttempts);
    ChainTakesHeads(eligible, attempts, maxAttempts, |chain|, c.provider);
    assert chain[..|chain|] == chain;
    QueueMember(ProviderOf, chain, c.provider, c);
    TakenMember(Queue(ProviderOf, chain, c.provider), Queue(ProviderOf, eligible, c.provider), Depth(attempts), c);
    QueueMember(ProviderOf, eligible, c.provider, c);
  }

  /** At every point of the chain two providers differ by one attempt at most, unless the one behind has run out. */
  lemma ChainIsFair(eligible: seq<Candidate>, attempts: int, maxAttempts: int, cut: nat, a: string, b: string)
    requires cut <= |AutomaticChain(eligible, attempts, maxAttempts)|
    requires b in Firsts(ProviderOf, eligible)
    ensures
      var prefix := AutomaticChain(eligible, attempts, maxAttempts)[..cut];
      var ofA, ofB := Queue(ProviderOf, prefix, a), Queue(ProviderOf, prefix, b);
      |ofA| <= |ofB| + 1 || ofB == Take(Queue(ProviderOf, eligible, b), Depth(attempts))
  {
    var names, qs := Firsts(ProviderOf, eligible), Queues(ProviderOf, eligible, Depth(attempts));
    QueuesOwned(ProviderOf, eligible, Depth(attempts));
    assert AutomaticChain(eligible, attempts, maxAttempts)[..cut] == Interleave(qs)[..cut];
    if a in names {
      var i :| 0 <= i < |names| && names[i] == a;
      var j :| 0 <= j < |names| && names[j] == b;
      Fair(ProviderOf, names, qs, cut, i, j);
    } else {
      ChainTakesHeads(eligible, attempts, maxAttempts, cut, a);
      FirstsAre(ProviderOf, eligible);
      NoQueue(ProviderOf, eligible, a);
    }
  }

  /** At every point a provider that comes first in the pool has had at least as many attempts, unless it has run out. */
  lemma ChainInOrder(eligible: seq<Candidate>, attempts: int, maxAttempts: int, cut: nat, i: nat, j: nat)
    requires cut <= |AutomaticChain(eligible, attempts, maxAttempts)|
    requires i < j < |Firsts(ProviderOf, eligible)|
    ensures
      var names, prefix := Firsts(ProviderOf, eligible), AutomaticChain(eligible, attempts, maxAttempts)[..cut];
      var ofI, ofJ := Queue(ProviderOf, prefix, names[i]), Queue(ProviderOf, prefix, names[j]);
      |ofJ| <= |ofI| || ofI == Take(Queue(ProviderOf, eligible, names[i]), Depth(attempts))
  {
    var names, qs := Firsts(ProviderOf, eligible), Queues(ProviderOf, eligible, Depth(attempts));
    QueuesOwned(ProviderOf, eligible, Depth(attempts));
    assert AutomaticChain(eligible, attempts, maxAttempts)[..cut] == Interleave(qs)[..cut];
    FairInOrder(ProviderOf, names, qs, cut, i, j);
  }

  lemma NoQueue<T>(keyOf: T -> string, s: seq<T>, name: string)
    requires name !in Firsts(keyOf, s)
    ensures Queue(keyOf, s, name) == []
  {
    FirstsAre(keyOf, s);
    forall x | x in s ensures !Has(keyOf, name)(x) { assert keyOf(x) in Firsts(keyOf, s); }
    FilterNone(Has(keyOf, name), s);
  }

  /** A cap that fits the whole pool only rearranges it, every provider's own order kept. */
  lemma ListingPermutes(pool: seq<Profile>, limit: nat)
    requires |pool| <= limit
    ensures multiset(SharedListing(pool, limit)) == multiset(pool)
    ensures forall name :: Queue(ProfileProvider, SharedListing(pool, limit), name) == Queue(ProfileProvider, pool, name)
  {
    InterleavePermutes(ProfileProvider, pool);
    var whole := Interleave(Queues(ProfileProvider, pool, |pool|));
    assert |multiset(whole)| == |multiset(pool)|;
    TakeAll(whole, limit);
  }

  /** A listing is as long as its limit and its pool allow. */
  lemma ListingLength(pool: seq<Profile>, limit: nat)
    ensures |SharedListing(pool, limit)| == Min(limit, |pool|)
  {
    InterleavePermutes(ProfileProvider, pool);
    assert |multiset(Interleave(Queues(ProfileProvider, pool, |pool|)))| == |multiset(pool)|;
  }

  /** The gateway's chain is the listing's interleaving, over lists cut to the configured depth. */
  lemma {:induction false} DepthIsQueueCut<T>(qs: seq<seq<T>>, cuts: seq<seq<T>>, depth: nat)
    requires |qs| == |cuts| && forall i :: 0 <= i < |qs| ==> cuts[i] == Take(qs[i], depth)
    ensures Interleave(cuts) == Rounds(qs, depth)
  {
    AllRounds(cuts, depth);
    SameRounds(qs, cuts, depth, depth);
  }

  lemma {:induction false} SameRounds<T>(qs: seq<seq<T>>, cuts: seq<seq<T>>, depth: nat, n: nat)
    requires |qs| == |cuts| && forall i :: 0 <= i < |qs| ==> cuts[i] == Take(qs[i], depth)
    requires n <= depth
    ensures Rounds(qs, n) == Rounds(cuts, n)
  {
    if n > 0 {
      SameRounds(qs, cuts, depth, n - 1);
      assert Column(qs, n - 1) == Column(cuts, n - 1) by { SameColumn(qs, cuts, depth, n - 1); }
      assert Rounds(qs, n) == Rounds(qs, n - 1) + Column(qs, n - 1);
      assert Rounds(cuts, n) == Rounds(cuts, n - 1) + Column(cuts, n - 1);
    }
  }

  lemma {:induction false} SameColumn<T>(qs: seq<seq<T>>, cuts: seq<seq<T>>, depth: nat, r: nat)
    requires |qs| == |cuts| && forall i :: 0 <= i < |qs| ==> cuts[i] == Take(qs[i], depth)
    requires r < depth
    ensures Column(qs, r) == Column(cuts, r)
  {
    if qs != [] {
      SameColumn(qs[..|qs| - 1], cuts[..|cuts| - 1], depth, r);
    }
  }
}
