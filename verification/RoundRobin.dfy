/**
 Round robin over per-provider queues, read column by column: everybody's first pick, then
 everybody's second, and so on. Both capped chains of the gateway and the dashboard's capped
 listing are prefixes of this one interleaving.
 */
module RoundRobin {
  import opened Sequences
  import opened Models

  // ---- the interleaving ----

  function Take<T>(s: seq<T>, n: int): seq<T>
    requires 0 <= n
  {
    s[..Min(n, |s|)]
  }

  /** Keys in order of first appearance. */
  function Firsts<T>(keyOf: T -> string, s: seq<T>): seq<string> {
    if s == [] then []
    else
      var names := Firsts(keyOf, s[..|s| - 1]);
      if keyOf(s[|s| - 1]) in names then names else names + [keyOf(s[|s| - 1])]
  }

  function Has<T>(keyOf: T -> string, name: string): T -> bool {
    x => keyOf(x) == name
  }

  function Queue<T>(keyOf: T -> string, s: seq<T>, name: string): seq<T> {
    Filter(Has(keyOf, name), s)
  }

  lemma QueueMember<T>(keyOf: T -> string, s: seq<T>, name: string, x: T)
    ensures x in Queue(keyOf, s, name) <==> x in s && keyOf(x) == name
  {
    FilterMember(Has(keyOf, name), s, x);
    assert Has(keyOf, name)(x) == (keyOf(x) == name);
  }

  /** One queue a key, keys in order of first appearance, each cut to `depth`. */
  function Queues<T>(keyOf: T -> string, s: seq<T>, depth: nat): (qs: seq<seq<T>>)
    ensures |qs| == |Firsts(keyOf, s)|
  {
    Map(name => Take(Queue(keyOf, s, name), depth), Firsts(keyOf, s))
  }

  function Column<T>(qs: seq<seq<T>>, r: nat): seq<T> {
    if qs == [] then []
    else Column(qs[..|qs| - 1], r) + (if r < |qs[|qs| - 1]| then [qs[|qs| - 1][r]] else [])
  }

  function Rounds<T>(qs: seq<seq<T>>, n: nat): seq<T> {
    if n == 0 then [] else Rounds(qs, n - 1) + Column(qs, n - 1)
  }

  function Longest<T>(qs: seq<seq<T>>): (n: nat)
    ensures forall i :: 0 <= i < |qs| ==> |qs[i]| <= n
  {
    if qs == [] then 0
    else Max(Longest(qs[..|qs| - 1]), |qs[|qs| - 1]|)
  }

  function Interleave<T>(qs: seq<seq<T>>): seq<T> {
    Rounds(qs, Longest(qs))
  }

  /** How many elements n rounds can take. */
  function TotalUpTo<T>(qs: seq<seq<T>>, n: nat): nat {
    if qs == [] then 0 else TotalUpTo(qs[..|qs| - 1], n) + Min(n, |qs[|qs| - 1]|)
  }

  /** Each queue holds only its own key's elements, and no key has two queues. */
  ghost predicate Owned<T>(keyOf: T -> string, names: seq<string>, qs: seq<seq<T>>) {
    && |names| == |qs|
    && Distinct(names)
    && forall i, k :: 0 <= i < |qs| && 0 <= k < |qs[i]| ==> keyOf(qs[i][k]) == names[i]
  }

  lemma {:induction false} FirstsAre<T>(keyOf: T -> string, s: seq<T>)
    ensures Distinct(Firsts(keyOf, s))
    ensures forall x :: x in s ==> keyOf(x) in Firsts(keyOf, s)
    ensures forall name :: name in Firsts(keyOf, s) ==> Queue(keyOf, s, name) != []
  {
    if s != [] {
      var s', x := s[..|s| - 1], s[|s| - 1];
      FirstsAre(keyOf, s');
      assert s == s' + [x];
      forall name | name in Firsts(keyOf, s) ensures Queue(keyOf, s, name) != [] {
        FilterSnoc(Has(keyOf, name), s', x);
      }
    }
  }

  lemma QueuesOwned<T>(keyOf: T -> string, s: seq<T>, depth: nat)
    ensures Owned(keyOf, Firsts(keyOf, s), Queues(keyOf, s, depth))
  {
    FirstsAre(keyOf, s);
    var names, qs := Firsts(keyOf, s), Queues(keyOf, s, depth);
    forall i, k | 0 <= i < |qs| && 0 <= k < |qs[i]| ensures keyOf(qs[i][k]) == names[i] {
      FilterMember(Has(keyOf, names[i]), s, Queue(keyOf, s, names[i])[k]);
    }
  }

  lemma {:induction false} ColumnOfNone<T>(keyOf: T -> string, names: seq<string>, qs: seq<seq<T>>, r: nat, name: string)
    requires Owned(keyOf, names, qs) && name !in names
    ensures Filter(Has(keyOf, name), Column(qs, r)) == []
  {
    if qs != [] {
      var n := |qs| - 1;
      ColumnOfNone(keyOf, names[..n], qs[..n], r, name);
      if r < |qs[n]| {
        assert keyOf(qs[n][r]) == names[n];
        FilterSnoc(Has(keyOf, name), Column(qs[..n], r), qs[n][r]);
      } else {
        assert Column(qs, r) == Column(qs[..n], r);
      }
    }
  }

  lemma {:induction false} ColumnOf<T>(keyOf: T -> string, names: seq<string>, qs: seq<seq<T>>, r: nat, i: nat)
    requires Owned(keyOf, names, qs) && i < |qs|
    ensures Filter(Has(keyOf, names[i]), Column(qs, r)) == if r < |qs[i]| then [qs[i][r]] else []
  {
    var n := |qs| - 1;
    if i == n {
      ColumnOfNone(keyOf, names[..n], qs[..n], r, names[i]);
    } else {
      ColumnOf(keyOf, names[..n], qs[..n], r, i);
    }
    if r < |qs[n]| {
      assert keyOf(qs[n][r]) == names[n];
      FilterSnoc(Has(keyOf, names[i]), Column(qs[..n], r), qs[n][r]);
    } else {
      assert Column(qs, r) == Column(qs[..n], r);
    }
  }

  /** After n rounds each key has contributed exactly the first n of its queue. */
  lemma RoundsOf<T>(keyOf: T -> string, names: seq<string>, qs: seq<seq<T>>, n: nat, i: nat)
    requires Owned(keyOf, names, qs) && i < |qs|
    ensures Filter(Has(keyOf, names[i]), Rounds(qs, n)) == Take(qs[i], n)
  {
    forall r: nat ensures Filter(Has(keyOf, names[i]), Column(qs, r)) == NthOf(qs[i], r) {
      ColumnOf(keyOf, names, qs, r, i);
    }
    RoundsPick(Has(keyOf, names[i]), qs, qs[i], n);
  }

  function NthOf<T>(s: seq<T>, r: nat): seq<T> {
    if r < |s| then [s[r]] else []
  }

  lemma {:induction false} RoundsPick<T>(p: T -> bool, qs: seq<seq<T>>, q: seq<T>, n: nat)
    requires forall r: nat :: Filter(p, Column(qs, r)) == NthOf(q, r)
    ensures Filter(p, Rounds(qs, n)) == Take(q, n)
  {
    if n > 0 {
      RoundsPick(p, qs, q, n - 1);
      FilterRound(p, qs, n);
      TakeOneMore(q, n);
    }
  }

  lemma FilterRound<T>(p: T -> bool, qs: seq<seq<T>>, n: nat)
    requires n > 0
    ensures Filter(p, Rounds(qs, n)) == Filter(p, Rounds(qs, n - 1)) + Filter(p, Column(qs, n - 1))
  {
    FilterAppend(p, Rounds(qs, n - 1), Column(qs, n - 1));
  }

  lemma TakeOneMore<T>(s: seq<T>, n: nat)
    requires n > 0
    ensures Take(s, n) == Take(s, n - 1) + NthOf(s, n - 1)
  {}

  lemma {:induction false} ColumnLength<T>(qs: seq<seq<T>>, n: nat)
    requires n > 0
    ensures TotalUpTo(qs, n) == TotalUpTo(qs, n - 1) + |Column(qs, n - 1)|
  {
    if qs != [] {
      ColumnLength(qs[..|qs| - 1], n);
    }
  }

  lemma {:induction false} RoundsLength<T>(qs: seq<seq<T>>, n: nat)
    ensures |Rounds(qs, n)| == TotalUpTo(qs, n)
  {
    if n == 0 {
      NothingInNoRounds(qs);
    } else {
      RoundsLength(qs, n - 1);
      assert |Rounds(qs, n)| == |Rounds(qs, n - 1)| + |Column(qs, n - 1)|;
      ColumnLength(qs, n);
    }
  }

  lemma {:induction false} NothingInNoRounds<T>(qs: seq<seq<T>>)
    ensures TotalUpTo(qs, 0) == 0
  {
    if qs != [] {
      NothingInNoRounds(qs[..|qs| - 1]);
    }
  }

  lemma {:induction false} ColumnEmpty<T>(qs: seq<seq<T>>, r: nat)
    ensures Column(qs, r) == [] <==> forall i :: 0 <= i < |qs| ==> |qs[i]| <= r
  {
    if qs != [] {
      var n := |qs| - 1;
      ColumnEmpty(qs[..n], r);
      assert forall i :: 0 <= i < n ==> qs[..n][i] == qs[i];
    }
  }

  /** Rounds past the longest queue add nothing. */
  lemma {:induction false} RoundsStop<T>(qs: seq<seq<T>>, n: nat, m: nat)
    requires n <= m && forall i :: 0 <= i < |qs| ==> |qs[i]| <= n
    ensures Rounds(qs, m) == Rounds(qs, n)
  {
    if n < m {
      RoundsStop(qs, n, m - 1);
      ColumnEmpty(qs, m - 1);
    }
  }

  lemma {:induction false} LongestReached<T>(qs: seq<seq<T>>, n: nat)
    requires forall i :: 0 <= i < |qs| ==> |qs[i]| <= n
    ensures Longest(qs) <= n
  {
    if qs != [] {
      LongestReached(qs[..|qs| - 1], n);
    }
  }

  lemma {:induction false} RoundsGrow<T>(qs: seq<seq<T>>, n: nat, m: nat)
    requires n <= m
    ensures Rounds(qs, n) <= Rounds(qs, m)
  {
    if n < m {
      RoundsGrow(qs, n, m - 1);
    }
  }

  /** Every round, whatever its number, is part of the interleaving. */
  lemma RoundsWithin<T>(qs: seq<seq<T>>, n: nat)
    ensures Rounds(qs, n) <= Interleave(qs)
  {
    if n <= Longest(qs) {
      RoundsGrow(qs, n, Longest(qs));
    } else {
      RoundsStop(qs, Longest(qs), n);
    }
  }

  lemma {:induction false} ColumnPrefix<T>(qs: seq<seq<T>>, r: nat, i: nat)
    requires i <= |qs|
    ensures Column(qs[..i], r) <= Column(qs, r)
  {
    if i == |qs| {
      assert qs[..i] == qs;
    } else {
      ColumnPrefix(qs[..|qs| - 1], r, i);
      assert qs[..|qs| - 1][..i] == qs[..i];
    }
  }

  lemma ColumnStep<T>(qs: seq<seq<T>>, r: nat, i: nat)
    requires i < |qs|
    ensures Column(qs[..i + 1], r) == Column(qs[..i], r) + (if r < |qs[i]| then [qs[i][r]] else [])
    ensures Rounds(qs, r) + Column(qs[..i + 1], r) <= Interleave(qs)
  {
    assert qs[..i + 1][..i] == qs[..i];
    ColumnPrefix(qs, r, i + 1);
    RoundsWithin(qs, r + 1);
  }

  /** Every cut of the interleaving falls inside one round. */
  lemma {:induction false} CutInRound<T>(qs: seq<seq<T>>, n: nat, m: nat) returns (r: nat)
    requires m <= |Rounds(qs, n)|
    ensures |Rounds(qs, r)| <= m
    ensures Rounds(qs, r) <= Rounds(qs, n)[..m] <= Rounds(qs, r + 1)
  {
    if n == 0 || m == |Rounds(qs, n)| {
      r := n;
      assert Rounds(qs, n)[..m] == Rounds(qs, n);
    } else if |Rounds(qs, n - 1)| <= m {
      r := n - 1;
    } else {
      r := CutInRound(qs, n - 1, m);
      assert Rounds(qs, n)[..m] == Rounds(qs, n - 1)[..m];
    }
  }

  lemma FilterMonotone<T>(p: T -> bool, s: seq<T>, t: seq<T>)
    requires s <= t
    ensures Filter(p, s) <= Filter(p, t)
  {
    assert t[..|s|] == s;
    FilterPrefix(p, t, |s|);
  }

  // ---- what any cut of the interleaving satisfies ----

  /** In every prefix, a key's picks are the first of its queue. */
  lemma PicksArePrefix<T>(keyOf: T -> string, names: seq<string>, qs: seq<seq<T>>, m: nat, i: nat)
    requires Owned(keyOf, names, qs) && i < |qs| && m <= |Interleave(qs)|
    ensures Filter(Has(keyOf, names[i]), Interleave(qs)[..m]) <= qs[i]
  {
    RoundsOf(keyOf, names, qs, Longest(qs), i);
    FilterMonotone(Has(keyOf, names[i]), Interleave(qs)[..m], Interleave(qs));
  }

  /** In every prefix no key is more than one pick ahead of another that still has picks left. */
  lemma Fair<T>(keyOf: T -> string, names: seq<string>, qs: seq<seq<T>>, m: nat, i: nat, j: nat)
    requires Owned(keyOf, names, qs) && i < |qs| && j < |qs| && m <= |Interleave(qs)|
    ensures
      var cut := Interleave(qs)[..m];
      var a, b := Filter(Has(keyOf, names[i]), cut), Filter(Has(keyOf, names[j]), cut);
      |a| <= |b| + 1 || b == qs[j]
  {
    var r := CutInRound(qs, Longest(qs), m);
    PicksArePrefix(keyOf, names, qs, m, j);
    FairBetween(keyOf, names, qs, Interleave(qs)[..m], r, i, j);
  }

  lemma FairBetween<T>(keyOf: T -> string, names: seq<string>, qs: seq<seq<T>>, cut: seq<T>, r: nat, i: nat, j: nat)
    requires Owned(keyOf, names, qs) && i < |qs| && j < |qs|
    requires Rounds(qs, r) <= cut <= Rounds(qs, r + 1)
    requires Filter(Has(keyOf, names[j]), cut) <= qs[j]
    ensures
      var a, b := Filter(Has(keyOf, names[i]), cut), Filter(Has(keyOf, names[j]), cut);
      |a| <= |b| + 1 || b == qs[j]
  {
    AtMost(keyOf, names, qs, cut, r + 1, i);
    AtLeast(keyOf, names, qs, cut, r, j);
  }

  // ---- and in which order ----

  /** Keys come in the order of their first elements. */
  lemma {:induction false} FirstsInOrder<T>(keyOf: T -> string, s: seq<T>, i: nat, j: nat) returns (p: nat)
    requires i < j < |Firsts(keyOf, s)|
    ensures p < |s| && keyOf(s[p]) == Firsts(keyOf, s)[i]
    ensures forall q :: 0 <= q <= p ==> keyOf(s[q]) != Firsts(keyOf, s)[j]
  {
    var n := |s| - 1;
    var names := Firsts(keyOf, s[..n]);
    if j < |names| {
      p := FirstsInOrder(keyOf, s[..n], i, j);
    } else {
      FirstsAre(keyOf, s[..n]);
      p := SomeOfKey(keyOf, s[..n], names[i]);
      assert forall q :: 0 <= q < n ==> s[..n][q] in s[..n] && s[..n][q] == s[q];
    }
  }

  lemma SomeOfKey<T>(keyOf: T -> string, s: seq<T>, name: string) returns (p: nat)
    requires name in Firsts(keyOf, s)
    ensures p < |s| && keyOf(s[p]) == name
  {
    FirstsAre(keyOf, s);
    QueueMember(keyOf, s, name, Queue(keyOf, s, name)[0]);
    p :| 0 <= p < |s| && s[p] == Queue(keyOf, s, name)[0];
  }

  /** A cut through a round has served the first k queues and no other. */
  lemma {:induction false} ColumnCut<T>(qs: seq<seq<T>>, r: nat, m: nat) returns (k: nat)
    requires m <= |Column(qs, r)|
    ensures k <= |qs| && Column(qs, r)[..m] == Column(qs[..k], r)
  {
    if m == |Column(qs, r)| {
      k := |qs|;
      assert qs[..k] == qs && Column(qs, r)[..m] == Column(qs, r);
    } else {
      var n := |qs| - 1;
      k := ColumnCut(qs[..n], r, m);
      assert qs[..n][..k] == qs[..k] && Column(qs, r)[..m] == Column(qs[..n], r)[..m];
    }
  }

  lemma ServedInRound<T>(keyOf: T -> string, names: seq<string>, qs: seq<seq<T>>, r: nat, k: nat, i: nat)
    requires Owned(keyOf, names, qs) && i < |qs| && k <= |qs|
    ensures Filter(Has(keyOf, names[i]), Column(qs[..k], r)) == if i < k then NthOf(qs[i], r) else []
  {
    if i < k {
      assert names[..k][i] == names[i] && qs[..k][i] == qs[i];
      ColumnOf(keyOf, names[..k], qs[..k], r, i);
    } else {
      ColumnOfNone(keyOf, names[..k], qs[..k], r, names[i]);
    }
  }

  lemma ServedSoFar<T>(keyOf: T -> string, names: seq<string>, qs: seq<seq<T>>, r: nat, k: nat, i: nat)
    requires Owned(keyOf, names, qs) && i < |qs| && k <= |qs|
    ensures Filter(Has(keyOf, names[i]), Rounds(qs, r) + Column(qs[..k], r)) == Take(qs[i], if i < k then r + 1 else r)
  {
    FilterAppend(Has(keyOf, names[i]), Rounds(qs, r), Column(qs[..k], r));
    RoundsOf(keyOf, names, qs, r, i);
    ServedInRound(keyOf, names, qs, r, k, i);
    TakeOneMore(qs[i], r + 1);
    assert Take(qs[i], r) + [] == Take(qs[i], r);
  }

  /** At every point earlier queues have been served at least as often as later ones, unless exhausted. */
  lemma FairInOrder<T>(keyOf: T -> string, names: seq<string>, qs: seq<seq<T>>, m: nat, i: nat, j: nat)
    requires Owned(keyOf, names, qs) && i < j < |qs| && m <= |Interleave(qs)|
    ensures
      var cut := Interleave(qs)[..m];
      var a, b := Filter(Has(keyOf, names[i]), cut), Filter(Has(keyOf, names[j]), cut);
      |b| <= |a| || a == qs[i]
  {
    var cut := Interleave(qs)[..m];
    var r := CutInRound(qs, Longest(qs), m);
    var part := m - |Rounds(qs, r)|;
    assert cut == Rounds(qs, r) + Column(qs, r)[..part];
    var k := ColumnCut(qs, r, part);
    ServedSoFar(keyOf, names, qs, r, k, i);
    ServedSoFar(keyOf, names, qs, r, k, j);
  }

  lemma AtMost<T>(keyOf: T -> string, names: seq<string>, qs: seq<seq<T>>, cut: seq<T>, n: nat, i: nat)
    requires Owned(keyOf, names, qs) && i < |qs| && cut <= Rounds(qs, n)
    ensures |Filter(Has(keyOf, names[i]), cut)| <= n
  {
    FilterMonotone(Has(keyOf, names[i]), cut, Rounds(qs, n));
    RoundsOf(keyOf, names, qs, n, i);
  }

  lemma AtLeast<T>(keyOf: T -> string, names: seq<string>, qs: seq<seq<T>>, cut: seq<T>, n: nat, i: nat)
    requires Owned(keyOf, names, qs) && i < |qs| && Rounds(qs, n) <= cut
    ensures |Filter(Has(keyOf, names[i]), cut)| >= Min(n, |qs[i]|)
  {
    FilterMonotone(Has(keyOf, names[i]), Rounds(qs, n), cut);
    RoundsOf(keyOf, names, qs, n, i);
  }

  /** The interleaving of a whole pool is the pool rearranged, each key's order kept. */
  lemma InterleavePermutes<T(!new)>(keyOf: T -> string, s: seq<T>)
    ensures var out := Interleave(Queues(keyOf, s, |s|));
      && multiset(out) == multiset(s)
      && forall name :: Queue(keyOf, out, name) == Queue(keyOf, s, name)
  {
    var names, qs := Firsts(keyOf, s), Queues(keyOf, s, |s|);
    var out := Interleave(qs);
    QueuesOwned(keyOf, s, |s|);
    FirstsAre(keyOf, s);
    forall name ensures Queue(keyOf, out, name) == Queue(keyOf, s, name) {
      if name in names {
        var i :| 0 <= i < |names| && names[i] == name;
        RoundsOf(keyOf, names, qs, Longest(qs), i);
        FilterShorter(Has(keyOf, name), s);
      } else {
        NoneOfOther(keyOf, names, qs, Longest(qs), name);
        FilterNone(Has(keyOf, name), s);
      }
    }
    forall x ensures multiset(out)[x] == multiset(s)[x] {
      FilterCount(Has(keyOf, keyOf(x)), out, x);
      FilterCount(Has(keyOf, keyOf(x)), s, x);
      assert Queue(keyOf, out, keyOf(x)) == Queue(keyOf, s, keyOf(x));
    }
  }

  lemma {:induction false} FilterShorter<T>(p: T -> bool, s: seq<T>)
    ensures |Filter(p, s)| <= |s|
  {
    if s != [] {
      FilterShorter(p, s[..|s| - 1]);
    }
  }

  lemma NoneOfOther<T>(keyOf: T -> string, names: seq<string>, qs: seq<seq<T>>, n: nat, name: string)
    requires Owned(keyOf, names, qs) && name !in names
    ensures Filter(Has(keyOf, name), Rounds(qs, n)) == []
  {
    forall r: nat ensures Filter(Has(keyOf, name), Column(qs, r)) == NthOf([], r) {
      ColumnOfNone(keyOf, names, qs, r, name);
    }
    RoundsPick(Has(keyOf, name), qs, [], n);
  }

  /** The first round is everybody's head, in order. */
  lemma {:induction false} FirstColumn<T>(qs: seq<seq<T>>)
    requires forall i :: 0 <= i < |qs| ==> qs[i] != []
    ensures |Column(qs, 0)| == |qs| && forall i :: 0 <= i < |qs| ==> Column(qs, 0)[i] == qs[i][0]
  {
    if qs != [] {
      var n := |qs| - 1;
      assert forall i :: 0 <= i < n ==> qs[..n][i] == qs[i];
      FirstColumn(qs[..n]);
    }
  }

  lemma FirstRound<T>(qs: seq<seq<T>>)
    requires forall i :: 0 <= i < |qs| ==> qs[i] != []
    ensures |qs| <= |Interleave(qs)| && forall i :: 0 <= i < |qs| ==> Interleave(qs)[i] == qs[i][0]
  {
    FirstColumn(qs);
    RoundsWithin(qs, 1);
    assert Rounds(qs, 1) == Rounds(qs, 0) + Column(qs, 0) == Column(qs, 0);
  }
}
