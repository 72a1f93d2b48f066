/**
 sort.SliceStable, as Go documents it: a permutation into order that keeps equal elements in
 their original order. Such an arrangement is unique, so several passes, or several enumerations
 of one map, can be compared by comparing what they do to each class of equal elements.
 */
module StableSort {
  import opened Sequences

  /** Asymmetric and negatively transitive: the "less" functions Go's sort accepts. */
  ghost predicate StrictWeak<T(!new)>(less: (T, T) -> bool) {
    && (forall a, b :: less(a, b) ==> !less(b, a))
    && (forall a, b, c :: less(a, c) ==> less(a, b) || less(b, c))
  }

  /** The elements that tie with x. */
  function Ties<T>(less: (T, T) -> bool, x: T): T -> bool {
    y => !less(x, y) && !less(y, x)
  }

  ghost predicate Sorted<T>(less: (T, T) -> bool, s: seq<T>) {
    forall i, j :: 0 <= i < j < |s| ==> !less(s[j], s[i])
  }

  ghost predicate SameTies<T(!new)>(less: (T, T) -> bool, s: seq<T>, t: seq<T>) {
    forall x :: Filter(Ties(less, x), s) == Filter(Ties(less, x), t)
  }

  /** t is s in order, each class of ties kept in its original order. */
  ghost predicate IsStableSort<T(!new)>(less: (T, T) -> bool, s: seq<T>, t: seq<T>) {
    Sorted(less, t) && SameTies(less, s, t)
  }

  /** Puts x behind everything it does not precede. */
  function Insert<T>(less: (T, T) -> bool, t: seq<T>, x: T): seq<T> {
    if t == [] || !less(x, t[|t| - 1]) then t + [x]
    else Insert(less, t[..|t| - 1], x) + [t[|t| - 1]]
  }

  function Sort<T>(less: (T, T) -> bool, s: seq<T>): seq<T> {
    if s == [] then [] else Insert(less, Sort(less, s[..|s| - 1]), s[|s| - 1])
  }

  /** `major` first, `minor` among what ties under it. */
  function Lex<T>(major: (T, T) -> bool, minor: (T, T) -> bool): (T, T) -> bool {
    (a, b) => major(a, b) || (!major(b, a) && minor(a, b))
  }

  /** Elements for which the test fails go first. */
  function FalseFirst<T>(test: T -> bool): (T, T) -> bool {
    (a, b) => !test(a) && test(b)
  }

  function ByKey<T>(key: T -> real): (T, T) -> bool {
    (a, b) => key(a) < key(b)
  }

  lemma {:induction false} InsertSame<T(!new)>(less: (T, T) -> bool, less': (T, T) -> bool, t: seq<T>, x: T)
    requires forall a, b :: less(a, b) == less'(a, b)
    ensures Insert(less, t, x) == Insert(less', t, x)
  {
    if t != [] {
      InsertSame(less, less', t[..|t| - 1], x);
    }
  }

  /** Only what an order says matters, not how it is written. */
  lemma {:induction false} SortSame<T(!new)>(less: (T, T) -> bool, less': (T, T) -> bool, s: seq<T>)
    requires forall a, b :: less(a, b) == less'(a, b)
    ensures Sort(less, s) == Sort(less', s)
  {
    if s != [] {
      SortSame(less, less', s[..|s| - 1]);
      InsertSame(less, less', Sort(less, s[..|s| - 1]), s[|s| - 1]);
    }
  }

  lemma {:induction false} InsertMember<T>(less: (T, T) -> bool, t: seq<T>, x: T)
    ensures multiset(Insert(less, t, x)) == multiset(t) + multiset{x}
  {
    if t != [] && less(x, t[|t| - 1]) {
      InsertMember(less, t[..|t| - 1], x);
      assert t == t[..|t| - 1] + [t[|t| - 1]];
    }
  }

  lemma {:induction false} InsertSorted<T(!new)>(less: (T, T) -> bool, t: seq<T>, x: T)
    requires StrictWeak(less) && Sorted(less, t)
    ensures Sorted(less, Insert(less, t, x))
  {
    if t != [] {
      var last := t[|t| - 1];
      if less(x, last) {
        var u := Insert(less, t[..|t| - 1], x);
        InsertSorted(less, t[..|t| - 1], x);
        InsertMember(less, t[..|t| - 1], x);
        forall i | 0 <= i < |u| ensures !less(last, u[i]) {
          assert u[i] in multiset(u);
          assert u[i] == x || u[i] in t[..|t| - 1];
        }
      } else {
        forall i | 0 <= i < |t| ensures !less(x, t[i]) {
          assert i < |t| - 1 ==> !less(last, t[i]);
        }
      }
    }
  }

  lemma {:induction false} InsertTies<T(!new)>(less: (T, T) -> bool, t: seq<T>, x: T, y: T)
    requires StrictWeak(less)
    ensures Filter(Ties(less, y), Insert(less, t, x)) == Filter(Ties(less, y), t + [x])
  {
    var p := Ties(less, y);
    if t != [] && less(x, t[|t| - 1]) {
      var t', last := t[..|t| - 1], t[|t| - 1];
      InsertTies(less, t', x, y);
      FilterSnoc(p, Insert(less, t', x), last);
      FilterSnoc(p, t', x);
      FilterSnoc(p, t, x);
      assert !(p(x) && p(last));
    }
  }

  /** The insertion sort meets the contract of sort.SliceStable. */
  lemma {:induction false} SortIsStable<T(!new)>(less: (T, T) -> bool, s: seq<T>)
    requires StrictWeak(less)
    ensures IsStableSort(less, s, Sort(less, s))
  {
    if s != [] {
      var s', x := s[..|s| - 1], s[|s| - 1];
      SortIsStable(less, s');
      InsertSorted(less, Sort(less, s'), x);
      assert s == s' + [x];
      forall y ensures Filter(Ties(less, y), s) == Filter(Ties(less, y), Sort(less, s)) {
        InsertTies(less, Sort(less, s'), x, y);
        FilterSnoc(Ties(less, y), Sort(less, s'), x);
        FilterSnoc(Ties(less, y), s', x);
      }
    }
  }

  lemma TiesReflexive<T(!new)>(less: (T, T) -> bool, x: T)
    requires StrictWeak(less)
    ensures Ties(less, x)(x)
  {}

  lemma SameTiesMember<T(!new)>(less: (T, T) -> bool, s: seq<T>, t: seq<T>, x: T)
    requires StrictWeak(less) && SameTies(less, s, t)
    ensures multiset(s)[x] == multiset(t)[x]
  {
    TiesReflexive(less, x);
    FilterCount(Ties(less, x), s, x);
    FilterCount(Ties(less, x), t, x);
    assert Filter(Ties(less, x), s) == Filter(Ties(less, x), t);
  }

  lemma SameTiesPermutation<T(!new)>(less: (T, T) -> bool, s: seq<T>, t: seq<T>)
    requires StrictWeak(less) && SameTies(less, s, t)
    ensures multiset(s) == multiset(t) && |s| == |t|
  {
    forall x ensures multiset(s)[x] == multiset(t)[x] {
      SameTiesMember(less, s, t, x);
    }
    assert multiset(s) == multiset(t);
    assert |multiset(s)| == |s| && |multiset(t)| == |t|;
  }

  lemma SameLast<T(!new)>(less: (T, T) -> bool, s: seq<T>, t: seq<T>)
    requires StrictWeak(less)
    requires Sorted(less, s) && Sorted(less, t) && SameTies(less, s, t) && s != [] && t != []
    ensures s[|s| - 1] == t[|t| - 1]
  {
    SameTiesPermutation(less, s, t);
    var x, y := s[|s| - 1], t[|t| - 1];
    assert y in multiset(t) && x in multiset(s);
    assert y in s && x in t;
    assert !less(x, y) && !less(y, x);
    FilterLast(Ties(less, x), s);
    FilterLast(Ties(less, x), t);
    assert Filter(Ties(less, x), s) == Filter(Ties(less, x), t);
  }

  lemma SameTiesDropLast<T(!new)>(less: (T, T) -> bool, s: seq<T>, t: seq<T>, x: T)
    requires SameTies(less, s + [x], t + [x])
    ensures SameTies(less, s, t)
  {
    forall z ensures Filter(Ties(less, z), s) == Filter(Ties(less, z), t) {
      var p := Ties(less, z);
      assert Filter(p, s + [x]) == Filter(p, t + [x]);
      FilterSnoc(p, s, x);
      FilterSnoc(p, t, x);
      AppendCancels(Filter(p, s), Filter(p, t), if p(x) then [x] else []);
    }
  }

  /** Two ordered sequences that agree on every class of ties are the same sequence. */
  lemma {:induction false} StableSortUnique<T(!new)>(less: (T, T) -> bool, s: seq<T>, t: seq<T>)
    requires StrictWeak(less)
    requires Sorted(less, s) && Sorted(less, t) && SameTies(less, s, t)
    ensures s == t
  {
    SameTiesPermutation(less, s, t);
    if s != [] {
      SameLast(less, s, t);
      var x, s', t' := s[|s| - 1], s[..|s| - 1], t[..|t| - 1];
      assert s == s' + [x] && t == t' + [x];
      SameTiesDropLast(less, s', t', x);
      StableSortUnique(less, s', t');
    }
  }

  /** So a stable sort only depends on the order inside each class of ties. */
  lemma SortDependsOnTies<T(!new)>(less: (T, T) -> bool, s: seq<T>, t: seq<T>)
    requires StrictWeak(less) && SameTies(less, s, t)
    ensures Sort(less, s) == Sort(less, t)
  {
    SortIsStable(less, s);
    SortIsStable(less, t);
    forall x ensures Filter(Ties(less, x), Sort(less, s)) == Filter(Ties(less, x), Sort(less, t)) {
      assert Filter(Ties(less, x), s) == Filter(Ties(less, x), t);
      assert Filter(Ties(less, x), s) == Filter(Ties(less, x), Sort(less, s));
      assert Filter(Ties(less, x), t) == Filter(Ties(less, x), Sort(less, t));
    }
    StableSortUnique(less, Sort(less, s), Sort(less, t));
  }

  lemma SortUnique<T(!new)>(less: (T, T) -> bool, s: seq<T>, t: seq<T>)
    requires StrictWeak(less) && IsStableSort(less, s, t)
    ensures t == Sort(less, s)
  {
    SortIsStable(less, s);
    forall x ensures Filter(Ties(less, x), t) == Filter(Ties(less, x), Sort(less, s)) {
      assert Filter(Ties(less, x), s) == Filter(Ties(less, x), t);
      assert Filter(Ties(less, x), s) == Filter(Ties(less, x), Sort(less, s));
    }
    StableSortUnique(less, t, Sort(less, s));
  }

  lemma SortPermutes<T(!new)>(less: (T, T) -> bool, s: seq<T>)
    requires StrictWeak(less)
    ensures multiset(Sort(less, s)) == multiset(s) && |Sort(less, s)| == |s|
  {
    SortIsStable(less, s);
    SameTiesPermutation(less, s, Sort(less, s));
  }

  lemma LexStrictWeak<T(!new)>(major: (T, T) -> bool, minor: (T, T) -> bool)
    requires StrictWeak(major) && StrictWeak(minor)
    ensures StrictWeak(Lex(major, minor))
  {
    var less := Lex(major, minor);
    forall a, b, c | less(a, c) ensures less(a, b) || less(b, c) {
      if major(a, c) {
        assert major(a, b) || major(b, c);
      } else {
        assert minor(a, b) || minor(b, c);
        assert !major(c, a);
        assert major(b, a) ==> major(b, c) || major(c, a);
        assert major(c, b) ==> major(c, a) || major(a, b);
      }
    }
  }

  lemma FilterKeepsOrder<T(!new)>(less: (T, T) -> bool, p: T -> bool, s: seq<T>)
    requires Sorted(less, s)
    ensures Sorted(less, Filter(p, s))
  {
    if s != [] {
      var s', x := s[..|s| - 1], s[|s| - 1];
      FilterKeepsOrder(less, p, s');
      forall i | 0 <= i < |Filter(p, s')| ensures !less(x, Filter(p, s')[i]) {
        FilterMember(p, s', Filter(p, s')[i]);
      }
    }
  }

  /** Elements of one filtered class keep the order they have in the filter. */
  lemma OrderFromFilter<T(!new)>(less: (T, T) -> bool, p: T -> bool, s: seq<T>, i: nat, j: nat)
    requires i < j < |s| && p(s[i]) && p(s[j]) && Sorted(less, Filter(p, s))
    ensures !less(s[j], s[i])
  {
    FilterPosition(p, s, i);
    FilterPosition(p, s, j);
    assert s[..j][..i] == s[..i];
    FilterPosition(p, s[..j], i);
    FilterPrefix(p, s, j);
  }

  /** Sorting by `minor` and then stably by `major` is one sort by the pair. */
  lemma TwoPasses<T(!new)>(major: (T, T) -> bool, minor: (T, T) -> bool, s: seq<T>)
    requires StrictWeak(major) && StrictWeak(minor)
    ensures Sort(major, Sort(minor, s)) == Sort(Lex(major, minor), s)
  {
    var mid := Sort(minor, s);
    var out := Sort(major, mid);
    SortIsStable(minor, s);
    SortIsStable(major, mid);
    LexStrictWeak(major, minor);
    var less := Lex(major, minor);
    forall i, j | 0 <= i < j < |out| ensures !less(out[j], out[i]) {
      assert !major(out[j], out[i]);
      if !major(out[i], out[j]) {
        var p := Ties(major, out[i]);
        assert Filter(p, mid) == Filter(p, out);
        FilterKeepsOrder(minor, p, mid);
        OrderFromFilter(minor, p, out, i, j);
      }
    }
    forall x ensures Filter(Ties(less, x), s) == Filter(Ties(less, x), out) {
      var p, q := Ties(minor, x), Ties(major, x);
      FilterTwice(q, p, Ties(less, x), s);
      FilterTwice(q, p, Ties(less, x), mid);
      FilterTwice(p, q, Ties(less, x), mid);
      FilterTwice(p, q, Ties(less, x), out);
      assert Filter(p, s) == Filter(p, mid);
      assert Filter(q, mid) == Filter(q, out);
    }
    SortUnique(less, s, out);
  }

  /** What a sort keeps of a part is the sort of that part. */
  lemma SortOfPart<T(!new)>(less: (T, T) -> bool, p: T -> bool, s: seq<T>)
    requires StrictWeak(less)
    ensures Filter(p, Sort(less, s)) == Sort(less, Filter(p, s))
  {
    var all := Sort(less, s);
    SortIsStable(less, s);
    FilterKeepsOrder(less, p, all);
    forall x ensures Filter(Ties(less, x), Filter(p, s)) == Filter(Ties(less, x), Filter(p, all)) {
      var q := Ties(less, x);
      FiltersCommute(p, q, s);
      FiltersCommute(p, q, all);
      assert Filter(q, s) == Filter(q, all);
    }
    SortUnique(less, Filter(p, s), Filter(p, all));
  }

  lemma FiltersCommute<T>(p: T -> bool, q: T -> bool, s: seq<T>)
    ensures Filter(q, Filter(p, s)) == Filter(p, Filter(q, s))
  {
    var both := (x: T) => p(x) && q(x);
    FilterTwice(q, p, both, s);
    FilterTwice(p, q, both, s);
  }

  /** Nothing moves when nothing precedes anything else. */
  lemma {:induction false} SortNoOrder<T(!new)>(less: (T, T) -> bool, s: seq<T>)
    requires forall a, b :: a in s && b in s ==> !less(a, b)
    ensures Sort(less, s) == s
  {
    if s != [] {
      var s', x := s[..|s| - 1], s[|s| - 1];
      SortNoOrder(less, s');
      assert s == s' + [x];
    }
  }
}
