/** Stable sorting as sort.SliceStable does it, and the byte-wise order of strings. */
module StableSort {

  /** `less` behaves like `<` on some rank. */
  ghost predicate RankLike<T(!new)>(less: (T, T) -> bool) {
    && (forall x, y :: less(x, y) ==> !less(y, x))
    && (forall x, y, z :: !less(x, y) && !less(y, z) ==> !less(x, z))
  }

  ghost predicate Sorted<T>(s: seq<T>, less: (T, T) -> bool) {
    forall i, j | 0 <= i < j < |s| :: !less(s[j], s[i])
  }

  /** Puts `x` behind every element that is not greater. */
  function Insert<T>(s: seq<T>, x: T, less: (T, T) -> bool): seq<T> {
    if s == [] || !less(x, s[|s| - 1]) then s + [x]
    else Insert(s[..|s| - 1], x, less) + [s[|s| - 1]]
  }

  function Sort<T>(s: seq<T>, less: (T, T) -> bool): seq<T> {
    if s == [] then [] else Insert(Sort(s[..|s| - 1], less), s[|s| - 1], less)
  }

  lemma {:induction false} InsertPermutes<T>(s: seq<T>, x: T, less: (T, T) -> bool)
    ensures multiset(Insert(s, x, less)) == multiset(s) + multiset{x}
    ensures |Insert(s, x, less)| == |s| + 1
  {
    if s != [] && less(x, s[|s| - 1]) {
      InsertPermutes(s[..|s| - 1], x, less);
      assert s == s[..|s| - 1] + [s[|s| - 1]];
    }
  }

  lemma {:induction false} SortPermutes<T>(s: seq<T>, less: (T, T) -> bool)
    ensures multiset(Sort(s, less)) == multiset(s)
    ensures |Sort(s, less)| == |s|
  {
    if s != [] {
      SortPermutes(s[..|s| - 1], less);
      InsertPermutes(Sort(s[..|s| - 1], less), s[|s| - 1], less);
      assert s == s[..|s| - 1] + [s[|s| - 1]];
    }
  }

  lemma {:induction false} InsertSorts<T(!new)>(s: seq<T>, x: T, less: (T, T) -> bool)
    requires RankLike(less) && Sorted(s, less)
    ensures Sorted(Insert(s, x, less), less)
    ensures forall y | y in Insert(s, x, less) :: y == x || y in s
  {
    if s != [] {
      var last := s[|s| - 1];
      if less(x, last) {
        InsertSorts(s[..|s| - 1], x, less);
        forall y | y in Insert(s[..|s| - 1], x, less) ensures !less(last, y) {
        }
      }
    }
  }

  lemma {:induction false} SortSorts<T(!new)>(s: seq<T>, less: (T, T) -> bool)
    requires RankLike(less)
    ensures Sorted(Sort(s, less), less)
  {
    if s != [] {
      SortSorts(s[..|s| - 1], less);
      InsertSorts(Sort(s[..|s| - 1], less), s[|s| - 1], less);
    }
  }

  // ---------------------------------------------------------------- stability

  /** The elements that rank like `x`, in order. */
  function Ties<T>(s: seq<T>, x: T, less: (T, T) -> bool): seq<T> {
    if s == [] then []
    else
      var last := s[|s| - 1];
      Ties(s[..|s| - 1], x, less) + (if less(last, x) || less(x, last) then [] else [last])
  }

  lemma {:induction false} InsertIsStable<T(!new)>(s: seq<T>, y: T, x: T, less: (T, T) -> bool)
    requires RankLike(less)
    ensures Ties(Insert(s, y, less), x, less) == Ties(s + [y], x, less)
  {
    assert (s + [y])[..|s|] == s;
    if s != [] && less(y, s[|s| - 1]) {
      var init, last := s[..|s| - 1], s[|s| - 1];
      InsertIsStable(init, y, x, less);
      assert (init + [y])[..|init|] == init;
      assert (Insert(init, y, less) + [last])[..|Insert(init, y, less)|] == Insert(init, y, less);
    }
  }

  /** Elements of equal rank keep their order. */
  lemma {:induction false} SortIsStable<T(!new)>(s: seq<T>, x: T, less: (T, T) -> bool)
    requires RankLike(less)
    ensures Ties(Sort(s, less), x, less) == Ties(s, x, less)
  {
    if s != [] {
      var init, last := s[..|s| - 1], s[|s| - 1];
      SortIsStable(init, x, less);
      SortPermutes(init, less);
      InsertIsStable(Sort(init, less), last, x, less);
      assert (Sort(init, less) + [last])[..|init|] == Sort(init, less);
    }
  }

  // ------------------------------------------------------------ order of strings

  predicate StringLess(a: string, b: string) {
    b != "" && (a == "" || a[0] < b[0] || (a[0] == b[0] && StringLess(a[1..], b[1..])))
  }

  /** The byte-wise order: at the first difference the smaller byte decides, and a text comes
      before its continuations. */
  lemma {:induction false} StringLessIff(a: string, b: string)
    ensures StringLess(a, b) <==>
            exists p :: 0 <= p <= |a| && p < |b| && DiffersAt(a, b, p)
  {
    if b != "" && a == "" {
      assert DiffersAt(a, b, 0);
    } else if b != "" {
      StringLessIff(a[1..], b[1..]);
      if a[0] == b[0] {
        SameFirst(a, b);
      } else if a[0] < b[0] {
        assert DiffersAt(a, b, 0);
      } else if p :| 0 <= p <= |a| && p < |b| && DiffersAt(a, b, p) {
        assert p > 0 ==> a[..p][0] == b[..p][0];
      }
    }
  }

  predicate DiffersAt(a: string, b: string, p: nat)
    requires p <= |a| && p < |b|
  {
    a[..p] == b[..p] && (p == |a| || a[p] < b[p])
  }

  lemma {:induction false} SameFirst(a: string, b: string)
    requires a != "" && b != "" && a[0] == b[0]
    ensures (exists p :: 0 <= p <= |a| && p < |b| && DiffersAt(a, b, p)) <==>
            exists p :: 0 <= p <= |a[1..]| && p < |b[1..]| && DiffersAt(a[1..], b[1..], p)
  {
    if p :| 0 <= p <= |a[1..]| && p < |b[1..]| && DiffersAt(a[1..], b[1..], p) {
      assert a[..p + 1] == [a[0]] + a[1..][..p] && b[..p + 1] == [b[0]] + b[1..][..p];
      assert DiffersAt(a, b, p + 1);
    }
    if p :| 0 <= p <= |a| && p < |b| && DiffersAt(a, b, p) {
      var q := p - 1;
      assert a[1..][..q] == a[..p][1..] && b[1..][..q] == b[..p][1..];
      assert DiffersAt(a[1..], b[1..], q);
    }
  }

  lemma {:induction false} StringLessTotal(a: string, b: string)
    ensures StringLess(a, b) ==> !StringLess(b, a)
    ensures !StringLess(a, b) && !StringLess(b, a) ==> a == b
  {
    if a != "" && b != "" {
      StringLessTotal(a[1..], b[1..]);
      assert a == [a[0]] + a[1..] && b == [b[0]] + b[1..];
    }
  }

  lemma {:induction false} StringLessCotransitive(a: string, b: string, c: string)
    ensures !StringLess(a, b) && !StringLess(b, c) ==> !StringLess(a, c)
  {
    if a != "" && b != "" && c != "" {
      StringLessCotransitive(a[1..], b[1..], c[1..]);
    }
  }

  lemma StringLessIsRankLike()
    ensures RankLike(StringLess)
  {
    forall a: string, b: string ensures StringLess(a, b) ==> !StringLess(b, a) {
      StringLessTotal(a, b);
    }
    forall a: string, b: string, c: string
      ensures !StringLess(a, b) && !StringLess(b, c) ==> !StringLess(a, c)
    {
      StringLessCotransitive(a, b, c);
    }
  }

  // --------------------------------------------------------- the sorted keys of a map

  ghost predicate SortedKeys(names: seq<string>, keys: set<string>) {
    && (forall i, j | 0 <= i < j < |names| :: StringLess(names[i], names[j]))
    && (forall name :: name in names <==> name in keys)
  }

  /** Collects the keys in the order the map yields them, then sorts. */
  method SortKeys(keys: set<string>) returns (names: seq<string>)
    ensures SortedKeys(names, keys)
  {
    var listed: seq<string> := [];
    var todo := keys;
    while todo != {}
      invariant todo <= keys
      invariant forall name :: name in listed <==> name in keys && name !in todo
      invariant forall i, j | 0 <= i < j < |listed| :: listed[i] != listed[j]
      decreases todo
    {
      var name :| name in todo;
      listed := listed + [name];
      todo := todo - {name};
    }
    names := Sort(listed, StringLess);
    StringLessIsRankLike();
    SortSorts(listed, StringLess);
    SortPermutes(listed, StringLess);
    DistinctIsMultiplicityFree(listed);
    forall name ensures name in names <==> name in listed {
      assert name in multiset(names) <==> name in multiset(listed);
    }
    forall i, j | 0 <= i < j < |names| ensures StringLess(names[i], names[j]) {
      TwiceMeansTwo(names, i, j);
      StringLessTotal(names[i], names[j]);
    }
  }

  lemma {:induction false} DistinctIsMultiplicityFree<T>(s: seq<T>)
    requires forall i, j | 0 <= i < j < |s| :: s[i] != s[j]
    ensures forall x :: multiset(s)[x] <= 1
  {
    if s != [] {
      var init := s[..|s| - 1];
      DistinctIsMultiplicityFree(init);
      assert s == init + [s[|s| - 1]];
      assert s[|s| - 1] !in init;
      assert s[|s| - 1] !in multiset(init);
    }
  }

  lemma {:induction false} CountOfSame<T>(s: seq<T>, x: T)
    requires forall i | 0 <= i < |s| :: s[i] == x
    ensures multiset(s)[x] == |s|
  {
    if s != [] {
      CountOfSame(s[..|s| - 1], x);
      assert s == s[..|s| - 1] + [s[|s| - 1]];
    }
  }

  lemma {:induction false} SameAndDistinctIsOne<T>(s: seq<T>, x: T)
    requires forall i | 0 <= i < |s| :: s[i] == x
    requires forall i, j | 0 <= i < j < |s| :: s[i] != s[j]
    ensures |s| <= 1
  {
    DistinctIsMultiplicityFree(s);
    CountOfSame(s, x);
  }

  lemma TwiceMeansTwo<T>(s: seq<T>, i: nat, j: nat)
    requires i < j < |s|
    ensures s[i] == s[j] ==> multiset(s)[s[i]] >= 2
  {
    assert s == s[..i] + [s[i]] + s[i + 1..j] + [s[j]] + s[j + 1..];
  }

  lemma {:induction false} SmallestAgree(a: seq<string>, b: seq<string>, keys: set<string>)
    requires SortedKeys(a, keys) && SortedKeys(b, keys) && a != [] && b != []
    ensures a[0] == b[0]
  {
    assert a[0] in b && b[0] in a;
    var i :| 0 <= i < |b| && b[i] == a[0];
    var j :| 0 <= j < |a| && a[j] == b[0];
    StringLessTotal(a[0], b[0]);
  }

  lemma WithoutSmallest(a: seq<string>, keys: set<string>)
    requires SortedKeys(a, keys) && a != []
    ensures SortedKeys(a[1..], keys - {a[0]})
  {
    forall name ensures name in a[1..] <==> name in keys - {a[0]} {
      assert a == [a[0]] + a[1..];
      StringLessTotal(a[0], name);
    }
  }

  lemma NamesKeys(a: seq<string>, keys: set<string>)
    requires SortedKeys(a, keys)
    ensures a == [] <==> keys == {}
  {
    if a != [] {
      assert a[0] in keys;
    }
  }

  /** The sorted key list does not depend on the order in which the map was walked. */
  lemma {:induction false} SortedKeysUnique(a: seq<string>, b: seq<string>, keys: set<string>)
    requires SortedKeys(a, keys) && SortedKeys(b, keys)
    ensures a == b
  {
    NamesKeys(a, keys);
    NamesKeys(b, keys);
    if keys != {} {
      SmallestAgree(a, b, keys);
      WithoutSmallest(a, keys);
      WithoutSmallest(b, keys);
      SortedKeysUnique(a[1..], b[1..], keys - {a[0]});
    }
  }
}
