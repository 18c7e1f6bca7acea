/** Options, results, the byte-wise order of strings, sorting, and sub-sequences by key. */
module Basics {

  datatype Option<+T> = None | Some(value: T)

  datatype Result<+T, +E> = Ok(value: T) | Err(error: E)

  // ---------------------------------------------------------------------
  // The order of Go strings
  // ---------------------------------------------------------------------

  /** `a < b` on strings: the first difference decides, a proper prefix comes first. */
  predicate Less(a: string, b: string) {
    b != [] && (a == [] || a[0] < b[0] || (a[0] == b[0] && Less(a[1..], b[1..])))
  }

  lemma {:induction false} LessIrreflexive(a: string)
    ensures !Less(a, a)
  {
    if a != [] { LessIrreflexive(a[1..]); }
  }

  lemma {:induction false} LessTransitive(a: string, b: string, c: string)
    requires Less(a, b) && Less(b, c)
    ensures Less(a, c)
  {
    if a != [] && a[0] == b[0] && b[0] == c[0] {
      LessTransitive(a[1..], b[1..], c[1..]);
    }
  }

  lemma {:induction false} LessTotal(a: string, b: string)
    ensures Less(a, b) || a == b || Less(b, a)
  {
    if a != [] && b != [] && a[0] == b[0] {
      LessTotal(a[1..], b[1..]);
      assert a == [a[0]] + a[1..] && b == [b[0]] + b[1..];
    }
  }

  /** The first difference decides. */
  lemma {:induction false} LessAt(a: string, b: string, k: nat)
    requires k < |a| && k < |b| && a[k] < b[k] && forall t :: 0 <= t < k ==> a[t] == b[t]
    ensures Less(a, b)
    decreases k
  {
    if k > 0 { LessAt(a[1..], b[1..], k - 1); }
  }

  lemma LessIsStrictOrder()
    ensures StrictOrder(Less)
  {
    forall a ensures !Less(a, a) { LessIrreflexive(a); }
    forall a, b, c | Less(a, b) && Less(b, c) ensures Less(a, c) { LessTransitive(a, b, c); }
    forall a, b, c | !Less(b, a) && !Less(c, b) ensures !Less(c, a) {
      LessTotal(a, b);
      LessTotal(b, c);
      if Less(c, a) {
        if Less(a, b) { LessTransitive(c, a, b); }
      }
    }
  }

  // ---------------------------------------------------------------------
  // Sorting
  // ---------------------------------------------------------------------

  /** A strict weak order, which is what `sort.Slice` asks of its comparison. */
  ghost predicate StrictOrder<T(!new)>(less: (T, T) -> bool) {
    && (forall a :: !less(a, a))
    && (forall a, b, c :: less(a, b) && less(b, c) ==> less(a, c))
    && (forall a, b, c :: !less(b, a) && !less(c, b) ==> !less(c, a))
  }

  /** No later element is below an earlier one. */
  ghost predicate Ordered<T>(s: seq<T>, less: (T, T) -> bool) {
    forall i, j :: 0 <= i < j < |s| ==> !less(s[j], s[i])
  }

  ghost predicate StrictlyOrdered<T>(s: seq<T>, less: (T, T) -> bool) {
    forall i, j :: 0 <= i < j < |s| ==> less(s[i], s[j])
  }

  ghost predicate Distinct<T>(s: seq<T>) {
    forall i, j :: 0 <= i < j < |s| ==> s[i] != s[j]
  }

  /** `sort.Slice`: some ordered permutation; where equal elements land is not promised. */
  method SortSlice<T(!new)>(s: seq<T>, less: (T, T) -> bool) returns (r: seq<T>)
    requires StrictOrder(less)
    ensures Ordered(r, less)
    ensures multiset(r) == multiset(s)
    ensures |r| == |s|
  {
    r := [];
    for n := 0 to |s|
      invariant |r| == n
      invariant Ordered(r, less)
      invariant multiset(r) == multiset(s[..n])
    {
      var k := n;
      while k > 0 && less(s[n], r[k - 1])
        invariant 0 <= k <= n
        invariant forall j :: k <= j < n ==> less(s[n], r[j])
      {
        k := k - 1;
      }
      ghost var before := r;
      r := r[..k] + [s[n]] + r[k..];
      InsertKeepsOrder(before, k, s[n], less);
      assert before == before[..k] + before[k..];
      assert s[..n + 1] == s[..n] + [s[n]];
    }
    assert s[..|s|] == s;
    assert |multiset(r)| == |r| && |multiset(s)| == |s|;
  }

  lemma InsertKeepsOrder<T(!new)>(r: seq<T>, k: nat, x: T, less: (T, T) -> bool)
    requires StrictOrder(less) && Ordered(r, less) && k <= |r|
    requires k > 0 ==> !less(x, r[k - 1])
    requires forall j :: k <= j < |r| ==> less(x, r[j])
    ensures Ordered(r[..k] + [x] + r[k..], less)
  {
    var q := r[..k] + [x] + r[k..];
    forall i, j | 0 <= i < j < |q|
      ensures !less(q[j], q[i])
    {
      if j == k {
        assert q[i] == r[i];
        assert i < k - 1 ==> !less(r[k - 1], r[i]);
      } else if i == k {
        assert q[j] == r[j - 1];
        assert less(x, r[j - 1]);
      } else {
        var a := if i < k then i else i - 1;
        var b := if j < k then j else j - 1;
        assert q[i] == r[a] && q[j] == r[b] && a < b;
      }
    }
  }

  lemma SameLeast<T(!new)>(a: seq<T>, b: seq<T>, less: (T, T) -> bool)
    requires StrictOrder(less)
    requires StrictlyOrdered(a, less) && StrictlyOrdered(b, less)
    requires a != [] && b != [] && a[0] in b && b[0] in a
    ensures a[0] == b[0]
  {
    NotBelowFirst(a, b[0], less);
    NotBelowFirst(b, a[0], less);
  }

  lemma NotBelowFirst<T(!new)>(a: seq<T>, x: T, less: (T, T) -> bool)
    requires StrictlyOrdered(a, less) && x in a
    ensures a != [] && (x == a[0] || less(a[0], x))
  {
    var j :| 0 <= j < |a| && a[j] == x;
  }

  lemma DropFirst<T>(s: seq<T>)
    requires s != []
    ensures multiset(s[1..]) == multiset(s) - multiset{s[0]}
  {
    assert s == [s[0]] + s[1..];
  }

  /** Two strictly ordered sequences with the same contents are the same sequence. */
  lemma {:induction false} StrictlyOrderedUnique<T(!new)>(a: seq<T>, b: seq<T>, less: (T, T) -> bool)
    requires StrictOrder(less)
    requires StrictlyOrdered(a, less) && StrictlyOrdered(b, less)
    requires multiset(a) == multiset(b)
    ensures a == b
  {
    assert |multiset(a)| == |a| && |multiset(b)| == |b|;
    if a != [] {
      assert a[0] in multiset(b) && b[0] in multiset(a);
      SameLeast(a, b, less);
      DropFirst(a);
      DropFirst(b);
      StrictlyOrderedUnique(a[1..], b[1..], less);
      assert a == [a[0]] + a[1..] && b == [b[0]] + b[1..];
    }
  }

  lemma RepeatCounts<T>(s: seq<T>, i: nat, j: nat)
    requires i < j < |s|
    ensures s[i] == s[j] ==> multiset(s)[s[i]] >= 2
  {
    assert s == s[..i] + [s[i]] + s[i + 1..j] + [s[j]] + s[j + 1..];
  }

  lemma DistinctByMultiset<T>(s: seq<T>)
    ensures Distinct(s) <==> forall x :: x in s ==> multiset(s)[x] == 1
  {
    if Distinct(s) {
      forall x | x in s ensures multiset(s)[x] == 1 {
        var i :| 0 <= i < |s| && s[i] == x;
        assert s == s[..i] + [x] + s[i + 1..];
        assert x !in s[..i] && x !in s[i + 1..];
      }
    }
    if forall x :: x in s ==> multiset(s)[x] == 1 {
      forall i, j | 0 <= i < j < |s| ensures s[i] != s[j] {
        RepeatCounts(s, i, j);
      }
    }
  }

  ghost function Elems<T>(s: seq<T>): set<T> {
    set x | x in s
  }

  lemma ElemsSnoc<T>(s: seq<T>, x: T)
    ensures Elems(s + [x]) == Elems(s) + {x}
  {
    forall y ensures y in s + [x] <==> y in s || y == x {
      assert (s + [x])[|s|] == x;
      assert forall i :: 0 <= i < |s| ==> (s + [x])[i] == s[i];
    }
  }

  lemma {:induction false} DistinctCardinality<T>(s: seq<T>)
    requires Distinct(s)
    ensures |Elems(s)| == |s|
  {
    if s == [] {
      assert Elems(s) == {};
    } else {
      var t, x := s[..|s| - 1], s[|s| - 1];
      DistinctCardinality(t);
      ElemsSnoc(t, x);
      assert s == t + [x];
      assert x !in Elems(t);
    }
  }

  lemma SubsetSize<T>(a: set<T>, b: set<T>)
    requires a <= b
    ensures |a| <= |b|
  {
    assert b == a + (b - a);
  }

  lemma SameSizeSubset<T>(a: set<T>, b: set<T>)
    requires a <= b && |a| == |b|
    ensures a == b
  {
    assert b == a + (b - a);
    assert |b - a| == 0;
  }

  lemma JoinDistinct<T>(a: seq<T>, b: seq<T>)
    requires Distinct(a) && Distinct(b) && forall x :: x in b ==> x !in a
    ensures Distinct(a + b)
  {
    var c := a + b;
    forall i, j | 0 <= i < j < |c| ensures c[i] != c[j] {
      if i < |a| <= j { assert c[j] == b[j - |a|] && c[j] in b && c[i] in a; }
    }
  }

  /** Go's `children[x]`: nothing for an absent key. */
  function Kids(children: map<string, seq<string>>, x: string): seq<string> {
    if x in children then children[x] else []
  }

  /** The ordered form of distinct strings is strictly ordered. */
  lemma OrderedDistinctStrings(s: seq<string>)
    requires Ordered(s, Less) && Distinct(s)
    ensures StrictlyOrdered(s, Less)
  {
    forall i, j | 0 <= i < j < |s| ensures Less(s[i], s[j]) {
      LessTotal(s[i], s[j]);
    }
  }

  lemma StrictlyOrderedDistinct(s: seq<string>)
    requires StrictlyOrdered(s, Less)
    ensures Distinct(s)
  {
    forall i, j | 0 <= i < j < |s| ensures s[i] != s[j] {
      LessIrreflexive(s[i]);
    }
  }

  /** Strictly ordered string sequences with the same elements are equal. */
  lemma SortedSetUnique(a: seq<string>, b: seq<string>)
    requires StrictlyOrdered(a, Less) && StrictlyOrdered(b, Less)
    requires forall x :: x in a <==> x in b
    ensures a == b
  {
    StrictlyOrderedDistinct(a);
    StrictlyOrderedDistinct(b);
    DistinctByMultiset(a);
    DistinctByMultiset(b);
    forall x ensures multiset(a)[x] == multiset(b)[x] {
      assert x in a <==> x in b;
      if x !in a { assert x !in multiset(a) && x !in multiset(b); }
    }
    assert multiset(a) == multiset(b);
    LessIsStrictOrder();
    StrictlyOrderedUnique(a, b, Less);
  }

  /** The elements of a finite set of strings in increasing order (`range` over a map, then `sort.Strings`). */
  method SortedKeys(keys: set<string>) returns (r: seq<string>)
    ensures StrictlyOrdered(r, Less)
    ensures forall x :: x in r <==> x in keys
    ensures |r| == |keys|
  {
    var rest := keys;
    var listed: seq<string> := [];
    while rest != {}
      invariant rest <= keys
      invariant forall x :: x in listed <==> x in keys - rest
      invariant Distinct(listed)
      invariant |listed| + |rest| == |keys|
    {
      var x :| x in rest;
      rest := rest - {x};
      listed := listed + [x];
    }
    LessIsStrictOrder();
    r := SortSlice(listed, Less);
    PermutationOfDistinct(listed, r);
    OrderedDistinctStrings(r);
  }

  lemma PermutationOfDistinct<T>(s: seq<T>, r: seq<T>)
    requires Distinct(s) && multiset(r) == multiset(s)
    ensures Distinct(r) && forall x :: x in r <==> x in s
  {
    forall x ensures x in r <==> x in s {
      assert x in r <==> x in multiset(r);
    }
    DistinctByMultiset(s);
    DistinctByMultiset(r);
  }

  // ---------------------------------------------------------------------
  // Sub-sequences by key
  // ---------------------------------------------------------------------

  /** The elements of `s` whose key is `k`, in order. */
  ghost function Pick<T>(s: seq<T>, key: T -> string, k: string): seq<T> {
    if s == [] then []
    else
      var rest := Pick(s[..|s| - 1], key, k);
      if key(s[|s| - 1]) == k then rest + [s[|s| - 1]] else rest
  }

  lemma PickSnoc<T>(s: seq<T>, x: T, key: T -> string, k: string)
    ensures Pick(s + [x], key, k) == if key(x) == k then Pick(s, key, k) + [x] else Pick(s, key, k)
  {
    assert (s + [x])[..|s|] == s;
  }

  lemma {:induction false} PickAppend<T>(s: seq<T>, t: seq<T>, key: T -> string, k: string)
    ensures Pick(s + t, key, k) == Pick(s, key, k) + Pick(t, key, k)
  {
    if t == [] {
      assert s + t == s;
    } else {
      var t0, x := t[..|t| - 1], t[|t| - 1];
      assert t == t0 + [x];
      assert s + t == (s + t0) + [x];
      PickAppend(s, t0, key, k);
      PickSnoc(s + t0, x, key, k);
      PickSnoc(t0, x, key, k);
    }
  }

  /** When every element has key `k`, picking `k` keeps all and picking another key keeps none. */
  lemma {:induction false} PickAll<T>(s: seq<T>, key: T -> string, k: string, other: string)
    requires forall x :: x in s ==> key(x) == k
    ensures Pick(s, key, other) == if other == k then s else []
  {
    if s != [] {
      PickAll(s[..|s| - 1], key, k, other);
      assert s == s[..|s| - 1] + [s[|s| - 1]];
    }
  }

  lemma {:induction false} PickCount<T>(s: seq<T>, key: T -> string, x: T)
    ensures multiset(s)[x] == multiset(Pick(s, key, key(x)))[x]
  {
    if s != [] {
      PickCount(s[..|s| - 1], key, x);
      assert s == s[..|s| - 1] + [s[|s| - 1]];
    }
  }

  lemma {:induction false} PickMember<T>(s: seq<T>, key: T -> string, k: string, x: T)
    ensures x in Pick(s, key, k) <==> x in s && key(x) == k
  {
    if s != [] {
      PickMember(s[..|s| - 1], key, k, x);
      assert s == s[..|s| - 1] + [s[|s| - 1]];
    }
  }

  /** Sequences that agree key by key are permutations of each other. */
  lemma PicksDetermineContents<T>(a: seq<T>, b: seq<T>, key: T -> string)
    requires forall k :: Pick(a, key, k) == Pick(b, key, k)
    ensures multiset(a) == multiset(b)
  {
    forall x ensures multiset(a)[x] == multiset(b)[x] {
      PickCount(a, key, x);
      PickCount(b, key, x);
      assert Pick(a, key, key(x)) == Pick(b, key, key(x));
    }
  }

  // ---------------------------------------------------------------------
  // Sums
  // ---------------------------------------------------------------------

  ghost function Sum<T>(s: seq<T>, f: T -> int): int {
    if s == [] then 0 else Sum(s[..|s| - 1], f) + f(s[|s| - 1])
  }

  lemma SumSnoc<T>(s: seq<T>, x: T, f: T -> int)
    ensures Sum(s + [x], f) == Sum(s, f) + f(x)
  {
    assert (s + [x])[..|s|] == s;
  }

  lemma {:induction false} SumAppend<T>(s: seq<T>, t: seq<T>, f: T -> int)
    ensures Sum(s + t, f) == Sum(s, f) + Sum(t, f)
  {
    if t == [] {
      assert s + t == s;
    } else {
      var t0, x := t[..|t| - 1], t[|t| - 1];
      assert s + t == (s + t0) + [x];
      SumSnoc(s + t0, x, f);
      SumAppend(s, t0, f);
    }
  }

  lemma TakeOutSum<T>(a: seq<T>, x: T, b: seq<T>, f: T -> int)
    ensures Sum((a + [x]) + b, f) == Sum(a + b, f) + f(x)
  {
    SumAppend(a, b, f);
    SumAppend(a + [x], b, f);
    SumSnoc(a, x, f);
  }

  lemma TakeOutMultiset<T>(a: seq<T>, x: T, b: seq<T>)
    ensures multiset(a + b) == multiset((a + [x]) + b) - multiset{x}
  {}

  lemma SplitAt<T>(t: seq<T>, i: int)
    requires 0 <= i < |t|
    ensures t == (t[..i] + [t[i]]) + t[i + 1..]
  {}

  /** Taking one element out of a sequence. */
  lemma TakeOut<T>(t: seq<T>, i: int, f: T -> int)
    requires 0 <= i < |t|
    ensures multiset(t[..i] + t[i + 1..]) == multiset(t) - multiset{t[i]}
    ensures Sum(t, f) == Sum(t[..i] + t[i + 1..], f) + f(t[i])
  {
    SplitAt(t, i);
    var a, x, b := t[..i], t[i], t[i + 1..];
    TakeOutMultiset(a, x, b);
    TakeOutSum(a, x, b, f);
  }

  /** A sum does not depend on the order of its terms. */
  lemma {:induction false} SumPermutation<T>(s: seq<T>, t: seq<T>, f: T -> int)
    requires multiset(s) == multiset(t)
    ensures Sum(s, f) == Sum(t, f)
    decreases |s|
  {
    assert |multiset(s)| == |s| && |multiset(t)| == |t|;
    if s != [] {
      var n := |s| - 1;
      assert s[n] in multiset(t);
      var i :| 0 <= i < |t| && t[i] == s[n];
      TakeOut(t, i, f);
      TakeOut(s, n, f);
      assert s[..n] + s[n + 1..] == s[..n];
      SumPermutation(s[..n], t[..i] + t[i + 1..], f);
    }
  }

  /** Changing the term of one listed element changes the sum by as much. */
  lemma {:induction false} SumChange<T>(s: seq<T>, x: T, f: T -> int, g: T -> int)
    requires Distinct(s)
    requires forall y :: y in s && y != x ==> f(y) == g(y)
    ensures Sum(s, g) == Sum(s, f) + if x in s then g(x) - f(x) else 0
  {
    if s != [] {
      var n := |s| - 1;
      assert s == s[..n] + [s[n]];
      SumChange(s[..n], x, f, g);
    }
  }

  lemma {:induction false} SumZero<T>(s: seq<T>, f: T -> int)
    requires forall y :: y in s ==> f(y) == 0
    ensures Sum(s, f) == 0
  {
    if s != [] {
      assert s[|s| - 1] in s;
      SumZero(s[..|s| - 1], f);
    }
  }

  lemma {:induction false} SumSame<T>(s: seq<T>, f: T -> int, g: T -> int)
    requires forall x :: x in s ==> f(x) == g(x)
    ensures Sum(s, f) == Sum(s, g)
  {
    if s != [] {
      assert s[|s| - 1] in s;
      SumSame(s[..|s| - 1], f, g);
    }
  }

  /** A sum can be taken key by key. */
  lemma {:induction false} SumByKey<T>(s: seq<T>, keys: seq<string>, key: T -> string, f: T -> int)
    requires Distinct(keys) && forall x :: x in s ==> key(x) in keys
    ensures Sum(s, f) == Sum(keys, k => Sum(Pick(s, key, k), f))
  {
    if s == [] {
      SumZero(keys, k => Sum(Pick(s, key, k), f));
    } else {
      var front, last := s[..|s| - 1], s[|s| - 1];
      assert last in s;
      SumByKey(front, keys, key, f);
      forall k ensures Sum(Pick(s, key, k), f) == Sum(Pick(front, key, k), f) + if k == key(last) then f(last) else 0 {
        if k == key(last) { SumSnoc(Pick(front, key, k), last, f); }
      }
      SumChange(keys, key(last), k => Sum(Pick(front, key, k), f), k => Sum(Pick(s, key, k), f));
    }
  }
}
