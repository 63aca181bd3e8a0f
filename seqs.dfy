/**
 * Sequence helpers: `filter`, insertion-ordered sets (`new Set(...)` iterated back
 * into an array), sums (`reduce`), and the stable sorts `Array.prototype.sort`
 * performs with a numeric comparator or on strings.
 */
module Seqs {

  /** `s.filter(f)`. */
  function Filter<T(!new)>(s: seq<T>, f: T -> bool): (r: seq<T>)
    ensures |r| <= |s|
    ensures forall x :: x in r <==> x in s && f(x)
  {
    if s == [] then []
    else
      var r := Filter(s[..|s| - 1], f);
      assert forall x :: x in s <==> x in s[..|s| - 1] || x == s[|s| - 1];
      if f(s[|s| - 1]) then r + [s[|s| - 1]] else r
  }

  lemma {:induction false} FilterConcat<T(!new)>(a: seq<T>, b: seq<T>, f: T -> bool)
    ensures Filter(a + b, f) == Filter(a, f) + Filter(b, f)
  {
    if b == [] {
      assert a + b == a;
    } else {
      FilterConcat(a, b[..|b| - 1], f);
      assert (a + b)[..|a + b| - 1] == a + b[..|b| - 1];
    }
  }

  /** `a` is `b` with some elements left out, the others keeping their order. */
  predicate Subsequence<T(==)>(a: seq<T>, b: seq<T>)
    decreases |b|
  {
    if a == [] then true
    else if b == [] then false
    else if a[|a| - 1] == b[|b| - 1] then Subsequence(a[..|a| - 1], b[..|b| - 1])
    else Subsequence(a, b[..|b| - 1])
  }

  lemma {:induction false} FilterSubsequence<T(!new)>(s: seq<T>, f: T -> bool)
    ensures Subsequence(Filter(s, f), s)
  {
    if s != [] {
      FilterSubsequence(s[..|s| - 1], f);
      var r := Filter(s[..|s| - 1], f);
      if !f(s[|s| - 1]) && r != [] {
        assert r[|r| - 1] in r;
      }
    }
  }

  /** A filter every element passes keeps the whole sequence. */
  lemma {:induction false} FilterAll<T(!new)>(s: seq<T>, f: T -> bool)
    requires forall x :: x in s ==> f(x)
    ensures Filter(s, f) == s
  {
    if s != [] {
      FilterAll(s[..|s| - 1], f);
      assert s[..|s| - 1] + [s[|s| - 1]] == s;
    }
  }

  /** A filter keeps nothing when no element passes it. */
  lemma {:induction false} FilterNone<T(!new)>(s: seq<T>, f: T -> bool)
    requires forall x :: x in s ==> !f(x)
    ensures Filter(s, f) == []
  {
    if s != [] {
      assert s[|s| - 1] in s;
      FilterNone(s[..|s| - 1], f);
    }
  }

  /** A filter drops nothing exactly when every element passes it. */
  lemma {:induction false} FilterFull<T(!new)>(s: seq<T>, f: T -> bool)
    ensures |Filter(s, f)| == |s| <==> forall x :: x in s ==> f(x)
  {
    if s != [] {
      var init, last := s[..|s| - 1], s[|s| - 1];
      FilterFull(init, f);
      assert forall x :: x in s <==> x in init || x == last;
    }
  }

  lemma {:induction false} SubsequenceRefl<T>(s: seq<T>)
    ensures Subsequence(s, s)
  {
    if s != [] {
      SubsequenceRefl(s[..|s| - 1]);
    }
  }

  predicate NoDup<T(==)>(s: seq<T>) {
    forall i, j :: 0 <= i < j < |s| ==> s[i] != s[j]
  }

  lemma NoDupCons<T>(x: T, s: seq<T>)
    ensures NoDup([x] + s) <==> x !in s && NoDup(s)
  {
    var r := [x] + s;
    assert forall i :: 0 < i < |r| ==> r[i] == s[i - 1];
    if NoDup(r) {
      forall i, j | 0 <= i < j < |s| ensures s[i] != s[j] {
        assert r[i + 1] != r[j + 1];
      }
      forall j | 0 <= j < |s| ensures s[j] != x {
        assert r[j + 1] != r[0];
      }
    }
  }

  /** A sequence is duplicate-free exactly when it holds every value at most once. */
  lemma {:induction false} NoDupCount<T>(s: seq<T>)
    ensures NoDup(s) <==> forall x :: multiset(s)[x] <= 1
  {
    if s != [] {
      var t := s[1..];
      assert s == [s[0]] + t;
      NoDupCons(s[0], t);
      NoDupCount(t);
      assert multiset(s) == multiset{s[0]} + multiset(t);
      if !NoDup(t) {
        var x :| multiset(t)[x] > 1;
        assert multiset(s)[x] > 1;
      } else if s[0] in t {
        assert multiset(s)[s[0]] > 1;
      }
    }
  }

  /** A reordering of a duplicate-free sequence is duplicate-free. */
  lemma NoDupPermutation<T>(a: seq<T>, b: seq<T>)
    requires multiset(a) == multiset(b) && NoDup(b)
    ensures NoDup(a)
  {
    NoDupCount(a);
    NoDupCount(b);
  }

  /** Filtering a duplicate-free sequence leaves it duplicate-free. */
  lemma {:induction false} FilterNoDup<T(!new)>(s: seq<T>, f: T -> bool)
    requires NoDup(s)
    ensures NoDup(Filter(s, f))
  {
    if s != [] {
      var init, x := s[..|s| - 1], s[|s| - 1];
      assert NoDup(init) by {
        forall i, j | 0 <= i < j < |init| ensures init[i] != init[j] {
          assert init[i] == s[i] && init[j] == s[j];
        }
      }
      FilterNoDup(init, f);
      var r := Filter(init, f);
      if f(x) {
        assert x !in init by {
          forall i | 0 <= i < |init| ensures init[i] != x {
            assert init[i] == s[i];
          }
        }
        var r' := r + [x];
        forall i, j | 0 <= i < j < |r'| ensures r'[i] != r'[j] {
          if j == |r| {
            assert r'[i] == r[i] && r[i] in r;
          } else {
            assert r'[i] == r[i] && r'[j] == r[j];
          }
        }
      }
    }
  }

  /** `set.add(x)` on an insertion-ordered set held as a duplicate-free sequence. */
  function AddNew<T(==,!new)>(d: seq<T>, x: T): (r: seq<T>)
    ensures NoDup(d) ==> NoDup(r)
    ensures forall y :: y in r <==> y in d || y == x
  {
    if x in d then d else d + [x]
  }

  /** `Array.from(new Set(s))`: the first occurrence of every element, in order. */
  function Dedup<T(==,!new)>(s: seq<T>): (r: seq<T>)
    ensures NoDup(r)
    ensures forall x :: x in r <==> x in s
  {
    if s == [] then []
    else
      assert forall x :: x in s <==> x in s[..|s| - 1] || x == s[|s| - 1];
      AddNew(Dedup(s[..|s| - 1]), s[|s| - 1])
  }

  lemma {:induction false} DedupOfNoDup<T(!new)>(s: seq<T>)
    requires NoDup(s)
    ensures Dedup(s) == s
  {
    if s != [] {
      DedupOfNoDup(s[..|s| - 1]);
      assert s[|s| - 1] !in s[..|s| - 1];
    }
  }

  lemma DedupSnoc<T(!new)>(s: seq<T>, x: T)
    ensures Dedup(s + [x]) == AddNew(Dedup(s), x)
  {
    assert (s + [x])[..|s|] == s;
  }

  /** `xs.forEach(x => set.add(x))` on a set holding the distinct elements of `prefix`. */
  method AddAll<T(==,!new)>(d: seq<T>, ghost prefix: seq<T>, xs: seq<T>) returns (r: seq<T>)
    requires d == Dedup(prefix)
    ensures r == Dedup(prefix + xs)
  {
    r := d;
    var i := 0;
    assert prefix + xs[..0] == prefix;
    while i < |xs|
      invariant 0 <= i <= |xs|
      invariant r == Dedup(prefix + xs[..i])
    {
      ghost var seen := prefix + xs[..i];
      assert prefix + xs[..i + 1] == seen + [xs[i]];
      DedupSnoc(seen, xs[i]);
      r := AddNew(r, xs[i]);
      i := i + 1;
    }
    assert xs[..i] == xs;
  }

  /** The elements of `s` that do not occur in `a`, in order. */
  function Without<T(==)>(s: seq<T>, a: seq<T>): seq<T> {
    if s == [] then []
    else Without(s[..|s| - 1], a) + (if s[|s| - 1] in a then [] else [s[|s| - 1]])
  }

  lemma WithoutSnoc<T>(s: seq<T>, y: T, a: seq<T>)
    ensures Without(s + [y], a) == Without(s, a) + (if y in a then [] else [y])
  {
    assert (s + [y])[..|s|] == s;
  }

  /** The test `x => !a.includes(x)`. */
  function NotIn<T(==)>(a: seq<T>): T -> bool {
    x => x !in a
  }

  /** `Without` is `s.filter(x => !a.includes(x))`. */
  lemma {:induction false} WithoutFilter<T(!new)>(s: seq<T>, a: seq<T>)
    ensures Without(s, a) == Filter(s, NotIn(a))
  {
    if s != [] {
      WithoutFilter(s[..|s| - 1], a);
    }
  }

  lemma {:induction false} WithoutMembers<T>(s: seq<T>, a: seq<T>)
    ensures forall x :: x in Without(s, a) <==> x in s && x !in a
  {
    if s != [] {
      WithoutMembers(s[..|s| - 1], a);
      assert s == s[..|s| - 1] + [s[|s| - 1]];
    }
  }

  lemma {:induction false} WithoutSubsequence<T>(s: seq<T>, a: seq<T>)
    ensures Subsequence(Without(s, a), s)
  {
    if s != [] {
      var init, last := s[..|s| - 1], s[|s| - 1];
      WithoutSubsequence(init, a);
      var w := Without(init, a);
      if last !in a {
        assert (w + [last])[..|w|] == w;
      } else {
        assert Without(s, a) == w + [] == w;
        if w != [] {
          assert w[|w| - 1] in w;
          WithoutMembers(init, a);
        }
      }
    }
  }

  lemma {:induction false} WithoutNoDup<T>(s: seq<T>, a: seq<T>)
    requires NoDup(s)
    ensures NoDup(Without(s, a))
  {
    if s != [] {
      var init, last := s[..|s| - 1], s[|s| - 1];
      assert NoDup(init);
      WithoutNoDup(init, a);
      WithoutMembers(init, a);
      assert last !in init;
    }
  }

  /** `s.includes(x) ? s.filter(y => y !== x) : [...s, x]`. */
  function Toggle<T(==)>(s: seq<T>, x: T): seq<T> {
    if x in s then Without(s, [x]) else s + [x]
  }

  /** Toggling flips the membership of `x` and no other. */
  lemma ToggleMembers<T>(s: seq<T>, x: T)
    ensures forall y :: y in Toggle(s, x) <==> if y == x then x !in s else y in s
  {
    WithoutMembers(s, [x]);
  }

  /** Toggling twice restores every membership. */
  lemma ToggleTwice<T>(s: seq<T>, x: T)
    ensures forall y :: y in Toggle(Toggle(s, x), x) <==> y in s
  {
    ToggleMembers(s, x);
    ToggleMembers(Toggle(s, x), x);
  }

  /**
   * Removing keeps the other entries in order; adding puts `x` last; a duplicate-free
   * list stays duplicate-free.
   */
  lemma ToggleOrder<T>(s: seq<T>, x: T)
    ensures x in s ==> Subsequence(Toggle(s, x), s) && |Toggle(s, x)| < |s|
    ensures x !in s ==> Toggle(s, x) == s + [x]
    ensures NoDup(s) ==> NoDup(Toggle(s, x))
  {
    if x in s {
      WithoutSubsequence(s, [x]);
      WithoutShorter(s, x);
      if NoDup(s) {
        WithoutNoDup(s, [x]);
      }
    } else if NoDup(s) {
      var r := s + [x];
      assert forall i :: 0 <= i < |s| ==> r[i] == s[i];
    }
  }

  lemma {:induction false} WithoutShorter<T>(s: seq<T>, x: T)
    requires x in s
    ensures |Without(s, [x])| < |s|
  {
    var init, last := s[..|s| - 1], s[|s| - 1];
    WithoutAtMost(init, [x]);
    if last != x {
      assert x in init;
      WithoutShorter(init, x);
    }
  }

  lemma {:induction false} WithoutAtMost<T>(s: seq<T>, a: seq<T>)
    ensures |Without(s, a)| <= |s|
  {
    if s != [] {
      WithoutAtMost(s[..|s| - 1], a);
    }
  }

  /**
   * The set built from `a` and then `b` lists `a`'s distinct elements first, then the
   * distinct elements of `b` that `a` lacks, each group in first-occurrence order.
   */
  lemma {:induction false} DedupAppend<T(!new)>(a: seq<T>, b: seq<T>)
    ensures Dedup(a + b) == Dedup(a) + Without(Dedup(b), a)
  {
    if b == [] {
      assert a + b == a;
    } else {
      var b', y := b[..|b| - 1], b[|b| - 1];
      DedupAppend(a, b');
      assert (a + b)[..|a + b| - 1] == a + b' && (a + b)[|a + b| - 1] == y;
      var d' := Dedup(b');
      var x := Dedup(a) + Without(d', a);
      assert Dedup(a + b) == AddNew(x, y);
      assert Dedup(b) == AddNew(d', y);
      WithoutMembers(d', a);
      if y in d' {
        assert y in a || y in Without(d', a);
        assert y in x;
      } else if y in a {
        assert y in Dedup(a);
        assert y in x;
        WithoutSnoc(d', y, a);
      } else {
        assert y !in Dedup(a) && y !in Without(d', a);
        WithoutSnoc(d', y, a);
        assert AddNew(x, y) == x + [y];
      }
    }
  }

  lemma TakeAll<T>(s: seq<T>)
    ensures s[..|s|] == s
  {
  }

  lemma TakeSnoc<T>(s: seq<T>, i: nat)
    requires i < |s|
    ensures s[..i + 1] == s[..i] + [s[i]]
  {
  }

  /** `xs.flatMap(f)`. */
  function FlatMap<T, U>(xs: seq<T>, f: T -> seq<U>): seq<U> {
    if xs == [] then [] else FlatMap(xs[..|xs| - 1], f) + f(xs[|xs| - 1])
  }

  lemma FlatMapSnoc<T, U>(xs: seq<T>, x: T, f: T -> seq<U>)
    ensures FlatMap(xs + [x], f) == FlatMap(xs, f) + f(x)
  {
    assert (xs + [x])[..|xs|] == xs;
  }

  lemma {:induction false} FlatMapConcat<T, U>(a: seq<T>, b: seq<T>, f: T -> seq<U>)
    ensures FlatMap(a + b, f) == FlatMap(a, f) + FlatMap(b, f)
    decreases |b|
  {
    if b == [] {
      assert a + b == a;
    } else {
      var b', y := b[..|b| - 1], b[|b| - 1];
      FlatMapConcat(a, b', f);
      assert b == b' + [y];
      assert a + b == (a + b') + [y];
      FlatMapSnoc(a + b', y, f);
      FlatMapSnoc(b', y, f);
      var p, q, r := FlatMap(a, f), FlatMap(b', f), f(y);
      assert p + q + r == p + (q + r);
    }
  }

  /** Something is in a flat map exactly when it comes from one of the elements. */
  lemma {:induction false} FlatMapMembers<T, U>(xs: seq<T>, f: T -> seq<U>, y: U)
    ensures y in FlatMap(xs, f) <==> exists x :: x in xs && y in f(x)
  {
    if xs != [] {
      var init, last := xs[..|xs| - 1], xs[|xs| - 1];
      FlatMapMembers(init, f, y);
      assert forall x :: x in xs <==> x in init || x == last;
    }
  }

  /** `s.reduce((acc, x) => acc + f(x), 0)`. */
  function Sum<T>(s: seq<T>, f: T -> int): int {
    if s == [] then 0 else f(s[0]) + Sum(s[1..], f)
  }

  lemma {:induction false} SumConcat<T>(a: seq<T>, b: seq<T>, f: T -> int)
    ensures Sum(a + b, f) == Sum(a, f) + Sum(b, f)
  {
    if a == [] {
      assert a + b == b;
    } else {
      SumConcat(a[1..], b, f);
      assert (a + b)[1..] == a[1..] + b;
    }
  }

  lemma {:induction false} SumNonNegative<T>(s: seq<T>, f: T -> int)
    requires forall x :: x in s ==> f(x) >= 0
    ensures Sum(s, f) >= 0
  {
    if s != [] {
      SumNonNegative(s[1..], f);
    }
  }

  /** Sorted by `key`, smallest first. */
  ghost predicate SortedBy<T>(s: seq<T>, key: T -> int) {
    forall i, j :: 0 <= i < j < |s| ==> key(s[i]) <= key(s[j])
  }

  lemma SortedByCons<T>(x: T, t: seq<T>, key: T -> int)
    ensures SortedBy([x] + t, key) <==> (forall y :: y in t ==> key(x) <= key(y)) && SortedBy(t, key)
  {
    var r := [x] + t;
    assert forall i :: 0 < i < |r| ==> r[i] == t[i - 1];
    if (forall y :: y in t ==> key(x) <= key(y)) && SortedBy(t, key) {
      forall i, j | 0 <= i < j < |r| ensures key(r[i]) <= key(r[j]) {
        if i == 0 {
          assert r[j] in t;
        }
      }
    }
    if SortedBy(r, key) {
      forall i, j | 0 <= i < j < |t| ensures key(t[i]) <= key(t[j]) {
        assert key(r[i + 1]) <= key(r[j + 1]);
      }
      forall y | y in t ensures key(x) <= key(y) {
        var j :| 0 <= j < |t| && t[j] == y;
        assert key(r[0]) <= key(r[j + 1]);
      }
    }
  }

  /** Inserts `x` in front of the first element whose key is not smaller. */
  function InsertBy<T(!new)>(x: T, t: seq<T>, key: T -> int): (r: seq<T>)
    ensures |r| == |t| + 1
    ensures multiset(r) == multiset(t) + multiset{x}
    ensures forall y :: y in r <==> y in t || y == x
  {
    if t == [] then [x]
    else if key(x) <= key(t[0]) then [x] + t
    else
      assert t == [t[0]] + t[1..];
      [t[0]] + InsertBy(x, t[1..], key)
  }

  lemma {:induction false} InsertBySorted<T(!new)>(x: T, t: seq<T>, key: T -> int)
    requires SortedBy(t, key)
    ensures SortedBy(InsertBy(x, t, key), key)
  {
    if t != [] {
      var t' := t[1..];
      assert t == [t[0]] + t';
      SortedByCons(t[0], t', key);
      if key(x) > key(t[0]) {
        InsertBySorted(x, t', key);
        SortedByCons(t[0], InsertBy(x, t', key), key);
      } else {
        SortedByCons(x, t, key);
      }
    }
  }

  /** `[...s].sort((a, b) => key(a) - key(b))` with JavaScript's stable sort. */
  function SortBy<T(!new)>(s: seq<T>, key: T -> int): (r: seq<T>)
    ensures |r| == |s|
    ensures multiset(r) == multiset(s)
    ensures SortedBy(r, key)
  {
    if s == [] then []
    else
      assert s == [s[0]] + s[1..];
      InsertBySorted(s[0], SortBy(s[1..], key), key);
      InsertBy(s[0], SortBy(s[1..], key), key)
  }

  /** The elements of `s` whose key is `k`, in order. */
  function WithKey<T>(s: seq<T>, key: T -> int, k: int): seq<T> {
    if s == [] then []
    else WithKey(s[..|s| - 1], key, k) + (if key(s[|s| - 1]) == k then [s[|s| - 1]] else [])
  }

  lemma {:induction false} WithKeyConcat<T>(a: seq<T>, b: seq<T>, key: T -> int, k: int)
    ensures WithKey(a + b, key, k) == WithKey(a, key, k) + WithKey(b, key, k)
  {
    if b == [] {
      assert a + b == a;
    } else {
      WithKeyConcat(a, b[..|b| - 1], key, k);
      assert (a + b)[..|a + b| - 1] == a + b[..|b| - 1];
    }
  }

  lemma {:induction false} InsertByWithKey<T(!new)>(x: T, t: seq<T>, key: T -> int, k: int)
    requires SortedBy(t, key)
    ensures WithKey(InsertBy(x, t, key), key, k) == WithKey([x], key, k) + WithKey(t, key, k)
  {
    if t != [] && key(x) > key(t[0]) {
      var t' := t[1..];
      assert t == [t[0]] + t';
      InsertByWithKey(x, t', key, k);
      WithKeyConcat([t[0]], InsertBy(x, t', key), key, k);
      WithKeyConcat([t[0]], t', key, k);
      if key(x) == k {
        assert WithKey([t[0]], key, k) == [];
      }
    } else {
      WithKeyConcat([x], t, key, k);
    }
  }

  /** Stability: elements with equal keys keep their relative order. */
  lemma {:induction false} SortByStable<T(!new)>(s: seq<T>, key: T -> int, k: int)
    ensures WithKey(SortBy(s, key), key, k) == WithKey(s, key, k)
  {
    if s != [] {
      SortByStable(s[1..], key, k);
      InsertByWithKey(s[0], SortBy(s[1..], key), key, k);
      assert s == [s[0]] + s[1..];
      WithKeyConcat([s[0]], s[1..], key, k);
    }
  }

  lemma {:induction false} InsertBySum<T(!new)>(x: T, t: seq<T>, key: T -> int, f: T -> int)
    ensures Sum(InsertBy(x, t, key), f) == f(x) + Sum(t, f)
  {
    if t != [] && key(x) > key(t[0]) {
      InsertBySum(x, t[1..], key, f);
      assert ([t[0]] + InsertBy(x, t[1..], key))[1..] == InsertBy(x, t[1..], key);
    } else if t != [] {
      assert ([x] + t)[1..] == t;
    }
  }

  /** Sorting does not change a sum. */
  lemma {:induction false} SortBySum<T(!new)>(s: seq<T>, key: T -> int, f: T -> int)
    ensures Sum(SortBy(s, key), f) == Sum(s, f)
  {
    if s != [] {
      SortBySum(s[1..], key, f);
      InsertBySum(s[0], SortBy(s[1..], key), key, f);
    }
  }

  /** String order of `Array.prototype.sort()` without a comparator: lexicographic by character. */
  predicate StrLe(a: string, b: string) {
    a == [] || (b != [] && (a[0] < b[0] || (a[0] == b[0] && StrLe(a[1..], b[1..]))))
  }

  lemma {:induction false} StrLeTotal(a: string, b: string)
    ensures StrLe(a, b) || StrLe(b, a)
  {
    if a != [] && b != [] && a[0] == b[0] {
      StrLeTotal(a[1..], b[1..]);
    }
  }

  lemma {:induction false} StrLeTrans(a: string, b: string, c: string)
    requires StrLe(a, b) && StrLe(b, c)
    ensures StrLe(a, c)
  {
    if a != [] && a[0] == b[0] && b[0] == c[0] {
      StrLeTrans(a[1..], b[1..], c[1..]);
    }
  }

  lemma {:induction false} StrLeAntisymmetric(a: string, b: string)
    requires StrLe(a, b) && StrLe(b, a)
    ensures a == b
  {
    if a != [] && b != [] {
      StrLeAntisymmetric(a[1..], b[1..]);
    }
  }

  ghost predicate SortedStrings(s: seq<string>) {
    forall i, j :: 0 <= i < j < |s| ==> StrLe(s[i], s[j])
  }

  lemma SortedStringsCons(x: string, t: seq<string>)
    ensures SortedStrings([x] + t) <==> (forall y :: y in t ==> StrLe(x, y)) && SortedStrings(t)
  {
    var r := [x] + t;
    assert forall i :: 0 < i < |r| ==> r[i] == t[i - 1];
    if (forall y :: y in t ==> StrLe(x, y)) && SortedStrings(t) {
      forall i, j | 0 <= i < j < |r| ensures StrLe(r[i], r[j]) {
        if i == 0 {
          assert r[j] in t;
        }
      }
    }
    if SortedStrings(r) {
      forall i, j | 0 <= i < j < |t| ensures StrLe(t[i], t[j]) {
        assert StrLe(r[i + 1], r[j + 1]);
      }
      forall y | y in t ensures StrLe(x, y) {
        var j :| 0 <= j < |t| && t[j] == y;
        assert StrLe(r[0], r[j + 1]);
      }
    }
  }

  function InsertStr(x: string, t: seq<string>): (r: seq<string>)
    ensures multiset(r) == multiset(t) + multiset{x}
    ensures forall y :: y in r <==> y in t || y == x
  {
    if t == [] then [x]
    else if StrLe(x, t[0]) then [x] + t
    else
      assert t == [t[0]] + t[1..];
      [t[0]] + InsertStr(x, t[1..])
  }

  lemma {:induction false} InsertStrSorted(x: string, t: seq<string>)
    requires SortedStrings(t)
    ensures SortedStrings(InsertStr(x, t))
  {
    if t != [] {
      var t' := t[1..];
      assert t == [t[0]] + t';
      SortedStringsCons(t[0], t');
      if StrLe(x, t[0]) {
        forall y | y in t ensures StrLe(x, y) {
          if y != t[0] {
            StrLeTrans(x, t[0], y);
          }
        }
        SortedStringsCons(x, t);
      } else {
        StrLeTotal(x, t[0]);
        InsertStrSorted(x, t');
        SortedStringsCons(t[0], InsertStr(x, t'));
      }
    }
  }

  /** `[...s].sort()` on strings. */
  function SortStrings(s: seq<string>): (r: seq<string>)
    ensures multiset(r) == multiset(s)
    ensures SortedStrings(r)
  {
    if s == [] then []
    else
      assert s == [s[0]] + s[1..];
      InsertStrSorted(s[0], SortStrings(s[1..]));
      InsertStr(s[0], SortStrings(s[1..]))
  }
}
