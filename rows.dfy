/**
 * Plain JavaScript objects used as table rows. An object is an association list in
 * enumeration order: own keys that are array indices come first in ascending numeric
 * order, every other key follows in the order it was first assigned.
 */
module Rows {
  import opened Wrappers
  import opened Text
  import opened Seqs

  /** A cell of a row: text, or a number computed by the summaries. */
  datatype Value = Str(s: string) | Num(n: int)

  /** An object's own properties, in the order `Object.keys` lists them. */
  type Assoc<V> = seq<(string, V)>

  /** `Object.keys(a)`. */
  function Keys<V>(a: Assoc<V>): (ks: seq<string>)
    ensures |ks| == |a|
    ensures forall i :: 0 <= i < |a| ==> ks[i] == a[i].0
  {
    seq(|a|, i requires 0 <= i < |a| => a[i].0)
  }

  lemma KeysConcat<V>(a: Assoc<V>, b: Assoc<V>)
    ensures Keys(a + b) == Keys(a) + Keys(b)
  {
  }

  /** `a[k]`, with `None` for `undefined`. */
  function Get<V>(a: Assoc<V>, k: string): (r: Option<V>)
    ensures r.None? <==> k !in Keys(a)
  {
    if a == [] then None
    else
      assert Keys(a) == [a[0].0] + Keys(a[1..]);
      if a[0].0 == k then Some(a[0].1) else Get(a[1..], k)
  }

  lemma {:induction false} GetConcat<V>(a: Assoc<V>, b: Assoc<V>, k: string)
    ensures Get(a + b, k) == if k in Keys(a) then Get(a, k) else Get(b, k)
  {
    if a == [] {
      assert a + b == b;
    } else {
      assert (a + b)[1..] == a[1..] + b;
      assert Keys(a) == [a[0].0] + Keys(a[1..]);
      GetConcat(a[1..], b, k);
    }
  }

  /** With distinct keys, every entry is what its key reads back. */
  lemma {:induction false} GetEntry<V>(a: Assoc<V>, i: int)
    requires NoDup(Keys(a)) && 0 <= i < |a|
    ensures Get(a, a[i].0) == Some(a[i].1)
  {
    if i > 0 {
      assert Keys(a[1..]) == Keys(a)[1..];
      GetEntry(a[1..], i - 1);
    }
  }

  /** A canonical array index: decimal digits without a leading zero, below 2^32 - 1. */
  predicate IsArrayIndex(k: string) {
    |k| > 0 && AllDigits(k) && (k[0] != '0' || |k| == 1) && DigitsValue(k) < 4294967295
  }

  function IndexValue(k: string): nat
    requires IsArrayIndex(k)
  {
    DigitsValue(k)
  }

  /** Key `x` may be enumerated before key `y`. */
  predicate KeyBefore(x: string, y: string) {
    IsArrayIndex(y) ==> IsArrayIndex(x) && IndexValue(x) <= IndexValue(y)
  }

  /** Array-index keys come first, in ascending order. */
  ghost predicate ObjectOrder<V>(a: Assoc<V>) {
    forall i, j :: 0 <= i < j < |a| ==> KeyBefore(a[i].0, a[j].0)
  }

  lemma OrderCons<V>(x: (string, V), b: Assoc<V>)
    ensures ObjectOrder([x] + b) <==> (forall y :: y in Keys(b) ==> KeyBefore(x.0, y)) && ObjectOrder(b)
  {
    var r := [x] + b;
    assert forall i :: 0 < i < |r| ==> r[i] == b[i - 1];
    if (forall y :: y in Keys(b) ==> KeyBefore(x.0, y)) && ObjectOrder(b) {
      forall i, j | 0 <= i < j < |r| ensures KeyBefore(r[i].0, r[j].0) {
        if i == 0 {
          assert Keys(b)[j - 1] == r[j].0;
        }
      }
    }
    if ObjectOrder(r) {
      forall y | y in Keys(b) ensures KeyBefore(x.0, y) {
        var j :| 0 <= j < |b| && Keys(b)[j] == y;
        assert r[0] == x && r[j + 1] == b[j];
        assert KeyBefore(r[0].0, r[j + 1].0);
      }
      forall i, j | 0 <= i < j < |b| ensures KeyBefore(b[i].0, b[j].0) {
        assert r[i + 1] == b[i] && r[j + 1] == b[j];
        assert KeyBefore(r[i + 1].0, r[j + 1].0);
      }
    }
  }

  /** `a[k] = v` for a key `a` already has: the value changes in place. */
  function Replace<V>(a: Assoc<V>, k: string, v: V): Assoc<V> {
    if a == [] then []
    else if a[0].0 == k then [(k, v)] + a[1..]
    else [a[0]] + Replace(a[1..], k, v)
  }

  /** `x` is an array index smaller than the array index `k`. */
  predicate IndexBelow(x: string, k: string)
    requires IsArrayIndex(k)
  {
    IsArrayIndex(x) && IndexValue(x) < IndexValue(k)
  }

  /**
   * `a[k] = v` for a new key: an array-index key goes after the array-index keys
   * below it, any other key goes last.
   */
  function Insert<V>(a: Assoc<V>, k: string, v: V): Assoc<V> {
    if a == [] then [(k, v)]
    else if IsArrayIndex(k) && !IndexBelow(a[0].0, k) then [(k, v)] + a
    else [a[0]] + Insert(a[1..], k, v)
  }

  /** `a[k] = v`. */
  function Put<V>(a: Assoc<V>, k: string, v: V): Assoc<V> {
    if k in Keys(a) then Replace(a, k, v) else Insert(a, k, v)
  }

  lemma {:induction false} ReplaceGet<V>(a: Assoc<V>, k: string, v: V, k': string)
    requires k in Keys(a)
    ensures Get(Replace(a, k, v), k') == if k' == k then Some(v) else Get(a, k')
  {
    assert Keys(a) == [a[0].0] + Keys(a[1..]);
    if a[0].0 != k {
      ReplaceGet(a[1..], k, v, k');
      assert ([a[0]] + Replace(a[1..], k, v))[1..] == Replace(a[1..], k, v);
    } else {
      assert ([(k, v)] + a[1..])[1..] == a[1..];
    }
  }

  lemma {:induction false} ReplaceKeys<V>(a: Assoc<V>, k: string, v: V)
    ensures Keys(Replace(a, k, v)) == Keys(a)
  {
    if a != [] && a[0].0 != k {
      ReplaceKeys(a[1..], k, v);
      KeysConcat([a[0]], a[1..]);
      KeysConcat([a[0]], Replace(a[1..], k, v));
      assert a == [a[0]] + a[1..];
    } else if a != [] {
      KeysConcat([a[0]], a[1..]);
      KeysConcat([(k, v)], a[1..]);
      assert a == [a[0]] + a[1..];
    }
  }

  lemma {:induction false} InsertGet<V>(a: Assoc<V>, k: string, v: V, k': string)
    requires k !in Keys(a)
    ensures Get(Insert(a, k, v), k') == if k' == k then Some(v) else Get(a, k')
  {
    if a != [] {
      assert Keys(a) == [a[0].0] + Keys(a[1..]);
      if IsArrayIndex(k) && !IndexBelow(a[0].0, k) {
        assert ([(k, v)] + a)[1..] == a;
      } else {
        InsertGet(a[1..], k, v, k');
        assert ([a[0]] + Insert(a[1..], k, v))[1..] == Insert(a[1..], k, v);
      }
    }
  }

  lemma {:induction false} InsertKeySet<V>(a: Assoc<V>, k: string, v: V)
    ensures forall x :: x in Keys(Insert(a, k, v)) <==> x in Keys(a) || x == k
  {
    if a != [] {
      var t := a[1..];
      assert a == [a[0]] + t;
      KeysConcat([a[0]], t);
      if IsArrayIndex(k) && !IndexBelow(a[0].0, k) {
        assert Insert(a, k, v) == [(k, v)] + a;
        KeysConcat([(k, v)], a);
        assert Keys([(k, v)]) == [k];
      } else {
        assert Insert(a, k, v) == [a[0]] + Insert(t, k, v);
        assert Keys([a[0]]) == [a[0].0];
        InsertKeySet(t, k, v);
        KeysConcat([a[0]], Insert(t, k, v));
      }
    } else {
      assert Keys(Insert(a, k, v)) == [k];
    }
  }

  lemma {:induction false} InsertShape<V>(a: Assoc<V>, k: string, v: V)
    ensures |Insert(a, k, v)| == |a| + 1
    ensures !IsArrayIndex(k) ==> Insert(a, k, v) == a + [(k, v)]
  {
    if a != [] {
      assert a == [a[0]] + a[1..];
      if !(IsArrayIndex(k) && !IndexBelow(a[0].0, k)) {
        InsertShape(a[1..], k, v);
      }
    }
  }

  lemma {:induction false} InsertDistinct<V>(a: Assoc<V>, k: string, v: V)
    requires NoDup(Keys(a)) && k !in Keys(a)
    ensures NoDup(Keys(Insert(a, k, v)))
  {
    if a != [] {
      assert a == [a[0]] + a[1..];
      KeysConcat([a[0]], a[1..]);
      if IsArrayIndex(k) && !IndexBelow(a[0].0, k) {
        assert Insert(a, k, v) == [(k, v)] + a;
        KeysConcat([(k, v)], a);
        assert Keys([(k, v)]) == [k];
        NoDupCons(k, Keys(a));
      } else {
        var t := a[1..];
        assert Insert(a, k, v) == [a[0]] + Insert(t, k, v);
        assert Keys([a[0]]) == [a[0].0];
        NoDupCons(a[0].0, Keys(t));
        InsertDistinct(t, k, v);
        InsertKeySet(t, k, v);
        KeysConcat([a[0]], Insert(t, k, v));
        NoDupCons(a[0].0, Keys(Insert(t, k, v)));
      }
    }
  }

  lemma {:induction false} InsertOrder<V>(a: Assoc<V>, k: string, v: V)
    requires ObjectOrder(a)
    ensures ObjectOrder(Insert(a, k, v))
  {
    if a != [] {
      var t := a[1..];
      assert a == [a[0]] + t;
      OrderCons(a[0], t);
      KeysConcat([a[0]], t);
      if IsArrayIndex(k) && !IndexBelow(a[0].0, k) {
        OrderCons((k, v), a);
        forall y | y in Keys(a) ensures KeyBefore(k, y) {
          if y != a[0].0 {
            assert y in Keys(t);
            assert KeyBefore(a[0].0, y);
          }
        }
      } else {
        InsertOrder(t, k, v);
        InsertKeySet(t, k, v);
        OrderCons(a[0], Insert(t, k, v));
      }
    }
  }

  /** After `a[k] = v`, `k` reads `v` and every other key reads what it read before. */
  lemma PutGet<V>(a: Assoc<V>, k: string, v: V, k': string)
    ensures Get(Put(a, k, v), k') == if k' == k then Some(v) else Get(a, k')
  {
    if k in Keys(a) {
      ReplaceGet(a, k, v, k');
    } else {
      InsertGet(a, k, v, k');
    }
  }

  /** After `a[k] = v` the keys are the old keys and `k`. */
  lemma PutKeySet<V>(a: Assoc<V>, k: string, v: V)
    ensures forall x :: x in Keys(Put(a, k, v)) <==> x in Keys(a) || x == k
  {
    if k in Keys(a) {
      ReplaceKeys(a, k, v);
    } else {
      InsertKeySet(a, k, v);
    }
  }

  /**
   * Assigning an existing key keeps the key order; a new key is added once, and a new
   * key that is not an array index goes last.
   */
  lemma PutShape<V>(a: Assoc<V>, k: string, v: V)
    ensures |Put(a, k, v)| == if k in Keys(a) then |a| else |a| + 1
    ensures k in Keys(a) ==> Keys(Put(a, k, v)) == Keys(a)
    ensures k !in Keys(a) && !IsArrayIndex(k) ==> Put(a, k, v) == a + [(k, v)]
  {
    if k in Keys(a) {
      ReplaceKeys(a, k, v);
    } else {
      InsertShape(a, k, v);
    }
  }

  /** Assignment keeps keys distinct. */
  lemma PutKeepsDistinct<V>(a: Assoc<V>, k: string, v: V)
    requires NoDup(Keys(a))
    ensures NoDup(Keys(Put(a, k, v)))
  {
    if k in Keys(a) {
      ReplaceKeys(a, k, v);
    } else {
      InsertDistinct(a, k, v);
    }
  }

  /** Assignment keeps array-index keys first and ascending. */
  lemma PutKeepsOrder<V>(a: Assoc<V>, k: string, v: V)
    requires ObjectOrder(a)
    ensures ObjectOrder(Put(a, k, v))
  {
    if k in Keys(a) {
      var r := Replace(a, k, v);
      ReplaceKeys(a, k, v);
      assert forall i :: 0 <= i < |a| ==> r[i].0 == Keys(r)[i] == Keys(a)[i] == a[i].0;
    } else {
      InsertOrder(a, k, v);
    }
  }

  /**
   * `keys.forEach(k => { if (f(k) !== undefined) a[k] = f(k); })` on an empty object:
   * the keys are assigned in order, a key without a value is skipped.
   */
  function PutEach<V>(keys: seq<string>, f: string -> Option<V>): Assoc<V> {
    if keys == [] then []
    else
      var k := keys[|keys| - 1];
      var before := PutEach(keys[..|keys| - 1], f);
      if f(k).Some? then Put(before, k, f(k).value) else before
  }

  /** Each listed key reads its own value; an unlisted key reads nothing. */
  lemma {:induction false} PutEachGet<V>(keys: seq<string>, f: string -> Option<V>, k: string)
    ensures Get(PutEach(keys, f), k) == if k in keys then f(k) else None
    decreases |keys|
  {
    if keys != [] {
      var init, last := keys[..|keys| - 1], keys[|keys| - 1];
      PutEachGet(init, f, k);
      assert keys == init + [last];
      if f(last).Some? {
        PutGet(PutEach(init, f), last, f(last).value, k);
      }
    }
  }
}
