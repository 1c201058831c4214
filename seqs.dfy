/** Sequence helpers: `Array.prototype.find`/`findIndex`/`some`/`filter`
 *  with their JavaScript meaning (the first match wins). */
module Seqs {
  import opened Wrappers

  /** `s.findIndex(p)`: the index of the first element satisfying `p`. */
  function FindIndex<T>(s: seq<T>, p: T -> bool): (r: Option<nat>)
    ensures r.Some? ==> r.value < |s| && p(s[r.value])
    ensures r.Some? ==> forall j :: 0 <= j < r.value ==> !p(s[j])
    ensures r.None? ==> forall j :: 0 <= j < |s| ==> !p(s[j])
    decreases |s|
  {
    if |s| == 0 then None
    else if p(s[0]) then Some(0)
    else
      match FindIndex(s[1..], p)
      case Some(k) => Some(k + 1)
      case None => None
  }

  /** When exactly one element satisfies `p`, `findIndex` returns it. */
  lemma FindIndexUnique<T>(s: seq<T>, p: T -> bool, i: nat)
    requires i < |s| && p(s[i])
    requires forall j :: 0 <= j < |s| && j != i ==> !p(s[j])
    ensures FindIndex(s, p) == Some(i)
  {
  }

  /** `s.find(p)`. */
  function Find<T>(s: seq<T>, p: T -> bool): Option<T> {
    match FindIndex(s, p)
    case Some(i) => Some(s[i])
    case None => None
  }

  /** `s.filter(p)`. */
  function Filter<T(!new)>(s: seq<T>, p: T -> bool): (r: seq<T>)
    ensures |r| <= |s|
    ensures forall x :: x in r <==> x in s && p(x)
    decreases |s|
  {
    if |s| == 0 then [] else (if p(s[0]) then [s[0]] else []) + Filter(s[1..], p)
  }

  lemma FilterAppend<T(!new)>(a: seq<T>, b: seq<T>, p: T -> bool)
    ensures Filter(a + b, p) == Filter(a, p) + Filter(b, p)
    decreases |a|
  {
    if |a| == 0 {
      assert a + b == b;
    } else {
      assert (a + b)[0] == a[0];
      assert (a + b)[1..] == a[1..] + b;
      FilterAppend(a[1..], b, p);
    }
  }

  /** `s.map(f)`. */
  function Map<T, U>(s: seq<T>, f: T -> U): (r: seq<U>)
    ensures |r| == |s|
    ensures forall i :: 0 <= i < |s| ==> r[i] == f(s[i])
  {
    seq(|s|, i requires 0 <= i < |s| => f(s[i]))
  }

  /** The elements of `s` are pairwise distinct. */
  predicate Distinct<T(==)>(s: seq<T>) {
    forall i, j :: 0 <= i < j < |s| ==> s[i] != s[j]
  }

  /** `Array.from(new Set(s))`: each value once, where it first occurs. */
  function Dedup<T(==)>(s: seq<T>): seq<T>
    decreases |s|
  {
    if |s| == 0 then []
    else
      var init := Dedup(s[..|s| - 1]);
      if s[|s| - 1] in s[..|s| - 1] then init else init + [s[|s| - 1]]
  }

  /** The index where `x` first occurs in `s`. */
  function FirstIndexOf<T(==)>(s: seq<T>, x: T): (r: nat)
    requires x in s
    ensures r < |s| && s[r] == x && x !in s[..r]
    decreases |s|
  {
    if s[0] == x then 0 else 1 + FirstIndexOf(s[1..], x)
  }

  lemma FirstIndexOfSnoc<T>(s: seq<T>, y: T, x: T)
    requires x in s
    ensures x in s + [y] && FirstIndexOf(s + [y], x) == FirstIndexOf(s, x)
  {
    var k := FirstIndexOf(s, x);
    assert (s + [y])[..k] == s[..k];
    assert (s + [y])[k] == x;
  }

  /** The set keeps exactly the values of the list. */
  lemma {:induction false} DedupMembers<T>(s: seq<T>)
    ensures forall x :: x in Dedup(s) ==> x in s
    ensures forall x :: x in s ==> x in Dedup(s)
    decreases |s|
  {
    if |s| > 0 {
      DedupMembers(s[..|s| - 1]);
      assert s == s[..|s| - 1] + [s[|s| - 1]];
    }
  }

  /** Every element of `r` occurs in `s`, and `r` lists them in the order
   *  of their first occurrence in `s`. */
  predicate InFirstOccurrenceOrder<T(==)>(r: seq<T>, s: seq<T>) {
    && (forall i :: 0 <= i < |r| ==> r[i] in s)
    && (forall i, j :: 0 <= i < j < |r| && r[i] in s && r[j] in s ==> FirstIndexOf(s, r[i]) < FirstIndexOf(s, r[j]))
  }

  /** The set keeps every value once, in order of first occurrence. */
  lemma {:induction false} DedupOrder<T>(s: seq<T>)
    ensures Distinct(Dedup(s))
    ensures InFirstOccurrenceOrder(Dedup(s), s)
    decreases |s|
  {
    DedupMembers(s);
    var r := Dedup(s);
    forall i | 0 <= i < |r| ensures r[i] in s {
      assert r[i] in r;
    }
    if |s| > 0 {
      var init := s[..|s| - 1];
      var y := s[|s| - 1];
      DedupOrder(init);
      assert s == init + [y];
      var d := Dedup(init);
      forall i | 0 <= i < |d| ensures d[i] in s && FirstIndexOf(s, d[i]) == FirstIndexOf(init, d[i]) {
        FirstIndexOfSnoc(init, y, d[i]);
      }
      if y !in init {
        assert FirstIndexOf(s, y) == |init| by {
          assert s[|init|] == y && y !in s[..|init|];
        }
        assert r == d + [y];
        forall i, j | 0 <= i < j < |r| ensures r[i] != r[j] && FirstIndexOf(s, r[i]) < FirstIndexOf(s, r[j]) {
          assert r[i] == d[i];
          if j < |d| {
            assert r[j] == d[j];
          }
        }
      }
    }
  }

  /** A list without repeats is left as it is. */
  lemma {:induction false} DedupDistinct<T>(s: seq<T>)
    requires Distinct(s)
    ensures Dedup(s) == s
    decreases |s|
  {
    if |s| > 0 {
      assert Distinct(s[..|s| - 1]);
      DedupDistinct(s[..|s| - 1]);
      assert s == s[..|s| - 1] + [s[|s| - 1]];
    }
  }

  /** The keys of the elements of `s`. */
  function KeySet<T, K>(s: seq<T>, key: T -> K): set<K> {
    set i | 0 <= i < |s| :: key(s[i])
  }

  lemma KeySetSnoc<T, K>(s: seq<T>, x: T, key: T -> K)
    ensures KeySet(s + [x], key) == KeySet(s, key) + {key(x)}
  {
    var t := s + [x];
    forall k | k in KeySet(t, key) ensures k in KeySet(s, key) + {key(x)} {
      var i :| 0 <= i < |t| && key(t[i]) == k;
      if i < |s| {
        assert t[i] == s[i];
      }
    }
    forall k | k in KeySet(s, key) ensures k in KeySet(t, key) {
      var i :| 0 <= i < |s| && key(s[i]) == k;
      assert t[i] == s[i];
    }
    assert t[|s|] == x;
  }

  lemma {:induction false} KeySetAppend<T, K>(a: seq<T>, b: seq<T>, key: T -> K)
    ensures KeySet(a + b, key) == KeySet(a, key) + KeySet(b, key)
    decreases |b|
  {
    if |b| > 0 {
      var init := b[..|b| - 1];
      KeySetAppend(a, init, key);
      KeySetSnoc(a + init, b[|b| - 1], key);
      KeySetSnoc(init, b[|b| - 1], key);
      assert a + b == (a + init) + [b[|b| - 1]];
      assert b == init + [b[|b| - 1]];
    } else {
      assert a + b == a;
    }
  }

  /** Two lists whose elements have the same keys, position by position,
   *  have the same key set. */
  lemma KeySetSameKeys<T, U, K>(a: seq<T>, ka: T -> K, b: seq<U>, kb: U -> K)
    requires |a| == |b|
    requires forall i :: 0 <= i < |a| ==> ka(a[i]) == kb(b[i])
    ensures KeySet(a, ka) == KeySet(b, kb)
  {
    forall k | k in KeySet(a, ka) ensures k in KeySet(b, kb) {
      var i :| 0 <= i < |a| && ka(a[i]) == k;
      assert kb(b[i]) == k;
    }
    forall k | k in KeySet(b, kb) ensures k in KeySet(a, ka) {
      var i :| 0 <= i < |b| && kb(b[i]) == k;
      assert ka(a[i]) == k;
    }
  }

  /** The index of the first element of `s` whose key is `k`. */
  function FirstKeyIndex<T, K(==)>(s: seq<T>, key: T -> K, k: K): (r: nat)
    requires k in KeySet(s, key)
    ensures r < |s| && key(s[r]) == k
    ensures forall j :: 0 <= j < r ==> key(s[j]) != k
    decreases |s|
  {
    if key(s[0]) == k then 0
    else
      assert k in KeySet(s[1..], key) by {
        var i :| 0 <= i < |s| && key(s[i]) == k;
        assert key(s[1..][i - 1]) == k;
      }
      1 + FirstKeyIndex(s[1..], key, k)
  }

  lemma FirstKeyIndexSnoc<T, K>(s: seq<T>, x: T, key: T -> K, k: K)
    requires k in KeySet(s, key)
    ensures k in KeySet(s + [x], key) && FirstKeyIndex(s + [x], key, k) == FirstKeyIndex(s, key, k)
  {
    KeySetSnoc(s, x, key);
    var t := s + [x];
    var i := FirstKeyIndex(s, key, k);
    var j := FirstKeyIndex(t, key, k);
    assert t[i] == s[i];
  }

  /** No two elements of `r` share a key. */
  predicate KeysDistinct<T, K(==)>(r: seq<T>, key: T -> K) {
    forall i, j :: 0 <= i < j < |r| ==> key(r[i]) != key(r[j])
  }

  /** Every element of `r` is the first element of `s` with its key. */
  predicate FirstPerKey<T(==), K(==)>(r: seq<T>, s: seq<T>, key: T -> K) {
    forall i :: 0 <= i < |r| ==> key(r[i]) in KeySet(s, key) && r[i] == s[FirstKeyIndex(s, key, key(r[i]))]
  }

  /** `r` lists its keys in the order they first occur in `s`. */
  predicate InFirstKeyOrder<T, K(==)>(r: seq<T>, s: seq<T>, key: T -> K) {
    forall i, j :: 0 <= i < j < |r| && key(r[i]) in KeySet(s, key) && key(r[j]) in KeySet(s, key) ==>
      FirstKeyIndex(s, key, key(r[i])) < FirstKeyIndex(s, key, key(r[j]))
  }

  /** A `Map` filled with `if (!map.has(key(x))) map.set(key(x), x)` and
   *  read back in insertion order: the first element per key. */
  function DedupBy<T, K(==)>(s: seq<T>, key: T -> K): seq<T>
    decreases |s|
  {
    if |s| == 0 then []
    else
      var init := s[..|s| - 1];
      var d := DedupBy(init, key);
      if key(s[|s| - 1]) in KeySet(init, key) then d else d + [s[|s| - 1]]
  }

  lemma AppendPrefixSnoc<T>(a: seq<T>, b: seq<T>, j: nat)
    requires j < |b|
    ensures a + b[..j + 1] == (a + b[..j]) + [b[j]]
  {
    assert b[..j + 1] == b[..j] + [b[j]];
  }

  /** Appending four pieces one after the other appends their
   *  concatenation. */
  lemma AppendFour<T>(a: seq<T>, b: seq<T>, c: seq<T>, d: seq<T>, e: seq<T>)
    ensures a + b + c + d + e == a + (b + c + d + e)
  {
  }

  lemma AppendAssoc<T>(a: seq<T>, b: seq<T>, c: seq<T>)
    ensures a + (b + c) == (a + b) + c
  {
  }

  lemma DedupBySnoc<T, K>(s: seq<T>, x: T, key: T -> K)
    ensures DedupBy(s + [x], key) == if key(x) in KeySet(s, key) then DedupBy(s, key) else DedupBy(s, key) + [x]
  {
    assert (s + [x])[..|s|] == s;
  }

  /** Keyed de-duplication loses no key. */
  lemma {:induction false} DedupByKeys<T, K>(s: seq<T>, key: T -> K)
    ensures KeySet(DedupBy(s, key), key) == KeySet(s, key)
    decreases |s|
  {
    if |s| > 0 {
      var init := s[..|s| - 1];
      var y := s[|s| - 1];
      assert s == init + [y];
      DedupByKeys(init, key);
      KeySetSnoc(init, y, key);
      KeySetSnoc(DedupBy(init, key), y, key);
    }
  }

  /** Keyed de-duplication keeps at most one element per key. */
  lemma {:induction false} DedupByDistinct<T, K>(s: seq<T>, key: T -> K)
    ensures KeysDistinct(DedupBy(s, key), key)
    decreases |s|
  {
    if |s| > 0 {
      var init := s[..|s| - 1];
      var y := s[|s| - 1];
      DedupByDistinct(init, key);
      DedupByKeys(init, key);
      var d := DedupBy(init, key);
      if key(y) !in KeySet(init, key) {
        var r := d + [y];
        forall i, j | 0 <= i < j < |r| ensures key(r[i]) != key(r[j]) {
          assert r[i] == d[i];
          if j < |d| {
            assert r[j] == d[j];
          } else {
            assert key(d[i]) in KeySet(d, key);
          }
        }
      }
    }
  }

  /** The last element of `s`, when its key is new, is the first with
   *  that key. */
  lemma FirstKeyIndexLast<T, K>(init: seq<T>, y: T, key: T -> K)
    requires key(y) !in KeySet(init, key)
    ensures key(y) in KeySet(init + [y], key) && FirstKeyIndex(init + [y], key, key(y)) == |init|
  {
    var s := init + [y];
    KeySetSnoc(init, y, key);
    forall j | 0 <= j < |init| ensures key(s[j]) != key(y) {
      assert s[j] == init[j];
      assert key(init[j]) in KeySet(init, key);
    }
  }

  /** Keyed de-duplication keeps the first element with each key. */
  lemma {:induction false} DedupByFirst<T, K>(s: seq<T>, key: T -> K)
    ensures FirstPerKey(DedupBy(s, key), s, key)
    decreases |s|
  {
    if |s| > 0 {
      var init := s[..|s| - 1];
      var y := s[|s| - 1];
      assert s == init + [y];
      DedupByFirst(init, key);
      var d := DedupBy(init, key);
      forall i | 0 <= i < |d|
        ensures key(d[i]) in KeySet(s, key) && d[i] == s[FirstKeyIndex(s, key, key(d[i]))]
      {
        FirstKeyIndexSnoc(init, y, key, key(d[i]));
      }
      if key(y) !in KeySet(init, key) {
        FirstKeyIndexLast(init, y, key);
        var r := d + [y];
        forall i | 0 <= i < |r| ensures key(r[i]) in KeySet(s, key) && r[i] == s[FirstKeyIndex(s, key, key(r[i]))] {
          if i < |d| {
            assert r[i] == d[i];
          }
        }
      }
    }
  }

  /** Keyed de-duplication lists the keys in order of first occurrence. */
  lemma {:induction false} DedupByOrder<T, K>(s: seq<T>, key: T -> K)
    ensures InFirstKeyOrder(DedupBy(s, key), s, key)
    decreases |s|
  {
    if |s| > 0 {
      var init := s[..|s| - 1];
      var y := s[|s| - 1];
      assert s == init + [y];
      DedupByOrder(init, key);
      DedupByFirst(init, key);
      var d := DedupBy(init, key);
      forall i | 0 <= i < |d|
        ensures key(d[i]) in KeySet(init, key) && FirstKeyIndex(s, key, key(d[i])) == FirstKeyIndex(init, key, key(d[i]))
      {
        FirstKeyIndexSnoc(init, y, key, key(d[i]));
      }
      if key(y) !in KeySet(init, key) {
        FirstKeyIndexLast(init, y, key);
        var r := d + [y];
        forall i, j | 0 <= i < j < |r| && key(r[i]) in KeySet(s, key) && key(r[j]) in KeySet(s, key)
          ensures FirstKeyIndex(s, key, key(r[i])) < FirstKeyIndex(s, key, key(r[j]))
        {
          assert r[i] == d[i];
          if j < |d| {
            assert r[j] == d[j];
          }
        }
      }
    }
  }

  /** Every element kept by keyed de-duplication comes from the input. */
  lemma DedupByMembers<T, K>(s: seq<T>, key: T -> K)
    ensures forall x :: x in DedupBy(s, key) ==> x in s
  {
    DedupByFirst(s, key);
    var r := DedupBy(s, key);
    forall x | x in r ensures x in s {
      var i :| 0 <= i < |r| && r[i] == x;
      assert r[i] == s[FirstKeyIndex(s, key, key(r[i]))];
    }
  }
}
