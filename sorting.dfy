/** A stable insertion sort under a caller-given order, for the places
 *  that sort with `Array.prototype.sort` or `ORDER BY … LIMIT …`. */
module Sorting {
  /** `le(a, b)`: `a` may be placed before `b`. A comparator is usable when
   *  it orders every pair and is transitive. */
  ghost predicate TotalPreorder<T(!new)>(le: (T, T) -> bool) {
    (forall a, b :: le(a, b) || le(b, a))
    && (forall a, b, c :: le(a, b) && le(b, c) ==> le(a, c))
  }

  predicate Sorted<T>(s: seq<T>, le: (T, T) -> bool) {
    forall i, j :: 0 <= i < j < |s| ==> le(s[i], s[j])
  }

  /** `x` placed before the first element it may precede. */
  function Insert<T>(x: T, s: seq<T>, le: (T, T) -> bool): (r: seq<T>)
    ensures |r| == |s| + 1
    decreases |s|
  {
    if |s| == 0 then [x]
    else if le(x, s[0]) then [x] + s
    else [s[0]] + Insert(x, s[1..], le)
  }

  function Sort<T>(s: seq<T>, le: (T, T) -> bool): (r: seq<T>)
    ensures |r| == |s|
    decreases |s|
  {
    if |s| == 0 then [] else Insert(s[0], Sort(s[1..], le), le)
  }

  /** SQL `LIMIT n`: a negative limit keeps every row. */
  function Limit<T>(s: seq<T>, n: int): (r: seq<T>)
    ensures n >= 0 ==> |r| <= n
    ensures |r| <= |s| && r == s[..|r|]
    ensures n < 0 || n >= |s| ==> r == s
    ensures 0 <= n <= |s| ==> |r| == n
  {
    if n < 0 || n >= |s| then s else s[..n]
  }

  lemma {:induction false} InsertPermutes<T>(x: T, s: seq<T>, le: (T, T) -> bool)
    ensures multiset(Insert(x, s, le)) == multiset(s) + multiset{x}
    decreases |s|
  {
    if |s| > 0 && !le(x, s[0]) {
      InsertPermutes(x, s[1..], le);
      assert s == [s[0]] + s[1..];
    }
  }

  /** Sorting only reorders. */
  lemma {:induction false} SortPermutes<T>(s: seq<T>, le: (T, T) -> bool)
    ensures multiset(Sort(s, le)) == multiset(s)
    decreases |s|
  {
    if |s| > 0 {
      SortPermutes(s[1..], le);
      InsertPermutes(s[0], Sort(s[1..], le), le);
      assert s == [s[0]] + s[1..];
    }
  }

  lemma {:induction false} InsertSorted<T(!new)>(x: T, s: seq<T>, le: (T, T) -> bool)
    requires TotalPreorder(le) && Sorted(s, le)
    ensures Sorted(Insert(x, s, le), le)
    decreases |s|
  {
    if |s| == 0 {
    } else if le(x, s[0]) {
      var r := [x] + s;
      forall i, j | 0 <= i < j < |r| ensures le(r[i], r[j]) {
        if i == 0 && j > 1 {
          assert le(s[0], s[j - 1]);
        }
      }
    } else {
      InsertSorted(x, s[1..], le);
      InsertPermutes(x, s[1..], le);
      var tail := Insert(x, s[1..], le);
      var r := [s[0]] + tail;
      forall i, j | 0 <= i < j < |r| ensures le(r[i], r[j]) {
        if i == 0 {
          var y := tail[j - 1];
          assert y in multiset(tail);
          if y != x {
            assert y in multiset(s[1..]);
            var k :| 0 <= k < |s[1..]| && s[1..][k] == y;
            assert le(s[0], s[k + 1]);
          }
        }
      }
    }
  }

  /** Sorting orders every pair. */
  lemma {:induction false} SortSorted<T(!new)>(s: seq<T>, le: (T, T) -> bool)
    requires TotalPreorder(le)
    ensures Sorted(Sort(s, le), le)
    decreases |s|
  {
    if |s| > 0 {
      SortSorted(s[1..], le);
      InsertSorted(s[0], Sort(s[1..], le), le);
    }
  }

  /** The first element of the sorted sequence is one of the input and may
   *  be placed before every element of it. */
  lemma SortHead<T(!new)>(s: seq<T>, le: (T, T) -> bool)
    requires TotalPreorder(le) && |s| > 0
    ensures |Sort(s, le)| > 0 && Sort(s, le)[0] in s
    ensures forall x :: x in s ==> le(Sort(s, le)[0], x)
  {
    var sorted := Sort(s, le);
    SortPermutes(s, le);
    SortSorted(s, le);
    assert sorted[0] in multiset(sorted);
    forall x | x in s
      ensures le(sorted[0], x)
    {
      assert x in multiset(sorted);
      var k :| 0 <= k < |sorted| && sorted[k] == x;
    }
  }

  lemma SortedPrefix<T>(s: seq<T>, n: nat, le: (T, T) -> bool)
    requires Sorted(s, le) && n <= |s|
    ensures Sorted(s[..n], le)
  {
  }

  /** `ORDER BY … LIMIT n` keeps the first `n` rows of the order: as many
   *  rows as the limit allows, drawn from the input, in order, and every
   *  row left out may be placed after every row kept. */
  lemma LimitSortSpec<T(!new)>(s: seq<T>, le: (T, T) -> bool, n: int)
    requires TotalPreorder(le)
    ensures |Limit(Sort(s, le), n)| == if n < 0 || n >= |s| then |s| else n
    ensures multiset(Limit(Sort(s, le), n)) <= multiset(s)
    ensures Sorted(Limit(Sort(s, le), n), le)
    ensures forall x, y :: x in s && x !in Limit(Sort(s, le), n) && y in Limit(Sort(s, le), n) ==> le(y, x)
  {
    var sorted := Sort(s, le);
    var r := Limit(sorted, n);
    var k := |r|;
    SortPermutes(s, le);
    SortSorted(s, le);
    SortedPrefix(sorted, k, le);
    assert sorted == r + sorted[k..];
    assert multiset(sorted) == multiset(r) + multiset(sorted[k..]);
    forall x, y | x in s && x !in r && y in r
      ensures le(y, x)
    {
      assert x in multiset(sorted);
      var j :| 0 <= j < |sorted| && sorted[j] == x;
      var i :| 0 <= i < k && r[i] == y;
      assert j >= k;
      assert sorted[i] == y;
    }
  }
}
