/** The signature of a UI state: the route, a DOM signature and the key/value
 *  state rendered in key order, then hashed. */
module StateSignature {
  import opened Text
  import opened Seqs
  import opened Sorting

  /** The values a state entry may hold; numbers are integers here. */
  datatype Value = StrValue(s: string) | NumValue(n: int) | BoolValue(b: bool) | NullValue | Undefined

  /** One `[key, value]` pair of `Object.entries(state)`. */
  type Entry = (string, Value)

  /** `String(value ?? '')`. */
  function ValueText(v: Value): string {
    match v
    case StrValue(s) => s
    case NumValue(n) => IntToString(n)
    case BoolValue(b) => if b then "true" else "false"
    case NullValue => ""
    case Undefined => ""
  }

  function EntryKey(e: Entry): string {
    e.0
  }

  /** The sort comparator `([a], [b]) => a.localeCompare(b)`, taken as
   *  ordinal order. */
  function EntryLe(a: Entry, b: Entry): bool {
    LexLe(a.0, b.0)
  }

  /** `${key}:${String(value ?? '')}`. */
  function EntryText(e: Entry): string {
    e.0 + ":" + ValueText(e.1)
  }

  /** The entries sorted by key, rendered and joined with `|`. */
  function NormalizedState(entries: seq<Entry>): string {
    Join(Map(Sort(entries, EntryLe), EntryText), "|")
  }

  /** The text that is hashed. */
  function SignatureText(route: string, domSignature: string, entries: seq<Entry>): string {
    route + "::" + domSignature + "::" + NormalizedState(entries)
  }

  /** `createStateSignature`; `hash` stands for the truncated SHA-256 of
   *  the text. */
  function CreateStateSignature(route: string, domSignature: string, entries: seq<Entry>, hash: string -> string): string {
    hash(SignatureText(route, domSignature, entries))
  }

  lemma EntryLeOrders()
    ensures TotalPreorder(EntryLe)
  {
    forall a: Entry, b: Entry ensures EntryLe(a, b) || EntryLe(b, a) {
      LexLeTotal(a.0, b.0);
    }
    forall a: Entry, b: Entry, c: Entry | EntryLe(a, b) && EntryLe(b, c) ensures EntryLe(a, c) {
      LexLeTrans(a.0, b.0, c.0);
    }
  }

  /** The state is rendered in key order, and every entry is rendered
   *  once. */
  lemma NormalizedStateSorted(entries: seq<Entry>)
    ensures Sorted(Sort(entries, EntryLe), EntryLe)
    ensures multiset(Sort(entries, EntryLe)) == multiset(entries)
    ensures NormalizedState(entries) == Join(Map(Sort(entries, EntryLe), EntryText), "|")
  {
    EntryLeOrders();
    SortSorted(entries, EntryLe);
    SortPermutes(entries, EntryLe);
  }

  /** Inserting an entry whose key is new keeps the keys distinct. */
  lemma {:induction false} InsertKeysDistinct(x: Entry, s: seq<Entry>)
    requires KeysDistinct(s, EntryKey)
    requires forall i :: 0 <= i < |s| ==> s[i].0 != x.0
    ensures KeysDistinct(Insert(x, s, EntryLe), EntryKey)
    decreases |s|
  {
    if |s| > 0 && !EntryLe(x, s[0]) {
      var tail := s[1..];
      InsertKeysDistinct(x, tail);
      InsertPermutes(x, tail, EntryLe);
      var t := Insert(x, tail, EntryLe);
      var r := [s[0]] + t;
      forall i, j | 0 <= i < j < |r| ensures r[i].0 != r[j].0 {
        if i == 0 {
          var y := t[j - 1];
          assert y in multiset(t);
          if y != x {
            assert y in multiset(tail);
            var k :| 0 <= k < |tail| && tail[k] == y;
            assert s[k + 1] == y;
          }
        } else {
          assert r[i] == t[i - 1] && r[j] == t[j - 1];
        }
      }
    }
  }

  /** Sorting entries with distinct keys keeps the keys distinct. */
  lemma {:induction false} SortKeysDistinct(s: seq<Entry>)
    requires KeysDistinct(s, EntryKey)
    ensures KeysDistinct(Sort(s, EntryLe), EntryKey)
    decreases |s|
  {
    if |s| > 0 {
      var tail := s[1..];
      SortKeysDistinct(tail);
      SortPermutes(tail, EntryLe);
      var t := Sort(tail, EntryLe);
      forall i | 0 <= i < |t| ensures t[i].0 != s[0].0 {
        assert t[i] in multiset(tail);
        var k :| 0 <= k < |tail| && tail[k] == t[i];
        assert s[k + 1] == t[i];
      }
      InsertKeysDistinct(s[0], t);
    }
  }

  /** Two key-sorted lists with the same entries start alike when the
   *  keys of one are distinct. */
  lemma SortedHeadsEqual(x: seq<Entry>, y: seq<Entry>)
    requires Sorted(x, EntryLe) && Sorted(y, EntryLe)
    requires multiset(x) == multiset(y) && |x| > 0
    requires KeysDistinct(x, EntryKey)
    ensures |y| > 0 && x[0] == y[0]
  {
    assert x[0] in multiset(y);
    var j :| 0 <= j < |y| && y[j] == x[0];
    assert y[0] in multiset(x);
    var i :| 0 <= i < |x| && x[i] == y[0];
    if x[0] != y[0] {
      assert EntryLe(y[0], y[j]) && EntryLe(x[0], x[i]);
      LexLeAntisym(x[0].0, y[0].0);
      assert false;
    }
  }

  lemma SortedTail(x: seq<Entry>)
    requires Sorted(x, EntryLe) && |x| > 0
    ensures Sorted(x[1..], EntryLe)
  {
    forall i, j | 0 <= i < j < |x[1..]| ensures EntryLe(x[1..][i], x[1..][j]) {
      assert x[1..][i] == x[i + 1] && x[1..][j] == x[j + 1];
    }
  }

  lemma KeysDistinctTail(x: seq<Entry>)
    requires KeysDistinct(x, EntryKey) && |x| > 0
    ensures KeysDistinct(x[1..], EntryKey)
  {
    forall i, j | 0 <= i < j < |x[1..]| ensures EntryKey(x[1..][i]) != EntryKey(x[1..][j]) {
      assert x[1..][i] == x[i + 1] && x[1..][j] == x[j + 1];
    }
  }

  lemma MultisetTail(x: seq<Entry>, y: seq<Entry>)
    requires |x| > 0 && |y| > 0 && x[0] == y[0] && multiset(x) == multiset(y)
    ensures multiset(x[1..]) == multiset(y[1..])
  {
    assert x == [x[0]] + x[1..] && y == [y[0]] + y[1..];
    assert multiset(x) == multiset([x[0]]) + multiset(x[1..]);
    assert multiset(y) == multiset([y[0]]) + multiset(y[1..]);
    forall e ensures multiset(x[1..])[e] == multiset(y[1..])[e] {
      assert multiset(x)[e] == multiset([x[0]])[e] + multiset(x[1..])[e];
      assert multiset(y)[e] == multiset([y[0]])[e] + multiset(y[1..])[e];
    }
  }

  /** Two key-sorted lists with the same entries are equal when the keys
   *  of one are distinct. */
  lemma {:induction false} SortedUnique(x: seq<Entry>, y: seq<Entry>)
    requires Sorted(x, EntryLe) && Sorted(y, EntryLe)
    requires multiset(x) == multiset(y)
    requires KeysDistinct(x, EntryKey)
    ensures x == y
    decreases |x|
  {
    assert |x| == |multiset(x)| == |multiset(y)| == |y|;
    if |x| > 0 {
      SortedHeadsEqual(x, y);
      MultisetTail(x, y);
      SortedTail(x);
      SortedTail(y);
      KeysDistinctTail(x);
      SortedUnique(x[1..], y[1..]);
      assert x == [x[0]] + x[1..] && y == [y[0]] + y[1..];
    }
  }

  /** The order of the state's keys does not matter: the same entries
   *  listed in any order give the same signature. */
  lemma PermutationInvariant(route: string, domSignature: string, a: seq<Entry>, b: seq<Entry>, hash: string -> string)
    requires multiset(a) == multiset(b)
    requires KeysDistinct(a, EntryKey)
    ensures CreateStateSignature(route, domSignature, a, hash) == CreateStateSignature(route, domSignature, b, hash)
  {
    EntryLeOrders();
    SortSorted(a, EntryLe);
    SortSorted(b, EntryLe);
    SortPermutes(a, EntryLe);
    SortPermutes(b, EntryLe);
    SortKeysDistinct(a);
    SortedUnique(Sort(a, EntryLe), Sort(b, EntryLe));
  }

  /** A change of value that keeps every key and every rendered value. */
  ghost predicate KeepsText(f: Entry -> Entry) {
    forall e :: f(e).0 == e.0 && ValueText(f(e).1) == ValueText(e.1)
  }

  lemma {:induction false} InsertMap(x: Entry, s: seq<Entry>, f: Entry -> Entry)
    requires KeepsText(f)
    ensures Insert(f(x), Map(s, f), EntryLe) == Map(Insert(x, s, EntryLe), f)
    decreases |s|
  {
    if |s| > 0 && !EntryLe(x, s[0]) {
      InsertMap(x, s[1..], f);
      assert Map(s, f)[1..] == Map(s[1..], f);
    }
  }

  lemma {:induction false} SortMap(s: seq<Entry>, f: Entry -> Entry)
    requires KeepsText(f)
    ensures Sort(Map(s, f), EntryLe) == Map(Sort(s, EntryLe), f)
    decreases |s|
  {
    if |s| > 0 {
      SortMap(s[1..], f);
      assert Map(s, f)[1..] == Map(s[1..], f);
      InsertMap(s[0], Sort(s[1..], EntryLe), f);
    }
  }

  /** Values that render alike give the same signature. */
  lemma SameTextSameSignature(route: string, domSignature: string, entries: seq<Entry>, f: Entry -> Entry, hash: string -> string)
    requires KeepsText(f)
    ensures CreateStateSignature(route, domSignature, Map(entries, f), hash) == CreateStateSignature(route, domSignature, entries, hash)
  {
    SortMap(entries, f);
    var sorted := Sort(entries, EntryLe);
    assert Map(Map(sorted, f), EntryText) == Map(sorted, EntryText);
  }

  /** `null` and `undefined` rendered as the empty string. */
  function NullAsEmpty(e: Entry): Entry {
    if e.1.NullValue? || e.1.Undefined? then (e.0, StrValue("")) else e
  }

  /** `null`, `undefined` and `''` are one value to the signature. */
  lemma NullLikeAsEmpty(route: string, domSignature: string, entries: seq<Entry>, hash: string -> string)
    ensures CreateStateSignature(route, domSignature, Map(entries, NullAsEmpty), hash) == CreateStateSignature(route, domSignature, entries, hash)
  {
    SameTextSameSignature(route, domSignature, entries, NullAsEmpty, hash);
  }

  /** The hashed text for one entry: `route::dom::key:value`. */
  lemma SingleEntryText(route: string, domSignature: string, key: string, v: Value)
    ensures SignatureText(route, domSignature, [(key, v)]) == route + "::" + domSignature + "::" + key + ":" + ValueText(v)
  {
    assert Sort([(key, v)], EntryLe) == [(key, v)];
  }
}
