/** String helpers with the semantics of the JavaScript built-ins the source
 *  uses (`startsWith`, `includes`, `indexOf`, `replace`, `trim`, `||`). */
module Text {
  import opened Wrappers

  predicate StartsWith(s: string, p: string) {
    |p| <= |s| && s[..|p|] == p
  }

  predicate EndsWith(s: string, p: string) {
    |p| <= |s| && s[|s| - |p|..] == p
  }

  /** `pat` occurs in `s` starting at index `j`. */
  predicate OccursAt(s: string, pat: string, j: int) {
    0 <= j && j + |pat| <= |s| && s[j..j + |pat|] == pat
  }

  /** `s.indexOf(pat)`: the first index where `pat` occurs. */
  function IndexOf(s: string, pat: string): (r: Option<nat>)
    ensures r.Some? ==> OccursAt(s, pat, r.value)
    ensures r.Some? ==> forall j :: 0 <= j < r.value ==> !OccursAt(s, pat, j)
    ensures r.None? ==> forall j :: !OccursAt(s, pat, j)
    decreases |s|
  {
    if StartsWith(s, pat) then
      Some(0)
    else if |s| == 0 then
      None
    else
      var rest := IndexOf(s[1..], pat);
      assert forall j :: 1 <= j ==> (OccursAt(s, pat, j) <==> OccursAt(s[1..], pat, j - 1));
      match rest
      case Some(k) => Some(k + 1)
      case None => None
  }

  /** `s.includes(pat)`. */
  predicate Contains(s: string, pat: string) {
    IndexOf(s, pat).Some?
  }

  lemma ContainsWhenOccurs(s: string, pat: string, j: int)
    requires OccursAt(s, pat, j)
    ensures Contains(s, pat)
  {
  }

  lemma ContainsOccurs(s: string, pat: string)
    requires Contains(s, pat)
    ensures exists j :: OccursAt(s, pat, j)
  {
    assert OccursAt(s, pat, IndexOf(s, pat).value);
  }

  /** `s.replace(pat, rep)` with a string pattern: only the first occurrence. */
  function ReplaceFirst(s: string, pat: string, rep: string): string {
    match IndexOf(s, pat)
    case Some(i) => s[..i] + rep + s[i + |pat|..]
    case None => s
  }

  /** `s.split(sep)[0]`: the text before the first separator. */
  function BeforeFirst(s: string, sep: string): string {
    match IndexOf(s, sep)
    case Some(i) => s[..i]
    case None => s
  }

  /** Upper-case ASCII letters lowered; every other character kept. */
  function LowerChar(c: char): char {
    if 'A' <= c <= 'Z' then (c as int + 32) as char else c
  }

  /** `toLowerCase`, for the ASCII letters only. */
  function ToLower(s: string): string {
    seq(|s|, i requires 0 <= i < |s| => LowerChar(s[i]))
  }

  /** The characters JavaScript's `trim` removes. */
  predicate IsSpace(c: char) {
    c == ' ' || c == '\t' || c == '\n' || c == '\r' || c == '\U{000B}' || c == '\U{000C}'
    || c == '\U{00A0}' || c == '\U{1680}' || ('\U{2000}' <= c <= '\U{200A}')
    || c == '\U{2028}' || c == '\U{2029}' || c == '\U{202F}' || c == '\U{205F}'
    || c == '\U{3000}' || c == '\U{FEFF}'
  }

  function TrimStart(s: string): string {
    if |s| > 0 && IsSpace(s[0]) then TrimStart(s[1..]) else s
  }

  function TrimEnd(s: string): string {
    if |s| > 0 && IsSpace(s[|s| - 1]) then TrimEnd(s[..|s| - 1]) else s
  }

  function Trim(s: string): string {
    TrimEnd(TrimStart(s))
  }

  /** `s.slice(0, n)` for a non-negative `n`. */
  function Take(s: string, n: nat): string {
    if n <= |s| then s[..n] else s
  }

  /** `s.padEnd(n)`: spaces appended up to length `n`. */
  function PadEnd(s: string, n: nat): string {
    if |s| < n then s + seq(n - |s|, _ => ' ') else s
  }

  /** `c.repeat(n)`. */
  function Repeat(c: char, n: nat): string {
    seq(n, _ => c)
  }

  /** `parts.join(sep)`. */
  function Join(parts: seq<string>, sep: string): string {
    if |parts| == 0 then ""
    else if |parts| == 1 then parts[0]
    else parts[0] + sep + Join(parts[1..], sep)
  }

  /** JavaScript truthiness of an optional string: present and non-empty. */
  predicate Truthy(o: Option<string>) {
    o.Some? && o.value != ""
  }

  /** JavaScript `o || d` on an optional string. */
  function OrElse(o: Option<string>, d: string): string {
    if Truthy(o) then o.value else d
  }

  /** JavaScript string concatenation of an optional string: `undefined`
   *  becomes the text "undefined". */
  function JsText(o: Option<string>): string {
    match o
    case Some(v) => v
    case None => "undefined"
  }

  function DigitChar(d: nat): char
    requires d < 10
  {
    ('0' as int + d) as char
  }

  /** Decimal text of a natural number, as `String(n)` gives it. */
  function NatToString(n: nat): (r: string)
    ensures |r| > 0
    decreases n
  {
    if n < 10 then [DigitChar(n)] else NatToString(n / 10) + [DigitChar(n % 10)]
  }

  /** Decimal text of an integer, as `String(n)` gives it. */
  function IntToString(n: int): string {
    if n < 0 then "-" + NatToString(-n) else NatToString(n)
  }

  /** Ordinal (code-unit) order on strings: `a` sorts no later than `b`. */
  predicate LexLe(a: string, b: string)
    decreases |a|
  {
    |a| == 0 || (|b| > 0 && (a[0] < b[0] || (a[0] == b[0] && LexLe(a[1..], b[1..]))))
  }

  lemma {:induction false} LexLeTotal(a: string, b: string)
    ensures LexLe(a, b) || LexLe(b, a)
    decreases |a|
  {
    if |a| > 0 && |b| > 0 && a[0] == b[0] {
      LexLeTotal(a[1..], b[1..]);
    }
  }

  lemma {:induction false} LexLeTrans(a: string, b: string, c: string)
    requires LexLe(a, b) && LexLe(b, c)
    ensures LexLe(a, c)
    decreases |a|
  {
    if |a| > 0 && a[0] == b[0] && b[0] == c[0] {
      LexLeTrans(a[1..], b[1..], c[1..]);
    }
  }

  lemma {:induction false} LexLeAntisym(a: string, b: string)
    requires LexLe(a, b) && LexLe(b, a)
    ensures a == b
    decreases |a|
  {
    if |a| > 0 {
      LexLeAntisym(a[1..], b[1..]);
      assert a == [a[0]] + a[1..];
      assert b == [b[0]] + b[1..];
    }
  }

  /** The percentage `covered/total`, rounded to the nearest integer with
   *  halves up, or 0 when `total` is 0. This is `Math.round((covered /
   *  total) * 100)` computed exactly; the double arithmetic can land just
   *  below a half and round down instead. */
  function RoundPercent(covered: nat, total: nat): (r: nat)
    ensures total > 0 && covered <= total ==> r <= 100
    ensures total > 0 ==> 2 * total * r <= 200 * covered + total < 2 * total * (r + 1)
  {
    if total == 0 then 0 else (200 * covered + total) / (2 * total)
  }

  lemma {:induction false} RoundPercentMonotone(c1: nat, c2: nat, total: nat)
    requires c1 <= c2
    ensures RoundPercent(c1, total) <= RoundPercent(c2, total)
  {
    if total > 0 {
      var a, b := 200 * c1 + total, 200 * c2 + total;
      var d := 2 * total;
      assert a <= b;
      DivMonotone(a, b, d);
    }
  }

  lemma DivMonotone(a: nat, b: nat, d: nat)
    requires a <= b && d > 0
    ensures a / d <= b / d
  {
    var qa, qb := a / d, b / d;
    assert a == d * qa + a % d && b == d * qb + b % d;
    if qa > qb {
      assert d * qa >= d * (qb + 1) by { MulMonotone(d, qb + 1, qa); }
      assert false;
    }
  }

  lemma MulMonotone(d: nat, x: nat, y: nat)
    requires x <= y
    ensures d * x <= d * y
  {
  }
}
