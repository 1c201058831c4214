/** The JUnit XML report written for CI: text escaping, the `time`
 *  attributes, and the document built suite by suite and test by test.
 *  The document's element structure is read back through `Names`, the
 *  sequence of tag names in the order their `<` appears. */
module JUnitReporter {
  import opened Wrappers
  import opened Text
  import opened RunModel

  // ---------------------------------------------------------------------
  // Escaping

  /** `s.replace(/c/g, rep)`: every occurrence of the character `c` replaced. */
  function ReplaceAll(s: string, c: char, rep: string): string
    decreases |s|
  {
    if s == [] then [] else (if s[0] == c then rep else [s[0]]) + ReplaceAll(s[1..], c, rep)
  }

  /** `escape` as the source writes it: five global replacements, `&` first. */
  function ReplaceChain(s: string): string {
    ReplaceAll(ReplaceAll(ReplaceAll(ReplaceAll(ReplaceAll(
      s, '&', "&amp;"), '<', "&lt;"), '>', "&gt;"), '"', "&quot;"), '\'', "&apos;")
  }

  /** The entity each special character becomes. */
  function EscapeChar(c: char): string {
    match c
    case '&' => "&amp;"
    case '<' => "&lt;"
    case '>' => "&gt;"
    case '"' => "&quot;"
    case '\'' => "&apos;"
    case _ => [c]
  }

  /** `escape`, one character at a time (`EscapeIsReplaceChain` shows it is
   *  the source's chain of replacements). */
  function Escape(s: string): string
    decreases |s|
  {
    if s == [] then [] else EscapeChar(s[0]) + Escape(s[1..])
  }

  /** An XML reader's view: the five entities turned back into characters. */
  function Unescape(s: string): string
    decreases |s|
  {
    if s == [] then []
    else if StartsWith(s, "&amp;") then "&" + Unescape(s[5..])
    else if StartsWith(s, "&lt;") then "<" + Unescape(s[4..])
    else if StartsWith(s, "&gt;") then ">" + Unescape(s[4..])
    else if StartsWith(s, "&quot;") then "\"" + Unescape(s[6..])
    else if StartsWith(s, "&apos;") then "'" + Unescape(s[6..])
    else [s[0]] + Unescape(s[1..])
  }

  /** One of the five entities starts at index `i` of `s`. */
  predicate EntityAt(s: string, i: nat)
    requires i <= |s|
  {
    var t := s[i..];
    StartsWith(t, "&amp;") || StartsWith(t, "&lt;") || StartsWith(t, "&gt;")
    || StartsWith(t, "&quot;") || StartsWith(t, "&apos;")
  }

  lemma {:induction false} ReplaceAllAppend(a: string, b: string, c: char, rep: string)
    ensures ReplaceAll(a + b, c, rep) == ReplaceAll(a, c, rep) + ReplaceAll(b, c, rep)
    decreases |a|
  {
    if a == [] {
      assert a + b == b;
    } else {
      assert (a + b)[0] == a[0];
      assert (a + b)[1..] == a[1..] + b;
      ReplaceAllAppend(a[1..], b, c, rep);
    }
  }

  lemma {:induction false} ReplaceAllAbsent(s: string, c: char, rep: string)
    requires c !in s
    ensures ReplaceAll(s, c, rep) == s
    decreases |s|
  {
    if s != [] {
      ReplaceAllAbsent(s[1..], c, rep);
      assert s == [s[0]] + s[1..];
    }
  }

  lemma ReplaceOne(c: char, rep: string)
    ensures ReplaceAll([c], c, rep) == rep
  {
    assert ReplaceAll([c], c, rep) == rep + ReplaceAll([], c, rep);
  }

  /** The replacements after the first leave text without their characters alone. */
  lemma AfterAmp(e: string)
    requires '<' !in e && '>' !in e && '"' !in e && '\'' !in e
    ensures ReplaceAll(ReplaceAll(ReplaceAll(ReplaceAll(e, '<', "&lt;"), '>', "&gt;"), '"', "&quot;"), '\'', "&apos;") == e
  {
    ReplaceAllAbsent(e, '<', "&lt;");
    ReplaceAllAbsent(e, '>', "&gt;");
    ReplaceAllAbsent(e, '"', "&quot;");
    ReplaceAllAbsent(e, '\'', "&apos;");
  }

  lemma AfterLt(e: string)
    requires '>' !in e && '"' !in e && '\'' !in e
    ensures ReplaceAll(ReplaceAll(ReplaceAll(e, '>', "&gt;"), '"', "&quot;"), '\'', "&apos;") == e
  {
    ReplaceAllAbsent(e, '>', "&gt;");
    ReplaceAllAbsent(e, '"', "&quot;");
    ReplaceAllAbsent(e, '\'', "&apos;");
  }

  lemma AfterGt(e: string)
    requires '"' !in e && '\'' !in e
    ensures ReplaceAll(ReplaceAll(e, '"', "&quot;"), '\'', "&apos;") == e
  {
    ReplaceAllAbsent(e, '"', "&quot;");
    ReplaceAllAbsent(e, '\'', "&apos;");
  }

  lemma ChainAmp(c: char)
    requires c == '&'
    ensures ReplaceChain([c]) == EscapeChar(c)
  {
    ReplaceOne(c, "&amp;");
    AfterAmp(ReplaceAll([c], '&', "&amp;"));
  }

  lemma ChainLt(c: char)
    requires c == '<'
    ensures ReplaceChain([c]) == EscapeChar(c)
  {
    var s: string := [c];
    ReplaceAllAbsent(s, '&', "&amp;");
    ReplaceOne(c, "&lt;");
    AfterLt(ReplaceAll(s, '<', "&lt;"));
  }

  lemma ChainGt(c: char)
    requires c == '>'
    ensures ReplaceChain([c]) == EscapeChar(c)
  {
    var s: string := [c];
    ReplaceAllAbsent(s, '&', "&amp;");
    ReplaceAllAbsent(s, '<', "&lt;");
    ReplaceOne(c, "&gt;");
    AfterGt(ReplaceAll(s, '>', "&gt;"));
  }

  lemma ChainQuot(c: char)
    requires c == '"'
    ensures ReplaceChain([c]) == EscapeChar(c)
  {
    var s: string := [c];
    ReplaceAllAbsent(s, '&', "&amp;");
    ReplaceAllAbsent(s, '<', "&lt;");
    ReplaceAllAbsent(s, '>', "&gt;");
    ReplaceOne(c, "&quot;");
    ReplaceAllAbsent(ReplaceAll(s, '"', "&quot;"), '\'', "&apos;");
  }

  lemma ChainApos(c: char)
    requires c == '\''
    ensures ReplaceChain([c]) == EscapeChar(c)
  {
    var s: string := [c];
    ReplaceAllAbsent(s, '&', "&amp;");
    ReplaceAllAbsent(s, '<', "&lt;");
    ReplaceAllAbsent(s, '>', "&gt;");
    ReplaceAllAbsent(s, '"', "&quot;");
    ReplaceOne(c, "&apos;");
  }

  lemma ChainPlain(c: char)
    requires c != '&' && c != '<' && c != '>' && c != '"' && c != '\''
    ensures ReplaceChain([c]) == EscapeChar(c)
  {
    var s: string := [c];
    ReplaceAllAbsent(s, '&', "&amp;");
    ReplaceAllAbsent(s, '<', "&lt;");
    ReplaceAllAbsent(s, '>', "&gt;");
    ReplaceAllAbsent(s, '"', "&quot;");
    ReplaceAllAbsent(s, '\'', "&apos;");
  }

  lemma ChainOne(c: char)
    ensures ReplaceChain([c]) == EscapeChar(c)
  {
    if c == '&' {
      ChainAmp(c);
    } else if c == '<' {
      ChainLt(c);
    } else if c == '>' {
      ChainGt(c);
    } else if c == '"' {
      ChainQuot(c);
    } else if c == '\'' {
      ChainApos(c);
    } else {
      ChainPlain(c);
    }
  }

  lemma ChainAppend(a: string, b: string)
    ensures ReplaceChain(a + b) == ReplaceChain(a) + ReplaceChain(b)
  {
    ReplaceAllAppend(a, b, '&', "&amp;");
    var a1, b1 := ReplaceAll(a, '&', "&amp;"), ReplaceAll(b, '&', "&amp;");
    ReplaceAllAppend(a1, b1, '<', "&lt;");
    var a2, b2 := ReplaceAll(a1, '<', "&lt;"), ReplaceAll(b1, '<', "&lt;");
    ReplaceAllAppend(a2, b2, '>', "&gt;");
    var a3, b3 := ReplaceAll(a2, '>', "&gt;"), ReplaceAll(b2, '>', "&gt;");
    ReplaceAllAppend(a3, b3, '"', "&quot;");
    var a4, b4 := ReplaceAll(a3, '"', "&quot;"), ReplaceAll(b3, '"', "&quot;");
    ReplaceAllAppend(a4, b4, '\'', "&apos;");
  }

  /** Because `&` is replaced first, the source's chain of replacements
   *  escapes each character on its own: no entity is escaped twice. */
  lemma {:induction false} EscapeIsReplaceChain(s: string)
    ensures ReplaceChain(s) == Escape(s)
    decreases |s|
  {
    if s != [] {
      assert s == [s[0]] + s[1..];
      ChainAppend([s[0]], s[1..]);
      ChainOne(s[0]);
      EscapeIsReplaceChain(s[1..]);
    }
  }

  /** What one character becomes holds no raw `<`, `>`, `"` or `'`, and an
   *  `&` in it only at its start, where an entity begins. */
  lemma EscapeCharSafe(c: char, t: string)
    ensures var e := EscapeChar(c);
      && '<' !in e && '>' !in e && '"' !in e && '\'' !in e
      && (forall i :: 0 < i < |e| ==> e[i] != '&')
      && (e[0] == '&' ==> EntityAt(e + t, 0))
  {
    var e := EscapeChar(c);
    var r := e + t;
    assert r[0..] == r;
    assert r[..|e|] == e;
  }

  /** Escaped text holds none of `<`, `>`, `"`, `'` raw, and every `&` in it
   *  starts an entity. */
  lemma {:induction false} EscapeSafe(s: string)
    ensures var r := Escape(s);
      && '<' !in r && '>' !in r && '"' !in r && '\'' !in r
      && forall i :: 0 <= i < |r| && r[i] == '&' ==> EntityAt(r, i)
    decreases |s|
  {
    if s != [] {
      EscapeSafe(s[1..]);
      var e, t := EscapeChar(s[0]), Escape(s[1..]);
      EscapeCharSafe(s[0], t);
      var r := e + t;
      forall i | 0 <= i < |r| && r[i] == '&'
        ensures EntityAt(r, i)
      {
        if i >= |e| {
          assert r[i..] == t[i - |e|..];
          assert t[i - |e|] == '&';
        } else {
          assert e[i] == '&';
        }
      }
    }
  }

  lemma UnescapeAmp(t: string)
    ensures Unescape("&amp;" + t) == "&" + Unescape(t)
  {
    var s := "&amp;" + t;
    assert s[..5] == "&amp;";
    assert s[5..] == t;
  }

  lemma UnescapeLt(t: string)
    ensures Unescape("&lt;" + t) == "<" + Unescape(t)
  {
    var s := "&lt;" + t;
    assert s[1] == 'l';
    assert s[..4] == "&lt;";
    assert s[4..] == t;
  }

  lemma UnescapeGt(t: string)
    ensures Unescape("&gt;" + t) == ">" + Unescape(t)
  {
    var s := "&gt;" + t;
    assert s[1] == 'g';
    assert s[..4] == "&gt;";
    assert s[4..] == t;
  }

  lemma UnescapeQuot(t: string)
    ensures Unescape("&quot;" + t) == "\"" + Unescape(t)
  {
    var s := "&quot;" + t;
    assert s[1] == 'q';
    assert s[..6] == "&quot;";
    assert s[6..] == t;
  }

  lemma UnescapeApos(t: string)
    ensures Unescape("&apos;" + t) == "'" + Unescape(t)
  {
    var s := "&apos;" + t;
    assert s[1] == 'a' && s[2] == 'p';
    assert s[..6] == "&apos;";
    assert s[6..] == t;
  }

  lemma UnescapePlain(c: char, t: string)
    requires c != '&'
    ensures Unescape([c] + t) == [c] + Unescape(t)
  {
    var s := [c] + t;
    NoEntityAt(s, "&amp;");
    NoEntityAt(s, "&lt;");
    NoEntityAt(s, "&gt;");
    NoEntityAt(s, "&quot;");
    NoEntityAt(s, "&apos;");
    assert s[1..] == t;
  }

  /** A string whose first character is not an ampersand starts no entity. */
  lemma NoEntityAt(s: string, entity: string)
    requires |s| > 0 && s[0] != '&'
    requires |entity| > 0 && entity[0] == '&'
    ensures !StartsWith(s, entity)
  {
  }

  lemma UnescapeHead(c: char, t: string)
    ensures Unescape(EscapeChar(c) + t) == [c] + Unescape(t)
  {
    if c == '&' {
      UnescapeAmp(t);
    } else if c == '<' {
      UnescapeLt(t);
    } else if c == '>' {
      UnescapeGt(t);
    } else if c == '"' {
      UnescapeQuot(t);
    } else if c == '\'' {
      UnescapeApos(t);
    } else {
      UnescapePlain(c, t);
    }
  }

  /** Escaping loses nothing: an XML reader gets the original text back. */
  lemma {:induction false} UnescapeEscape(s: string)
    ensures Unescape(Escape(s)) == s
    decreases |s|
  {
    if s != [] {
      UnescapeHead(s[0], Escape(s[1..]));
      UnescapeEscape(s[1..]);
      assert s == [s[0]] + s[1..];
    }
  }

  // ---------------------------------------------------------------------
  // Numbers and times

  predicate Digits(s: string) {
    forall i :: 0 <= i < |s| ==> '0' <= s[i] <= '9'
  }

  /** The number a string of decimal digits denotes. */
  function DecimalValue(s: string): nat
    requires Digits(s)
    decreases |s|
  {
    if s == [] then 0 else DecimalValue(s[..|s| - 1]) * 10 + (s[|s| - 1] as int - '0' as int)
  }

  lemma {:induction false} NatToStringValue(n: nat)
    ensures Digits(NatToString(n)) && DecimalValue(NatToString(n)) == n
    decreases n
  {
    if n >= 10 {
      NatToStringValue(n / 10);
      var p := NatToString(n / 10);
      var s := p + [DigitChar(n % 10)];
      assert s[..|s| - 1] == p;
    }
  }

  /** Milliseconds below a second as exactly three digits. */
  function Millis3(m: nat): string
    requires m < 1000
  {
    [DigitChar(m / 100), DigitChar(m % 100 / 10), DigitChar(m % 100 % 10)]
  }

  /** `(ms / 1000).toFixed(3)` for a non-negative whole number of milliseconds. */
  function SecondsOf(n: nat): string {
    NatToString(n / 1000) + "." + Millis3(n % 1000)
  }

  /** `(ms / 1000).toFixed(3)`: a negative value is the positive one with a
   *  leading minus sign. */
  function Seconds(ms: int): string {
    if ms < 0 then "-" + SecondsOf(-ms) else SecondsOf(ms)
  }

  lemma Millis3Value(m: nat)
    requires m < 1000
    ensures Digits(Millis3(m)) && DecimalValue(Millis3(m)) == m
  {
    var s := Millis3(m);
    assert s[..2][..1] == [s[0]];
    assert [s[0]][..0] == [];
    assert s[..2] == [s[0], s[1]];
    assert DecimalValue([s[0]]) == m / 100;
    assert DecimalValue(s[..2]) == m / 100 * 10 + m % 100 / 10;
  }

  /** The text is whole seconds, a point and three digits of milliseconds,
   *  and it denotes the milliseconds given. */
  lemma SecondsOfSpec(n: nat)
    ensures var r := SecondsOf(n); var k := |r|;
      && k >= 5 && r[k - 4] == '.'
      && Digits(r[..k - 4]) && Digits(r[k - 3..])
      && DecimalValue(r[..k - 4]) * 1000 + DecimalValue(r[k - 3..]) == n
  {
    NatToStringValue(n / 1000);
    Millis3Value(n % 1000);
    var p, m := NatToString(n / 1000), Millis3(n % 1000);
    var r := p + "." + m;
    var k := |r|;
    assert r[..k - 4] == p;
    assert r[k - 3..] == m;
  }

  /** `time` attributes: the milliseconds divided by 1000 with three decimals,
   *  signed as the input is. */
  lemma SecondsSpec(ms: int)
    ensures var r := Seconds(ms); var k := |r|;
      && k >= 5 && r[k - 4] == '.' && Digits(r[k - 3..])
      && (ms >= 0 ==> Digits(r[..k - 4]) && DecimalValue(r[..k - 4]) * 1000 + DecimalValue(r[k - 3..]) == ms)
      && (ms < 0 ==> r[0] == '-' && Digits(r[1..k - 4])
                     && DecimalValue(r[1..k - 4]) * 1000 + DecimalValue(r[k - 3..]) == -ms)
  {
    if ms < 0 {
      SecondsOfSpec(-ms);
      var q := SecondsOf(-ms);
      var r := "-" + q;
      var k := |r|;
      assert r[1..k - 4] == q[..|q| - 4];
      assert r[k - 3..] == q[|q| - 3..];
    } else {
      SecondsOfSpec(ms);
    }
  }

  lemma NoTagInNumber(n: nat)
    ensures '<' !in NatToString(n)
  {
    NatToStringValue(n);
  }

  lemma NoTagInSeconds(ms: int)
    ensures '<' !in Seconds(ms)
  {
    NoTagInNumber(if ms < 0 then -ms / 1000 else ms / 1000);
  }

  // ---------------------------------------------------------------------
  // The document

  /** `testName.split(' - ')[0] || 'Test'`. */
  function ClassName(testName: string): string {
    var head := BeforeFirst(testName, " - ");
    if head == "" then "Test" else head
  }

  /** The class name is never empty; it is the part of the name before the
   *  first " - ", or the whole name when there is none, with "Test" standing
   *  in for an empty part. */
  lemma ClassNameSpec(testName: string)
    ensures var r := ClassName(testName);
      && r != ""
      && (!Contains(testName, " - ") ==> r == if testName == "" then "Test" else testName)
      && (StartsWith(testName, " - ") ==> r == "Test")
      && (Contains(testName, " - ") && !StartsWith(testName, " - ") ==>
            StartsWith(testName, r + " - ") && !Contains(r, " - "))
  {
    var r := ClassName(testName);
    match IndexOf(testName, " - ")
    case None =>
    case Some(i) =>
      if i == 0 {
        assert OccursAt(testName, " - ", 0);
      } else {
        assert !OccursAt(testName, " - ", 0);
        assert r == testName[..i];
        assert testName[..|r + " - "|] == r + " - ";
        if Contains(r, " - ") {
          ContainsOccurs(r, " - ");
          var j :| OccursAt(r, " - ", j);
          assert OccursAt(testName, " - ", j);
          assert false;
        }
      }
  }

  /** A line holding one tag: `indent`, `<`, the tag name and the rest
   *  of the tag (attributes, `>` or `/>`, and whatever follows on the line). */
  function Tag(indent: string, name: string, rest: string): string {
    indent + ("<" + (name + rest))
  }

  /** An attribute inside a start tag: ` key="value"`. */
  function Attr(key: string, value: string): string {
    " " + (key + ("=\"" + (value + "\"")))
  }

  function TestOpen(t: TestResult): string {
    Tag("    ", "testcase", Attr("classname", Escape(ClassName(t.testName))) + Attr("name", Escape(t.testName))
      + Attr("time", Seconds(t.duration)) + ">\n")
  }

  /** The `failure` element; the body is the escaped message (the stack
   *  trace, which the source prefers when present, is not modelled). */
  function FailureXml(message: string): string {
    Tag("      ", "failure", Attr("message", Escape(message)) + ">\n")
    + Escape(message) + Tag("\n      ", "/failure", ">\n")
  }

  function FailurePart(t: TestResult): string {
    if t.status == Fail && t.error.Some? then FailureXml(t.error.value.message) else ""
  }

  function SkippedPart(t: TestResult): string {
    if t.status == Skip then Tag("      ", "skipped", " />\n") else ""
  }

  function RetriesPart(t: TestResult): string {
    if t.retries > 0 then Tag("      ", "!--", " Retries: " + NatToString(t.retries) + " -->\n") else ""
  }

  /** `buildTestXml`: the `testcase` element of one test. */
  function TestXml(t: TestResult): string {
    TestOpen(t) + FailurePart(t) + SkippedPart(t) + RetriesPart(t) + Tag("    ", "/testcase", ">\n")
  }

  /** `acc` followed by the `testcase` elements of the tests, in order. */
  function TestsFrom(acc: string, tests: seq<TestResult>): string {
    if |tests| == 0 then acc else TestsFrom(acc, tests[..|tests| - 1]) + TestXml(tests[|tests| - 1])
  }

  function SuiteOpen(s: SuiteResult): string {
    Tag("  ", "testsuite", Attr("name", Escape(s.suiteName)) + Attr("tests", NatToString(|s.tests|))
      + Attr("failures", NatToString(s.failed)) + Attr("skipped", NatToString(s.skipped))
      + Attr("time", Seconds(s.duration)) + ">\n")
  }

  /** `buildSuiteXml`: the `testsuite` element of one suite. */
  function SuiteXml(s: SuiteResult): string {
    TestsFrom(SuiteOpen(s), s.tests) + Tag("  ", "/testsuite", ">\n")
  }

  /** `acc` followed by the `testsuite` elements of the suites, in order. */
  function SuitesFrom(acc: string, suites: seq<SuiteResult>): string {
    if |suites| == 0 then acc else SuitesFrom(acc, suites[..|suites| - 1]) + SuiteXml(suites[|suites| - 1])
  }

  /** The parts of a run result the reporter reads. */
  datatype Report = Report(
    runner: string,
    timestamp: string,
    duration: int,
    summary: Summary,
    suites: seq<SuiteResult>)

  const Declaration: string := Tag("", "?xml", " version=\"1.0\" encoding=\"UTF-8\"?>\n")

  /** The root's attributes: run totals from the summary. */
  function RootAttrs(r: Report): string {
    Attr("name", r.runner) + Attr("tests", NatToString(r.summary.totalTests))
    + Attr("failures", NatToString(r.summary.failed)) + Attr("skipped", NatToString(r.summary.skipped))
    + Attr("time", Seconds(r.duration)) + Attr("timestamp", r.timestamp)
  }

  /** The XML declaration and the root's start tag; the runner name and the
   *  timestamp go in unescaped. */
  function RunOpen(r: Report): string {
    Declaration
    + Tag("", "testsuites", RootAttrs(r) + ">\n")
  }

  /** `buildXml`: the whole document. */
  function RunXml(r: Report): string {
    SuitesFrom(RunOpen(r), r.suites) + Tag("", "/testsuites", ">\n")
  }

  lemma TestsFromSnoc(acc: string, tests: seq<TestResult>, i: nat)
    requires i < |tests|
    ensures TestsFrom(acc, tests[..i + 1]) == TestsFrom(acc, tests[..i]) + TestXml(tests[i])
  {
    assert tests[..i + 1][..i] == tests[..i];
  }

  lemma SuitesFromSnoc(acc: string, suites: seq<SuiteResult>, i: nat)
    requires i < |suites|
    ensures SuitesFrom(acc, suites[..i + 1]) == SuitesFrom(acc, suites[..i]) + SuiteXml(suites[i])
  {
    assert suites[..i + 1][..i] == suites[..i];
  }

  lemma AppendThree(x: string, a: string, b: string, c: string)
    ensures x + a + b + c == x + (a + b + c)
  {
  }

  method BuildTestXml(t: TestResult) returns (xml: string)
    ensures xml == TestXml(t)
  {
    var time := Seconds(t.duration);
    var className := ClassName(t.testName);
    xml := Tag("    ", "testcase", Attr("classname", Escape(className)) + Attr("name", Escape(t.testName))
      + Attr("time", time) + ">\n");
    ghost var open := xml;
    if t.status == Fail && t.error.Some? {
      var message := t.error.value.message;
      xml := xml + Tag("      ", "failure", Attr("message", Escape(message)) + ">\n");
      xml := xml + Escape(message);
      xml := xml + Tag("\n      ", "/failure", ">\n");
      AppendThree(open, Tag("      ", "failure", Attr("message", Escape(message)) + ">\n"), Escape(message),
        Tag("\n      ", "/failure", ">\n"));
    }
    assert xml == TestOpen(t) + FailurePart(t);
    if t.status == Skip {
      xml := xml + Tag("      ", "skipped", " />\n");
    }
    assert xml == TestOpen(t) + FailurePart(t) + SkippedPart(t);
    if t.retries > 0 {
      xml := xml + Tag("      ", "!--", " Retries: " + NatToString(t.retries) + " -->\n");
    }
    assert xml == TestOpen(t) + FailurePart(t) + SkippedPart(t) + RetriesPart(t);
    xml := xml + Tag("    ", "/testcase", ">\n");
  }

  method BuildSuiteXml(s: SuiteResult) returns (xml: string)
    ensures xml == SuiteXml(s)
  {
    xml := SuiteOpen(s);
    ghost var open := xml;
    for i := 0 to |s.tests|
      invariant xml == TestsFrom(open, s.tests[..i])
    {
      var x := BuildTestXml(s.tests[i]);
      TestsFromSnoc(open, s.tests, i);
      xml := xml + x;
    }
    assert s.tests[..|s.tests|] == s.tests;
    xml := xml + Tag("  ", "/testsuite", ">\n");
  }

  method BuildXml(r: Report) returns (xml: string)
    ensures xml == RunXml(r)
  {
    xml := RunOpen(r);
    ghost var open := xml;
    for i := 0 to |r.suites|
      invariant xml == SuitesFrom(open, r.suites[..i])
    {
      var x := BuildSuiteXml(r.suites[i]);
      SuitesFromSnoc(open, r.suites, i);
      xml := xml + x;
    }
    assert r.suites[..|r.suites|] == r.suites;
    xml := xml + Tag("", "/testsuites", ">\n");
  }

  // ---------------------------------------------------------------------
  // Element structure

  predicate Delim(c: char) {
    c == ' ' || c == '>'
  }

  /** The tag name at the start of `s`: everything up to a space or `>`. */
  function NameAt(s: string): string
    decreases |s|
  {
    if s == [] || Delim(s[0]) then [] else [s[0]] + NameAt(s[1..])
  }

  /** The tag names of `s`, one for each `<`, in order (`/testcase` for a
   *  closing tag, `!--` for a comment). */
  function Names(s: string): seq<string>
    decreases |s|
  {
    if s == [] then []
    else (if s[0] == '<' then [NameAt(s[1..])] else []) + Names(s[1..])
  }

  predicate HasDelim(s: string)
    decreases |s|
  {
    |s| > 0 && (Delim(s[0]) || HasDelim(s[1..]))
  }

  /** Every tag name in `s` ends inside `s`. */
  predicate Closed(s: string)
    decreases |s|
  {
    s == [] || ((s[0] == '<' ==> HasDelim(s[1..])) && Closed(s[1..]))
  }

  lemma {:induction false} HasDelimAppend(x: string, y: string)
    requires HasDelim(x) || HasDelim(y)
    ensures HasDelim(x + y)
    decreases |x|
  {
    if x == [] {
      assert x + y == y;
    } else {
      assert (x + y)[0] == x[0];
      assert (x + y)[1..] == x[1..] + y;
      if !Delim(x[0]) {
        HasDelimAppend(x[1..], y);
      }
    }
  }

  lemma {:induction false} NameAtAppend(x: string, y: string)
    requires HasDelim(x)
    ensures NameAt(x + y) == NameAt(x)
    decreases |x|
  {
    assert (x + y)[0] == x[0];
    if !Delim(x[0]) {
      assert (x + y)[1..] == x[1..] + y;
      NameAtAppend(x[1..], y);
    }
  }

  lemma {:induction false} NamesAppend(a: string, b: string)
    requires Closed(a)
    ensures Names(a + b) == Names(a) + Names(b)
    decreases |a|
  {
    if a == [] {
      assert a + b == b;
    } else {
      assert (a + b)[0] == a[0];
      assert (a + b)[1..] == a[1..] + b;
      if a[0] == '<' {
        NameAtAppend(a[1..], b);
      }
      NamesAppend(a[1..], b);
    }
  }

  lemma {:induction false} ClosedAppend(a: string, b: string)
    requires Closed(a) && Closed(b)
    ensures Closed(a + b)
    decreases |a|
  {
    if a == [] {
      assert a + b == b;
    } else {
      assert (a + b)[0] == a[0];
      assert (a + b)[1..] == a[1..] + b;
      if a[0] == '<' {
        HasDelimAppend(a[1..], b);
      }
      ClosedAppend(a[1..], b);
    }
  }

  lemma {:induction false} PlainText(x: string)
    requires '<' !in x
    ensures Names(x) == [] && Closed(x)
    decreases |x|
  {
    if x != [] {
      assert x[0] != '<';
      PlainText(x[1..]);
    }
  }

  /** Appending parts whose tag names all end inside them concatenates their
   *  tag names. */
  lemma Join(a: string, b: string)
    requires Closed(a) && Closed(b)
    ensures Names(a + b) == Names(a) + Names(b) && Closed(a + b)
  {
    NamesAppend(a, b);
    ClosedAppend(a, b);
  }

  lemma {:induction false} NameAtWord(name: string, post: string)
    requires ' ' !in name && '>' !in name
    requires |post| > 0 && Delim(post[0])
    ensures NameAt(name + post) == name && HasDelim(name + post)
    decreases |name|
  {
    if name == [] {
      assert name + post == post;
    } else {
      assert (name + post)[0] == name[0];
      assert (name + post)[1..] == name[1..] + post;
      NameAtWord(name[1..], post);
      assert name == [name[0]] + name[1..];
    }
  }

  /** A tag name: no `<`, space or `>` in it. */
  predicate Word(name: string) {
    '<' !in name && ' ' !in name && '>' !in name
  }

  lemma TagHead(tag: string, z: string)
    requires tag == "<" + z && Names(z) == [] && Closed(z) && HasDelim(z)
    ensures Names(tag) == [NameAt(z)] && Closed(tag)
  {
    assert tag[0] == '<' && tag[1..] == z;
  }

  /** A line built by `Tag` holds exactly one tag, the one named. */
  lemma TagNames(indent: string, name: string, rest: string)
    requires '<' !in indent && Word(name) && '<' !in rest && |rest| > 0 && Delim(rest[0])
    ensures Names(Tag(indent, name, rest)) == [name] && Closed(Tag(indent, name, rest))
  {
    var z := name + rest;
    PlainText(indent);
    PlainText(z);
    NameAtWord(name, rest);
    TagHead("<" + z, z);
    Join(indent, "<" + z);
  }

  lemma NoTagInEscaped(s: string)
    ensures '<' !in Escape(s)
  {
    EscapeSafe(s);
  }

  /** An attribute adds no tag when its value holds no `<`. */
  lemma AttrText(key: string, value: string)
    requires '<' !in key && '<' !in value
    ensures '<' !in Attr(key, value) && |Attr(key, value)| > 0 && Attr(key, value)[0] == ' '
  {
  }

  lemma OpenElements(t: TestResult)
    ensures Names(TestOpen(t)) == ["testcase"] && Closed(TestOpen(t))
  {
    var a1, a2, a3 := Attr("classname", Escape(ClassName(t.testName))), Attr("name", Escape(t.testName)),
      Attr("time", Seconds(t.duration));
    NoTagInEscaped(ClassName(t.testName));
    NoTagInEscaped(t.testName);
    NoTagInSeconds(t.duration);
    AttrText("classname", Escape(ClassName(t.testName)));
    AttrText("name", Escape(t.testName));
    AttrText("time", Seconds(t.duration));
    TagNames("    ", "testcase", a1 + a2 + a3 + ">\n");
  }

  lemma FailureElements(message: string)
    ensures Names(FailureXml(message)) == ["failure", "/failure"] && Closed(FailureXml(message))
  {
    var m := Escape(message);
    NoTagInEscaped(message);
    var open := Tag("      ", "failure", Attr("message", m) + ">\n");
    var close := Tag("\n      ", "/failure", ">\n");
    AttrText("message", m);
    TagNames("      ", "failure", Attr("message", m) + ">\n");
    TagNames("\n      ", "/failure", ">\n");
    PlainText(m);
    Join(open, m);
    Join(open + m, close);
  }

  lemma FailurePartElements(t: TestResult)
    ensures Names(FailurePart(t)) == (if t.status == Fail && t.error.Some? then ["failure", "/failure"] else [])
    ensures Closed(FailurePart(t))
  {
    if t.status == Fail && t.error.Some? {
      FailureElements(t.error.value.message);
    }
  }

  lemma SkippedPartElements(t: TestResult)
    ensures Names(SkippedPart(t)) == (if t.status == Skip then ["skipped"] else [])
    ensures Closed(SkippedPart(t))
  {
    if t.status == Skip {
      TagNames("      ", "skipped", " />\n");
    }
  }

  lemma RetriesPartElements(t: TestResult)
    ensures Names(RetriesPart(t)) == (if t.retries > 0 then ["!--"] else [])
    ensures Closed(RetriesPart(t))
  {
    if t.retries > 0 {
      NoTagInNumber(t.retries);
      TagNames("      ", "!--", " Retries: " + NatToString(t.retries) + " -->\n");
    }
  }

  /** The tag names of one test's element: the `testcase` element, holding a
   *  `failure` element, a `skipped` element and a retries comment each only
   *  when its condition holds, in that order. */
  function TestElements(t: TestResult): seq<string> {
    ["testcase"]
    + (if t.status == Fail && t.error.Some? then ["failure", "/failure"] else [])
    + (if t.status == Skip then ["skipped"] else [])
    + (if t.retries > 0 then ["!--"] else [])
    + ["/testcase"]
  }

  lemma TestXmlElements(t: TestResult)
    ensures Names(TestXml(t)) == TestElements(t) && Closed(TestXml(t))
  {
    var a, b, c, d, e := TestOpen(t), FailurePart(t), SkippedPart(t), RetriesPart(t), Tag("    ", "/testcase", ">\n");
    OpenElements(t);
    FailurePartElements(t);
    SkippedPartElements(t);
    RetriesPartElements(t);
    TagNames("    ", "/testcase", ">\n");
    Join(a, b);
    Join(a + b, c);
    Join(a + b + c, d);
    Join(a + b + c + d, e);
  }

  /** A test's element holds a `failure` element exactly when the test
   *  failed with an error, a `skipped` element exactly when it was skipped,
   *  and a retries comment exactly when it was retried; it is one
   *  `testcase` element. */
  /** How many times `x` occurs in `xs`. */
  function Count(xs: seq<string>, x: string): nat
    decreases |xs|
  {
    if |xs| == 0 then 0 else Count(xs[..|xs| - 1], x) + (if xs[|xs| - 1] == x then 1 else 0)
  }

  lemma {:induction false} CountAppend(a: seq<string>, b: seq<string>, x: string)
    ensures Count(a + b, x) == Count(a, x) + Count(b, x)
    decreases |b|
  {
    if |b| == 0 {
      assert a + b == a;
    } else {
      assert (a + b)[..|a + b| - 1] == a + b[..|b| - 1];
      CountAppend(a, b[..|b| - 1], x);
    }
  }

  lemma {:induction false} CountAbsent(a: seq<string>, x: string)
    requires x !in a
    ensures Count(a, x) == 0
    decreases |a|
  {
    if |a| > 0 {
      CountAbsent(a[..|a| - 1], x);
    }
  }

  lemma CountOne(x: string)
    ensures Count([x], x) == 1
  {
    assert [x][..0] == [];
  }

  /** A test's element holds a `failure` element exactly when the test
   *  failed with an error, a `skipped` element exactly when it was skipped,
   *  and a retries comment exactly when it was retried, and no `testsuite`
   *  element. */
  lemma TestElementsSpec(t: TestResult)
    ensures ("failure" in TestElements(t) <==> t.status == Fail && t.error.Some?)
    ensures ("skipped" in TestElements(t) <==> t.status == Skip)
    ensures ("!--" in TestElements(t) <==> t.retries > 0)
    ensures "testsuite" !in TestElements(t)
  {
  }

  /** A test's element is exactly one `testcase` element. */
  lemma TestElementsCount(t: TestResult)
    ensures Count(TestElements(t), "testcase") == 1
    ensures Count(TestElements(t), "testsuite") == 0
  {
    var f: seq<string> := if t.status == Fail && t.error.Some? then ["failure", "/failure"] else [];
    var s: seq<string> := if t.status == Skip then ["skipped"] else [];
    var r: seq<string> := if t.retries > 0 then ["!--"] else [];
    var mid := f + s + r + ["/testcase"];
    assert TestElements(t) == ["testcase"] + mid;
    CountAbsent(mid, "testcase");
    CountAppend(["testcase"], mid, "testcase");
    CountOne("testcase");
    TestElementsSpec(t);
    CountAbsent(TestElements(t), "testsuite");
  }

  function TestsElements(tests: seq<TestResult>): seq<string> {
    if |tests| == 0 then [] else TestsElements(tests[..|tests| - 1]) + TestElements(tests[|tests| - 1])
  }

  /** One more closed part after a closed prefix. */
  lemma Snoc(a: string, b: string, n0: seq<string>, n1: seq<string>, n2: seq<string>)
    requires Closed(a) && Closed(b) && Names(a) == n0 + n1 && Names(b) == n2
    ensures Names(a + b) == n0 + (n1 + n2) && Closed(a + b)
  {
    Join(a, b);
  }

  lemma {:induction false} TestsFromElements(acc: string, tests: seq<TestResult>)
    requires Closed(acc)
    ensures Names(TestsFrom(acc, tests)) == Names(acc) + TestsElements(tests)
    ensures Closed(TestsFrom(acc, tests))
    decreases |tests|
  {
    if |tests| > 0 {
      var init, last := tests[..|tests| - 1], tests[|tests| - 1];
      TestsFromElements(acc, init);
      TestXmlElements(last);
      Snoc(TestsFrom(acc, init), TestXml(last), Names(acc), TestsElements(init), TestElements(last));
    }
  }

  lemma {:induction false} TestsElementsCount(tests: seq<TestResult>)
    ensures Count(TestsElements(tests), "testcase") == |tests|
    ensures Count(TestsElements(tests), "testsuite") == 0
    decreases |tests|
  {
    if |tests| > 0 {
      var init, last := tests[..|tests| - 1], tests[|tests| - 1];
      TestsElementsCount(init);
      TestElementsCount(last);
      CountAppend(TestsElements(init), TestElements(last), "testcase");
      CountAppend(TestsElements(init), TestElements(last), "testsuite");
    }
  }

  lemma SuiteOpenElements(s: SuiteResult)
    ensures Names(SuiteOpen(s)) == ["testsuite"] && Closed(SuiteOpen(s))
  {
    NoTagInEscaped(s.suiteName);
    NoTagInNumber(|s.tests|);
    NoTagInNumber(s.failed);
    NoTagInNumber(s.skipped);
    NoTagInSeconds(s.duration);
    AttrText("name", Escape(s.suiteName));
    AttrText("tests", NatToString(|s.tests|));
    AttrText("failures", NatToString(s.failed));
    AttrText("skipped", NatToString(s.skipped));
    AttrText("time", Seconds(s.duration));
    TagNames("  ", "testsuite", Attr("name", Escape(s.suiteName)) + Attr("tests", NatToString(|s.tests|))
      + Attr("failures", NatToString(s.failed)) + Attr("skipped", NatToString(s.skipped))
      + Attr("time", Seconds(s.duration)) + ">\n");
  }

  /** The tag names of one suite's element. */
  function SuiteElements(s: SuiteResult): seq<string> {
    ["testsuite"] + TestsElements(s.tests) + ["/testsuite"]
  }

  /** A suite's element is one `testsuite` element holding its tests'
   *  elements in order. */
  lemma SuiteXmlElements(s: SuiteResult)
    ensures Names(SuiteXml(s)) == SuiteElements(s) && Closed(SuiteXml(s))
  {
    SuiteOpenElements(s);
    TestsFromElements(SuiteOpen(s), s.tests);
    TagNames("  ", "/testsuite", ">\n");
    Join(TestsFrom(SuiteOpen(s), s.tests), Tag("  ", "/testsuite", ">\n"));
  }

  /** One `testsuite` element per suite, one `testcase` element per test. */
  lemma SuiteElementsCount(s: SuiteResult)
    ensures Count(SuiteElements(s), "testsuite") == 1
    ensures Count(SuiteElements(s), "testcase") == |s.tests|
  {
    var open, inner, close := ["testsuite"], TestsElements(s.tests), ["/testsuite"];
    TestsElementsCount(s.tests);
    CountAppend(open, inner, "testsuite");
    CountAppend(open, inner, "testcase");
    CountAppend(open + inner, close, "testsuite");
    CountAppend(open + inner, close, "testcase");
    CountOne("testsuite");
    CountAbsent(open, "testcase");
    CountAbsent(close, "testcase");
    CountAbsent(close, "testsuite");
  }

  function SuitesElements(suites: seq<SuiteResult>): seq<string> {
    if |suites| == 0 then [] else SuitesElements(suites[..|suites| - 1]) + SuiteElements(suites[|suites| - 1])
  }

  lemma {:induction false} SuitesFromElements(acc: string, suites: seq<SuiteResult>)
    requires Closed(acc)
    ensures Names(SuitesFrom(acc, suites)) == Names(acc) + SuitesElements(suites)
    ensures Closed(SuitesFrom(acc, suites))
    decreases |suites|
  {
    if |suites| > 0 {
      var init, last := suites[..|suites| - 1], suites[|suites| - 1];
      SuitesFromElements(acc, init);
      SuiteXmlElements(last);
      Snoc(SuitesFrom(acc, init), SuiteXml(last), Names(acc), SuitesElements(init), SuiteElements(last));
    }
  }

  lemma {:induction false} SuitesElementsCount(suites: seq<SuiteResult>)
    ensures Count(SuitesElements(suites), "testsuite") == |suites|
    ensures Count(SuitesElements(suites), "testcase") == SumTests(suites)
    decreases |suites|
  {
    if |suites| > 0 {
      var init, last := suites[..|suites| - 1], suites[|suites| - 1];
      SuitesElementsCount(init);
      SuiteElementsCount(last);
      CountAppend(SuitesElements(init), SuiteElements(last), "testsuite");
      CountAppend(SuitesElements(init), SuiteElements(last), "testcase");
    }
  }

  lemma RootOpen(decl: string, rest: string)
    requires Names(decl) == ["?xml"] && Closed(decl)
    requires '<' !in rest && |rest| > 0 && Delim(rest[0])
    ensures Names(decl + Tag("", "testsuites", rest)) == ["?xml", "testsuites"]
    ensures Closed(decl + Tag("", "testsuites", rest))
  {
    TagNames("", "testsuites", rest);
    Join(decl, Tag("", "testsuites", rest));
  }

  lemma DeclarationNames()
    ensures Names(Declaration) == ["?xml"] && Closed(Declaration)
  {
    TagNames("", "?xml", " version=\"1.0\" encoding=\"UTF-8\"?>\n");
  }

  lemma RootAttrsText(r: Report)
    requires '<' !in r.runner && '<' !in r.timestamp
    ensures '<' !in RootAttrs(r) && |RootAttrs(r)| > 0 && RootAttrs(r)[0] == ' '
  {
    NoTagInNumber(r.summary.totalTests);
    NoTagInNumber(r.summary.failed);
    NoTagInNumber(r.summary.skipped);
    NoTagInSeconds(r.duration);
    AttrText("name", r.runner);
    AttrText("tests", NatToString(r.summary.totalTests));
    AttrText("failures", NatToString(r.summary.failed));
    AttrText("skipped", NatToString(r.summary.skipped));
    AttrText("time", Seconds(r.duration));
    AttrText("timestamp", r.timestamp);
  }

  lemma RunOpenElements(r: Report)
    requires '<' !in r.runner && '<' !in r.timestamp
    ensures Names(RunOpen(r)) == ["?xml", "testsuites"] && Closed(RunOpen(r))
  {
    RootAttrsText(r);
    DeclarationNames();
    RootOpen(Declaration, RootAttrs(r) + ">\n");
  }

  /** The tag names of the whole document. */
  function RunElements(r: Report): seq<string> {
    ["?xml", "testsuites"] + SuitesElements(r.suites) + ["/testsuites"]
  }

  /** The document is the XML declaration and one `testsuites` element
   *  holding the suites' elements in order. The runner name and the
   *  timestamp are not escaped, so this holds when they hold no `<`. */
  lemma RunXmlElements(r: Report)
    requires '<' !in r.runner && '<' !in r.timestamp
    ensures Names(RunXml(r)) == RunElements(r)
  {
    RunOpenElements(r);
    Document(RunOpen(r), r.suites);
  }

  lemma Document(open: string, suites: seq<SuiteResult>)
    requires Closed(open)
    ensures Names(SuitesFrom(open, suites) + Tag("", "/testsuites", ">\n"))
         == Names(open) + SuitesElements(suites) + ["/testsuites"]
  {
    SuitesFromElements(open, suites);
    TagNames("", "/testsuites", ">\n");
    Join(SuitesFrom(open, suites), Tag("", "/testsuites", ">\n"));
  }

  /** The document holds one `testsuites` element, one `testsuite` element
   *  per suite and one `testcase` element per test. When the summary is the
   *  one computed from the suites, the root's `tests` attribute equals the
   *  number of `testcase` elements. */
  lemma RunElementsCount(r: Report)
    ensures Count(RunElements(r), "testsuites") == 1
    ensures Count(RunElements(r), "testsuite") == |r.suites|
    ensures Count(RunElements(r), "testcase") == SumTests(r.suites)
    ensures r.summary == CalculateSummary(r.suites) ==> Count(RunElements(r), "testcase") == r.summary.totalTests
  {
    var open, inner, close := ["?xml", "testsuites"], SuitesElements(r.suites), ["/testsuites"];
    SuitesElementsCount(r.suites);
    SuitesNoRoot(r.suites);
    CountAppend(open, inner, "testsuites");
    CountAppend(open, inner, "testsuite");
    CountAppend(open, inner, "testcase");
    CountAppend(open + inner, close, "testsuites");
    CountAppend(open + inner, close, "testsuite");
    CountAppend(open + inner, close, "testcase");
    CountAbsent(open, "testsuite");
    CountAbsent(open, "testcase");
    CountAbsent(close, "testsuite");
    CountAbsent(close, "testcase");
    CountAbsent(close, "testsuites");
    CountAbsent(inner, "testsuites");
    assert open == ["?xml"] + ["testsuites"];
    CountAppend(["?xml"], ["testsuites"], "testsuites");
    CountAbsent(["?xml"], "testsuites");
    CountOne("testsuites");
  }

  lemma {:induction false} SuitesNoRoot(suites: seq<SuiteResult>)
    ensures "testsuites" !in SuitesElements(suites)
    decreases |suites|
  {
    if |suites| > 0 {
      SuitesNoRoot(suites[..|suites| - 1]);
      TestsNoRoot(suites[|suites| - 1].tests);
    }
  }

  lemma {:induction false} TestsNoRoot(tests: seq<TestResult>)
    ensures "testsuites" !in TestsElements(tests)
    decreases |tests|
  {
    if |tests| > 0 {
      TestsNoRoot(tests[..|tests| - 1]);
    }
  }
}
