/** The single-page runner (`libero-universal.ts`): the wait strategy chosen
 *  for the detected front-end technology, the scenarios generated from the
 *  labels visible on the page and run up to a cap, the report's fixed-width
 *  columns, and the normalisation of the URL and chaos-mode answers. */
module LiberoUniversal {
  import opened Wrappers
  import opened Text
  import opened Seqs

  // ---------------------------------------------------------------------
  // Technology and waiting

  datatype Tech = React | Angular | JQuery | Vanilla
  datatype WaitStrategy = NetworkIdle | DomContentLoaded | Load

  /** `detectTechnology`: the page script's verdict, `None` when it threw
   *  (read as vanilla), and the wait strategy chosen for it. */
  function DetectTechnology(evaluated: Option<Tech>): (r: (Tech, WaitStrategy))
    ensures evaluated.None? ==> r.0 == Vanilla
    ensures evaluated.Some? ==> r.0 == evaluated.value
    ensures r.1 == NetworkIdle <==> r.0 == React
    ensures r.1 == Load <==> r.0 == JQuery
    ensures r.1 == DomContentLoaded <==> (r.0 == Angular || r.0 == Vanilla)
  {
    var tech := if evaluated.Some? then evaluated.value else Vanilla;
    (tech, StrategyFor(tech))
  }

  function StrategyFor(tech: Tech): WaitStrategy {
    if tech == React then NetworkIdle
    else if tech == Angular then DomContentLoaded
    else if tech == JQuery then Load
    else DomContentLoaded
  }

  // ---------------------------------------------------------------------
  // Scenarios generated from the page

  /** The labels `getPageContext` reads off the page. */
  datatype PageContext = PageContext(
    buttonLabels: seq<string>,
    linkLabels: seq<string>,
    linkHrefs: seq<string>,
    inputPlaceholders: seq<string>,
    headingTexts: seq<string>)

  datatype ScenarioType = ClickButton | ClickLink | FillInput | HeadingVisible

  datatype Scenario = Scenario(name: string, stype: ScenarioType, target: string)

  /** `Math.min(n, cap)` elements from the front: `s.slice(0, cap)`. */
  function Prefix(s: seq<string>, cap: nat): (r: seq<string>)
    ensures |r| <= cap && |r| <= |s|
    ensures forall i :: 0 <= i < |r| ==> r[i] == s[i]
  {
    if |s| <= cap then s else s[..cap]
  }

  predicate NonEmpty(s: string) {
    s != ""
  }

  /** The de-duplication key of a button: its text, or "(etiket yok)"
   *  ("no text") when the text is empty. */
  function ButtonKey(text: string): string {
    if text == "" then "(etiket yok)" else text
  }

  /** The key is never empty, so the source's `key || 'Buton'` is the key;
   *  an unlabelled button is targeted as "button". */
  function ButtonScenario(text: string): Scenario {
    Scenario("\"" + ButtonKey(text) + "\" butonuna tıkla", ClickButton, if text == "" then "button" else text)
  }

  /** The text of the `i`-th link: its text, else its href, else "Link i+1";
   *  an href missing from a shorter list counts as empty. */
  function LinkLabel(ctx: PageContext, i: nat): string
    requires i < |ctx.linkLabels|
  {
    if ctx.linkLabels[i] != "" then ctx.linkLabels[i]
    else if i < |ctx.linkHrefs| && ctx.linkHrefs[i] != "" then ctx.linkHrefs[i]
    else "Link " + NatToString(i + 1)
  }

  /** The labels of the first five links. */
  function LinkLabels(ctx: PageContext): (r: seq<string>)
    ensures |r| <= 5 && |r| <= |ctx.linkLabels|
  {
    var n := if |ctx.linkLabels| < 5 then |ctx.linkLabels| else 5;
    seq(n, i requires 0 <= i < n => LinkLabel(ctx, i))
  }

  function LinkScenario(text: string): Scenario {
    Scenario("\"" + text + "\" linkine tıkla", ClickLink, text)
  }

  function FillScenario(placeholder: string): Scenario {
    Scenario("\"" + placeholder + "\" alanına yaz ve formu gönder", FillInput, placeholder)
  }

  function HeadingScenario(heading: string): Scenario {
    Scenario("\"" + heading + "\" başlığı görünür olmalı", HeadingVisible, heading)
  }

  function ButtonScenarios(ctx: PageContext): seq<Scenario> {
    Map(DedupBy(ctx.buttonLabels, ButtonKey), ButtonScenario)
  }

  function LinkScenarios(ctx: PageContext): seq<Scenario> {
    Map(Dedup(LinkLabels(ctx)), LinkScenario)
  }

  function FillScenarios(ctx: PageContext): seq<Scenario> {
    Map(Filter(Prefix(ctx.inputPlaceholders, 3), NonEmpty), FillScenario)
  }

  function HeadingScenarios(ctx: PageContext): seq<Scenario> {
    Map(Filter(Prefix(ctx.headingTexts, 2), NonEmpty), HeadingScenario)
  }

  /** What `generateScenariosFromContext` produces: buttons, links, inputs,
   *  headings, in that order. */
  function Scenarios(ctx: PageContext): seq<Scenario> {
    ButtonScenarios(ctx) + LinkScenarios(ctx) + FillScenarios(ctx) + HeadingScenarios(ctx)
  }

  lemma MapSnoc<T, U>(s: seq<T>, x: T, f: T -> U)
    ensures Map(s + [x], f) == Map(s, f) + [f(x)]
  {
    var l, r := Map(s + [x], f), Map(s, f) + [f(x)];
    assert |l| == |r|;
    forall i | 0 <= i < |l| ensures l[i] == r[i] {
      if i < |s| {
        assert (s + [x])[i] == s[i];
      }
    }
  }

  lemma DedupSnoc(s: seq<string>, x: string)
    ensures Dedup(s + [x]) == if x in s then Dedup(s) else Dedup(s) + [x]
  {
    assert (s + [x])[..|s|] == s;
  }

  lemma PrefixSnoc(s: seq<string>, i: nat)
    requires i < |s|
    ensures s[..i + 1] == s[..i] + [s[i]]
  {
  }

  /** The buttons loop: one scenario per new key. */
  method ButtonLoop(labels: seq<string>) returns (scenarios: seq<Scenario>)
    ensures scenarios == Map(DedupBy(labels, ButtonKey), ButtonScenario)
  {
    scenarios := [];
    var seenButtons: set<string> := {};
    for i := 0 to |labels|
      invariant seenButtons == KeySet(labels[..i], ButtonKey)
      invariant scenarios == Map(DedupBy(labels[..i], ButtonKey), ButtonScenario)
    {
      var text := labels[i];
      var key := ButtonKey(text);
      PrefixSnoc(labels, i);
      DedupBySnoc(labels[..i], text, ButtonKey);
      KeySetSnoc(labels[..i], text, ButtonKey);
      if key !in seenButtons {
        seenButtons := seenButtons + {key};
        MapSnoc(DedupBy(labels[..i], ButtonKey), text, ButtonScenario);
        scenarios := scenarios + [ButtonScenario(text)];
      }
    }
    assert labels[..|labels|] == labels;
  }

  /** The links loop over the first five links: one scenario per new text. */
  method LinkLoop(ctx: PageContext) returns (scenarios: seq<Scenario>)
    ensures scenarios == Map(Dedup(LinkLabels(ctx)), LinkScenario)
  {
    scenarios := [];
    var seenLinks: set<string> := {};
    var n := if |ctx.linkLabels| < 5 then |ctx.linkLabels| else 5;
    ghost var labels := LinkLabels(ctx);
    for i := 0 to n
      invariant forall x :: x in seenLinks <==> x in labels[..i]
      invariant scenarios == Map(Dedup(labels[..i]), LinkScenario)
    {
      var text := if ctx.linkLabels[i] != "" then ctx.linkLabels[i]
        else if i < |ctx.linkHrefs| && ctx.linkHrefs[i] != "" then ctx.linkHrefs[i]
        else "Link " + NatToString(i + 1);
      assert text == labels[i];
      PrefixSnoc(labels, i);
      DedupSnoc(labels[..i], text);
      if text !in seenLinks {
        seenLinks := seenLinks + {text};
        MapSnoc(Dedup(labels[..i]), text, LinkScenario);
        scenarios := scenarios + [LinkScenario(text)];
      }
    }
    assert labels[..n] == labels;
  }

  /** The loop over the first `cap` entries that skips empty ones. */
  method NonEmptyLoop(entries: seq<string>, cap: nat, make: string -> Scenario) returns (scenarios: seq<Scenario>)
    ensures scenarios == Map(Filter(Prefix(entries, cap), NonEmpty), make)
  {
    scenarios := [];
    var first := Prefix(entries, cap);
    for i := 0 to |first|
      invariant scenarios == Map(Filter(first[..i], NonEmpty), make)
    {
      PrefixSnoc(first, i);
      FilterAppend(first[..i], [first[i]], NonEmpty);
      assert Filter([first[i]], NonEmpty) == if first[i] != "" then [first[i]] else [];
      if first[i] != "" {
        MapSnoc(Filter(first[..i], NonEmpty), first[i], make);
        scenarios := scenarios + [make(first[i])];
      } else {
        assert Filter(first[..i + 1], NonEmpty) == Filter(first[..i], NonEmpty);
      }
    }
    assert first[..|first|] == first;
  }

  /** `generateScenariosFromContext`. */
  method GenerateScenariosFromContext(ctx: PageContext) returns (scenarios: seq<Scenario>)
    ensures scenarios == Scenarios(ctx)
  {
    var buttons := ButtonLoop(ctx.buttonLabels);
    var links := LinkLoop(ctx);
    var inputs := NonEmptyLoop(ctx.inputPlaceholders, 3, FillScenario);
    var headings := NonEmptyLoop(ctx.headingTexts, 2, HeadingScenario);
    scenarios := buttons + links + inputs + headings;
  }

  /** One button scenario per distinct key, for the first button with that
   *  key, in the order the keys first appear; every button's key is
   *  covered. */
  lemma ButtonScenariosSpec(ctx: PageContext)
    ensures var kept := DedupBy(ctx.buttonLabels, ButtonKey);
      && ButtonScenarios(ctx) == Map(kept, ButtonScenario)
      && KeysDistinct(kept, ButtonKey)
      && KeySet(kept, ButtonKey) == KeySet(ctx.buttonLabels, ButtonKey)
      && FirstPerKey(kept, ctx.buttonLabels, ButtonKey)
      && InFirstKeyOrder(kept, ctx.buttonLabels, ButtonKey)
    ensures forall i :: 0 <= i < |ButtonScenarios(ctx)| ==>
      ButtonScenarios(ctx)[i].stype == ClickButton && ButtonScenarios(ctx)[i].target != ""
  {
    var kept := DedupBy(ctx.buttonLabels, ButtonKey);
    DedupByDistinct(ctx.buttonLabels, ButtonKey);
    DedupByKeys(ctx.buttonLabels, ButtonKey);
    DedupByFirst(ctx.buttonLabels, ButtonKey);
    DedupByOrder(ctx.buttonLabels, ButtonKey);
  }

  /** At most five link scenarios, with distinct labels, in the order the
   *  labels first appear among the first five links, none lost. */
  lemma LinkScenariosSpec(ctx: PageContext)
    ensures |LinkScenarios(ctx)| <= 5
    ensures Distinct(Dedup(LinkLabels(ctx)))
    ensures InFirstOccurrenceOrder(Dedup(LinkLabels(ctx)), LinkLabels(ctx))
    ensures forall x :: x in LinkLabels(ctx) ==> x in Dedup(LinkLabels(ctx))
    ensures forall i :: 0 <= i < |LinkScenarios(ctx)| ==>
      LinkScenarios(ctx)[i].stype == ClickLink && LinkScenarios(ctx)[i].target != ""
  {
    var labels := LinkLabels(ctx);
    DedupOrder(labels);
    DedupMembers(labels);
    DedupLength(labels);
    var d := Dedup(labels);
    forall i | 0 <= i < |d| ensures d[i] != "" {
      assert d[i] in labels;
      var j :| 0 <= j < |labels| && labels[j] == d[i];
    }
  }

  lemma {:induction false} DedupLength(s: seq<string>)
    ensures |Dedup(s)| <= |s|
    decreases |s|
  {
    if |s| > 0 {
      DedupLength(s[..|s| - 1]);
    }
  }

  /** At most three fill scenarios and two heading scenarios, each for a
   *  non-empty entry among the first three placeholders or first two
   *  headings. */
  lemma FillAndHeadingSpec(ctx: PageContext)
    ensures |FillScenarios(ctx)| <= 3 && |HeadingScenarios(ctx)| <= 2
    ensures forall i :: 0 <= i < |FillScenarios(ctx)| ==>
      FillScenarios(ctx)[i].stype == FillInput && FillScenarios(ctx)[i].target != ""
      && FillScenarios(ctx)[i].target in Prefix(ctx.inputPlaceholders, 3)
    ensures forall i :: 0 <= i < |HeadingScenarios(ctx)| ==>
      HeadingScenarios(ctx)[i].stype == HeadingVisible && HeadingScenarios(ctx)[i].target != ""
      && HeadingScenarios(ctx)[i].target in Prefix(ctx.headingTexts, 2)
  {
    var f := Filter(Prefix(ctx.inputPlaceholders, 3), NonEmpty);
    var h := Filter(Prefix(ctx.headingTexts, 2), NonEmpty);
    forall i | 0 <= i < |f| ensures f[i] != "" && f[i] in Prefix(ctx.inputPlaceholders, 3) {
      assert f[i] in f;
    }
    forall i | 0 <= i < |h| ensures h[i] != "" && h[i] in Prefix(ctx.headingTexts, 2) {
      assert h[i] in h;
    }
  }

  /** The types come in the order buttons, links, inputs, headings. */
  lemma ScenarioOrder(ctx: PageContext)
    ensures var s := Scenarios(ctx);
      var b, l, f := |ButtonScenarios(ctx)|, |LinkScenarios(ctx)|, |FillScenarios(ctx)|;
      && |s| == b + l + f + |HeadingScenarios(ctx)|
      && (forall i :: 0 <= i < b ==> s[i].stype == ClickButton)
      && (forall i :: b <= i < b + l ==> s[i].stype == ClickLink)
      && (forall i :: b + l <= i < b + l + f ==> s[i].stype == FillInput)
      && (forall i :: b + l + f <= i < |s| ==> s[i].stype == HeadingVisible)
  {
    ButtonScenariosSpec(ctx);
    LinkScenariosSpec(ctx);
    FillAndHeadingSpec(ctx);
    var bs, ls, fs, hs := ButtonScenarios(ctx), LinkScenarios(ctx), FillScenarios(ctx), HeadingScenarios(ctx);
    var s := Scenarios(ctx);
    forall i | 0 <= i < |s| ensures
      (i < |bs| ==> s[i].stype == ClickButton)
      && (|bs| <= i < |bs| + |ls| ==> s[i].stype == ClickLink)
      && (|bs| + |ls| <= i < |bs| + |ls| + |fs| ==> s[i].stype == FillInput)
      && (|bs| + |ls| + |fs| <= i ==> s[i].stype == HeadingVisible)
    {
      if i < |bs| {
        assert s[i] == bs[i];
      } else if i < |bs| + |ls| {
        assert s[i] == ls[i - |bs|];
      } else if i < |bs| + |ls| + |fs| {
        assert s[i] == fs[i - |bs| - |ls|];
      } else {
        assert s[i] == hs[i - |bs| - |ls| - |fs|];
      }
    }
  }

  // ---------------------------------------------------------------------
  // Running the generated scenarios

  /** How a scenario finds its element on the page. */
  datatype Locator =
    | ButtonNamed(name: string)
    | FirstButton
    | FirstLinkNamed(name: string)
    | FirstByPlaceholder(placeholder: string)
    | FirstHeadingNamed(name: string)

  /** What is done once the element is visible. */
  datatype Action = Click | Fill(value: string) | OnlyVisible

  /** The locator `runGeneratedScenarios` builds: a button scenario whose
   *  target is empty or "button" clicks the first button. */
  function LocatorOf(s: Scenario): Locator {
    match s.stype
    case ClickButton => if s.target != "" && s.target != "button" then ButtonNamed(s.target) else FirstButton
    case ClickLink => FirstLinkNamed(s.target)
    case FillInput => FirstByPlaceholder(s.target)
    case HeadingVisible => FirstHeadingNamed(s.target)
  }

  function ActionOf(s: Scenario): Action {
    match s.stype
    case ClickButton => Click
    case ClickLink => Click
    case FillInput => Fill("test@test.com")
    case HeadingVisible => OnlyVisible
  }

  /** An unlabelled button's scenario clicks the first button on the page;
   *  a labelled one looks the button up by its text, except for a text
   *  that is literally "button". */
  lemma UnlabelledButtonClicksFirst(text: string)
    ensures text == "" || text == "button" ==> LocatorOf(ButtonScenario(text)) == FirstButton
    ensures text != "" && text != "button" ==> LocatorOf(ButtonScenario(text)) == ButtonNamed(text)
  {
  }

  /** One row of the results; the duration (a clock reading) is left out. */
  datatype TestResult = TestResult(name: string, passed: bool, error: Option<string>, aiGenerated: bool)

  /** The result of a scenario given what waiting for its element and
   *  acting on it threw (`None` when nothing did). */
  function ResultOf(s: Scenario, thrown: Option<string>): TestResult {
    match thrown
    case None => TestResult("[AI] " + s.name, true, None, true)
    case Some(e) => TestResult("[AI] " + s.name, false, Some(Take(e, 80)), true)
  }

  /** The results of running `scenarios.slice(0, 15)` one after the other;
   *  `page(i, l, a)` is what the page threw when the `i`-th scenario waited
   *  for the element `l` and then did `a` on it. */
  function RunResults(scenarios: seq<Scenario>, page: (nat, Locator, Action) -> Option<string>): seq<TestResult> {
    var n := if |scenarios| < 15 then |scenarios| else 15;
    seq(n, i requires 0 <= i < n => ResultOf(scenarios[i], page(i, LocatorOf(scenarios[i]), ActionOf(scenarios[i]))))
  }

  /** `runGeneratedScenarios`. */
  method RunGeneratedScenarios(scenarios: seq<Scenario>, page: (nat, Locator, Action) -> Option<string>)
    returns (results: seq<TestResult>)
    ensures results == RunResults(scenarios, page)
  {
    results := [];
    var n := if |scenarios| < 15 then |scenarios| else 15;
    for i := 0 to n
      invariant |results| == i
      invariant forall j :: 0 <= j < i ==>
        results[j] == ResultOf(scenarios[j], page(j, LocatorOf(scenarios[j]), ActionOf(scenarios[j])))
    {
      var scenario := scenarios[i];
      var locator := LocatorOf(scenario);
      var thrown := page(i, locator, ActionOf(scenario));
      if thrown.None? {
        results := results + [TestResult("[AI] " + scenario.name, true, None, true)];
      } else {
        results := results + [TestResult("[AI] " + scenario.name, false, Some(Take(thrown.value, 80)), true)];
      }
    }
  }

  /** At most 15 scenarios are run, in order, one result each; a result
   *  passes exactly when nothing was thrown, and its error is at most 80
   *  characters from the front of what was. */
  lemma RunResultsSpec(scenarios: seq<Scenario>, page: (nat, Locator, Action) -> Option<string>)
    ensures var r := RunResults(scenarios, page);
      && |r| <= 15 && |r| <= |scenarios|
      && (|scenarios| <= 15 ==> |r| == |scenarios|)
      && forall i :: 0 <= i < |r| ==>
           var thrown := page(i, LocatorOf(scenarios[i]), ActionOf(scenarios[i]));
           && r[i].name == "[AI] " + scenarios[i].name && r[i].aiGenerated
           && (r[i].passed <==> thrown.None?)
           && (r[i].error.Some? <==> !r[i].passed)
           && (r[i].error.Some? ==> |r[i].error.value| <= 80 && StartsWith(thrown.value, r[i].error.value))
  {
  }

  /** The closing line's counts: passed tests, base tests, generated tests
   *  and generated tests that passed. */
  datatype Tally = Tally(passed: nat, base: nat, ai: nat, aiPassed: nat)

  function TallyOf(tests: seq<TestResult>): (t: Tally)
    ensures t.base + t.ai == |tests|
    ensures t.passed <= |tests| && t.aiPassed <= t.ai && t.aiPassed <= t.passed
    decreases |tests|
  {
    if |tests| == 0 then Tally(0, 0, 0, 0)
    else
      var init := TallyOf(tests[..|tests| - 1]);
      var last := tests[|tests| - 1];
      Tally(init.passed + (if last.passed then 1 else 0),
            init.base + (if last.aiGenerated then 0 else 1),
            init.ai + (if last.aiGenerated then 1 else 0),
            init.aiPassed + (if last.aiGenerated && last.passed then 1 else 0))
  }

  /** Every generated result is counted as generated: the tally of a run of
   *  generated scenarios has no base tests. */
  lemma {:induction false} TallyGenerated(scenarios: seq<Scenario>, page: (nat, Locator, Action) -> Option<string>)
    ensures var r := RunResults(scenarios, page);
      TallyOf(r).base == 0 && TallyOf(r).ai == |r| && TallyOf(r).aiPassed == TallyOf(r).passed
  {
    var r := RunResults(scenarios, page);
    forall i | 0 <= i < |r| ensures r[i].aiGenerated {
      var s := scenarios[i];
      assert r[i] == ResultOf(s, page(i, LocatorOf(s), ActionOf(s)));
    }
    AllGenerated(r);
  }

  lemma {:induction false} AllGenerated(r: seq<TestResult>)
    requires forall i :: 0 <= i < |r| ==> r[i].aiGenerated
    ensures TallyOf(r).base == 0 && TallyOf(r).aiPassed == TallyOf(r).passed
    decreases |r|
  {
    if |r| > 0 {
      AllGenerated(r[..|r| - 1]);
    }
  }

  // ---------------------------------------------------------------------
  // Report columns

  /** `w(s, n)`: `s.padEnd(n).slice(0, n)`, a cell exactly `n` wide. */
  function W(s: string, n: nat): (r: string)
    ensures |r| == n
    ensures |s| >= n ==> r == s[..n]
    ensures |s| < n ==> r[..|s|] == s && forall i :: |s| <= i < n ==> r[i] == ' '
  {
    Take(PadEnd(s, n), n)
  }

  /** A test name cut to fit the 42-wide column: longer names keep their
   *  first 39 characters and end in "...". */
  function FitName(name: string): (r: string)
    ensures |r| <= 42
    ensures |name| <= 42 ==> r == name
    ensures |name| > 42 ==> |r| == 42 && r[..39] == name[..39] && r[39..] == "..."
  {
    if |name| > 42 then name[..39] + "..." else name
  }

  // ---------------------------------------------------------------------
  // Answers

  const DefaultUrl: string := "http://localhost:3000"

  /** `if (!url.startsWith('http')) url = 'http://' + url`. */
  function WithScheme(url: string): (r: string)
    ensures StartsWith(r, "http")
    ensures StartsWith(url, "http") ==> r == url
    ensures !StartsWith(url, "http") ==> r == "http://" + url
  {
    if StartsWith(url, "http") then url else "http://" + url
  }

  /** Adding the scheme twice is adding it once. */
  lemma WithSchemeIdempotent(url: string)
    ensures WithScheme(WithScheme(url)) == WithScheme(url)
  {
  }

  /** The text the chaos test reads: the trimmed answer, "H" when empty. */
  function ChaosText(raw: string): string {
    Trim(if raw == "" then "H" else raw)
  }

  /** The chaos answer as the source tests it, `/^e|y|t|1$/i`: the
   *  alternation binds looser than the anchors, so the answer counts as
   *  yes when it starts with e, contains y or t anywhere, or ends with 1. */
  predicate ChaosAsWritten(raw: string) {
    var s := ToLower(ChaosText(raw));
    (|s| > 0 && s[0] == 'e') || 'y' in s || 't' in s || (|s| > 0 && s[|s| - 1] == '1')
  }

  /** The chaos answer as the prompt "(E/H)" intends it: yes when the
   *  answer starts with e (evet), y (yes), t (true) or 1. */
  predicate ChaosOn(raw: string) {
    var s := ToLower(ChaosText(raw));
    |s| > 0 && (s[0] == 'e' || s[0] == 'y' || s[0] == 't' || s[0] == '1')
  }

  lemma TrimPlain(s: string)
    requires |s| > 0 && !IsSpace(s[0]) && !IsSpace(s[|s| - 1])
    ensures Trim(s) == s
  {
  }

  /** "Hayır" (no), the answer the prompt's "H" stands for, switches chaos
   *  mode on as the source is written, because it contains a `y`. */
  lemma HayirTurnsChaosOn()
    ensures ChaosAsWritten("Hayır")
    ensures !ChaosOn("Hayır")
  {
    TrimPlain("Hayır");
    assert ToLower("Hayır")[2] == 'y';
  }

  /** The intended reading: the default and every answer starting with h
   *  or n is no; every answer starting with e, y, t or 1 is yes. */
  lemma ChaosOnSpec(raw: string)
    ensures !ChaosOn("")
    ensures var s := ChaosText(raw);
      |s| > 0 && LowerChar(s[0]) in {'h', 'n'} ==> !ChaosOn(raw)
    ensures var s := ChaosText(raw);
      |s| > 0 && LowerChar(s[0]) in {'e', 'y', 't', '1'} ==> ChaosOn(raw)
  {
    TrimPlain("H");
  }

  /** The URL to open and whether chaos mode is on, as `main` decides
   *  them. `GENESIS_URL` and `GENESIS_CHAOS` are used when `GENESIS_URL` is
   *  set and non-empty; otherwise the two answers typed at the prompts are.
   *  Chaos mode follows the test as written, `ChaosAsWritten`. */
  function Settings(envUrl: Option<string>, envChaos: Option<string>, urlAnswer: string, chaosAnswer: string): (r: (string, bool))
    ensures StartsWith(r.0, "http")
    ensures Truthy(envUrl) ==> r.0 == WithScheme(envUrl.value) && (r.1 <==> ChaosAsWritten(OrElse(envChaos, "")))
    ensures !Truthy(envUrl) && Trim(urlAnswer) == "" ==> r.0 == DefaultUrl
    ensures !Truthy(envUrl) ==> (r.1 <==> ChaosAsWritten(Trim(chaosAnswer)))
    ensures !Truthy(envUrl) && Trim(chaosAnswer) == "" ==> !r.1
  {
    if Truthy(envUrl) then
      (WithScheme(envUrl.value), ChaosAsWritten(OrElse(envChaos, "")))
    else
      var url := Trim(urlAnswer);
      DefaultIsNo();
      (WithScheme(if url == "" then DefaultUrl else url), ChaosAsWritten(Trim(chaosAnswer)))
  }

  /** An empty answer stands for "H", which both readings take as no. */
  lemma DefaultIsNo()
    ensures !ChaosAsWritten("") && !ChaosOn("")
  {
    TrimPlain("H");
  }

  /** Typing "Hayır" (no) at the chaos prompt switches chaos mode on in
   *  `main`, where the intended reading would leave it off. */
  lemma SettingsTakesHayirAsYes(urlAnswer: string)
    ensures Settings(None, None, urlAnswer, "Hayır").1
    ensures !ChaosOn("Hayır")
  {
    HayirTurnsChaosOn();
    TrimPlain("Hayır");
  }
}
