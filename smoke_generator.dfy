/** Smoke tests: per route node, a page-load test; per route node with a
 *  button, a primary-action test; per route node with a form, a
 *  form-visible test. */
module SmokeGenerator {
  import opened Wrappers
  import opened Text
  import opened Seqs
  import opened Ids
  import opened GraphModel
  import opened PlanModel

  predicate IsHeading(e: ElementDescriptor) {
    e.role == "heading"
  }

  predicate IsButton(e: ElementDescriptor) {
    e.etype == "button"
  }

  predicate IsButtonOrLink(e: ElementDescriptor) {
    e.etype == "button" || e.etype == "link"
  }

  predicate HasButton(n: AppNode) {
    IsRoute(n) && exists e :: e in n.elements && IsButton(e)
  }

  predicate HasForm(n: AppNode) {
    IsRoute(n) && |n.forms| > 0
  }

  function NavigateStep(node: AppNode, baseUrl: string): TestStep {
    MkStep(GeneratedId("step"), Navigate, Some(ByText(PageUrl(node, baseUrl))), None)
  }

  /** Navigate, wait for the network to settle, see the first heading (if
   *  any) and a URL containing the route. */
  function VisibilityTest(node: AppNode, baseUrl: string): TestCase {
    var wait := TestStep(GeneratedId("step"), Wait, None, None, Some(StepOptions(Some(2000), Some(UntilNetworkIdle))));
    var heading := Find(node.elements, IsHeading);
    var headingCheck := if heading.Some? then [Assertion(IsVisible, ByElement(heading.value), None, None)] else [];
    var route := OrElse(node.route, "/");
    TestCase(GeneratedId("test"), "[Smoke] " + node.name + " - Page loads and heading visible",
      [NavigateStep(node, baseUrl), wait],
      headingCheck + [Assertion(HasUrl, ByText(route), Some(route), Some(OpContains))],
      ["smoke", "navigation", OrElse(node.route, "root")], Critical, Some(3000))
  }

  /** Navigate, click the chosen button, see it. */
  function PrimaryButtonTest(node: AppNode, baseUrl: string, button: ElementDescriptor): TestCase {
    var click := TestStep(GeneratedId("step"), Click, Some(ByElement(button)), None, Some(StepOptions(Some(3000), None)));
    TestCase(GeneratedId("test"), "[Smoke] " + node.name + " - Primary action clickable",
      [NavigateStep(node, baseUrl), click],
      [Assertion(IsVisible, ByElement(button), None, None)],
      ["smoke", "interaction", OrElse(node.route, "root")], High, Some(4000))
  }

  /** Navigate, a target-less check step, see the first form. */
  function FormVisibilityTest(node: AppNode, baseUrl: string): TestCase
    requires |node.forms| > 0
  {
    var formSelector := if node.forms[0].selector.primary != "" then node.forms[0].selector.primary else "form";
    TestCase(GeneratedId("test"), "[Smoke] " + node.name + " - Form visible",
      [NavigateStep(node, baseUrl), MkStep(GeneratedId("step"), Check, None, None)],
      [Assertion(IsVisible, ByText(formSelector), None, None)],
      ["smoke", "form", OrElse(node.route, "root")], High, Some(3000))
  }

  const Keywords: seq<string> := ["submit", "save", "continue", "login", "sign", "next", "confirm"]

  /** The button's text or name contains the keyword, ignoring case. */
  predicate MatchesKeyword(b: ElementDescriptor, keyword: string) {
    (b.text.Some? && Contains(ToLower(b.text.value), keyword))
    || (b.name.Some? && Contains(ToLower(b.name.value), keyword))
  }

  /** The first button matching the earliest keyword that any button
   *  matches; otherwise the first button. */
  function PrimaryButtonAmong(buttons: seq<ElementDescriptor>, keywords: seq<string>): Option<ElementDescriptor>
    decreases |keywords|
  {
    if |keywords| == 0 then
      if |buttons| > 0 then Some(buttons[0]) else None
    else
      match Find(buttons, b => MatchesKeyword(b, keywords[0]))
      case Some(b) => Some(b)
      case None => PrimaryButtonAmong(buttons, keywords[1..])
  }

  function PrimaryButton(node: AppNode): Option<ElementDescriptor> {
    PrimaryButtonAmong(Filter(node.elements, IsButton), Keywords)
  }

  /** The keyword loop with early return. */
  method FindPrimaryButton(node: AppNode) returns (match_: Option<ElementDescriptor>)
    ensures match_ == PrimaryButton(node)
  {
    var buttons := Filter(node.elements, IsButton);
    var k := 0;
    while k < |Keywords|
      invariant 0 <= k <= |Keywords|
      invariant PrimaryButtonAmong(buttons, Keywords[k..]) == PrimaryButton(node)
    {
      var keyword := Keywords[k];
      var found := Find(buttons, b => MatchesKeyword(b, keyword));
      if found.Some? {
        return found;
      }
      assert Keywords[k..][1..] == Keywords[k + 1..];
      k := k + 1;
    }
    match_ := if |buttons| > 0 then Some(buttons[0]) else None;
  }

  lemma {:induction false} PrimaryButtonAmongIsButton(buttons: seq<ElementDescriptor>, keywords: seq<string>)
    ensures PrimaryButtonAmong(buttons, keywords).None? <==> |buttons| == 0
    ensures PrimaryButtonAmong(buttons, keywords).Some? ==> PrimaryButtonAmong(buttons, keywords).value in buttons
    decreases |keywords|
  {
    if |keywords| > 0 {
      PrimaryButtonAmongIsButton(buttons, keywords[1..]);
    }
  }

  /** When keyword `keywords[i]` is the first one any button matches, the
   *  choice is the first button matching it. */
  lemma {:induction false} PrimaryButtonAmongEarliest(buttons: seq<ElementDescriptor>, keywords: seq<string>, i: nat)
    requires i < |keywords|
    requires exists b :: b in buttons && MatchesKeyword(b, keywords[i])
    requires forall j, b :: 0 <= j < i && b in buttons ==> !MatchesKeyword(b, keywords[j])
    ensures PrimaryButtonAmong(buttons, keywords) == Find(buttons, b => MatchesKeyword(b, keywords[i]))
    decreases i
  {
    var b :| b in buttons && MatchesKeyword(b, keywords[i]);
    if i == 0 {
      var k :| 0 <= k < |buttons| && buttons[k] == b;
      assert FindIndex(buttons, b => MatchesKeyword(b, keywords[0])).Some?;
    } else {
      assert Find(buttons, b => MatchesKeyword(b, keywords[0])).None? by {
        assert forall k :: 0 <= k < |buttons| ==> !MatchesKeyword(buttons[k], keywords[0]) by {
          forall k | 0 <= k < |buttons| ensures !MatchesKeyword(buttons[k], keywords[0]) {
            assert buttons[k] in buttons;
          }
        }
      }
      assert keywords[1..][i - 1] == keywords[i];
      forall j, c | 0 <= j < i - 1 && c in buttons ensures !MatchesKeyword(c, keywords[1..][j]) {
        assert keywords[1..][j] == keywords[j + 1];
      }
      PrimaryButtonAmongEarliest(buttons, keywords[1..], i - 1);
    }
  }

  /** No keyword matches: the first button, or nothing. */
  lemma {:induction false} PrimaryButtonAmongFallback(buttons: seq<ElementDescriptor>, keywords: seq<string>)
    requires forall k, b :: k in keywords && b in buttons ==> !MatchesKeyword(b, k)
    ensures PrimaryButtonAmong(buttons, keywords) == if |buttons| > 0 then Some(buttons[0]) else None
    decreases |keywords|
  {
    if |keywords| > 0 {
      assert Find(buttons, b => MatchesKeyword(b, keywords[0])).None? by {
        forall k | 0 <= k < |buttons| ensures !MatchesKeyword(buttons[k], keywords[0]) {
          assert buttons[k] in buttons;
        }
      }
      PrimaryButtonAmongFallback(buttons, keywords[1..]);
    }
  }

  function VisibilityTests(routes: seq<AppNode>, baseUrl: string): seq<TestCase> {
    Map(routes, n => VisibilityTest(n, baseUrl))
  }

  lemma HasButtonHasPrimary(nodes: seq<AppNode>, i: nat)
    requires i < |nodes| && forall n :: n in nodes ==> HasButton(n)
    ensures PrimaryButton(nodes[i]).Some?
  {
    assert nodes[i] in nodes;
    var e :| e in nodes[i].elements && IsButton(e);
    assert e in Filter(nodes[i].elements, IsButton);
    PrimaryButtonAmongIsButton(Filter(nodes[i].elements, IsButton), Keywords);
  }

  function ButtonTests(nodes: seq<AppNode>, baseUrl: string): (r: seq<TestCase>)
    requires forall n :: n in nodes ==> HasButton(n)
    ensures |r| == |nodes|
    decreases |nodes|
  {
    if |nodes| == 0 then []
    else
      var last := nodes[|nodes| - 1];
      HasButtonHasPrimary(nodes, |nodes| - 1);
      ButtonTests(nodes[..|nodes| - 1], baseUrl) + [PrimaryButtonTest(last, baseUrl, PrimaryButton(last).value)]
  }

  function FormTests(nodes: seq<AppNode>, baseUrl: string): (r: seq<TestCase>)
    requires forall n :: n in nodes ==> HasForm(n)
    ensures |r| == |nodes|
    decreases |nodes|
  {
    if |nodes| == 0 then []
    else
      var last := nodes[|nodes| - 1];
      assert HasForm(nodes[|nodes| - 1]) by { assert nodes[|nodes| - 1] in nodes; }
      FormTests(nodes[..|nodes| - 1], baseUrl) + [FormVisibilityTest(last, baseUrl)]
  }

  /** The smoke tests of a graph, in emission order. */
  function SmokeTests(g: AppGraph): seq<TestCase> {
    VisibilityTests(Filter(g.nodes, IsRoute), g.baseUrl)
    + ButtonTests(Filter(g.nodes, HasButton), g.baseUrl)
    + FormTests(Filter(g.nodes, HasForm), g.baseUrl)
  }

  /** Buttons and links over all nodes. */
  function InteractiveCount(nodes: seq<AppNode>): nat
    decreases |nodes|
  {
    if |nodes| == 0 then 0
    else
      var interactive := Filter(nodes[|nodes| - 1].elements, IsButtonOrLink);
      InteractiveCount(nodes[..|nodes| - 1]) + |interactive|
  }

  /** The single suite of the smoke plan. */
  function SmokeSuiteOf(g: AppGraph): TestSuite {
    TestSuite(GeneratedId("suite"), "Smoke Tests", SmokeSuite, SmokeTests(g), ["smoke", "critical"])
  }

  /** The one-suite smoke plan. The seed recorded is the given one, or the
   *  clock when it is absent or 0. */
  method Generate(g: AppGraph, seed: Option<int>, clockMs: int, now: string) returns (plan: TestPlan)
    ensures plan.suites == [SmokeSuiteOf(g)]
    ensures plan.config.coverageTarget
      == CoverageTarget(|g.nodes|, InteractiveCount(g.nodes), 2 * |SmokeTests(g)|)
    ensures plan.config.seed == Some(if seed.Some? && seed.value != 0 then seed.value else clockMs)
    ensures plan.appName == g.appName && plan.timestamp == now
  {
    var tests: seq<TestCase> := [];
    tests := PushVisibilityTests(tests, Filter(g.nodes, IsRoute), g.baseUrl);
    assert tests == VisibilityTests(Filter(g.nodes, IsRoute), g.baseUrl);
    tests := PushButtonTests(tests, Filter(g.nodes, HasButton), g.baseUrl);
    tests := PushFormTests(tests, Filter(g.nodes, HasForm), g.baseUrl);
    assert tests == SmokeTests(g);
    var suite := TestSuite(GeneratedId("suite"), "Smoke Tests", SmokeSuite, tests, ["smoke", "critical"]);
    var recordedSeed := if seed.Some? && seed.value != 0 then seed.value else clockMs;
    plan := TestPlan("6.0.0", g.appName, now, [suite],
      TestPlanConfig(Some(recordedSeed), CoverageTarget(|g.nodes|, InteractiveCount(g.nodes), |tests| * 2),
        2, true, false, true));
  }

  /** First loop of `generate`. */
  method PushVisibilityTests(before: seq<TestCase>, routes: seq<AppNode>, baseUrl: string) returns (tests: seq<TestCase>)
    ensures tests == before + VisibilityTests(routes, baseUrl)
  {
    tests := before;
    var i := 0;
    while i < |routes|
      invariant 0 <= i <= |routes|
      invariant tests == before + VisibilityTests(routes[..i], baseUrl)
    {
      tests := tests + [VisibilityTest(routes[i], baseUrl)];
      i := i + 1;
    }
    assert routes[..i] == routes;
  }

  /** Second loop of `generate`. */
  method PushButtonTests(before: seq<TestCase>, nodes: seq<AppNode>, baseUrl: string) returns (tests: seq<TestCase>)
    requires forall n :: n in nodes ==> HasButton(n)
    ensures tests == before + ButtonTests(nodes, baseUrl)
  {
    tests := before;
    var i := 0;
    while i < |nodes|
      invariant 0 <= i <= |nodes|
      invariant tests == before + ButtonTests(nodes[..i], baseUrl)
    {
      var node := nodes[i];
      var button := FindPrimaryButton(node);
      HasButtonHasPrimary(nodes, i);
      tests := tests + [PrimaryButtonTest(node, baseUrl, button.value)];
      assert nodes[..i + 1][..i] == nodes[..i];
      i := i + 1;
    }
    assert nodes[..i] == nodes;
  }

  /** Third loop of `generate`. */
  method PushFormTests(before: seq<TestCase>, nodes: seq<AppNode>, baseUrl: string) returns (tests: seq<TestCase>)
    requires forall n :: n in nodes ==> HasForm(n)
    ensures tests == before + FormTests(nodes, baseUrl)
  {
    tests := before;
    var i := 0;
    while i < |nodes|
      invariant 0 <= i <= |nodes|
      invariant tests == before + FormTests(nodes[..i], baseUrl)
    {
      assert nodes[i] in nodes;
      tests := tests + [FormVisibilityTest(nodes[i], baseUrl)];
      assert nodes[..i + 1][..i] == nodes[..i];
      i := i + 1;
    }
    assert nodes[..i] == nodes;
  }

  /** The page-load test asserts on a heading exactly when the node has one,
   *  and always ends with the URL check on the route (or `/`). */
  lemma VisibilityTestShape(node: AppNode, baseUrl: string)
    ensures var t := VisibilityTest(node, baseUrl);
      && |t.flow| == 2 && t.flow[0].action == Navigate && t.flow[1].action == Wait
      && (|t.assertions| == 2 <==> exists e :: e in node.elements && e.role == "heading")
      && t.assertions[|t.assertions| - 1]
         == Assertion(HasUrl, ByText(OrElse(node.route, "/")), Some(OrElse(node.route, "/")), Some(OpContains))
  {
    var t := VisibilityTest(node, baseUrl);
    if exists e :: e in node.elements && e.role == "heading" {
      var e :| e in node.elements && e.role == "heading";
      var k :| 0 <= k < |node.elements| && node.elements[k] == e;
      assert IsHeading(node.elements[k]);
    }
  }

  /** The primary-action test clicks and checks one of the node's buttons. */
  lemma PrimaryButtonTestTargetsButton(node: AppNode, baseUrl: string)
    requires HasButton(node)
    ensures PrimaryButton(node).Some?
    ensures var b := PrimaryButton(node).value;
      && b in node.elements && b.etype == "button"
      && PrimaryButtonTest(node, baseUrl, b).flow[1].target == Some(ByElement(b))
  {
    var buttons := Filter(node.elements, IsButton);
    var e :| e in node.elements && IsButton(e);
    assert e in buttons;
    PrimaryButtonAmongIsButton(buttons, Keywords);
  }
}
