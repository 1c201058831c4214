/** Accessibility checks: per route node a heading test, and a form-label,
 *  image-alt and interactive-name test when the node has forms, images or
 *  buttons and links. */
module A11yGenerator {
  import opened Wrappers
  import opened Text
  import opened Seqs
  import opened Ids
  import opened GraphModel
  import opened PlanModel

  predicate IsHeading(e: ElementDescriptor) {
    e.role == "heading"
  }

  predicate IsImage(e: ElementDescriptor) {
    e.role == "img"
  }

  predicate IsInteractive(e: ElementDescriptor) {
    e.etype == "button" || e.etype == "link"
  }

  /** A field with neither a label nor a placeholder. */
  predicate Unlabelled(f: FormField) {
    !Truthy(f.labelText) && !Truthy(f.placeholder)
  }

  /** An image whose alt text is missing or blank. */
  predicate MissingAlt(e: ElementDescriptor) {
    !AttrTruthy(e.attributes, "alt") || Trim(e.attributes["alt"]) == ""
  }

  /** An element with no name, no text and no aria-label. */
  predicate Unnamed(e: ElementDescriptor) {
    !Truthy(e.name) && !Truthy(e.text) && !AttrTruthy(e.attributes, "aria-label")
  }

  /** The single navigate step of every accessibility test. */
  function A11yNavigate(node: AppNode, baseUrl: string): TestStep {
    MkStep(GeneratedId("step"), Navigate, Some(ByText(OrElse(node.url, baseUrl + JsText(node.route)))), None)
  }

  function RouteTag(node: AppNode): string {
    OrElse(node.route, "root")
  }

  function HeadingTest(node: AppNode, baseUrl: string): TestCase {
    var headings := Filter(node.elements, IsHeading);
    var route := OrElse(node.route, "/");
    TestCase(GeneratedId("test"), "[A11y] " + node.name + " - Heading structure",
      [A11yNavigate(node, baseUrl)],
      [Assertion(HasUrl, ByText(route), Some(route), Some(OpContains))]
      + (if |headings| > 0 then [Assertion(IsVisible, ByElement(headings[0]), None, None)] else []),
      ["a11y", "heading", RouteTag(node)], Medium, Some(2000))
  }

  /** Looks at the first form only. */
  function FormLabelTest(node: AppNode, baseUrl: string): TestCase
    requires |node.forms| > 0
  {
    var form := node.forms[0];
    var unlabelled := Filter(form.fields, Unlabelled);
    TestCase(GeneratedId("test"), "[A11y] " + node.name + " - Form labels",
      [A11yNavigate(node, baseUrl)],
      [Assertion(IsVisible, ByText(form.selector.primary), None, None)],
      ["a11y", "form", "labels", RouteTag(node)], if |unlabelled| > 0 then High else Low, Some(2000))
  }

  function ImageAltTest(node: AppNode, baseUrl: string, images: seq<ElementDescriptor>): TestCase {
    var missing := Filter(images, MissingAlt);
    TestCase(GeneratedId("test"), "[A11y] " + node.name + " - Image alt text",
      [A11yNavigate(node, baseUrl)], [],
      ["a11y", "images", RouteTag(node)], if |missing| > 0 then High else Low, Some(2000))
  }

  function InteractiveNameTest(node: AppNode, baseUrl: string, interactives: seq<ElementDescriptor>): TestCase {
    var unnamed := Filter(interactives, Unnamed);
    TestCase(GeneratedId("test"), "[A11y] " + node.name + " - Interactive element names",
      [A11yNavigate(node, baseUrl)], [],
      ["a11y", "interactive", RouteTag(node)], if |unnamed| > 0 then Medium else Low, Some(2000))
  }

  function FormPart(node: AppNode, baseUrl: string): seq<TestCase> {
    if |node.forms| > 0 then [FormLabelTest(node, baseUrl)] else []
  }

  function ImagePart(node: AppNode, baseUrl: string): seq<TestCase> {
    var images := Filter(node.elements, IsImage);
    if |images| > 0 then [ImageAltTest(node, baseUrl, images)] else []
  }

  function InteractivePart(node: AppNode, baseUrl: string): seq<TestCase> {
    var interactives := Filter(node.elements, IsInteractive);
    if |interactives| > 0 then [InteractiveNameTest(node, baseUrl, interactives)] else []
  }

  /** The tests of one route node, in emission order. */
  function NodeTests(node: AppNode, baseUrl: string): seq<TestCase> {
    [HeadingTest(node, baseUrl)] + FormPart(node, baseUrl) + ImagePart(node, baseUrl) + InteractivePart(node, baseUrl)
  }

  function A11yTests(routes: seq<AppNode>, baseUrl: string): seq<TestCase>
    decreases |routes|
  {
    if |routes| == 0 then []
    else A11yTests(routes[..|routes| - 1], baseUrl) + NodeTests(routes[|routes| - 1], baseUrl)
  }

  /** The kinds of test a node gets, in emission order: the heading test
   *  always, the others exactly when the node has what they check. */
  function Kinds(node: AppNode): seq<string> {
    ["heading"] + FormKind(node) + ImageKind(node) + InteractiveKind(node)
  }

  function FormKind(node: AppNode): seq<string> {
    if |node.forms| > 0 then ["form"] else []
  }

  function ImageKind(node: AppNode): seq<string> {
    if exists e :: e in node.elements && IsImage(e) then ["images"] else []
  }

  function InteractiveKind(node: AppNode): seq<string> {
    if exists e :: e in node.elements && IsInteractive(e) then ["interactive"] else []
  }

  /** Every test is a single navigate to the node, tagged `a11y` and its
   *  kind; only heading and form-label tests assert. */
  predicate TestOfKind(t: TestCase, kind: string, node: AppNode, baseUrl: string) {
    t.flow == [A11yNavigate(node, baseUrl)]
    && |t.tags| >= 3 && t.tags[0] == "a11y" && t.tags[1] == kind
    && (|t.assertions| > 0 <==> kind == "heading" || kind == "form")
  }

  predicate Pairwise(ts: seq<TestCase>, kinds: seq<string>, node: AppNode, baseUrl: string) {
    |ts| == |kinds| && forall k :: 0 <= k < |kinds| ==> TestOfKind(ts[k], kinds[k], node, baseUrl)
  }

  lemma PairwiseAppend(a: seq<TestCase>, ka: seq<string>, b: seq<TestCase>, kb: seq<string>, node: AppNode, baseUrl: string)
    requires Pairwise(a, ka, node, baseUrl) && Pairwise(b, kb, node, baseUrl)
    ensures Pairwise(a + b, ka + kb, node, baseUrl)
  {
    forall k | 0 <= k < |ka + kb| ensures TestOfKind((a + b)[k], (ka + kb)[k], node, baseUrl) {
      if k < |ka| {
        assert (a + b)[k] == a[k] && (ka + kb)[k] == ka[k];
      } else {
        assert (a + b)[k] == b[k - |a|] && (ka + kb)[k] == kb[k - |ka|];
      }
    }
  }

  lemma FilterNonEmpty<T(!new)>(s: seq<T>, p: T -> bool)
    ensures |Filter(s, p)| > 0 <==> exists e :: e in s && p(e)
  {
    if exists e :: e in s && p(e) {
      var e :| e in s && p(e);
      assert e in Filter(s, p);
    }
    if |Filter(s, p)| > 0 {
      assert Filter(s, p)[0] in Filter(s, p);
    }
  }

  lemma ImagePartShape(node: AppNode, baseUrl: string)
    ensures Pairwise(ImagePart(node, baseUrl), ImageKind(node), node, baseUrl)
  {
    FilterNonEmpty(node.elements, IsImage);
  }

  lemma InteractivePartShape(node: AppNode, baseUrl: string)
    ensures Pairwise(InteractivePart(node, baseUrl), InteractiveKind(node), node, baseUrl)
  {
    FilterNonEmpty(node.elements, IsInteractive);
  }

  /** A node's tests follow `Kinds`: one per kind, in order. */
  lemma {:induction false} NodeTestsShape(node: AppNode, baseUrl: string)
    ensures Pairwise(NodeTests(node, baseUrl), Kinds(node), node, baseUrl)
  {
    var th, tf, ti, tn := [HeadingTest(node, baseUrl)], FormPart(node, baseUrl), ImagePart(node, baseUrl), InteractivePart(node, baseUrl);
    var kh, kf, ki, kn := ["heading"], FormKind(node), ImageKind(node), InteractiveKind(node);
    assert Pairwise(th, kh, node, baseUrl);
    assert Pairwise(tf, kf, node, baseUrl);
    ImagePartShape(node, baseUrl);
    InteractivePartShape(node, baseUrl);
    PairwiseAppend(th, kh, tf, kf, node, baseUrl);
    PairwiseAppend(th + tf, kh + kf, ti, ki, node, baseUrl);
    PairwiseAppend(th + tf + ti, kh + kf + ki, tn, kn, node, baseUrl);
  }

  /** The heading test checks the URL first, then the first heading when
   *  there is one. */
  lemma HeadingTestAssertions(node: AppNode, baseUrl: string)
    ensures var t := HeadingTest(node, baseUrl);
      && t.assertions[0] == Assertion(HasUrl, ByText(OrElse(node.route, "/")), Some(OrElse(node.route, "/")), Some(OpContains))
      && (|t.assertions| == 2 <==> exists e :: e in node.elements && IsHeading(e))
      && (|t.assertions| == 2 ==> t.assertions[1].target == ByElement(Filter(node.elements, IsHeading)[0]))
  {
    FilterNonEmpty(node.elements, IsHeading);
  }

  /** The form-label test is high priority exactly when some field of the
   *  first form has neither label nor placeholder, and low otherwise. */
  lemma FormLabelPriority(node: AppNode, baseUrl: string)
    requires |node.forms| > 0
    ensures FormLabelTest(node, baseUrl).priority == High <==> exists f :: f in node.forms[0].fields && Unlabelled(f)
    ensures FormLabelTest(node, baseUrl).priority in {High, Low}
  {
    FilterNonEmpty(node.forms[0].fields, Unlabelled);
  }

  /** The image test is high priority exactly when some image's alt text
   *  is missing or blank, and low otherwise. */
  lemma ImageAltPriority(node: AppNode, baseUrl: string)
    ensures var t := ImageAltTest(node, baseUrl, Filter(node.elements, IsImage));
      (t.priority == High <==> exists e :: e in node.elements && IsImage(e) && MissingAlt(e))
      && t.priority in {High, Low}
  {
    FilterNonEmpty(Filter(node.elements, IsImage), MissingAlt);
  }

  /** The interactive-name test is medium priority exactly when some button
   *  or link has no name, text or aria-label, and low otherwise. */
  lemma InteractiveNamePriority(node: AppNode, baseUrl: string)
    ensures var t := InteractiveNameTest(node, baseUrl, Filter(node.elements, IsInteractive));
      (t.priority == Medium <==> exists e :: e in node.elements && IsInteractive(e) && Unnamed(e))
      && t.priority in {Medium, Low}
  {
    FilterNonEmpty(Filter(node.elements, IsInteractive), Unnamed);
  }

  /** The four conditional pushes for one route node. */
  method PushNodeTests(before: seq<TestCase>, node: AppNode, baseUrl: string) returns (tests: seq<TestCase>)
    ensures tests == before + NodeTests(node, baseUrl)
  {
    ghost var h, f, im, it := [HeadingTest(node, baseUrl)], FormPart(node, baseUrl), ImagePart(node, baseUrl),
      InteractivePart(node, baseUrl);
    tests := before + [HeadingTest(node, baseUrl)];
    ghost var afterHeading := tests;
    if |node.forms| > 0 {
      tests := tests + [FormLabelTest(node, baseUrl)];
    }
    ghost var afterForms := tests;
    var images := Filter(node.elements, IsImage);
    if |images| > 0 {
      tests := tests + [ImageAltTest(node, baseUrl, images)];
    }
    ghost var afterImages := tests;
    var interactives := Filter(node.elements, IsInteractive);
    if |interactives| > 0 {
      tests := tests + [InteractiveNameTest(node, baseUrl, interactives)];
    }
    assert afterHeading == before + h;
    assert afterForms == afterHeading + f;
    assert afterImages == afterForms + im;
    assert tests == afterImages + it;
    AppendFour(before, h, f, im, it);
  }

  lemma A11yTestsSnoc(routes: seq<AppNode>, i: nat, baseUrl: string)
    requires i < |routes|
    ensures A11yTests(routes[..i + 1], baseUrl) == A11yTests(routes[..i], baseUrl) + NodeTests(routes[i], baseUrl)
  {
    assert routes[..i + 1][..i] == routes[..i];
  }

  /** `A11yGenerator.generate`: the tests of every route node, node by
   *  node. */
  method Generate(g: AppGraph) returns (tests: seq<TestCase>)
    ensures tests == A11yTests(Filter(g.nodes, IsRoute), g.baseUrl)
  {
    var routes := Filter(g.nodes, IsRoute);
    tests := [];
    var i := 0;
    while i < |routes|
      invariant 0 <= i <= |routes|
      invariant tests == A11yTests(routes[..i], g.baseUrl)
    {
      tests := PushNodeTests(tests, routes[i], g.baseUrl);
      A11yTestsSnoc(routes, i, g.baseUrl);
      i := i + 1;
    }
    assert routes[..i] == routes;
  }

  /** Every route node gets at least its heading test, so there are at
   *  least as many tests as route nodes. */
  lemma {:induction false} AtLeastOnePerRoute(routes: seq<AppNode>, baseUrl: string)
    ensures |A11yTests(routes, baseUrl)| >= |routes|
    decreases |routes|
  {
    if |routes| > 0 {
      AtLeastOnePerRoute(routes[..|routes| - 1], baseUrl);
    }
  }
}
