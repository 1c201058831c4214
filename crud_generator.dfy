/** CRUD tests: route nodes that look like create/list/edit/delete screens
 *  get one test per detected operation. */
module CrudGenerator {
  import opened Wrappers
  import opened Text
  import opened Seqs
  import opened Ids
  import opened GraphModel
  import opened PlanModel

  const CreateWords: seq<string> := ["create", "add", "new"]
  const EditWords: seq<string> := ["edit", "update"]
  const DeleteWords: seq<string> := ["delete", "remove"]

  /** A button whose lower-cased text contains one of the words (a button
   *  without text never matches). */
  predicate ButtonSays(e: ElementDescriptor, words: seq<string>) {
    e.etype == "button" && e.text.Some?
    && exists w :: w in words && Contains(ToLower(e.text.value), w)
  }

  /** The form test sits inside `elements.some`: a node with forms but no
   *  elements is not create-capable. */
  predicate HasCreate(n: AppNode) {
    exists e :: e in n.elements && (ButtonSays(e, CreateWords) || |n.forms| > 0)
  }

  predicate HasEdit(n: AppNode) {
    exists e :: e in n.elements && ButtonSays(e, EditWords)
  }

  predicate HasDelete(n: AppNode) {
    exists e :: e in n.elements && ButtonSays(e, DeleteWords)
  }

  predicate IsListing(e: ElementDescriptor) {
    e.role == "list" || e.role == "table"
  }

  predicate HasList(n: AppNode) {
    var route := OrElse(n.route, "");
    (exists e :: e in n.elements && IsListing(e)) || Contains(route, "list") || EndsWith(route, "s")
  }

  predicate IsCrudScreen(n: AppNode) {
    HasCreate(n) || HasEdit(n) || HasDelete(n) || HasList(n)
  }

  /** A detected screen: the node, its four flags and the entity name. */
  datatype CrudScreen = CrudScreen(
    node: AppNode,
    hasCreate: bool,
    hasEdit: bool,
    hasDelete: bool,
    hasList: bool,
    entity: string)

  /** `[\w-]`: the characters an entity segment is made of. */
  predicate IsSegmentChar(c: char) {
    ('a' <= c <= 'z') || ('A' <= c <= 'Z') || ('0' <= c <= '9') || c == '_' || c == '-'
  }

  /** The longest prefix of `s` made of segment characters. */
  function SegmentRun(s: string): (r: string)
    ensures |r| <= |s| && r == s[..|r|]
    ensures forall k :: 0 <= k < |r| ==> IsSegmentChar(r[k])
    ensures |r| < |s| ==> !IsSegmentChar(s[|r|])
  {
    if |s| > 0 && IsSegmentChar(s[0]) then [s[0]] + SegmentRun(s[1..]) else []
  }

  /** `/` directly followed by a segment character starts a match of
   *  `/\/([\w-]+)/`. */
  predicate SlashAt(s: string, i: int) {
    0 <= i && i + 1 < |s| && s[i] == '/' && IsSegmentChar(s[i + 1])
  }

  /** The capture group of the leftmost match of `/\/([\w-]+)/`. */
  function FirstSegment(s: string): Option<string>
    decreases |s|
  {
    if |s| < 2 then None
    else if SlashAt(s, 0) then Some(SegmentRun(s[1..]))
    else FirstSegment(s[1..])
  }

  /** The regular expression's meaning: the leftmost slash followed by a
   *  segment character, and the longest run after it; no match when no
   *  slash is followed by one. */
  lemma {:induction false} FirstSegmentSpec(s: string)
    ensures FirstSegment(s).None? <==> forall i :: 0 <= i < |s| ==> !SlashAt(s, i)
    ensures FirstSegment(s).Some? ==>
      exists i :: SlashAt(s, i) && (forall j :: 0 <= j < i ==> !SlashAt(s, j))
        && FirstSegment(s).value == SegmentRun(s[i + 1..])
    decreases |s|
  {
    if |s| < 2 {
    } else if SlashAt(s, 0) {
      assert SlashAt(s, 0) && (forall j :: 0 <= j < 0 ==> !SlashAt(s, j))
        && FirstSegment(s).value == SegmentRun(s[0 + 1..]);
    } else {
      FirstSegmentSpec(s[1..]);
      assert forall i :: 1 <= i < |s| ==> (SlashAt(s, i) <==> SlashAt(s[1..], i - 1));
      if FirstSegment(s).Some? {
        var i :| SlashAt(s[1..], i) && (forall j :: 0 <= j < i ==> !SlashAt(s[1..], j))
          && FirstSegment(s[1..]).value == SegmentRun(s[1..][i + 1..]);
        assert s[1..][i + 1..] == s[i + 2..];
        assert SlashAt(s, i + 1) && (forall j :: 0 <= j < i + 1 ==> !SlashAt(s, j))
          && FirstSegment(s).value == SegmentRun(s[i + 1 + 1..]);
      }
    }
  }

  /** `s.replace(/-/g, ' ')`. */
  function HyphensToSpaces(s: string): (r: string)
    ensures |r| == |s|
    ensures forall k :: 0 <= k < |s| ==> r[k] == (if s[k] == '-' then ' ' else s[k])
  {
    seq(|s|, k requires 0 <= k < |s| => if s[k] == '-' then ' ' else s[k])
  }

  /** The first path segment with hyphens as spaces; otherwise the first
   *  word of the node name; otherwise `Item`. */
  function EntityName(route: string, nodeName: string): (r: string)
    ensures FirstSegment(route).Some? ==> r == HyphensToSpaces(FirstSegment(route).value)
    ensures FirstSegment(route).None? && BeforeFirst(nodeName, " ") != "" ==> r == BeforeFirst(nodeName, " ")
    ensures FirstSegment(route).None? && BeforeFirst(nodeName, " ") == "" ==> r == "Item"
    ensures r != ""
  {
    match FirstSegment(route)
    case Some(seg) =>
      FirstSegmentSpec(route);
      HyphensToSpaces(seg)
    case None =>
      var word := BeforeFirst(nodeName, " ");
      if word != "" then word else "Item"
  }

  function ScreenOf(n: AppNode): CrudScreen {
    CrudScreen(n, HasCreate(n), HasEdit(n), HasDelete(n), HasList(n), EntityName(OrElse(n.route, ""), n.name))
  }

  /** The screens among `routes`, in order. */
  function Screens(routes: seq<AppNode>): seq<CrudScreen>
    decreases |routes|
  {
    if |routes| == 0 then []
    else
      var last := routes[|routes| - 1];
      Screens(routes[..|routes| - 1]) + (if IsCrudScreen(last) then [ScreenOf(last)] else [])
  }

  lemma ScreensSnoc(routes: seq<AppNode>, i: nat)
    requires i < |routes|
    ensures Screens(routes[..i + 1])
      == Screens(routes[..i]) + (if IsCrudScreen(routes[i]) then [ScreenOf(routes[i])] else [])
  {
    assert routes[..i + 1][..i] == routes[..i];
  }

  /** A node is a screen if and only if some flag holds, and each screen
   *  carries the flags computed from its node. */
  lemma {:induction false} ScreensExactly(routes: seq<AppNode>)
    ensures forall s :: s in Screens(routes) ==> s.node in routes && IsCrudScreen(s.node) && s == ScreenOf(s.node)
    ensures forall n :: n in routes && IsCrudScreen(n) ==> ScreenOf(n) in Screens(routes)
    decreases |routes|
  {
    if |routes| > 0 {
      var init := routes[..|routes| - 1];
      ScreensExactly(init);
      assert routes == init + [routes[|routes| - 1]];
    }
  }

  /** The loop of `detectCRUDScreens` over the route nodes. */
  method DetectScreens(g: AppGraph) returns (screens: seq<CrudScreen>)
    ensures screens == Screens(Filter(g.nodes, IsRoute))
  {
    var routes := Filter(g.nodes, IsRoute);
    screens := [];
    var i := 0;
    while i < |routes|
      invariant 0 <= i <= |routes|
      invariant screens == Screens(routes[..i])
    {
      var node := routes[i];
      var hasCreate, hasEdit, hasDelete, hasList := HasCreate(node), HasEdit(node), HasDelete(node), HasList(node);
      ScreensSnoc(routes, i);
      if hasCreate || hasEdit || hasDelete || hasList {
        var entity := EntityName(OrElse(node.route, ""), node.name);
        screens := screens + [CrudScreen(node, hasCreate, hasEdit, hasDelete, hasList, entity)];
      }
      i := i + 1;
    }
    assert routes[..i] == routes;
  }

  /** The value typed into a field of the given type. */
  function TestValue(fieldType: string): string {
    if fieldType == "text" then "Test Item"
    else if fieldType == "email" then "test@example.com"
    else if fieldType == "number" then "42"
    else if fieldType == "date" then "2026-02-15"
    else if fieldType == "tel" then "+1234567890"
    else if fieldType == "url" then "https://example.com"
    else "Test Value"
  }

  const KnownFieldTypes: set<string> := {"text", "email", "number", "date", "tel", "url"}

  /** Exactly the six known types get a value of their own. */
  lemma TestValueFallback(fieldType: string)
    ensures TestValue(fieldType) == "Test Value" <==> fieldType !in KnownFieldTypes
  {
  }

  /** `screen.node.url || baseUrl + screen.node.route`: as in the
   *  accessibility generator, a missing route is concatenated as the text
   *  "undefined". */
  function CrudNavigate(node: AppNode, baseUrl: string): TestStep {
    MkStep(GeneratedId("step"), Navigate, Some(ByText(OrElse(node.url, baseUrl + JsText(node.route)))), None)
  }

  function FieldStep(f: FormField): TestStep {
    MkStep(GeneratedId("step"), if f.ftype == "select" then Select else Fill,
      Some(ByText(f.selector.primary)), Some(TestValue(f.ftype)))
  }

  /** One fill (or select) step per field, in field order. */
  function FieldSteps(fields: seq<FormField>): (r: seq<TestStep>)
    decreases |fields|
  {
    if |fields| == 0 then [] else FieldSteps(fields[..|fields| - 1]) + [FieldStep(fields[|fields| - 1])]
  }

  lemma {:induction false} FieldStepsInOrder(fields: seq<FormField>)
    ensures |FieldSteps(fields)| == |fields|
    ensures forall k :: 0 <= k < |fields| ==> FieldSteps(fields)[k] == FieldStep(fields[k])
    ensures forall k :: 0 <= k < |fields| ==>
      FieldSteps(fields)[k].target == Some(ByText(fields[k].selector.primary))
      && FieldSteps(fields)[k].value == Some(TestValue(fields[k].ftype))
      && (FieldSteps(fields)[k].action == Select <==> fields[k].ftype == "select")
    decreases |fields|
  {
    if |fields| > 0 {
      FieldStepsInOrder(fields[..|fields| - 1]);
      assert forall k :: 0 <= k < |fields| - 1 ==> fields[..|fields| - 1][k] == fields[k];
    }
  }

  /** The click on a found button, if one was found. */
  function ClickOn(b: Option<ElementDescriptor>, options: Option<StepOptions>): seq<TestStep> {
    if b.Some? then [TestStep(GeneratedId("step"), Click, Some(ByElement(b.value)), None, options)] else []
  }

  /** The steps that fill the first form and submit it. */
  function FormSteps(node: AppNode): seq<TestStep> {
    if |node.forms| == 0 then []
    else
      var form := node.forms[0];
      FieldSteps(form.fields)
      + (if form.submitButton.Some? then [MkStep(GeneratedId("step"), Click, Some(ByElement(form.submitButton.value)), None)] else [])
  }

  function RouteTag(node: AppNode): string {
    OrElse(node.route, "root")
  }

  function CreateTest(s: CrudScreen, baseUrl: string): TestCase {
    var button := FirstButton(s.node, CreateWords);
    TestCase(GeneratedId("test"), "[CRUD] Create " + s.entity,
      [CrudNavigate(s.node, baseUrl)] + ClickOn(button, Some(StepOptions(Some(3000), None))) + FormSteps(s.node),
      [], ["crud", "create", RouteTag(s.node)], High, Some(5000))
  }

  function ReadTest(s: CrudScreen, baseUrl: string): TestCase {
    var wait := TestStep(GeneratedId("step"), Wait, None, None, Some(StepOptions(Some(2000), Some(UntilNetworkIdle))));
    var route := OrElse(s.node.route, "/");
    TestCase(GeneratedId("test"), "[CRUD] Read/List " + s.entity,
      [CrudNavigate(s.node, baseUrl), wait],
      [Assertion(HasUrl, ByText(route), Some(route), Some(OpContains))],
      ["crud", "read", RouteTag(s.node)], Medium, Some(3000))
  }

  function UpdateTest(s: CrudScreen, baseUrl: string): TestCase {
    var button := FirstButton(s.node, EditWords);
    TestCase(GeneratedId("test"), "[CRUD] Update " + s.entity,
      [CrudNavigate(s.node, baseUrl)] + ClickOn(button, None),
      [], ["crud", "update", RouteTag(s.node)], Medium, Some(4000))
  }

  function DeleteTest(s: CrudScreen, baseUrl: string): TestCase {
    var button := FirstButton(s.node, DeleteWords);
    TestCase(GeneratedId("test"), "[CRUD] Delete " + s.entity,
      [CrudNavigate(s.node, baseUrl)] + ClickOn(button, None),
      [], ["crud", "delete", RouteTag(s.node)], Low, Some(3000))
  }

  /** The tests of one screen: create, read, update, delete, one per flag. */
  function ScreenTests(s: CrudScreen, baseUrl: string): seq<TestCase> {
    (if s.hasCreate then [CreateTest(s, baseUrl)] else [])
    + (if s.hasList then [ReadTest(s, baseUrl)] else [])
    + (if s.hasEdit then [UpdateTest(s, baseUrl)] else [])
    + (if s.hasDelete then [DeleteTest(s, baseUrl)] else [])
  }

  function CrudTestsOf(screens: seq<CrudScreen>, baseUrl: string): seq<TestCase>
    decreases |screens|
  {
    if |screens| == 0 then []
    else CrudTestsOf(screens[..|screens| - 1], baseUrl) + ScreenTests(screens[|screens| - 1], baseUrl)
  }

  function Flag(b: bool): nat {
    if b then 1 else 0
  }

  /** The operations a screen is tested for, in emission order. */
  function Operations(s: CrudScreen): seq<string> {
    (if s.hasCreate then ["create"] else [])
    + (if s.hasList then ["read"] else [])
    + (if s.hasEdit then ["update"] else [])
    + (if s.hasDelete then ["delete"] else [])
  }

  /** What every CRUD test shares: tagged `crud` and its operation, opens
   *  with the navigation, and asserts only when it is the read test. */
  predicate TestFor(t: TestCase, op: string, s: CrudScreen, baseUrl: string) {
    |t.tags| == 3 && t.tags[0] == "crud" && t.tags[1] == op
    && |t.flow| > 0 && t.flow[0] == CrudNavigate(s.node, baseUrl)
    && (|t.assertions| > 0 <==> op == "read")
  }

  /** One test per true flag, in the order create, read, update, delete. */
  lemma ScreenTestsShape(s: CrudScreen, baseUrl: string)
    ensures |ScreenTests(s, baseUrl)| == |Operations(s)|
    ensures forall k :: 0 <= k < |Operations(s)| ==> TestFor(ScreenTests(s, baseUrl)[k], Operations(s)[k], s, baseUrl)
  {
    var c, r, u, d := CreateTest(s, baseUrl), ReadTest(s, baseUrl), UpdateTest(s, baseUrl), DeleteTest(s, baseUrl);
    assert TestFor(c, "create", s, baseUrl);
    assert TestFor(r, "read", s, baseUrl);
    assert TestFor(u, "update", s, baseUrl);
    assert TestFor(d, "delete", s, baseUrl);
    var ts := ScreenTests(s, baseUrl);
    var ops := Operations(s);
    var tc, tr, tu, td := (if s.hasCreate then [c] else []), (if s.hasList then [r] else []),
      (if s.hasEdit then [u] else []), (if s.hasDelete then [d] else []);
    var oc, or, ou, od := (if s.hasCreate then ["create"] else []), (if s.hasList then ["read"] else []),
      (if s.hasEdit then ["update"] else []), (if s.hasDelete then ["delete"] else []);
    PairwiseAppend(tc, oc, tr, or, s, baseUrl);
    PairwiseAppend(tc + tr, oc + or, tu, ou, s, baseUrl);
    PairwiseAppend(tc + tr + tu, oc + or + ou, td, od, s, baseUrl);
  }

  predicate Pairwise(ts: seq<TestCase>, ops: seq<string>, s: CrudScreen, baseUrl: string) {
    |ts| == |ops| && forall k :: 0 <= k < |ops| ==> TestFor(ts[k], ops[k], s, baseUrl)
  }

  lemma PairwiseAppend(a: seq<TestCase>, oa: seq<string>, b: seq<TestCase>, ob: seq<string>, s: CrudScreen, baseUrl: string)
    requires Pairwise(a, oa, s, baseUrl) && Pairwise(b, ob, s, baseUrl)
    ensures Pairwise(a + b, oa + ob, s, baseUrl)
  {
    forall k | 0 <= k < |oa + ob| ensures TestFor((a + b)[k], (oa + ob)[k], s, baseUrl) {
      if k < |oa| {
        assert (a + b)[k] == a[k] && (oa + ob)[k] == oa[k];
      } else {
        assert (a + b)[k] == b[k - |a|] && (oa + ob)[k] == ob[k - |oa|];
      }
    }
  }

  /** A screen always has at least one test. */
  lemma ScreenOfHasTests(n: AppNode, baseUrl: string)
    requires IsCrudScreen(n)
    ensures |ScreenTests(ScreenOf(n), baseUrl)| >= 1
  {
    ScreenTestsShape(ScreenOf(n), baseUrl);
    assert |Operations(ScreenOf(n))| >= 1;
  }

  /** The first button whose text contains one of the words. */
  function FirstButton(n: AppNode, words: seq<string>): Option<ElementDescriptor> {
    Find(n.elements, e => ButtonSays(e, words))
  }

  /** A button is found exactly when the node has one that says a word,
   *  and the one found says it. */
  lemma FirstButtonFound(n: AppNode, words: seq<string>)
    ensures FirstButton(n, words).Some? <==> exists e :: e in n.elements && ButtonSays(e, words)
    ensures FirstButton(n, words).Some? ==>
      FirstButton(n, words).value in n.elements && ButtonSays(FirstButton(n, words).value, words)
  {
    if exists e :: e in n.elements && ButtonSays(e, words) {
      var e :| e in n.elements && ButtonSays(e, words);
      var k :| 0 <= k < |n.elements| && n.elements[k] == e;
      assert (e => ButtonSays(e, words))(n.elements[k]);
    }
  }

  /** The create test: navigate, the click on the first create button (if
   *  any), then one step per field of the first form only, then its submit
   *  click exactly when the form has a submit button. */
  lemma CreateTestShape(s: CrudScreen, baseUrl: string)
    requires |s.node.forms| > 0
    ensures var t := CreateTest(s, baseUrl);
      var off := 1 + Flag(FirstButton(s.node, CreateWords).Some?);
      var fields := s.node.forms[0].fields;
      && |t.flow| == off + |fields| + Flag(s.node.forms[0].submitButton.Some?)
      && (forall k :: 0 <= k < |fields| ==> t.flow[off + k] == FieldStep(fields[k]))
      && (s.node.forms[0].submitButton.Some? ==>
            t.flow[|t.flow| - 1].target == Some(ByElement(s.node.forms[0].submitButton.value)))
  {
    var button := FirstButton(s.node, CreateWords);
    var opts := Some(StepOptions(Some(3000), None));
    assert CreateTest(s, baseUrl).flow == [CrudNavigate(s.node, baseUrl)] + ClickOn(button, opts) + FormSteps(s.node);
    OpenClickFill(CrudNavigate(s.node, baseUrl), button, opts, s.node);
  }

  /** Opening a page, clicking a button when there is one, then filling and
   *  submitting the node's first form. */
  lemma OpenClickFill(nav: TestStep, button: Option<ElementDescriptor>, opts: Option<StepOptions>, node: AppNode)
    requires |node.forms| > 0
    ensures var flow := [nav] + ClickOn(button, opts) + FormSteps(node);
      var off := 1 + Flag(button.Some?);
      var form := node.forms[0];
      && |flow| == off + |form.fields| + Flag(form.submitButton.Some?)
      && (forall k :: 0 <= k < |form.fields| ==> flow[off + k] == FieldStep(form.fields[k]))
      && (form.submitButton.Some? ==> flow[|flow| - 1].target == Some(ByElement(form.submitButton.value)))
  {
    var head := [nav] + ClickOn(button, opts);
    var form := node.forms[0];
    var submit := if form.submitButton.Some? then [MkStep(GeneratedId("step"), Click, Some(ByElement(form.submitButton.value)), None)] else [];
    assert FormSteps(node) == FieldSteps(form.fields) + submit;
    assert head + FormSteps(node) == head + FieldSteps(form.fields) + submit;
    FlowAround(head, 1 + Flag(button.Some?), form.fields, submit);
  }

  /** Field steps between a head and a tail sit right after the head, in
   *  field order. */
  lemma FlowAround(head: seq<TestStep>, off: nat, fields: seq<FormField>, tail: seq<TestStep>)
    requires off == |head|
    ensures var flow := head + FieldSteps(fields) + tail;
      && |flow| == off + |fields| + |tail|
      && (forall k :: 0 <= k < |fields| ==> flow[off + k] == FieldStep(fields[k]))
      && (|tail| > 0 ==> flow[|flow| - 1] == tail[|tail| - 1])
  {
    FieldStepsInOrder(fields);
    var flow := head + FieldSteps(fields) + tail;
    forall k | 0 <= k < |fields| ensures flow[off + k] == FieldStep(fields[k]) {
      assert flow[off + k] == FieldSteps(fields)[k];
    }
  }

  /** The loop of `generateCreateTest` that fills the first form. */
  method PushFieldSteps(before: seq<TestStep>, fields: seq<FormField>) returns (steps: seq<TestStep>)
    ensures steps == before + FieldSteps(fields)
  {
    steps := before;
    var i := 0;
    while i < |fields|
      invariant 0 <= i <= |fields|
      invariant steps == before + FieldSteps(fields[..i])
    {
      steps := steps + [FieldStep(fields[i])];
      assert fields[..i + 1][..i] == fields[..i];
      i := i + 1;
    }
    assert fields[..i] == fields;
  }

  method BuildCreateTest(s: CrudScreen, baseUrl: string) returns (t: TestCase)
    ensures t == CreateTest(s, baseUrl)
  {
    var steps := [CrudNavigate(s.node, baseUrl)];
    var button := FirstButton(s.node, CreateWords);
    if button.Some? {
      steps := steps + [TestStep(GeneratedId("step"), Click, Some(ByElement(button.value)), None, Some(StepOptions(Some(3000), None)))];
    }
    ghost var head := steps;
    if |s.node.forms| > 0 {
      var form := s.node.forms[0];
      steps := PushFieldSteps(steps, form.fields);
      if form.submitButton.Some? {
        steps := steps + [MkStep(GeneratedId("step"), Click, Some(ByElement(form.submitButton.value)), None)];
      }
    }
    assert steps == head + FormSteps(s.node);
    t := TestCase(GeneratedId("test"), "[CRUD] Create " + s.entity, steps,
      [], ["crud", "create", RouteTag(s.node)], High, Some(5000));
  }

  /** The four conditional pushes for one screen. */
  method PushScreenTests(before: seq<TestCase>, screen: CrudScreen, baseUrl: string) returns (tests: seq<TestCase>)
    ensures tests == before + ScreenTests(screen, baseUrl)
  {
    tests := before;
    if screen.hasCreate {
      var t := BuildCreateTest(screen, baseUrl);
      tests := tests + [t];
    }
    ghost var afterCreate := tests;
    if screen.hasList {
      tests := tests + [ReadTest(screen, baseUrl)];
    }
    ghost var afterRead := tests;
    if screen.hasEdit {
      tests := tests + [UpdateTest(screen, baseUrl)];
    }
    ghost var afterEdit := tests;
    if screen.hasDelete {
      tests := tests + [DeleteTest(screen, baseUrl)];
    }
    ghost var c := if screen.hasCreate then [CreateTest(screen, baseUrl)] else [];
    ghost var r := if screen.hasList then [ReadTest(screen, baseUrl)] else [];
    ghost var u := if screen.hasEdit then [UpdateTest(screen, baseUrl)] else [];
    ghost var d := if screen.hasDelete then [DeleteTest(screen, baseUrl)] else [];
    assert afterCreate == before + c;
    assert afterRead == afterCreate + r;
    assert afterEdit == afterRead + u;
    assert tests == afterEdit + d;
    AppendFour(before, c, r, u, d);
  }

  /** `CRUDGenerator.generate`: the tests of every screen, screen by
   *  screen. */
  method Generate(g: AppGraph) returns (tests: seq<TestCase>)
    ensures tests == CrudTestsOf(Screens(Filter(g.nodes, IsRoute)), g.baseUrl)
  {
    var screens := DetectScreens(g);
    tests := [];
    var i := 0;
    while i < |screens|
      invariant 0 <= i <= |screens|
      invariant tests == CrudTestsOf(screens[..i], g.baseUrl)
    {
      tests := PushScreenTests(tests, screens[i], g.baseUrl);
      assert screens[..i + 1][..i] == screens[..i];
      i := i + 1;
    }
    assert screens[..i] == screens;
  }
}
