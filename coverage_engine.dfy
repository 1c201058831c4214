/** Coverage of a test plan over an application graph: which route nodes
 *  the plan navigates to, which elements it touches or asserts on, which
 *  forms it fills, how many assertions and multi-step flows it has. */
module CoverageEngine {
  import opened Wrappers
  import opened Text
  import opened Seqs
  import opened GraphModel
  import opened PlanModel
  import opened CoverageModel

  /** A selector string stands for itself, an element for its id. */
  function ElementId(t: Target): string {
    match t
    case ByText(s) => s
    case ByElement(e) => e.id
  }

  /** The base URL without one trailing slash. */
  function StripTrailingSlash(s: string): string {
    if |s| > 0 && s[|s| - 1] == '/' then s[..|s| - 1] else s
  }

  /** The path a URL names: the first occurrence of the base URL removed,
   *  the query string dropped, `/` for nothing. */
  function PathOf(url: string, baseUrl: string): (r: string)
    ensures r != ""
  {
    var p := BeforeFirst(ReplaceFirst(url, StripTrailingSlash(baseUrl), ""), "?");
    if p == "" then "/" else p
  }

  predicate NodeMatchesUrl(n: AppNode, path: string, url: string) {
    n.route == Some(path) || n.url == Some(url) || (Truthy(n.url) && StartsWith(url, n.url.value))
  }

  /** The id of the first graph node whose route is the URL's path, whose
   *  URL is the URL, or whose URL prefixes it. */
  function NodeIdFromUrl(url: string, g: AppGraph): (r: Option<string>)
    ensures r.Some? ==> exists i :: (0 <= i < |g.nodes| && g.nodes[i].id == r.value
      && NodeMatchesUrl(g.nodes[i], PathOf(url, g.baseUrl), url)
      && forall j :: 0 <= j < i ==> !NodeMatchesUrl(g.nodes[j], PathOf(url, g.baseUrl), url))
    ensures r.None? <==> forall n :: n in g.nodes ==> !NodeMatchesUrl(n, PathOf(url, g.baseUrl), url)
  {
    var path := PathOf(url, g.baseUrl);
    match FindIndex(g.nodes, n => NodeMatchesUrl(n, path, url))
    case Some(i) => Some(g.nodes[i].id)
    case None => None
  }

  /** The URL a navigate step goes to: an element target has no `url` and
   *  turns into the text of an object. */
  function NavUrl(t: Target): string {
    match t
    case ByText(s) => s
    case ByElement(_) => "[object Object]"
  }

  /** The node a step covers, if it is a navigate step. */
  function NavigatedNode(g: AppGraph, s: TestStep): Option<string> {
    if s.action == Navigate && TargetTruthy(s.target) then
      match NodeIdFromUrl(NavUrl(s.target.value), g)
      case Some(id) => if id != "" then Some(id) else None
      case None => None
    else
      None
  }

  predicate IsInteraction(a: Action) {
    a == Click || a == Fill || a == Select || a == Check || a == Hover
  }

  /** The element an interaction step touches, if any. */
  function InteractedElement(s: TestStep): Option<string> {
    if IsInteraction(s.action) && TargetTruthy(s.target) then Some(ElementId(s.target.value)) else None
  }

  predicate OwnsElement(n: AppNode, eid: string) {
    exists e :: e in n.elements && e.id == eid
  }

  predicate HasFieldFor(f: FormDescriptor, eid: string) {
    exists fd :: fd in f.fields && fd.selector.primary == eid
  }

  function FormKey(n: AppNode, f: FormDescriptor): string {
    n.id + ":" + f.id
  }

  /** The form a fill step covers directly: the first form with that field
   *  on the first route node that owns the element. */
  function FilledFormKey(routes: seq<AppNode>, s: TestStep): Option<string> {
    match InteractedElement(s)
    case None => None
    case Some(eid) =>
      if s.action != Fill then None
      else
        match FindIndex(routes, n => OwnsElement(n, eid))
        case None => None
        case Some(i) =>
          match FindIndex(routes[i].forms, f => HasFieldFor(f, eid))
          case Some(j) => Some(FormKey(routes[i], routes[i].forms[j]))
          case None => None
  }

  /** The element an assertion covers: only element targets count. */
  function AssertedElement(a: Assertion): Option<string> {
    match a.target
    case ByElement(e) => Some(e.id)
    case ByText(_) => None
  }

  function AsSet(o: Option<string>): set<string> {
    if o.Some? then {o.value} else {}
  }

  function AsSeq(o: Option<string>): seq<string> {
    if o.Some? then [o.value] else []
  }

  /** `Set.add` seen from the iteration order: a value not yet present goes
   *  to the end, a value already present stays where it is. */
  function AddNew(order: seq<string>, o: Option<string>): seq<string> {
    if o.Some? && o.value !in order then order + [o.value] else order
  }

  /** What a pass over the plan has collected so far; `order` lists the
   *  covered node ids in the order they were first added, which is the
   *  order in which a JavaScript `Set` is iterated. */
  datatype Tally = Tally(nodes: set<string>, order: seq<string>, elements: set<string>, formKeys: set<string>,
                         assertions: nat, flows: nat)

  function StepTally(g: AppGraph, routes: seq<AppNode>, acc: Tally, s: TestStep): Tally {
    acc.(nodes := acc.nodes + AsSet(NavigatedNode(g, s)),
         order := AddNew(acc.order, NavigatedNode(g, s)),
         elements := acc.elements + AsSet(InteractedElement(s)),
         formKeys := acc.formKeys + AsSet(FilledFormKey(routes, s)))
  }

  function StepsTally(g: AppGraph, routes: seq<AppNode>, acc: Tally, steps: seq<TestStep>): Tally
    decreases |steps|
  {
    if |steps| == 0 then acc
    else StepTally(g, routes, StepsTally(g, routes, acc, steps[..|steps| - 1]), steps[|steps| - 1])
  }

  function AssertionsTally(acc: Tally, asserts: seq<Assertion>): Tally
    decreases |asserts|
  {
    if |asserts| == 0 then acc
    else
      var prev := AssertionsTally(acc, asserts[..|asserts| - 1]);
      prev.(assertions := prev.assertions + 1,
            elements := prev.elements + AsSet(AssertedElement(asserts[|asserts| - 1])))
  }

  function FlowBump(acc: Tally, t: TestCase): Tally {
    acc.(flows := acc.flows + if |t.flow| >= 2 then 1 else 0)
  }

  function TestTally(g: AppGraph, routes: seq<AppNode>, acc: Tally, t: TestCase): Tally {
    AssertionsTally(StepsTally(g, routes, FlowBump(acc, t), t.flow), t.assertions)
  }

  function EmptyTally(): Tally {
    Tally({}, [], {}, {}, 0, 0)
  }

  function TestsTally(g: AppGraph, routes: seq<AppNode>, tests: seq<TestCase>): Tally
    decreases |tests|
  {
    if |tests| == 0 then EmptyTally()
    else TestTally(g, routes, TestsTally(g, routes, tests[..|tests| - 1]), tests[|tests| - 1])
  }

  /** Keys of the forms of `forms` (on node `n`) with a field whose selector
   *  is among the covered elements. */
  function FormsWithCoveredField(n: AppNode, forms: seq<FormDescriptor>, elements: set<string>): set<string>
    decreases |forms|
  {
    if |forms| == 0 then {}
    else
      FormsWithCoveredField(n, forms[..|forms| - 1], elements)
      + (if (exists fd :: fd in forms[|forms| - 1].fields && fd.selector.primary in elements)
         then {FormKey(n, forms[|forms| - 1])} else {})
  }

  function RoutesWithCoveredField(routes: seq<AppNode>, elements: set<string>): set<string>
    decreases |routes|
  {
    if |routes| == 0 then {}
    else
      var last := routes[|routes| - 1];
      RoutesWithCoveredField(routes[..|routes| - 1], elements) + FormsWithCoveredField(last, last.forms, elements)
  }

  function RouteNodes(g: AppGraph): seq<AppNode> {
    Filter(g.nodes, IsRoute)
  }

  function ElementTotal(routes: seq<AppNode>): nat
    decreases |routes|
  {
    if |routes| == 0 then 0 else ElementTotal(routes[..|routes| - 1]) + |routes[|routes| - 1].elements|
  }

  function FormTotal(routes: seq<AppNode>): nat
    decreases |routes|
  {
    if |routes| == 0 then 0 else FormTotal(routes[..|routes| - 1]) + |routes[|routes| - 1].forms|
  }

  /** Everything the plan covers, form keys of both passes included. */
  function PlanTally(g: AppGraph, suites: seq<TestSuite>): Tally {
    var routes := RouteNodes(g);
    var t := TestsTally(g, routes, AllTests(suites));
    t.(formKeys := t.formKeys + RoutesWithCoveredField(routes, t.elements))
  }

  lemma TestsTallySnoc(g: AppGraph, routes: seq<AppNode>, tests: seq<TestCase>, t: TestCase)
    ensures TestsTally(g, routes, tests + [t]) == TestTally(g, routes, TestsTally(g, routes, tests), t)
  {
    assert (tests + [t])[..|tests|] == tests;
  }

  lemma TestsTallyNext(g: AppGraph, routes: seq<AppNode>, done: seq<TestCase>, tests: seq<TestCase>, j: nat)
    requires j < |tests|
    ensures TestsTally(g, routes, done + tests[..j + 1])
      == TestTally(g, routes, TestsTally(g, routes, done + tests[..j]), tests[j])
  {
    assert done + tests[..j + 1] == (done + tests[..j]) + [tests[j]];
    TestsTallySnoc(g, routes, done + tests[..j], tests[j]);
  }

  lemma NoElementNoForm(routes: seq<AppNode>, s: TestStep)
    requires InteractedElement(s).None?
    ensures FilledFormKey(routes, s).None?
  {
  }

  lemma StepsTallySnoc(g: AppGraph, routes: seq<AppNode>, start: Tally, steps: seq<TestStep>, k: nat)
    requires k < |steps|
    ensures StepsTally(g, routes, start, steps[..k + 1])
      == StepTally(g, routes, StepsTally(g, routes, start, steps[..k]), steps[k])
  {
    assert steps[..k + 1][..k] == steps[..k];
  }

  /** The snapshot of a plan: totals over the route nodes, distinct
   *  covered ids, rounded percentages, assertion and flow counts. */
  method Compute(g: AppGraph, plan: TestPlan, now: string) returns (snap: CoverageSnapshot)
    ensures var routes := RouteNodes(g); var t := PlanTally(g, plan.suites);
      && snap.routes == Measure(|routes|, |t.nodes|, RoundPercent(|t.nodes|, |routes|))
      && snap.elements == Measure(ElementTotal(routes), |t.elements|, RoundPercent(|t.elements|, ElementTotal(routes)))
      && snap.forms == Measure(FormTotal(routes), |t.formKeys|, RoundPercent(|t.formKeys|, FormTotal(routes)))
      && snap.assertions == t.assertions && snap.flows == t.flows
      && snap.nodeIds == t.order
      && Distinct(snap.nodeIds) && (forall id :: id in snap.nodeIds <==> id in t.nodes)
    ensures snap.timestamp == now
  {
    var routeNodes := RouteNodes(g);
    var covered := EmptyTally();
    var suites := plan.suites;
    var i := 0;
    while i < |suites|
      invariant 0 <= i <= |suites|
      invariant covered == TestsTally(g, routeNodes, AllTests(suites[..i]))
    {
      covered := CoverTests(g, routeNodes, AllTests(suites[..i]), covered, suites[i].tests);
      assert suites[..i + 1][..i] == suites[..i];
      i := i + 1;
    }
    assert suites[..i] == suites;
    var formKeys := CoverFormsByField(routeNodes, covered.elements, covered.formKeys);
    CoveredNodeOrder(g, plan.suites);
    var nodeIds := covered.order;
    snap := CoverageSnapshot(
      Measure(|routeNodes|, |covered.nodes|, RoundPercent(|covered.nodes|, |routeNodes|)),
      nodeIds,
      Measure(ElementTotal(routeNodes), |covered.elements|, RoundPercent(|covered.elements|, ElementTotal(routeNodes))),
      Measure(FormTotal(routeNodes), |formKeys|, RoundPercent(|formKeys|, FormTotal(routeNodes))),
      covered.assertions, covered.flows, now);
  }

  /** The tests of one suite, after the tests of the suites before it. */
  method CoverTests(g: AppGraph, routeNodes: seq<AppNode>, ghost done: seq<TestCase>, before: Tally, tests: seq<TestCase>)
    returns (covered: Tally)
    requires before == TestsTally(g, routeNodes, done)
    ensures covered == TestsTally(g, routeNodes, done + tests)
  {
    covered := before;
    var j := 0;
    assert done + tests[..0] == done;
    while j < |tests|
      invariant 0 <= j <= |tests|
      invariant covered == TestsTally(g, routeNodes, done + tests[..j])
    {
      covered := CoverTest(g, routeNodes, covered, tests[j]);
      TestsTallyNext(g, routeNodes, done, tests, j);
      j := j + 1;
    }
    assert tests[..j] == tests;
  }

  /** One test of the first pass: its flow, then its assertions. */
  method CoverTest(g: AppGraph, routeNodes: seq<AppNode>, before: Tally, test: TestCase) returns (covered: Tally)
    ensures covered == TestTally(g, routeNodes, before, test)
  {
    covered := before;
    if |test.flow| >= 2 {
      covered := covered.(flows := covered.flows + 1);
    }
    covered := CoverSteps(g, routeNodes, covered, test.flow);
    covered := CoverAssertions(covered, test.assertions);
  }

  /** The nodes, elements and forms a flow covers, step by step. */
  method CoverSteps(g: AppGraph, routeNodes: seq<AppNode>, start: Tally, flow: seq<TestStep>) returns (covered: Tally)
    ensures covered == StepsTally(g, routeNodes, start, flow)
  {
    covered := start;
    var k := 0;
    while k < |flow|
      invariant 0 <= k <= |flow|
      invariant covered == StepsTally(g, routeNodes, start, flow[..k])
    {
      covered := CoverStep(g, routeNodes, covered, flow[k]);
      StepsTallySnoc(g, routeNodes, start, flow, k);
      k := k + 1;
    }
    assert flow[..k] == flow;
  }

  /** One step: the node it navigates to, the element it interacts with
   *  and the form that element is a field of. */
  method CoverStep(g: AppGraph, routeNodes: seq<AppNode>, before: Tally, step: TestStep) returns (covered: Tally)
    ensures covered == StepTally(g, routeNodes, before, step)
  {
    var nid := NavigatedNode(g, step);
    var eid := InteractedElement(step);
    var fkey := FilledFormKey(routeNodes, step);
    var nodes := before.nodes + AsSet(nid);
    var order := before.order;
    if nid.Some? && nid.value !in order {
      order := order + [nid.value];
    }
    var elements := before.elements;
    var formKeys := before.formKeys;
    if eid.Some? {
      elements := elements + {eid.value};
      formKeys := formKeys + AsSet(fkey);
    }
    covered := before.(nodes := nodes, order := order, elements := elements, formKeys := formKeys);
  }

  /** Every assertion is counted; an element target is covered too. */
  method CoverAssertions(start: Tally, asserts: seq<Assertion>) returns (covered: Tally)
    ensures covered == AssertionsTally(start, asserts)
  {
    covered := start;
    var m := 0;
    while m < |asserts|
      invariant 0 <= m <= |asserts|
      invariant covered == AssertionsTally(start, asserts[..m])
    {
      var a := asserts[m];
      covered := covered.(assertions := covered.assertions + 1);
      if a.target.ByElement? {
        covered := covered.(elements := covered.elements + {a.target.e.id});
      }
      assert asserts[..m + 1][..m] == asserts[..m];
      m := m + 1;
    }
    assert asserts[..m] == asserts;
  }

  /** The second pass over the route nodes' forms. */
  method CoverFormsByField(routeNodes: seq<AppNode>, elements: set<string>, firstPass: set<string>)
    returns (coveredFormKeys: set<string>)
    ensures coveredFormKeys == firstPass + RoutesWithCoveredField(routeNodes, elements)
  {
    coveredFormKeys := firstPass;
    var r := 0;
    while r < |routeNodes|
      invariant 0 <= r <= |routeNodes|
      invariant coveredFormKeys == firstPass + RoutesWithCoveredField(routeNodes[..r], elements)
    {
      var node := routeNodes[r];
      var f := 0;
      while f < |node.forms|
        invariant 0 <= f <= |node.forms|
        invariant coveredFormKeys == firstPass + RoutesWithCoveredField(routeNodes[..r], elements)
          + FormsWithCoveredField(node, node.forms[..f], elements)
      {
        var form := node.forms[f];
        var key := FormKey(node, form);
        if key !in coveredFormKeys {
          var anyFieldCovered := exists fd :: fd in form.fields && fd.selector.primary in elements;
          if anyFieldCovered {
            coveredFormKeys := coveredFormKeys + {key};
          }
        }
        assert node.forms[..f + 1][..f] == node.forms[..f];
        f := f + 1;
      }
      assert node.forms[..f] == node.forms;
      assert routeNodes[..r + 1][..r] == routeNodes[..r];
      r := r + 1;
    }
    assert routeNodes[..r] == routeNodes;
  }

  /** Whether a snapshot reaches every goal that is present. */
  function MeetsTarget(snap: CoverageSnapshot, goals: PartialGoals): (r: bool)
    ensures r <==> (AtLeast(snap.routes.percentage, goals.routes) && AtLeast(snap.elements.percentage, goals.elements)
      && AtLeast(snap.forms.percentage, goals.forms) && AtLeast(snap.assertions, goals.assertions)
      && AtLeast(snap.flows, goals.flows))
  {
    if goals.routes.Some? && snap.routes.percentage < goals.routes.value then false
    else if goals.elements.Some? && snap.elements.percentage < goals.elements.value then false
    else if goals.forms.Some? && snap.forms.percentage < goals.forms.value then false
    else if goals.assertions.Some? && snap.assertions < goals.assertions.value then false
    else if goals.flows.Some? && snap.flows < goals.flows.value then false
    else true
  }

  /** An absent goal is always met. */
  predicate AtLeast(value: int, goal: Option<int>) {
    goal.None? || value >= goal.value
  }

  /** `b` has collected at least what `a` has. */
  predicate Grows(a: Tally, b: Tally) {
    a.nodes <= b.nodes && a.elements <= b.elements && a.formKeys <= b.formKeys
    && a.assertions <= b.assertions && a.flows <= b.flows
  }

  lemma {:induction false} StepsTallyGrows(g: AppGraph, routes: seq<AppNode>, acc: Tally, steps: seq<TestStep>)
    ensures Grows(acc, StepsTally(g, routes, acc, steps))
    ensures StepsTally(g, routes, acc, steps).assertions == acc.assertions
    ensures StepsTally(g, routes, acc, steps).flows == acc.flows
    decreases |steps|
  {
    if |steps| > 0 {
      StepsTallyGrows(g, routes, acc, steps[..|steps| - 1]);
    }
  }

  lemma {:induction false} AssertionsTallyGrows(acc: Tally, asserts: seq<Assertion>)
    ensures Grows(acc, AssertionsTally(acc, asserts))
    ensures AssertionsTally(acc, asserts).assertions == acc.assertions + |asserts|
    ensures AssertionsTally(acc, asserts).nodes == acc.nodes
    ensures AssertionsTally(acc, asserts).order == acc.order
    ensures AssertionsTally(acc, asserts).formKeys == acc.formKeys
    ensures AssertionsTally(acc, asserts).flows == acc.flows
    decreases |asserts|
  {
    if |asserts| > 0 {
      AssertionsTallyGrows(acc, asserts[..|asserts| - 1]);
    }
  }

  lemma TestTallyGrows(g: AppGraph, routes: seq<AppNode>, acc: Tally, t: TestCase)
    ensures Grows(acc, TestTally(g, routes, acc, t))
  {
    StepsTallyGrows(g, routes, FlowBump(acc, t), t.flow);
    AssertionsTallyGrows(StepsTally(g, routes, FlowBump(acc, t), t.flow), t.assertions);
  }

  lemma {:induction false} TestsTallyAppendGrows(g: AppGraph, routes: seq<AppNode>, tests: seq<TestCase>, more: seq<TestCase>)
    ensures Grows(TestsTally(g, routes, tests), TestsTally(g, routes, tests + more))
    decreases |more|
  {
    if |more| == 0 {
      assert tests + more == tests;
    } else {
      var init := more[..|more| - 1];
      TestsTallyAppendGrows(g, routes, tests, init);
      assert tests + more == (tests + init) + [more[|more| - 1]];
      TestsTallySnoc(g, routes, tests + init, more[|more| - 1]);
      TestTallyGrows(g, routes, TestsTally(g, routes, tests + init), more[|more| - 1]);
    }
  }

  lemma {:induction false} FormsWithCoveredFieldMonotone(n: AppNode, forms: seq<FormDescriptor>, e1: set<string>, e2: set<string>)
    requires e1 <= e2
    ensures FormsWithCoveredField(n, forms, e1) <= FormsWithCoveredField(n, forms, e2)
    decreases |forms|
  {
    if |forms| > 0 {
      FormsWithCoveredFieldMonotone(n, forms[..|forms| - 1], e1, e2);
    }
  }

  lemma {:induction false} RoutesWithCoveredFieldMonotone(routes: seq<AppNode>, e1: set<string>, e2: set<string>)
    requires e1 <= e2
    ensures RoutesWithCoveredField(routes, e1) <= RoutesWithCoveredField(routes, e2)
    decreases |routes|
  {
    if |routes| > 0 {
      RoutesWithCoveredFieldMonotone(routes[..|routes| - 1], e1, e2);
      var last := routes[|routes| - 1];
      FormsWithCoveredFieldMonotone(last, last.forms, e1, e2);
    }
  }

  lemma {:induction false} AllTestsAppend(a: seq<TestSuite>, b: seq<TestSuite>)
    ensures AllTests(a + b) == AllTests(a) + AllTests(b)
    decreases |b|
  {
    if |b| == 0 {
      assert a + b == a;
    } else {
      var init, last := b[..|b| - 1], b[|b| - 1];
      AllTestsAppend(a, init);
      assert (a + b)[..|a + b| - 1] == a + init;
      assert (a + b)[|a + b| - 1] == last;
      calc {
        AllTests(a + b);
        AllTests(a + init) + last.tests;
        AllTests(a) + AllTests(init) + last.tests;
        AllTests(a) + AllTests(b);
      }
    }
  }

  /** Appending suites to a plan never loses coverage. */
  lemma PlanTallyMonotone(g: AppGraph, suites: seq<TestSuite>, more: seq<TestSuite>)
    ensures Grows(PlanTally(g, suites), PlanTally(g, suites + more))
  {
    var routes := RouteNodes(g);
    AllTestsAppend(suites, more);
    TestsTallyAppendGrows(g, routes, AllTests(suites), AllTests(more));
    RoutesWithCoveredFieldMonotone(routes,
      TestsTally(g, routes, AllTests(suites)).elements, TestsTally(g, routes, AllTests(suites + more)).elements);
  }

  lemma {:induction false} SubsetCard(a: set<string>, b: set<string>)
    requires a <= b
    ensures |a| <= |b|
    decreases |a|
  {
    if a != {} {
      var x :| x in a;
      SubsetCard(a - {x}, b - {x});
    }
  }

  /** The percentages the snapshot of a plan reports. */
  function Percentages(g: AppGraph, suites: seq<TestSuite>): (nat, nat, nat) {
    var routes := RouteNodes(g);
    var t := PlanTally(g, suites);
    (RoundPercent(|t.nodes|, |routes|), RoundPercent(|t.elements|, ElementTotal(routes)),
     RoundPercent(|t.formKeys|, FormTotal(routes)))
  }

  /** Adding suites never lowers a percentage, the assertion count or the
   *  flow count. */
  lemma CoverageMonotone(g: AppGraph, suites: seq<TestSuite>, more: seq<TestSuite>)
    ensures Percentages(g, suites).0 <= Percentages(g, suites + more).0
    ensures Percentages(g, suites).1 <= Percentages(g, suites + more).1
    ensures Percentages(g, suites).2 <= Percentages(g, suites + more).2
    ensures PlanTally(g, suites).assertions <= PlanTally(g, suites + more).assertions
    ensures PlanTally(g, suites).flows <= PlanTally(g, suites + more).flows
  {
    var a, b := PlanTally(g, suites), PlanTally(g, suites + more);
    var routes := RouteNodes(g);
    PlanTallyMonotone(g, suites, more);
    SubsetCard(a.nodes, b.nodes);
    SubsetCard(a.elements, b.elements);
    SubsetCard(a.formKeys, b.formKeys);
    RoundPercentMonotone(|a.nodes|, |b.nodes|, |routes|);
    RoundPercentMonotone(|a.elements|, |b.elements|, ElementTotal(routes));
    RoundPercentMonotone(|a.formKeys|, |b.formKeys|, FormTotal(routes));
  }

  /** The node ids a list of steps navigates to. */
  predicate NavigatesTo(g: AppGraph, steps: seq<TestStep>, id: string) {
    exists s :: s in steps && NavigatedNode(g, s) == Some(id)
  }

  lemma {:induction false} StepsTallyNodes(g: AppGraph, routes: seq<AppNode>, acc: Tally, steps: seq<TestStep>, id: string)
    ensures id in StepsTally(g, routes, acc, steps).nodes <==> id in acc.nodes || NavigatesTo(g, steps, id)
    decreases |steps|
  {
    if |steps| > 0 {
      StepsTallyNodes(g, routes, acc, steps[..|steps| - 1], id);
      NavigatesToSnoc(g, steps, id);
    }
  }

  lemma NavigatesToSnoc(g: AppGraph, steps: seq<TestStep>, id: string)
    requires |steps| > 0
    ensures NavigatesTo(g, steps, id)
      <==> NavigatesTo(g, steps[..|steps| - 1], id) || NavigatedNode(g, steps[|steps| - 1]) == Some(id)
  {
    var init, last := steps[..|steps| - 1], steps[|steps| - 1];
    assert steps == init + [last];
    if NavigatesTo(g, steps, id) && !NavigatesTo(g, init, id) {
      var s :| s in steps && NavigatedNode(g, s) == Some(id);
      assert s == last;
    }
    if NavigatedNode(g, last) == Some(id) {
      assert last in steps;
    }
  }

  /** One test adds to the covered nodes exactly the nodes its flow
   *  navigates to. */
  lemma TestTallyNodes(g: AppGraph, routes: seq<AppNode>, acc: Tally, t: TestCase, id: string)
    ensures id in TestTally(g, routes, acc, t).nodes <==> id in acc.nodes || NavigatesTo(g, t.flow, id)
  {
    StepsTallyNodes(g, routes, FlowBump(acc, t), t.flow, id);
    AssertionsTallyGrows(StepsTally(g, routes, FlowBump(acc, t), t.flow), t.assertions);
  }

  lemma SomeTestNavigatesSnoc(g: AppGraph, tests: seq<TestCase>, id: string)
    requires |tests| > 0
    ensures (exists u :: u in tests && NavigatesTo(g, u.flow, id))
      <==> (exists u :: u in tests[..|tests| - 1] && NavigatesTo(g, u.flow, id))
           || NavigatesTo(g, tests[|tests| - 1].flow, id)
  {
    var init, t := tests[..|tests| - 1], tests[|tests| - 1];
    assert tests == init + [t];
    if exists u :: u in tests && NavigatesTo(g, u.flow, id) {
      var u :| u in tests && NavigatesTo(g, u.flow, id);
      assert u in init || u == t;
    }
    if exists u :: u in init && NavigatesTo(g, u.flow, id) {
      var u :| u in init && NavigatesTo(g, u.flow, id);
      assert u in tests;
    }
  }

  lemma {:induction false} TestsTallyNodes(g: AppGraph, routes: seq<AppNode>, tests: seq<TestCase>, id: string)
    ensures id in TestsTally(g, routes, tests).nodes <==> exists t :: t in tests && NavigatesTo(g, t.flow, id)
    decreases |tests|
  {
    if |tests| > 0 {
      var init, t := tests[..|tests| - 1], tests[|tests| - 1];
      TestsTallyNodes(g, routes, init, id);
      TestTallyNodes(g, routes, TestsTally(g, routes, init), t, id);
      SomeTestNavigatesSnoc(g, tests, id);
    }
  }

  /** A node counts as covered exactly when some test navigates to it, and
   *  every covered node is a node of the graph with a non-empty id. */
  lemma CoveredNodeMeaning(g: AppGraph, suites: seq<TestSuite>, id: string)
    ensures id in PlanTally(g, suites).nodes
      <==> exists t :: t in AllTests(suites) && NavigatesTo(g, t.flow, id)
    ensures id in PlanTally(g, suites).nodes ==> id != "" && exists n :: n in g.nodes && n.id == id
  {
    TestsTallyNodes(g, RouteNodes(g), AllTests(suites), id);
    if id in PlanTally(g, suites).nodes {
      var t :| t in AllTests(suites) && NavigatesTo(g, t.flow, id);
      var s :| s in t.flow && NavigatedNode(g, s) == Some(id);
      NavigatedNodeInGraph(g, s);
    }
  }

  /** The ids of the nodes a list of steps navigates to, in step order,
   *  repeats kept. */
  function Visits(g: AppGraph, steps: seq<TestStep>): seq<string>
    decreases |steps|
  {
    if |steps| == 0 then []
    else Visits(g, steps[..|steps| - 1]) + AsSeq(NavigatedNode(g, steps[|steps| - 1]))
  }

  /** The ids the tests navigate to, test after test. */
  function TestsVisits(g: AppGraph, tests: seq<TestCase>): seq<string>
    decreases |tests|
  {
    if |tests| == 0 then [] else TestsVisits(g, tests[..|tests| - 1]) + Visits(g, tests[|tests| - 1].flow)
  }

  /** The order and the set agree on their members. */
  ghost predicate OrderMatches(t: Tally) {
    forall x :: x in t.order <==> x in t.nodes
  }

  /** Adding a value to a set listed without repeats. */
  lemma DedupAddNew(v: seq<string>, o: Option<string>)
    ensures Dedup(v + AsSeq(o)) == AddNew(Dedup(v), o)
  {
    DedupMembers(v);
    if o.Some? {
      assert (v + [o.value])[..|v|] == v;
    } else {
      assert v + AsSeq(o) == v;
    }
  }

  /** Steps keep the order equal to the first occurrences of everything
   *  visited, and in step with the set. */
  lemma {:induction false} StepsTallyOrder(g: AppGraph, routes: seq<AppNode>, acc: Tally, before: seq<string>,
                                           steps: seq<TestStep>)
    requires acc.order == Dedup(before) && OrderMatches(acc)
    ensures StepsTally(g, routes, acc, steps).order == Dedup(before + Visits(g, steps))
    ensures OrderMatches(StepsTally(g, routes, acc, steps))
    decreases |steps|
  {
    if |steps| == 0 {
      assert before + Visits(g, steps) == before;
    } else {
      var init, last := steps[..|steps| - 1], steps[|steps| - 1];
      StepsTallyOrder(g, routes, acc, before, init);
      var v, added := Visits(g, init), AsSeq(NavigatedNode(g, last));
      assert Visits(g, steps) == v + added;
      AppendAssoc(before, v, added);
      DedupAddNew(before + Visits(g, init), NavigatedNode(g, last));
    }
  }

  lemma {:induction false} TestsTallyOrder(g: AppGraph, routes: seq<AppNode>, tests: seq<TestCase>)
    ensures TestsTally(g, routes, tests).order == Dedup(TestsVisits(g, tests))
    ensures OrderMatches(TestsTally(g, routes, tests))
    decreases |tests|
  {
    if |tests| > 0 {
      var init, t := tests[..|tests| - 1], tests[|tests| - 1];
      TestsTallyOrder(g, routes, init);
      var acc := TestsTally(g, routes, init);
      StepsTallyOrder(g, routes, FlowBump(acc, t), TestsVisits(g, init), t.flow);
      AssertionsTallyGrows(StepsTally(g, routes, FlowBump(acc, t), t.flow), t.assertions);
    }
  }

  /** `Array.from(coveredNodeIds)`: every covered node id once, in the order
   *  in which the tests first navigate to it. */
  lemma CoveredNodeOrder(g: AppGraph, suites: seq<TestSuite>)
    ensures PlanTally(g, suites).order == Dedup(TestsVisits(g, AllTests(suites)))
    ensures Distinct(PlanTally(g, suites).order)
    ensures InFirstOccurrenceOrder(PlanTally(g, suites).order, TestsVisits(g, AllTests(suites)))
    ensures forall id :: id in PlanTally(g, suites).order <==> id in PlanTally(g, suites).nodes
  {
    TestsTallyOrder(g, RouteNodes(g), AllTests(suites));
    DedupOrder(TestsVisits(g, AllTests(suites)));
  }

  /** A navigate step covers a node of the graph, with a non-empty id. */
  lemma NavigatedNodeInGraph(g: AppGraph, s: TestStep)
    ensures NavigatedNode(g, s).Some? ==>
      NavigatedNode(g, s).value != "" && exists n :: n in g.nodes && n.id == NavigatedNode(g, s).value
  {
    if NavigatedNode(g, s).Some? {
      var url := NavUrl(s.target.value);
      var i :| 0 <= i < |g.nodes| && g.nodes[i].id == NodeIdFromUrl(url, g).value
        && NodeMatchesUrl(g.nodes[i], PathOf(url, g.baseUrl), url);
      assert g.nodes[i] in g.nodes;
    }
  }

  /** Each covered form key names a form of a route node. */
  predicate IsRouteFormKey(routes: seq<AppNode>, key: string) {
    exists n, f :: n in routes && f in n.forms && key == FormKey(n, f)
  }

  lemma FilledFormKeySound(routes: seq<AppNode>, s: TestStep)
    ensures FilledFormKey(routes, s).Some? ==> IsRouteFormKey(routes, FilledFormKey(routes, s).value)
  {
    if FilledFormKey(routes, s).Some? {
      var eid := InteractedElement(s).value;
      var i := FindIndex(routes, n => OwnsElement(n, eid)).value;
      var j := FindIndex(routes[i].forms, f => HasFieldFor(f, eid)).value;
      assert routes[i] in routes && routes[i].forms[j] in routes[i].forms;
    }
  }

  lemma {:induction false} StepsTallyFormKeys(g: AppGraph, routes: seq<AppNode>, acc: Tally, steps: seq<TestStep>)
    requires forall k :: k in acc.formKeys ==> IsRouteFormKey(routes, k)
    ensures forall k :: k in StepsTally(g, routes, acc, steps).formKeys ==> IsRouteFormKey(routes, k)
    decreases |steps|
  {
    if |steps| > 0 {
      StepsTallyFormKeys(g, routes, acc, steps[..|steps| - 1]);
      FilledFormKeySound(routes, steps[|steps| - 1]);
    }
  }

  lemma {:induction false} TestsTallyFormKeys(g: AppGraph, routes: seq<AppNode>, tests: seq<TestCase>)
    ensures forall k :: k in TestsTally(g, routes, tests).formKeys ==> IsRouteFormKey(routes, k)
    decreases |tests|
  {
    if |tests| > 0 {
      var init, t := tests[..|tests| - 1], tests[|tests| - 1];
      TestsTallyFormKeys(g, routes, init);
      var acc := TestsTally(g, routes, init);
      StepsTallyFormKeys(g, routes, FlowBump(acc, t), t.flow);
      AssertionsTallyGrows(StepsTally(g, routes, FlowBump(acc, t), t.flow), t.assertions);
    }
  }

  lemma {:induction false} FormsWithCoveredFieldSound(routes: seq<AppNode>, n: AppNode, forms: seq<FormDescriptor>, elements: set<string>)
    requires n in routes && forall f :: f in forms ==> f in n.forms
    ensures forall k :: k in FormsWithCoveredField(n, forms, elements) ==> IsRouteFormKey(routes, k)
    decreases |forms|
  {
    if |forms| > 0 {
      FormsWithCoveredFieldSound(routes, n, forms[..|forms| - 1], elements);
      assert forms[|forms| - 1] in n.forms;
    }
  }

  lemma {:induction false} RoutesWithCoveredFieldSound(all: seq<AppNode>, routes: seq<AppNode>, elements: set<string>)
    requires forall n :: n in routes ==> n in all
    ensures forall k :: k in RoutesWithCoveredField(routes, elements) ==> IsRouteFormKey(all, k)
    decreases |routes|
  {
    if |routes| > 0 {
      RoutesWithCoveredFieldSound(all, routes[..|routes| - 1], elements);
      var last := routes[|routes| - 1];
      FormsWithCoveredFieldSound(all, last, last.forms, elements);
    }
  }

  /** Every covered form key, from either pass, names a form of a route
   *  node. */
  lemma CoveredFormsAreRouteForms(g: AppGraph, suites: seq<TestSuite>)
    ensures forall k :: k in PlanTally(g, suites).formKeys ==> IsRouteFormKey(RouteNodes(g), k)
  {
    var routes := RouteNodes(g);
    TestsTallyFormKeys(g, routes, AllTests(suites));
    RoutesWithCoveredFieldSound(routes, routes, TestsTally(g, routes, AllTests(suites)).elements);
  }

  /** The number of tests with at least two steps. */
  function MultiStepTests(tests: seq<TestCase>): nat
    decreases |tests|
  {
    if |tests| == 0 then 0
    else MultiStepTests(tests[..|tests| - 1]) + if |tests[|tests| - 1].flow| >= 2 then 1 else 0
  }

  /** The number of assertions of all tests. */
  function AssertionTotal(tests: seq<TestCase>): nat
    decreases |tests|
  {
    if |tests| == 0 then 0 else AssertionTotal(tests[..|tests| - 1]) + |tests[|tests| - 1].assertions|
  }

  /** The flow count is the number of multi-step tests and the assertion
   *  count the number of assertions. */
  lemma {:induction false} TallyCounts(g: AppGraph, routes: seq<AppNode>, tests: seq<TestCase>)
    ensures TestsTally(g, routes, tests).flows == MultiStepTests(tests)
    ensures TestsTally(g, routes, tests).assertions == AssertionTotal(tests)
    decreases |tests|
  {
    if |tests| > 0 {
      var init, t := tests[..|tests| - 1], tests[|tests| - 1];
      TallyCounts(g, routes, init);
      var acc := TestsTally(g, routes, init);
      StepsTallyGrows(g, routes, FlowBump(acc, t), t.flow);
      AssertionsTallyGrows(StepsTally(g, routes, FlowBump(acc, t), t.flow), t.assertions);
    }
  }
}
