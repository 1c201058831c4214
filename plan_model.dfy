/** The generated test plan: suites of test cases, each a flow of steps
 *  followed by assertions. */
module PlanModel {
  import opened Wrappers
  import opened GraphModel

  /** A step or assertion target: a selector string or an element. */
  datatype Target = ByText(s: string) | ByElement(e: ElementDescriptor)

  datatype Action = Navigate | Click | Fill | Select | Wait | Screenshot | Check | Hover

  datatype WaitFor = UntilVisible | UntilAttached | UntilNetworkIdle | UntilLoad

  datatype StepOptions = StepOptions(timeout: Option<int>, waitFor: Option<WaitFor>)

  datatype TestStep = TestStep(
    id: string,
    action: Action,
    target: Option<Target>,
    value: Option<string>,
    options: Option<StepOptions>)

  datatype AssertionType = IsVisible | IsHidden | HasText | HasValue | HasUrl | HasCount | Exists | HasAttribute

  datatype Operator = OpEquals | OpContains | OpMatches | OpGt | OpLt

  datatype Assertion = Assertion(
    atype: AssertionType,
    target: Target,
    expected: Option<string>,
    operator: Option<Operator>)

  datatype Priority = Critical | High | Medium | Low

  datatype TestCase = TestCase(
    id: string,
    name: string,
    flow: seq<TestStep>,
    assertions: seq<Assertion>,
    tags: seq<string>,
    priority: Priority,
    estimatedDuration: Option<int>)

  datatype Category = SmokeSuite | RegressionSuite | EdgeSuite | ExploratorySuite | VisualSuite | A11ySuite

  datatype TestSuite = TestSuite(
    id: string,
    name: string,
    category: Category,
    tests: seq<TestCase>,
    tags: seq<string>)

  datatype CoverageTarget = CoverageTarget(routes: int, interactiveElements: int, assertions: int)

  datatype TestPlanConfig = TestPlanConfig(
    seed: Option<int>,
    coverageTarget: CoverageTarget,
    flakyRetries: int,
    screenshotOnFail: bool,
    videoOnFail: bool,
    traceOnFail: bool)

  datatype TestPlan = TestPlan(
    version: string,
    appName: string,
    timestamp: string,
    suites: seq<TestSuite>,
    config: TestPlanConfig)

  /** JavaScript truthiness of an optional step target (an empty selector
   *  string is falsy). */
  predicate TargetTruthy(t: Option<Target>) {
    t.Some? && !(t.value.ByText? && t.value.s == "")
  }

  /** All test cases of a list of suites, suite by suite. */
  function AllTests(suites: seq<TestSuite>): seq<TestCase>
    decreases |suites|
  {
    if |suites| == 0 then [] else AllTests(suites[..|suites| - 1]) + suites[|suites| - 1].tests
  }

  /** `plan.suites.reduce((s, u) => s + u.tests.length, 0)`. */
  function TestCount(suites: seq<TestSuite>): nat {
    |AllTests(suites)|
  }

  /** A step that the generators build: no options unless stated. */
  function MkStep(id: string, action: Action, target: Option<Target>, value: Option<string>): TestStep {
    TestStep(id, action, target, value, None)
  }
}
