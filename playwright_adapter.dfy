/** The Playwright runner: runs each test of a plan with retries, then
 *  counts the results per suite and for the run.
 *
 *  The browser is an oracle. For each test there is one page state per
 *  attempt, saying which actions and checks throw and with what message;
 *  the clock readings of a test are inputs as well. */
module PlaywrightAdapter {
  import opened Wrappers
  import opened Text
  import opened GraphModel
  import opened PlanModel
  import opened RunModel

  datatype AdapterOptions = AdapterOptions(
    headless: bool,
    baseUrl: string,
    timeout: int,
    retries: int,
    screenshotOnFail: bool,
    traceOnFail: bool,
    artifactsDir: string)

  /** What one attempt of a test meets (every error is given as the text
   *  `String(e)` of what the browser throws): `act(step, selector)` is the error
   *  (if any) of a click, fill, select or check on `selector`; `plain(step)`
   *  that of a navigation, wait or screenshot; `visible(selector)` that of
   *  waiting for the selector to be visible; `url` the page's address at
   *  the assertions; `textOf(selector)` the element's text content or the
   *  error of reading it. */
  datatype Page = Page(
    act: (TestStep, string) -> Option<string>,
    plain: TestStep -> Option<string>,
    visible: string -> Option<string>,
    url: string,
    textOf: string -> Result<Option<string>>)

  /** `executeStep`: the error the step throws, if any. Unknown actions
   *  only log. */
  function StepError(step: TestStep, page: Page): Option<string> {
    match step.action
    case Navigate => page.plain(step)
    case Wait => page.plain(step)
    case Screenshot => page.plain(step)
    case Click => SelectorActionError(step, page)
    case Fill => SelectorActionError(step, page)
    case Select => SelectorActionError(step, page)
    case Check => SelectorActionError(step, page)
    case Hover => None
  }

  /** A click, fill, select or check: the target is resolved first. */
  function SelectorActionError(step: TestStep, page: Page): Option<string> {
    match ResolveSelector(step.target)
    case Err(m) => Some(Thrown(m))
    case Ok(sel) => page.act(step, sel)
  }

  /** `executeAssertion`: the error the assertion throws, if any. Only
   *  `visible`, `url` and `text` are checked; other types only log. */
  function AssertionError(a: Assertion, page: Page): Option<string> {
    match a.atype
    case IsVisible =>
      (match ResolveSelector(Some(a.target))
       case Err(m) => Some(Thrown(m))
       case Ok(sel) => page.visible(sel))
    case HasUrl => ThrownIf(UrlCheck(page.url, a.expected, a.operator))
    case HasText =>
      (match ResolveSelector(Some(a.target))
       case Err(m) => Some(Thrown(m))
       case Ok(sel) =>
         match page.textOf(sel)
         case Err(m) => Some(m)
         case Ok(t) => ThrownIf(TextCheck(t, a.expected, a.operator)))
    case IsHidden => None
    case HasValue => None
    case HasCount => None
    case Exists => None
    case HasAttribute => None
  }

  /** The first error of the steps, in order. */
  function StepsError(steps: seq<TestStep>, page: Page): Option<string> {
    if |steps| == 0 then None
    else match StepError(steps[0], page)
      case Some(m) => Some(m)
      case None => StepsError(steps[1..], page)
  }

  /** The first error of the assertions, in order. */
  function AssertionsError(assertions: seq<Assertion>, page: Page): Option<string> {
    if |assertions| == 0 then None
    else match AssertionError(assertions[0], page)
      case Some(m) => Some(m)
      case None => AssertionsError(assertions[1..], page)
  }

  /** One attempt: every step, then every assertion, stopping at the first
   *  error. */
  function AttemptError(tc: TestCase, page: Page): Option<string> {
    match StepsError(tc.flow, page)
    case Some(m) => Some(m)
    case None => AssertionsError(tc.assertions, page)
  }

  lemma {:induction false} StepsErrorSpec(steps: seq<TestStep>, page: Page)
    ensures StepsError(steps, page).None? <==> forall i :: 0 <= i < |steps| ==> StepError(steps[i], page).None?
    ensures StepsError(steps, page).Some? ==>
      exists i :: 0 <= i < |steps| && StepsError(steps, page) == StepError(steps[i], page)
        && forall j :: 0 <= j < i ==> StepError(steps[j], page).None?
    decreases |steps|
  {
    if |steps| > 0 {
      StepsErrorSpec(steps[1..], page);
      if StepError(steps[0], page).None? {
        assert forall i :: 1 <= i < |steps| ==> steps[i] == steps[1..][i - 1];
        if StepsError(steps, page).Some? {
          var i :| 0 <= i < |steps[1..]| && StepsError(steps[1..], page) == StepError(steps[1..][i], page)
            && forall j :: 0 <= j < i ==> StepError(steps[1..][j], page).None?;
          assert steps[i + 1] == steps[1..][i];
        }
      }
    }
  }

  lemma {:induction false} AssertionsErrorSpec(assertions: seq<Assertion>, page: Page)
    ensures AssertionsError(assertions, page).None? <==>
      forall i :: 0 <= i < |assertions| ==> AssertionError(assertions[i], page).None?
    decreases |assertions|
  {
    if |assertions| > 0 {
      AssertionsErrorSpec(assertions[1..], page);
      assert forall i :: 1 <= i < |assertions| ==> assertions[i] == assertions[1..][i - 1];
    }
  }

  /** An attempt passes exactly when every step and every assertion does;
   *  a failing attempt reports the first failing step's error when a step
   *  fails. */
  lemma AttemptErrorSpec(tc: TestCase, page: Page)
    ensures AttemptError(tc, page).None? <==>
      (forall i :: 0 <= i < |tc.flow| ==> StepError(tc.flow[i], page).None?)
      && (forall i :: 0 <= i < |tc.assertions| ==> AssertionError(tc.assertions[i], page).None?)
    ensures StepsError(tc.flow, page).Some? ==> AttemptError(tc, page) == StepsError(tc.flow, page)
  {
    StepsErrorSpec(tc.flow, page);
    AssertionsErrorSpec(tc.assertions, page);
  }

  /** Unknown step actions and assertion types never throw. */
  lemma UnknownNeverThrows(step: TestStep, a: Assertion, page: Page)
    ensures step.action == Hover ==> StepError(step, page).None?
    ensures a.atype !in {IsVisible, HasUrl, HasText} ==> AssertionError(a, page).None?
  {
  }

  /** Where the screenshot of a failed test goes. */
  function FailScreenshotPath(dir: string, testId: string): string {
    dir + "/" + testId + "-fail.png"
  }

  /** The inputs of one test run: a page state per attempt and the clock
   *  readings. */
  datatype TestEnv = TestEnv(pages: nat -> Page, duration: int, startTime: string, endTime: string)

  /** The error of each attempt. */
  function AttemptErrors(tc: TestCase, env: TestEnv): nat -> Option<string> {
    (k: nat) => AttemptError(tc, env.pages(k))
  }

  /** The attempts the retry loop makes. */
  function TestAttempts(tc: TestCase, options: AdapterOptions, env: TestEnv): seq<Option<string>> {
    Attempts(AttemptErrors(tc, env), 0, AttemptCap(options.retries))
  }

  /** The result of a test: status, retries and error by the retry rule;
   *  a screenshot artifact only after a final failure with
   *  `screenshotOnFail`. */
  function TestResultOf(tc: TestCase, options: AdapterOptions, env: TestEnv): TestResult {
    var outcomes := TestAttempts(tc, options, env);
    var status := StatusOf(outcomes, options.retries);
    TestResult(
      tc.id,
      tc.name,
      status,
      env.duration,
      RetriesOf(outcomes),
      env.startTime,
      env.endTime,
      ErrorOf(outcomes, None),
      if status == Fail && options.screenshotOnFail then [FailScreenshotPath(options.artifactsDir, tc.id)] else [])
  }

  /** The loop's counters after one more attempt. */
  lemma AttemptSnoc(outs: seq<Option<string>>, e: Option<string>)
    ensures LastError(outs + [e]) == if e.Some? then e else LastError(outs)
    ensures RetriesOf(outs + [e]) == if e.Some? then |outs| + 1 else RetriesOf(outs)
    ensures PassedLast(outs + [e]) == e.None?
  {
    assert (outs + [e])[..|outs|] == outs;
  }

  /** One more attempt moves its outcome from the attempts still to come
   *  to those made. */
  lemma RetryStep(errs: nat -> Option<string>, attempt: nat, cap: nat, outs: seq<Option<string>>)
    requires attempt < cap
    ensures errs(attempt).None? ==> outs + [None] == outs + Attempts(errs, attempt, cap)
    ensures errs(attempt).Some? ==>
      (outs + [errs(attempt)]) + Attempts(errs, attempt + 1, cap) == outs + Attempts(errs, attempt, cap)
  {
    AttemptsStep(errs, attempt, cap);
    if errs(attempt).Some? {
      assert (outs + [errs(attempt)]) + Attempts(errs, attempt + 1, cap)
          == outs + ([errs(attempt)] + Attempts(errs, attempt + 1, cap));
    }
  }

  /** The retry loop of `executeTest`: attempt after attempt until one
   *  passes or `maxRetries + 1` have failed. Returns whether a later
   *  attempt passed, the last error and the `retries` counter. */
  method RetryLoop(errs: nat -> Option<string>, maxRetries: int) returns (flaky: bool, error: Option<string>, retries: nat)
    ensures var outs := Attempts(errs, 0, AttemptCap(maxRetries));
      flaky == (PassedLast(outs) && |outs| > 1) && error == LastError(outs) && retries == RetriesOf(outs)
  {
    ghost var cap := AttemptCap(maxRetries);
    ghost var all := Attempts(errs, 0, cap);
    flaky, error, retries := false, None, 0;
    ghost var outs: seq<Option<string>> := [];
    var attempt: nat := 0;
    var done := false;
    while attempt <= maxRetries && !done
      invariant !done ==> attempt <= cap && |outs| == attempt && outs + Attempts(errs, attempt, cap) == all
      invariant done ==> outs == all
      invariant PassedLast(outs) == done
      invariant error == LastError(outs) && retries == RetriesOf(outs)
      invariant flaky == (done && |outs| > 1)
      decreases if done then 0 else cap - attempt + 1
    {
      RetryStep(errs, attempt, cap, outs);
      var e := errs(attempt);
      if e.None? {
        if attempt > 0 {
          flaky := true;
        }
        AttemptSnoc(outs, None);
        outs := outs + [None];
        done := true;
      } else {
        error := e;
        retries := attempt + 1;
        AttemptSnoc(outs, e);
        outs := outs + [e];
        attempt := attempt + 1;
      }
    }
    if !done {
      assert Attempts(errs, attempt, cap) == [];
      assert outs + [] == outs;
    }
  }

  /** `executeTest`. */
  method ExecuteTest(tc: TestCase, options: AdapterOptions, env: TestEnv) returns (r: TestResult)
    ensures r == TestResultOf(tc, options, env)
  {
    var flaky, error, retries := RetryLoop(AttemptErrors(tc, env), options.retries);
    var status := if flaky then Flaky else Pass;
    var artifacts: seq<string> := [];
    if error.Some? && retries > options.retries {
      status := Fail;
      if options.screenshotOnFail {
        artifacts := artifacts + [FailScreenshotPath(options.artifactsDir, tc.id)];
      }
    }
    r := TestResult(tc.id, tc.name, status, env.duration, retries, env.startTime, env.endTime,
                    match error case Some(m) => Some(ErrorDetails(m, None)) case None => None, artifacts);
  }

  /** The retry rule in terms of the page states: a test fails exactly
   *  when each of its `retries + 1` attempts fails; it passes exactly when
   *  it gets no attempt or its first attempt passes; `retries` is the
   *  number of failed attempts; an error is reported whenever an attempt
   *  failed, flaky results included; the test is never skipped. */
  lemma TestResultSpec(tc: TestCase, options: AdapterOptions, env: TestEnv)
    ensures var r := TestResultOf(tc, options, env);
      var cap := AttemptCap(options.retries);
      && (r.status == Fail <==> cap > 0 && forall k :: 0 <= k < cap ==> AttemptError(tc, env.pages(k)).Some?)
      && (r.status == Pass <==> cap == 0 || AttemptError(tc, env.pages(0)).None?)
      && r.status != Skip
      && r.retries == FailedAttempts(TestAttempts(tc, options, env))
      && r.retries <= cap
      && (r.error.Some? <==> r.retries > 0)
      && (|r.artifacts| > 0 <==> r.status == Fail && options.screenshotOnFail)
  {
    var outcomes := TestAttempts(tc, options, env);
    var cap := AttemptCap(options.retries);
    var errs := AttemptErrors(tc, env);
    AttemptsFromStart(errs, cap);
    RetryRule(outcomes, options.retries);
    RetriesCountFailures(outcomes, cap);
    var r := TestResultOf(tc, options, env);
    if r.status == Fail {
      forall k | 0 <= k < cap ensures AttemptError(tc, env.pages(k)).Some? {
        assert outcomes[k] == errs(k);
      }
    }
    if cap > 0 && forall k :: 0 <= k < cap ==> AttemptError(tc, env.pages(k)).Some? {
      if |outcomes| > 0 {
        assert outcomes[|outcomes| - 1] == errs(|outcomes| - 1);
      }
      assert forall i :: 0 <= i < |outcomes| ==> outcomes[i] == errs(i);
    }
    if |outcomes| > 0 {
      assert outcomes[0] == errs(0);
    }
    FailedAttemptsBound(outcomes);
  }

  lemma {:induction false} FailedAttemptsBound(outcomes: seq<Option<string>>)
    ensures FailedAttempts(outcomes) <= |outcomes|
    decreases |outcomes|
  {
    if |outcomes| > 0 {
      FailedAttemptsBound(outcomes[..|outcomes| - 1]);
    }
  }

  /** The results of a suite's tests, test `i` run in `env(i)`. */
  function ResultsOf(tests: seq<TestCase>, options: AdapterOptions, env: nat -> TestEnv): seq<TestResult> {
    if |tests| == 0 then []
    else ResultsOf(tests[..|tests| - 1], options, env) + [TestResultOf(tests[|tests| - 1], options, env(|tests| - 1))]
  }

  /** `executeSuite`. */
  method ExecuteSuite(suite: TestSuite, options: AdapterOptions, env: nat -> TestEnv) returns (r: SuiteResult)
    ensures r == SuiteResultOf(suite.id, suite.name, ResultsOf(suite.tests, options, env))
  {
    var results: seq<TestResult> := [];
    for i := 0 to |suite.tests|
      invariant results == ResultsOf(suite.tests[..i], options, env)
    {
      assert suite.tests[..i + 1][..i] == suite.tests[..i];
      var result := ExecuteTest(suite.tests[i], options, env(i));
      results := results + [result];
    }
    assert suite.tests[..|suite.tests|] == suite.tests;
    r := SuiteResultOf(suite.id, suite.name, results);
  }

  lemma {:induction false} ResultsNeverSkip(tests: seq<TestCase>, options: AdapterOptions, env: nat -> TestEnv)
    ensures forall i :: 0 <= i < |ResultsOf(tests, options, env)| ==> ResultsOf(tests, options, env)[i].status != Skip
    ensures |ResultsOf(tests, options, env)| == |tests|
    decreases |tests|
  {
    if |tests| > 0 {
      ResultsNeverSkip(tests[..|tests| - 1], options, env);
      TestResultSpec(tests[|tests| - 1], options, env(|tests| - 1));
    }
  }

  /** A suite has one result per test and never a skipped one. */
  lemma SuiteNeverSkips(suite: TestSuite, options: AdapterOptions, env: nat -> TestEnv)
    ensures var r := SuiteResultOf(suite.id, suite.name, ResultsOf(suite.tests, options, env));
      r.skipped == 0 && |r.tests| == |suite.tests| && r.passed + r.failed + r.flaky == |suite.tests|
  {
    var results := ResultsOf(suite.tests, options, env);
    ResultsNeverSkip(suite.tests, options, env);
    CountAbsentStatus(results, Skip);
    StatusCountsPartition(results);
  }

  /** The parts of a run result the model keeps. */
  datatype RunResult = RunResult(
    runId: string,
    runner: string,
    retries: int,
    suites: seq<SuiteResult>,
    summary: Summary,
    traces: seq<string>)

  /** The suite results of a run, suite `j` run in `envs(j)`. */
  function SuitesOf(suites: seq<TestSuite>, options: AdapterOptions, envs: nat -> nat -> TestEnv): seq<SuiteResult> {
    if |suites| == 0 then []
    else
      var s := suites[|suites| - 1];
      SuitesOf(suites[..|suites| - 1], options, envs)
      + [SuiteResultOf(s.id, s.name, ResultsOf(s.tests, options, envs(|suites| - 1)))]
  }

  /** `execute`: every suite in order, the summary, and the trace archive
   *  when traces are kept. */
  method Execute(plan: TestPlan, options: AdapterOptions, envs: nat -> nat -> TestEnv, runId: string)
    returns (r: RunResult)
    ensures r.suites == SuitesOf(plan.suites, options, envs)
    ensures r.summary == CalculateSummary(r.suites)
    ensures r.traces == if options.traceOnFail then [runId + "-trace.zip"] else []
    ensures r.runner == "playwright" && r.runId == runId && r.retries == options.retries
  {
    var results: seq<SuiteResult> := [];
    for j := 0 to |plan.suites|
      invariant results == SuitesOf(plan.suites[..j], options, envs)
    {
      assert plan.suites[..j + 1][..j] == plan.suites[..j];
      var sr := ExecuteSuite(plan.suites[j], options, envs(j));
      results := results + [sr];
    }
    assert plan.suites[..|plan.suites|] == plan.suites;
    r := RunResult(runId, "playwright", options.retries, results, CalculateSummary(results),
                   if options.traceOnFail then [runId + "-trace.zip"] else []);
  }

  lemma {:induction false} SuitesOfCounted(suites: seq<TestSuite>, options: AdapterOptions, envs: nat -> nat -> TestEnv)
    ensures |SuitesOf(suites, options, envs)| == |suites|
    ensures forall i :: 0 <= i < |suites| ==>
      SuiteCounted(SuitesOf(suites, options, envs)[i]) && SuitesOf(suites, options, envs)[i].skipped == 0
    decreases |suites|
  {
    if |suites| > 0 {
      var s := suites[|suites| - 1];
      SuitesOfCounted(suites[..|suites| - 1], options, envs);
      SuiteNeverSkips(s, options, envs(|suites| - 1));
    }
  }

  lemma {:induction false} SumSkippedZero(suites: seq<SuiteResult>)
    requires forall i :: 0 <= i < |suites| ==> suites[i].skipped == 0
    ensures SumSkipped(suites) == 0
    decreases |suites|
  {
    if |suites| > 0 {
      SumSkippedZero(suites[..|suites| - 1]);
    }
  }

  /** A run's summary never counts a skipped test; every test counts once
   *  under pass, fail or flaky, and the pass rate is a percentage. */
  lemma RunSummarySpec(suites: seq<TestSuite>, options: AdapterOptions, envs: nat -> nat -> TestEnv)
    ensures var s := CalculateSummary(SuitesOf(suites, options, envs));
      && s.skipped == 0
      && s.passed + s.failed + s.flaky == s.totalTests
      && s.passRate <= 100
      && (s.totalTests == 0 ==> s.passRate == 0)
  {
    var rs := SuitesOf(suites, options, envs);
    SuitesOfCounted(suites, options, envs);
    SumSkippedZero(rs);
    SummarySpec(rs);
  }
}
