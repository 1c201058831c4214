/** What the runners report, and the rules both runner adapters share:
 *  selector resolution, the URL and text checks, the retry rule that turns
 *  a test's attempts into a status, suite counts and the run summary. */
module RunModel {
  import opened Wrappers
  import opened Text
  import opened GraphModel
  import opened PlanModel

  datatype Status = Pass | Fail | Skip | Flaky

  /** `{ message, screenshot }`; the stack trace is not modelled. */
  datatype ErrorDetails = ErrorDetails(message: string, screenshot: Option<string>)

  datatype TestResult = TestResult(
    testId: string,
    testName: string,
    status: Status,
    duration: int,
    retries: nat,
    startTime: string,
    endTime: string,
    error: Option<ErrorDetails>,
    artifacts: seq<string>)

  datatype SuiteResult = SuiteResult(
    suiteId: string,
    suiteName: string,
    tests: seq<TestResult>,
    duration: int,
    passed: nat,
    failed: nat,
    skipped: nat,
    flaky: nat)

  /** The summary; its coverage block is always zero and is left out. */
  datatype Summary = Summary(
    totalTests: nat,
    passed: nat,
    failed: nat,
    skipped: nat,
    flaky: nat,
    passRate: nat,
    duration: int)

  // ---------------------------------------------------------------------
  // Selectors and checks

  /** `resolveSelector`: a string target as it is, an element's primary
   *  selector when it is not empty, and otherwise the error the source
   *  throws. */
  function ResolveSelector(target: Option<Target>): (r: Result<string>)
    ensures target.Some? && target.value.ByText? ==> r == Ok(target.value.s)
    ensures target.Some? && target.value.ByElement? && target.value.e.selector.primary != "" ==>
      r == Ok(target.value.e.selector.primary)
    ensures r.Err? <==> target.None? || (target.value.ByElement? && target.value.e.selector.primary == "")
    ensures r.Err? ==> r.error == "Invalid selector target"
  {
    match target
    case Some(ByText(s)) => Ok(s)
    case Some(ByElement(e)) =>
      if e.selector.primary != "" then Ok(e.selector.primary) else Err("Invalid selector target")
    case None => Err("Invalid selector target")
  }

  /** `String(e)` of an `Error` the adapter throws itself. */
  function Thrown(m: string): string {
    "Error: " + m
  }

  function ThrownIf(o: Option<string>): Option<string> {
    match o
    case Some(m) => Some(Thrown(m))
    case None => None
  }

  /** `String(step.target)` for a navigation target. */
  function TargetText(target: Option<Target>): string {
    match target
    case Some(ByText(s)) => s
    case Some(ByElement(_)) => "[object Object]"
    case None => "undefined"
  }

  /** The `url` assertion: the error it throws, if any. `String(expected)`
   *  of a missing value is the text `undefined`. */
  function UrlCheck(currentUrl: string, expected: Option<string>, op: Option<Operator>): Option<string> {
    var want := JsText(expected);
    if op == Some(OpContains) then
      if Contains(currentUrl, want) then None
      else Some("URL \"" + currentUrl + "\" does not contain \"" + want + "\"")
    else if currentUrl != want then
      Some("URL mismatch: expected \"" + want + "\", got \"" + currentUrl + "\"")
    else None
  }

  /** The URL check passes exactly when the address contains the expected
   *  text under `contains`, and equals it under any other operator. */
  lemma UrlCheckSpec(currentUrl: string, expected: Option<string>, op: Option<Operator>)
    ensures op == Some(OpContains) ==> (UrlCheck(currentUrl, expected, op).None? <==> Contains(currentUrl, JsText(expected)))
    ensures op != Some(OpContains) ==> (UrlCheck(currentUrl, expected, op).None? <==> currentUrl == JsText(expected))
  {
  }

  /** The `text` assertion on the element's text (`None`: no text): only
   *  `contains` is checked, and missing text fails it. */
  function TextCheck(text: Option<string>, expected: Option<string>, op: Option<Operator>): Option<string> {
    if op == Some(OpContains) && !(text.Some? && Contains(text.value, JsText(expected))) then
      Some("Text does not contain \"" + JsText(expected) + "\"")
    else None
  }

  lemma TextCheckSpec(text: Option<string>, expected: Option<string>, op: Option<Operator>)
    ensures op != Some(OpContains) ==> TextCheck(text, expected, op).None?
    ensures op == Some(OpContains) ==>
      (TextCheck(text, expected, op).None? <==> text.Some? && Contains(text.value, JsText(expected)))
  {
  }

  // ---------------------------------------------------------------------
  // The retry rule

  /** The attempts of one test, as the retry loop makes them: the error of
   *  each attempt (`None`: it passed). Every attempt but the last failed,
   *  and the loop stopped at a pass or after `cap` attempts. */
  predicate RetryShape(outcomes: seq<Option<string>>, cap: nat) {
    && |outcomes| <= cap
    && (forall i :: 0 <= i < |outcomes| - 1 ==> outcomes[i].Some?)
    && (|outcomes| == cap || (|outcomes| > 0 && outcomes[|outcomes| - 1].None?))
  }

  /** `retries + 1` attempts, or none when `retries` is negative. */
  function AttemptCap(retries: int): nat {
    if retries + 1 > 0 then retries + 1 else 0
  }

  /** The last attempt passed. */
  predicate PassedLast(outcomes: seq<Option<string>>) {
    |outcomes| > 0 && outcomes[|outcomes| - 1].None?
  }

  /** The `error` variable after the loop: the error of the last failed
   *  attempt. */
  function LastError(outcomes: seq<Option<string>>): Option<string> {
    if |outcomes| == 0 then None
    else if outcomes[|outcomes| - 1].Some? then outcomes[|outcomes| - 1]
    else LastError(outcomes[..|outcomes| - 1])
  }

  /** The `retries` variable after the loop: one more than the index of
   *  the last failed attempt. */
  function RetriesOf(outcomes: seq<Option<string>>): nat {
    if |outcomes| == 0 then 0
    else if outcomes[|outcomes| - 1].Some? then |outcomes|
    else RetriesOf(outcomes[..|outcomes| - 1])
  }

  /** The status after the loop: `flaky` when a later attempt passed, then
   *  `fail` when there is an error and the retries are exhausted. */
  function StatusOf(outcomes: seq<Option<string>>, retries: int): Status {
    if LastError(outcomes).Some? && RetriesOf(outcomes) > retries then Fail
    else if PassedLast(outcomes) && |outcomes| > 1 then Flaky
    else Pass
  }

  /** The number of failed attempts. */
  function FailedAttempts(outcomes: seq<Option<string>>): nat {
    if |outcomes| == 0 then 0
    else FailedAttempts(outcomes[..|outcomes| - 1]) + (if outcomes[|outcomes| - 1].Some? then 1 else 0)
  }

  lemma {:induction false} AllFailedCounts(outcomes: seq<Option<string>>)
    requires forall i :: 0 <= i < |outcomes| ==> outcomes[i].Some?
    ensures FailedAttempts(outcomes) == |outcomes| && RetriesOf(outcomes) == |outcomes|
    ensures |outcomes| > 0 ==> LastError(outcomes) == outcomes[|outcomes| - 1]
    decreases |outcomes|
  {
    if |outcomes| > 0 {
      AllFailedCounts(outcomes[..|outcomes| - 1]);
    }
  }

  /** `retries` counts the failed attempts, and the error is the last
   *  failure's, kept even when a later attempt passed. */
  lemma RetriesCountFailures(outcomes: seq<Option<string>>, cap: nat)
    requires RetryShape(outcomes, cap)
    ensures RetriesOf(outcomes) == FailedAttempts(outcomes)
    ensures LastError(outcomes).Some? <==> FailedAttempts(outcomes) > 0
    ensures PassedLast(outcomes) && |outcomes| > 1 ==> LastError(outcomes) == outcomes[|outcomes| - 2]
    ensures !PassedLast(outcomes) && |outcomes| > 0 ==> LastError(outcomes) == outcomes[|outcomes| - 1]
  {
    if |outcomes| > 0 {
      var init := outcomes[..|outcomes| - 1];
      AllFailedCounts(init);
      if outcomes[|outcomes| - 1].Some? {
        AllFailedCounts(outcomes);
      }
    }
  }

  /** There are at most `retries + 1` attempts. A test fails exactly when
   *  there was an attempt and every attempt failed; it passes exactly when
   *  it was not attempted or the first attempt passed; it is flaky exactly
   *  when a later attempt passed. */
  lemma RetryRule(outcomes: seq<Option<string>>, retries: int)
    requires RetryShape(outcomes, AttemptCap(retries))
    ensures |outcomes| <= AttemptCap(retries)
    ensures StatusOf(outcomes, retries) == Fail <==>
      |outcomes| > 0 && forall i :: 0 <= i < |outcomes| ==> outcomes[i].Some?
    ensures StatusOf(outcomes, retries) == Pass <==> |outcomes| == 0 || outcomes[0].None?
    ensures StatusOf(outcomes, retries) == Flaky <==> |outcomes| > 1 && PassedLast(outcomes)
    ensures StatusOf(outcomes, retries) != Skip
  {
    RetriesCountFailures(outcomes, AttemptCap(retries));
    if |outcomes| > 0 && outcomes[|outcomes| - 1].Some? {
      AllFailedCounts(outcomes);
    }
  }

  /** The attempts the loop makes when attempt `k` fails with `errs(k)`
   *  (`None`: passes), from attempt `k` up to `cap`. */
  function Attempts(errs: nat -> Option<string>, k: nat, cap: nat): seq<Option<string>>
    decreases cap - k
  {
    if k >= cap then []
    else if errs(k).None? then [None]
    else [errs(k)] + Attempts(errs, k + 1, cap)
  }

  lemma {:induction false} AttemptsShape(errs: nat -> Option<string>, k: nat, cap: nat)
    requires k <= cap
    ensures |Attempts(errs, k, cap)| <= cap - k
    ensures forall i :: 0 <= i < |Attempts(errs, k, cap)| ==> Attempts(errs, k, cap)[i] == errs(k + i)
    ensures forall i :: 0 <= i < |Attempts(errs, k, cap)| - 1 ==> Attempts(errs, k, cap)[i].Some?
    ensures |Attempts(errs, k, cap)| == cap - k || PassedLast(Attempts(errs, k, cap))
    decreases cap - k
  {
    if k < cap && errs(k).Some? {
      AttemptsShape(errs, k + 1, cap);
    }
  }

  /** The attempts from the first have the retry loop's shape, and attempt
   *  `i` is the oracle's attempt `i`. */
  lemma AttemptsFromStart(errs: nat -> Option<string>, cap: nat)
    ensures RetryShape(Attempts(errs, 0, cap), cap)
    ensures forall i :: 0 <= i < |Attempts(errs, 0, cap)| ==> Attempts(errs, 0, cap)[i] == errs(i)
  {
    AttemptsShape(errs, 0, cap);
  }

  /** The attempts not yet made, after `k` failed ones. */
  lemma AttemptsStep(errs: nat -> Option<string>, k: nat, cap: nat)
    requires k < cap
    ensures Attempts(errs, k, cap) == [errs(k)] + (if errs(k).None? then [] else Attempts(errs, k + 1, cap))
  {
  }

  /** The error details a result carries: the last error, if any, with the
   *  screenshot taken for it. */
  function ErrorOf(outcomes: seq<Option<string>>, screenshot: Option<string>): Option<ErrorDetails> {
    match LastError(outcomes)
    case Some(m) => Some(ErrorDetails(m, screenshot))
    case None => None
  }

  // ---------------------------------------------------------------------
  // Suites and the summary

  function CountStatus(tests: seq<TestResult>, s: Status): nat {
    if |tests| == 0 then 0
    else CountStatus(tests[..|tests| - 1], s) + (if tests[|tests| - 1].status == s then 1 else 0)
  }

  function SumDurations(tests: seq<TestResult>): int {
    if |tests| == 0 then 0 else SumDurations(tests[..|tests| - 1]) + tests[|tests| - 1].duration
  }

  /** The result `executeSuite` returns for the results of its tests. */
  function SuiteResultOf(suiteId: string, suiteName: string, tests: seq<TestResult>): SuiteResult {
    SuiteResult(
      suiteId,
      suiteName,
      tests,
      SumDurations(tests),
      CountStatus(tests, Pass),
      CountStatus(tests, Fail),
      CountStatus(tests, Skip),
      CountStatus(tests, Flaky))
  }

  /** Each test is counted under exactly one status. */
  lemma {:induction false} StatusCountsPartition(tests: seq<TestResult>)
    ensures CountStatus(tests, Pass) + CountStatus(tests, Fail) + CountStatus(tests, Skip) + CountStatus(tests, Flaky) == |tests|
    decreases |tests|
  {
    if |tests| > 0 {
      StatusCountsPartition(tests[..|tests| - 1]);
    }
  }

  /** No test with a status counts under it. */
  lemma {:induction false} CountAbsentStatus(tests: seq<TestResult>, s: Status)
    requires forall i :: 0 <= i < |tests| ==> tests[i].status != s
    ensures CountStatus(tests, s) == 0
    decreases |tests|
  {
    if |tests| > 0 {
      CountAbsentStatus(tests[..|tests| - 1], s);
    }
  }

  /** A suite's counts are those of its own tests. */
  predicate SuiteCounted(s: SuiteResult) {
    s == SuiteResultOf(s.suiteId, s.suiteName, s.tests)
  }

  function SumTests(suites: seq<SuiteResult>): nat {
    if |suites| == 0 then 0 else SumTests(suites[..|suites| - 1]) + |suites[|suites| - 1].tests|
  }

  function SumPassed(suites: seq<SuiteResult>): nat {
    if |suites| == 0 then 0 else SumPassed(suites[..|suites| - 1]) + suites[|suites| - 1].passed
  }

  function SumFailed(suites: seq<SuiteResult>): nat {
    if |suites| == 0 then 0 else SumFailed(suites[..|suites| - 1]) + suites[|suites| - 1].failed
  }

  function SumSkipped(suites: seq<SuiteResult>): nat {
    if |suites| == 0 then 0 else SumSkipped(suites[..|suites| - 1]) + suites[|suites| - 1].skipped
  }

  function SumFlaky(suites: seq<SuiteResult>): nat {
    if |suites| == 0 then 0 else SumFlaky(suites[..|suites| - 1]) + suites[|suites| - 1].flaky
  }

  function SumSuiteDurations(suites: seq<SuiteResult>): int {
    if |suites| == 0 then 0 else SumSuiteDurations(suites[..|suites| - 1]) + suites[|suites| - 1].duration
  }

  /** `calculateSummary`: totals over the suites, and the pass rate as a
   *  rounded percentage, 0 when there are no tests. */
  function CalculateSummary(suites: seq<SuiteResult>): Summary {
    var total := SumTests(suites);
    var passed := SumPassed(suites);
    Summary(
      total,
      passed,
      SumFailed(suites),
      SumSkipped(suites),
      SumFlaky(suites),
      RoundPercent(passed, total),
      SumSuiteDurations(suites))
  }

  lemma {:induction false} SummaryPartition(suites: seq<SuiteResult>)
    requires forall i :: 0 <= i < |suites| ==> SuiteCounted(suites[i])
    ensures SumPassed(suites) + SumFailed(suites) + SumSkipped(suites) + SumFlaky(suites) == SumTests(suites)
    decreases |suites|
  {
    if |suites| > 0 {
      SummaryPartition(suites[..|suites| - 1]);
      StatusCountsPartition(suites[|suites| - 1].tests);
    }
  }

  /** For suites counted from their tests, every test of the summary is
   *  counted under exactly one status, and the pass rate is a percentage;
   *  with no tests it is 0. */
  lemma SummarySpec(suites: seq<SuiteResult>)
    requires forall i :: 0 <= i < |suites| ==> SuiteCounted(suites[i])
    ensures var s := CalculateSummary(suites);
      && s.passed + s.failed + s.skipped + s.flaky == s.totalTests
      && s.passRate <= 100
      && (s.totalTests == 0 ==> s.passRate == 0)
      && (s.totalTests > 0 && s.passed == s.totalTests ==> s.passRate == 100)
  {
    SummaryPartition(suites);
    var total := SumTests(suites);
    if total > 0 && SumPassed(suites) == total {
      AllPassedRate(total);
    }
  }

  lemma AllPassedRate(total: nat)
    requires total > 0
    ensures RoundPercent(total, total) == 100
  {
    var r := RoundPercent(total, total);
    var d := 2 * total;
    assert d * r <= 200 * total + total < d * (r + 1);
    if r < 100 {
      MulMonotone(d, r + 1, 100);
      assert false;
    }
  }
}
