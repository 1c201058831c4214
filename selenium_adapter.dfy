/** The Selenium runner: the same retry rule as the Playwright runner,
 *  plus selector healing and the knowledge base. A step or visibility
 *  check whose primary selector fails may be healed from the stored
 *  alternatives; every failed attempt is logged as a failure, and every
 *  test run is counted in the flakiness table.
 *
 *  The browser is an oracle with one page state per attempt; the clock is
 *  one reading per test. The knowledge base is optional, as in the source. */
module SeleniumAdapter {
  import opened Wrappers
  import opened Text
  import opened Seqs
  import opened GraphModel
  import opened PlanModel
  import opened RunModel
  import opened KnowledgeStore
  import opened SelectorHealing
  import opened FailureAnalysis

  datatype AdapterOptions = AdapterOptions(
    browser: string,
    headless: bool,
    gridUrl: Option<string>,
    baseUrl: string,
    timeout: int,
    retries: int,
    screenshotOnFail: bool,
    artifactsDir: string)

  // ---------------------------------------------------------------------
  // Locators and error messages

  /** A WebDriver locator. */
  datatype Locator = ByXPath(xpath: string) | ById(id: string) | ByCss(css: string)

  /** `selectorToBy`: XPath for `//…` and `(//…`, an id for `#…`, CSS for
   *  everything else (an attribute selector is CSS as well). */
  function SelectorToBy(selector: string): Locator {
    if StartsWith(selector, "//") || StartsWith(selector, "(//") then ByXPath(selector)
    else if StartsWith(selector, "#") then ById(selector[1..])
    else ByCss(selector)
  }

  /** The selector text a locator stands for. */
  function LocatorText(l: Locator): string {
    match l
    case ByXPath(x) => x
    case ById(id) => "#" + id
    case ByCss(c) => c
  }

  /** No selector is lost in translation, and each kind is chosen by its
   *  prefix alone. */
  lemma SelectorToBySpec(selector: string)
    ensures LocatorText(SelectorToBy(selector)) == selector
    ensures SelectorToBy(selector).ByXPath? <==> StartsWith(selector, "//") || StartsWith(selector, "(//")
    ensures SelectorToBy(selector).ById? <==> !SelectorToBy(selector).ByXPath? && StartsWith(selector, "#")
  {
    if SelectorToBy(selector).ById? {
      assert selector == "#" + selector[1..];
    }
  }

  const Marker := "no such element: Unable to locate element: "

  /** JavaScript's line terminators, where `.` stops matching. */
  predicate LineEnd(c: char) {
    c == '\n' || c == '\r' || c == '\U{2028}' || c == '\U{2029}'
  }

  /** The text up to the first line terminator. */
  function LineHead(s: string): (r: string)
    ensures |r| <= |s| && r == s[..|r|]
    ensures forall i :: 0 <= i < |r| ==> !LineEnd(r[i])
    ensures |r| < |s| ==> LineEnd(s[|r|])
  {
    if |s| == 0 || LineEnd(s[0]) then "" else [s[0]] + LineHead(s[1..])
  }

  /** The leftmost match of `/<marker>(.+)/` at or after `from`: the first
   *  position where the marker is followed by at least one character
   *  before the end of the line. */
  function ExtractSelectorFrom(msg: string, marker: string, from: nat): (r: Option<string>)
    ensures r.Some? ==> r.value != "" && forall i :: 0 <= i < |r.value| ==> !LineEnd(r.value[i])
    decreases |msg| - from
  {
    if from + |marker| > |msg| then None
    else if OccursAt(msg, marker, from) && LineHead(msg[from + |marker|..]) != "" then
      Some(LineHead(msg[from + |marker|..]))
    else ExtractSelectorFrom(msg, marker, from + 1)
  }

  /** `extractSelector`: the group of the first match of
   *  `/no such element: Unable to locate element: (.+)/`. */
  function ExtractSelector(msg: string): Option<string> {
    ExtractSelectorFrom(msg, Marker, 0)
  }

  /** `a` at `k` followed by `b` is `a + b` at `k`. */
  lemma OccursJoin(s: string, a: string, b: string, k: nat)
    requires OccursAt(s, a, k) && |b| <= |s| - (k + |a|) && s[k + |a|..][..|b|] == b
    ensures OccursAt(s, a + b, k)
  {
    assert s[k..k + |a| + |b|] == s[k..k + |a|] + s[k + |a|..][..|b|];
  }

  /** A selector found at or after `from` follows the marker at the
   *  position `at` returned. */
  lemma {:induction false} ExtractSelectorFromSpec(msg: string, marker: string, from: nat) returns (at: nat)
    ensures var r := ExtractSelectorFrom(msg, marker, from);
      r.Some? ==> from <= at && OccursAt(msg, marker + r.value, at)
    decreases |msg| - from
  {
    at := from;
    if from + |marker| <= |msg| {
      var line := LineHead(msg[from + |marker|..]);
      if OccursAt(msg, marker, from) && line != "" {
        OccursJoin(msg, marker, line, from);
      } else {
        at := ExtractSelectorFromSpec(msg, marker, from + 1);
      }
    }
  }

  /** A selector is extracted only after the marker, is one non-empty line,
   *  and a message without the marker yields none. */
  lemma ExtractSelectorSpec(msg: string)
    ensures var r := ExtractSelector(msg);
      r.Some? ==>
        r.value != "" && (forall i :: 0 <= i < |r.value| ==> !LineEnd(r.value[i]))
        && Contains(msg, Marker + r.value)
    ensures !Contains(msg, Marker) ==> ExtractSelector(msg).None?
  {
    var j := ExtractSelectorFromSpec(msg, Marker, 0);
    var r := ExtractSelector(msg);
    if r.Some? {
      ContainsWhenOccurs(msg, Marker + r.value, j);
      assert msg[j..j + |Marker|] == (Marker + r.value)[..|Marker|];
      ContainsWhenOccurs(msg, Marker, j);
    }
  }

  // ---------------------------------------------------------------------
  // The knowledge base as a value

  /** The four tables of the knowledge base. */
  datatype Store = Store(
    signatures: seq<ElementSignature>,
    attempts: seq<SelectorAttempt>,
    failures: seq<TestFailure>,
    flakyTests: seq<FlakyTest>)

  /** The tables of `kb`, or `None` when the runner has no knowledge base. */
  function StoreOf(kb: KnowledgeBase?): Option<Store>
    reads kb
  {
    if kb == null then None else Some(Store(kb.signatures, kb.attempts, kb.failures, kb.flakyTests))
  }

  /** `attemptSelectorHealing` on the tables: the outcome, every try logged
   *  with the test id as context, and the signature's counters bumped. */
  function Healing(e: ElementDescriptor, works: string -> bool, s: Store, context: string, now: string): (HealingResult, Store) {
    var candidates := HealingCandidates(s.signatures, e);
    var h := Healed(candidates, works);
    HealedSpec(candidates, works);
    (h, s.(attempts := s.attempts + AttemptRows(|s.attempts|, e.id, candidates[..h.attempts], works, now, Some(context)),
           signatures := Bumped(s.signatures, e.id, h.success)))
  }

  // ---------------------------------------------------------------------
  // Steps and assertions

  /** What one attempt of a test meets (errors are the text `String(e)` of
   *  what the driver throws): `act(step, selector)` is the error of the
   *  step's action on the element `selector` finds; `plain(step)` that of
   *  a navigation, wait or screenshot; `find(selector)` that of locating
   *  an element; `displayed(selector)` whether the element it finds is
   *  displayed; `url` the current address; `textOf(selector)` the
   *  element's text or the error of reading it. */
  datatype Page = Page(
    act: (TestStep, string) -> Option<string>,
    plain: TestStep -> Option<string>,
    find: string -> Option<string>,
    displayed: string -> bool,
    url: string,
    textOf: string -> Result<string>)

  /** The action of a step on a selector. */
  function StepAction(page: Page, step: TestStep): string -> Option<string> {
    (sel: string) => page.act(step, sel)
  }

  /** The healing probe of a step: the selector finds an element. */
  function Locates(page: Page): string -> bool {
    (sel: string) => page.find(sel).None?
  }

  /** The healing probe of a visibility check: the selector finds a
   *  displayed element. */
  function Shows(page: Page): string -> bool {
    (sel: string) => page.find(sel).None? && page.displayed(sel)
  }

  /** `executeWithHealing` on the tables. The target is resolved before
   *  anything is tried; when the action fails on an element target and
   *  there is a knowledge base, healing runs and a healed selector gets
   *  one more try of the action, whose error is final. */
  function WithHealing(target: Option<Target>, act: string -> Option<string>, probe: string -> bool,
                       kb: Option<Store>, context: string, now: string): (Option<string>, Option<Store>)
  {
    match ResolveSelector(target)
    case Err(m) => (Some(Thrown(m)), kb)
    case Ok(sel) =>
      match act(sel)
      case None => (None, kb)
      case Some(err) =>
        if kb.Some? && target.Some? && target.value.ByElement? then
          var (h, s) := Healing(target.value.e, probe, kb.value, context, now);
          (if h.success && Truthy(h.selector) then act(h.selector.value) else Some(err), Some(s))
        else (Some(err), kb)
  }

  /** `executeStep` on the tables. Unknown actions only log. */
  function StepRun(step: TestStep, page: Page, kb: Option<Store>, context: string, now: string): (Option<string>, Option<Store>) {
    match step.action
    case Navigate => (page.plain(step), kb)
    case Wait => (page.plain(step), kb)
    case Screenshot => (page.plain(step), kb)
    case Click => WithHealing(step.target, StepAction(page, step), Locates(page), kb, context, now)
    case Fill => WithHealing(step.target, StepAction(page, step), Locates(page), kb, context, now)
    case Select => WithHealing(step.target, StepAction(page, step), Locates(page), kb, context, now)
    case Check => WithHealing(step.target, StepAction(page, step), Locates(page), kb, context, now)
    case Hover => (None, kb)
  }

  /** The primary visibility check: found, then displayed. */
  function VisibleError(page: Page, sel: string): Option<string> {
    match page.find(sel)
    case Some(m) => Some(m)
    case None => if page.displayed(sel) then None else Some(Thrown("Element " + sel + " is not visible"))
  }

  /** A visibility check on the tables. A check that fails on an element
   *  target is healed when there is a knowledge base, and a successful
   *  healing passes it. */
  function VisibleRun(target: Target, page: Page, kb: Option<Store>, context: string, now: string): (Option<string>, Option<Store>) {
    match ResolveSelector(Some(target))
    case Err(m) => (Some(Thrown(m)), kb)
    case Ok(sel) =>
      match VisibleError(page, sel)
      case None => (None, kb)
      case Some(err) =>
        if kb.Some? && target.ByElement? then
          var (h, s) := Healing(target.e, Shows(page), kb.value, context, now);
          (if h.success then None else Some(err), Some(s))
        else (Some(err), kb)
  }

  /** A text check: the element's text must contain the expected text
   *  under `contains`. */
  function TextError(a: Assertion, page: Page): Option<string> {
    match ResolveSelector(Some(a.target))
    case Err(m) => Some(Thrown(m))
    case Ok(sel) =>
      match page.textOf(sel)
      case Err(m) => Some(m)
      case Ok(t) => ThrownIf(TextCheck(Some(t), a.expected, a.operator))
  }

  /** `executeAssertion` on the tables. Only `visible`, `url` and `text`
   *  are checked; other types only log. */
  function AssertRun(a: Assertion, page: Page, kb: Option<Store>, context: string, now: string): (Option<string>, Option<Store>) {
    match a.atype
    case IsVisible => VisibleRun(a.target, page, kb, context, now)
    case HasUrl => (ThrownIf(UrlCheck(page.url, a.expected, a.operator)), kb)
    case HasText => (TextError(a, page), kb)
    case IsHidden => (None, kb)
    case HasValue => (None, kb)
    case HasCount => (None, kb)
    case Exists => (None, kb)
    case HasAttribute => (None, kb)
  }

  /** The steps from index `i` on, stopping at the first error. */
  function StepsFrom(steps: seq<TestStep>, i: nat, page: Page, kb: Option<Store>, context: string, now: string): (Option<string>, Option<Store>)
    decreases |steps| - i
  {
    if i >= |steps| then (None, kb)
    else
      var (e, k) := StepRun(steps[i], page, kb, context, now);
      if e.Some? then (e, k) else StepsFrom(steps, i + 1, page, k, context, now)
  }

  /** The assertions from index `i` on, stopping at the first error. */
  function AssertsFrom(assertions: seq<Assertion>, i: nat, page: Page, kb: Option<Store>, context: string, now: string): (Option<string>, Option<Store>)
    decreases |assertions| - i
  {
    if i >= |assertions| then (None, kb)
    else
      var (e, k) := AssertRun(assertions[i], page, kb, context, now);
      if e.Some? then (e, k) else AssertsFrom(assertions, i + 1, page, k, context, now)
  }

  /** One attempt: the steps, then the assertions. */
  function AttemptRun(tc: TestCase, page: Page, kb: Option<Store>, now: string): (Option<string>, Option<Store>) {
    var (e, k) := StepsFrom(tc.flow, 0, page, kb, tc.id, now);
    if e.Some? then (e, k) else AssertsFrom(tc.assertions, 0, page, k, tc.id, now)
  }

  /** Healing only logs tries and bumps counters: the failures and the
   *  flakiness table are untouched and logged tries are kept. */
  predicate Grows(before: Option<Store>, after: Option<Store>) {
    && (before.None? <==> after.None?)
    && (before.Some? ==>
          && after.value.failures == before.value.failures
          && after.value.flakyTests == before.value.flakyTests
          && |before.value.attempts| <= |after.value.attempts|
          && after.value.attempts[..|before.value.attempts|] == before.value.attempts)
  }

  lemma GrowsTrans(a: Option<Store>, b: Option<Store>, c: Option<Store>)
    requires Grows(a, b) && Grows(b, c)
    ensures Grows(a, c)
  {
    if a.Some? {
      assert c.value.attempts[..|b.value.attempts|][..|a.value.attempts|] == c.value.attempts[..|a.value.attempts|];
    }
  }

  lemma HealingGrows(e: ElementDescriptor, works: string -> bool, s: Store, context: string, now: string)
    ensures Grows(Some(s), Some(Healing(e, works, s, context, now).1))
  {
    var s2 := Healing(e, works, s, context, now).1;
    assert s2.attempts[..|s.attempts|] == s.attempts;
  }

  lemma WithHealingGrows(target: Option<Target>, act: string -> Option<string>, probe: string -> bool,
                         kb: Option<Store>, context: string, now: string)
    ensures Grows(kb, WithHealing(target, act, probe, kb, context, now).1)
  {
    if kb.Some? && target.Some? && target.value.ByElement? {
      HealingGrows(target.value.e, probe, kb.value, context, now);
    }
  }

  lemma StepRunGrows(step: TestStep, page: Page, kb: Option<Store>, context: string, now: string)
    ensures Grows(kb, StepRun(step, page, kb, context, now).1)
  {
    WithHealingGrows(step.target, StepAction(page, step), Locates(page), kb, context, now);
  }

  lemma VisibleRunGrows(target: Target, page: Page, kb: Option<Store>, context: string, now: string)
    ensures Grows(kb, VisibleRun(target, page, kb, context, now).1)
  {
    if kb.Some? && target.ByElement? {
      HealingGrows(target.e, Shows(page), kb.value, context, now);
    }
  }

  lemma AssertRunGrows(a: Assertion, page: Page, kb: Option<Store>, context: string, now: string)
    ensures Grows(kb, AssertRun(a, page, kb, context, now).1)
  {
    if a.atype.IsVisible? {
      VisibleRunGrows(a.target, page, kb, context, now);
    } else {
      assert AssertRun(a, page, kb, context, now).1 == kb;
    }
  }

  lemma {:induction false} StepsFromGrows(steps: seq<TestStep>, i: nat, page: Page, kb: Option<Store>, context: string, now: string)
    ensures Grows(kb, StepsFrom(steps, i, page, kb, context, now).1)
    decreases |steps| - i
  {
    if i < |steps| {
      var (e, k) := StepRun(steps[i], page, kb, context, now);
      StepRunGrows(steps[i], page, kb, context, now);
      if e.None? {
        StepsFromGrows(steps, i + 1, page, k, context, now);
        GrowsTrans(kb, k, StepsFrom(steps, i + 1, page, k, context, now).1);
      }
    }
  }

  lemma {:induction false} AssertsFromGrows(assertions: seq<Assertion>, i: nat, page: Page, kb: Option<Store>, context: string, now: string)
    ensures Grows(kb, AssertsFrom(assertions, i, page, kb, context, now).1)
    decreases |assertions| - i
  {
    if i < |assertions| {
      var (e, k) := AssertRun(assertions[i], page, kb, context, now);
      AssertRunGrows(assertions[i], page, kb, context, now);
      if e.None? {
        AssertsFromGrows(assertions, i + 1, page, k, context, now);
        GrowsTrans(kb, k, AssertsFrom(assertions, i + 1, page, k, context, now).1);
      }
    }
  }

  /** An attempt changes only the selector log and the signatures' counters:
   *  it records no failure and no test run. */
  lemma AttemptRunGrows(tc: TestCase, page: Page, kb: Option<Store>, now: string)
    ensures Grows(kb, AttemptRun(tc, page, kb, now).1)
  {
    var (e, k) := StepsFrom(tc.flow, 0, page, kb, tc.id, now);
    StepsFromGrows(tc.flow, 0, page, kb, tc.id, now);
    if e.None? {
      AssertsFromGrows(tc.assertions, 0, page, k, tc.id, now);
      GrowsTrans(kb, k, AssertsFrom(tc.assertions, 0, page, k, tc.id, now).1);
    }
  }

  /** Without a knowledge base, or when the primary selector works, there
   *  is no healing: the action's own error is the step's. With one, a
   *  failing element target is healed, and the step then passes exactly
   *  when healing found a non-empty selector on which the action works. */
  lemma WithHealingSpec(target: Option<Target>, act: string -> Option<string>, probe: string -> bool,
                        kb: Option<Store>, context: string, now: string, sel: string)
    requires ResolveSelector(target) == Ok(sel)
    ensures var (err, after) := WithHealing(target, act, probe, kb, context, now);
      && (act(sel).None? ==> err.None? && after == kb)
      && (kb.None? || !target.value.ByElement? ==> err == act(sel) && after == kb)
      && (act(sel).Some? && kb.Some? && target.value.ByElement? ==>
            var h := Healed(HealingCandidates(kb.value.signatures, target.value.e), probe);
            && (err.None? <==> h.success && h.selector.value != "" && act(h.selector.value).None?)
            && after.value.signatures == Bumped(kb.value.signatures, target.value.e.id, h.success))
  {
    if kb.Some? && target.value.ByElement? {
      HealedSpec(HealingCandidates(kb.value.signatures, target.value.e), probe);
    }
  }

  // ---------------------------------------------------------------------
  // The retry loop

  /** The route a failure is filed under: the first tag that is a path. */
  function RouteOf(tags: seq<string>): Option<string> {
    Find(tags, (t: string) => StartsWith(t, "/"))
  }

  /** The failure logged for a failed attempt. */
  function FailureFor(tc: TestCase, msg: string, now: string): FailureInput {
    var t := ClassifyError(msg);
    FailureInput(tc.id, tc.name, RouteOf(tc.tags), TypeName(t), msg, ExtractSelector(msg), now, false, Some(SuggestFix(t)))
  }

  /** The tables after an attempt's bookkeeping: a pass records a passing
   *  run, a failure logs the failure. */
  function Recorded(tc: TestCase, e: Option<string>, kb: Option<Store>, now: string): Option<Store> {
    match kb
    case None => None
    case Some(s) =>
      match e
      case None => Some(s.(flakyTests := RunRecorded(s.flakyTests, tc.id, tc.name, true, now)))
      case Some(m) => Some(s.(failures := s.failures + [FailureRow(|s.failures| + 1, FailureFor(tc, m, now))]))
  }

  /** The inputs of one test run: a page state per attempt, the clock
   *  reading, whether the failure screenshot could be taken, and the
   *  run's timing. */
  datatype TestEnv = TestEnv(
    pages: nat -> Page,
    now: string,
    screenshotTaken: bool,
    duration: int,
    startTime: string,
    endTime: string)

  /** The attempts from `k` on, up to `cap`, with the tables they leave. */
  function AttemptsFrom(tc: TestCase, env: TestEnv, k: nat, cap: nat, kb: Option<Store>): (seq<Option<string>>, Option<Store>)
    decreases cap - k
  {
    if k >= cap then ([], kb)
    else
      var (e, k1) := AttemptRun(tc, env.pages(k), kb, env.now);
      var k2 := Recorded(tc, e, k1, env.now);
      if e.None? then ([None], k2)
      else
        var (rest, k3) := AttemptsFrom(tc, env, k + 1, cap, k2);
        ([e] + rest, k3)
  }

  /** The failure rows logged for the failed attempts `fails`, numbered on
   *  from `start`. */
  function FailureRows(tc: TestCase, start: nat, fails: seq<string>, now: string): seq<TestFailure>
    decreases |fails|
  {
    if |fails| == 0 then []
    else [FailureRow(start + 1, FailureFor(tc, fails[0], now))] + FailureRows(tc, start + 1, fails[1..], now)
  }

  /** The messages of the failed attempts. */
  function FailedMessages(outcomes: seq<Option<string>>): seq<string>
    decreases |outcomes|
  {
    if |outcomes| == 0 then []
    else match outcomes[0]
      case Some(m) => [m] + FailedMessages(outcomes[1..])
      case None => FailedMessages(outcomes[1..])
  }

  /** One more attempt, unfolded. */
  lemma AttemptsFromStep(tc: TestCase, env: TestEnv, k: nat, cap: nat, kb: Option<Store>)
    requires k < cap
    ensures var (e, k1) := AttemptRun(tc, env.pages(k), kb, env.now);
      var k2 := Recorded(tc, e, k1, env.now);
      AttemptsFrom(tc, env, k, cap, kb) ==
        if e.None? then ([None], k2)
        else ([e] + AttemptsFrom(tc, env, k + 1, cap, k2).0, AttemptsFrom(tc, env, k + 1, cap, k2).1)
  {
  }

  /** The attempts have the retry loop's shape, and the knowledge base is
   *  there after them exactly when it was before. */
  lemma {:induction false} AttemptsFromShape(tc: TestCase, env: TestEnv, k: nat, cap: nat, kb: Option<Store>)
    requires k <= cap
    ensures var (outs, after) := AttemptsFrom(tc, env, k, cap, kb);
      && |outs| <= cap - k
      && (forall i :: 0 <= i < |outs| - 1 ==> outs[i].Some?)
      && (|outs| == cap - k || PassedLast(outs))
      && (kb.None? <==> after.None?)
    decreases cap - k
  {
    if k < cap {
      var (e, k1) := AttemptRun(tc, env.pages(k), kb, env.now);
      AttemptRunGrows(tc, env.pages(k), kb, env.now);
      var k2 := Recorded(tc, e, k1, env.now);
      if e.Some? {
        AttemptsFromShape(tc, env, k + 1, cap, k2);
        var rest := AttemptsFrom(tc, env, k + 1, cap, k2).0;
        var outs := [e] + rest;
        if |rest| > 0 {
          assert outs[|outs| - 1] == rest[|rest| - 1];
        }
        assert forall i :: 1 <= i < |outs| ==> outs[i] == rest[i - 1];
      }
    }
  }

  /** Each failed attempt logs one failure, in order and numbered on; a
   *  passing attempt records one passing run; nothing else touches those
   *  two tables. */
  lemma {:induction false} AttemptsFromLog(tc: TestCase, env: TestEnv, k: nat, cap: nat, s: Store)
    requires k <= cap
    ensures var (outs, after) := AttemptsFrom(tc, env, k, cap, Some(s));
      && after.Some?
      && after.value.failures == s.failures + FailureRows(tc, |s.failures|, FailedMessages(outs), env.now)
      && after.value.flakyTests ==
           (if PassedLast(outs) then RunRecorded(s.flakyTests, tc.id, tc.name, true, env.now) else s.flakyTests)
    decreases cap - k
  {
    if k < cap {
      var (e, k1) := AttemptRun(tc, env.pages(k), Some(s), env.now);
      AttemptRunGrows(tc, env.pages(k), Some(s), env.now);
      var k2 := Recorded(tc, e, k1, env.now);
      if e.Some? {
        AttemptsFromLog(tc, env, k + 1, cap, k2.value);
        var rest := AttemptsFrom(tc, env, k + 1, cap, k2).0;
        ConsFailed(tc, s.failures, e.value, rest, env.now);
      } else {
        assert FailedMessages([None]) == [];
      }
    }
  }

  /** A failed attempt before `rest`: its row comes first. */
  lemma ConsFailed(tc: TestCase, failures: seq<TestFailure>, m: string, rest: seq<Option<string>>, now: string)
    ensures PassedLast([Some(m)] + rest) == PassedLast(rest)
    ensures failures + [FailureRow(|failures| + 1, FailureFor(tc, m, now))]
              + FailureRows(tc, |failures| + 1, FailedMessages(rest), now)
            == failures + FailureRows(tc, |failures|, FailedMessages([Some(m)] + rest), now)
  {
    var outs := [Some(m)] + rest;
    assert outs[1..] == rest;
    if |rest| > 0 {
      assert outs[|outs| - 1] == rest[|rest| - 1];
    }
    assert FailedMessages(outs) == [m] + FailedMessages(rest);
    assert ([m] + FailedMessages(rest))[1..] == FailedMessages(rest);
  }

  /** The attempts of a test. */
  function TestAttempts(tc: TestCase, options: AdapterOptions, env: TestEnv, kb: Option<Store>): (seq<Option<string>>, Option<Store>) {
    AttemptsFrom(tc, env, 0, AttemptCap(options.retries), kb)
  }

  /** The screenshot of a final failure, when it was asked for and could be
   *  taken. */
  function Screenshot(tc: TestCase, options: AdapterOptions, env: TestEnv, status: Status): Option<string> {
    if status == Fail && options.screenshotOnFail && env.screenshotTaken then
      Some(options.artifactsDir + "/" + tc.id + "-fail.png")
    else None
  }

  /** The result of a test. */
  function TestResultOf(tc: TestCase, options: AdapterOptions, env: TestEnv, kb: Option<Store>): TestResult {
    var outcomes := TestAttempts(tc, options, env, kb).0;
    var status := StatusOf(outcomes, options.retries);
    var shot := Screenshot(tc, options, env, status);
    TestResult(tc.id, tc.name, status, env.duration, RetriesOf(outcomes), env.startTime, env.endTime,
               ErrorOf(outcomes, shot), match shot case Some(p) => [p] case None => [])
  }

  /** The tables after a test: a final failure records a failing run. */
  function TestStoreOf(tc: TestCase, options: AdapterOptions, env: TestEnv, kb: Option<Store>): Option<Store> {
    var (outcomes, after) := TestAttempts(tc, options, env, kb);
    if StatusOf(outcomes, options.retries) == Fail && after.Some? then
      Some(after.value.(flakyTests := RunRecorded(after.value.flakyTests, tc.id, tc.name, false, env.now)))
    else after
  }

  /** Every test run with at least one attempt is counted exactly once in
   *  the flakiness table, as passed unless its status is `fail`; each
   *  failed attempt logs one open failure, whatever the final status. */
  lemma TestStoreSpec(tc: TestCase, options: AdapterOptions, env: TestEnv, s: Store)
    ensures var outcomes := TestAttempts(tc, options, env, Some(s)).0;
      var after := TestStoreOf(tc, options, env, Some(s));
      var status := TestResultOf(tc, options, env, Some(s)).status;
      && after.Some?
      && after.value.flakyTests ==
           (if |outcomes| == 0 then s.flakyTests
            else RunRecorded(s.flakyTests, tc.id, tc.name, status != Fail, env.now))
      && after.value.failures == s.failures + FailureRows(tc, |s.failures|, FailedMessages(outcomes), env.now)
      && |FailedMessages(outcomes)| == TestResultOf(tc, options, env, Some(s)).retries
  {
    var cap := AttemptCap(options.retries);
    var outcomes := TestAttempts(tc, options, env, Some(s)).0;
    AttemptsFromShape(tc, env, 0, cap, Some(s));
    AttemptsFromLog(tc, env, 0, cap, s);
    RetryRule(outcomes, options.retries);
    RetriesCountFailures(outcomes, cap);
    FailedMessagesCount(outcomes);
  }

  lemma {:induction false} FailedMessagesCount(outcomes: seq<Option<string>>)
    ensures |FailedMessages(outcomes)| == FailedAttempts(outcomes)
    decreases |outcomes|
  {
    if |outcomes| > 0 {
      var init := outcomes[..|outcomes| - 1];
      FailedMessagesCount(outcomes[1..]);
      FailedMessagesSnoc(init, outcomes[|outcomes| - 1]);
      FailedMessagesCount(init);
      assert init + [outcomes[|outcomes| - 1]] == outcomes;
    }
  }

  lemma {:induction false} FailedMessagesSnoc(outcomes: seq<Option<string>>, o: Option<string>)
    ensures FailedMessages(outcomes + [o]) == FailedMessages(outcomes) + (if o.Some? then [o.value] else [])
    decreases |outcomes|
  {
    if |outcomes| > 0 {
      assert (outcomes + [o])[1..] == outcomes[1..] + [o];
      FailedMessagesSnoc(outcomes[1..], o);
    } else {
      assert [o][1..] == [];
    }
  }

  /** The retry rule holds for the Selenium runner as well: a test fails
   *  exactly when every one of its `retries + 1` attempts fails, passes
   *  exactly when it is not attempted or its first attempt passes, and is
   *  never skipped; the error is reported whenever an attempt failed, and
   *  the screenshot only with a final failure. */
  lemma TestResultSpec(tc: TestCase, options: AdapterOptions, env: TestEnv, kb: Option<Store>)
    ensures var outcomes := TestAttempts(tc, options, env, kb).0;
      var r := TestResultOf(tc, options, env, kb);
      && |outcomes| <= AttemptCap(options.retries)
      && (r.status == Fail <==> |outcomes| > 0 && forall i :: 0 <= i < |outcomes| ==> outcomes[i].Some?)
      && (r.status == Pass <==> |outcomes| == 0 || outcomes[0].None?)
      && r.status != Skip
      && r.retries == FailedAttempts(outcomes)
      && (r.error.Some? <==> r.retries > 0)
      && (|r.artifacts| > 0 ==> r.status == Fail && r.error.Some? && r.error.value.screenshot == Some(r.artifacts[0]))
  {
    var cap := AttemptCap(options.retries);
    var outcomes := TestAttempts(tc, options, env, kb).0;
    AttemptsFromShape(tc, env, 0, cap, kb);
    RetryRule(outcomes, options.retries);
    RetriesCountFailures(outcomes, cap);
  }

  // ---------------------------------------------------------------------
  // The runner's methods

  /** `executeWithHealing`. */
  method ExecuteWithHealing(target: Option<Target>, act: string -> Option<string>, probe: string -> bool,
                            kb: KnowledgeBase?, context: string, now: string) returns (err: Option<string>)
    requires kb != null ==> kb.Valid()
    modifies kb
    ensures kb != null ==> kb.Valid()
    ensures (err, StoreOf(kb)) == WithHealing(target, act, probe, old(StoreOf(kb)), context, now)
  {
    var resolved := ResolveSelector(target);
    if resolved.Err? {
      return Some(Thrown(resolved.error));
    }
    err := act(resolved.value);
    if err.Some? && kb != null && target.Some? && target.value.ByElement? {
      var h := AttemptSelectorHealing(target.value.e, kb, probe, Some(context), now);
      if h.success && Truthy(h.selector) {
        err := act(h.selector.value);
      }
    }
  }

  /** `executeStep`. */
  method ExecuteStep(step: TestStep, page: Page, kb: KnowledgeBase?, context: string, now: string) returns (err: Option<string>)
    requires kb != null ==> kb.Valid()
    modifies kb
    ensures kb != null ==> kb.Valid()
    ensures (err, StoreOf(kb)) == StepRun(step, page, old(StoreOf(kb)), context, now)
  {
    match step.action
    case Navigate => err := page.plain(step);
    case Wait => err := page.plain(step);
    case Screenshot => err := page.plain(step);
    case Hover => err := None;
    case _ => err := ExecuteWithHealing(step.target, StepAction(page, step), Locates(page), kb, context, now);
  }

  /** The `visible` branch of `executeAssertion`. */
  method CheckVisible(target: Target, page: Page, kb: KnowledgeBase?, context: string, now: string) returns (err: Option<string>)
    requires kb != null ==> kb.Valid()
    modifies kb
    ensures kb != null ==> kb.Valid()
    ensures (err, StoreOf(kb)) == VisibleRun(target, page, old(StoreOf(kb)), context, now)
  {
    var resolved := ResolveSelector(Some(target));
    if resolved.Err? {
      return Some(Thrown(resolved.error));
    }
    err := VisibleError(page, resolved.value);
    if err.Some? && kb != null && target.ByElement? {
      var h := AttemptSelectorHealing(target.e, kb, Shows(page), Some(context), now);
      if h.success {
        err := None;
      }
    }
  }

  /** `executeAssertion`. */
  method ExecuteAssertion(a: Assertion, page: Page, kb: KnowledgeBase?, context: string, now: string) returns (err: Option<string>)
    requires kb != null ==> kb.Valid()
    modifies kb
    ensures kb != null ==> kb.Valid()
    ensures (err, StoreOf(kb)) == AssertRun(a, page, old(StoreOf(kb)), context, now)
  {
    match a.atype {
      case IsVisible =>
        err := CheckVisible(a.target, page, kb, context, now);
      case HasUrl =>
        err := ThrownIf(UrlCheck(page.url, a.expected, a.operator));
      case HasText =>
        err := TextError(a, page);
      case _ =>
        err := None;
    }
  }

  /** One attempt: every step, then every assertion, up to the first
   *  error. */
  method RunAttempt(tc: TestCase, page: Page, kb: KnowledgeBase?, now: string) returns (err: Option<string>)
    requires kb != null ==> kb.Valid()
    modifies kb
    ensures kb != null ==> kb.Valid()
    ensures (err, StoreOf(kb)) == AttemptRun(tc, page, old(StoreOf(kb)), now)
  {
    ghost var start := StoreOf(kb);
    ghost var afterSteps := StepsFrom(tc.flow, 0, page, start, tc.id, now);
    for i := 0 to |tc.flow|
      invariant kb != null ==> kb.Valid()
      invariant StepsFrom(tc.flow, i, page, StoreOf(kb), tc.id, now) == afterSteps
    {
      err := ExecuteStep(tc.flow[i], page, kb, tc.id, now);
      if err.Some? {
        return;
      }
    }
    ghost var mid := StoreOf(kb);
    for i := 0 to |tc.assertions|
      invariant kb != null ==> kb.Valid()
      invariant AssertsFrom(tc.assertions, i, page, StoreOf(kb), tc.id, now) == AssertsFrom(tc.assertions, 0, page, mid, tc.id, now)
    {
      err := ExecuteAssertion(tc.assertions[i], page, kb, tc.id, now);
      if err.Some? {
        return;
      }
    }
    err := None;
  }

  /** An attempt's bookkeeping in the knowledge base. */
  method RecordAttemptOutcome(tc: TestCase, e: Option<string>, kb: KnowledgeBase?, now: string)
    requires kb != null ==> kb.Valid()
    modifies kb
    ensures kb != null ==> kb.Valid()
    ensures StoreOf(kb) == Recorded(tc, e, old(StoreOf(kb)), now)
  {
    if kb != null {
      if e.None? {
        kb.RecordTestRun(tc.id, tc.name, true, now);
      } else {
        var _ := kb.RecordFailure(FailureFor(tc, e.value, now));
      }
    }
  }

  /** The state of the retry loop before attempt `k`: the attempts made,
   *  `outs`, followed by those still to come, `rem`, are all of them;
   *  after a pass (`done`) the attempts are complete. */
  ghost predicate RetryState(tc: TestCase, env: TestEnv, cap: nat, all: (seq<Option<string>>, Option<Store>),
                             k: nat, store: Option<Store>, outs: seq<Option<string>>,
                             rem: (seq<Option<string>>, Option<Store>), error: Option<string>, retries: nat, done: bool)
  {
    && error == LastError(outs) && retries == RetriesOf(outs) && PassedLast(outs) == done
    && (done ==> outs == all.0 && store == all.1)
    && (!done ==> k <= cap && |outs| == k && rem == AttemptsFrom(tc, env, k, cap, store)
                  && outs + rem.0 == all.0 && rem.1 == all.1)
  }

  /** Attempt `k`, with its bookkeeping in the knowledge base and in the
   *  loop's `error` and `retries` counters. */
  method AttemptOnce(tc: TestCase, env: TestEnv, k: nat, ghost cap: nat, ghost all: (seq<Option<string>>, Option<Store>),
                     kb: KnowledgeBase?, ghost outs: seq<Option<string>>, ghost rem: (seq<Option<string>>, Option<Store>),
                     error: Option<string>, retries: nat)
    returns (passed: bool, error': Option<string>, retries': nat,
             ghost outs': seq<Option<string>>, ghost rem': (seq<Option<string>>, Option<Store>))
    requires k < cap
    requires RetryState(tc, env, cap, all, k, StoreOf(kb), outs, rem, error, retries, false)
    requires kb != null ==> kb.Valid()
    modifies kb
    ensures kb != null ==> kb.Valid()
    ensures RetryState(tc, env, cap, all, if passed then k else k + 1, StoreOf(kb), outs', rem', error', retries', passed)
    ensures |outs'| == k + 1
  {
    ghost var before := StoreOf(kb);
    var e := RunAttempt(tc, env.pages(k), kb, env.now);
    ghost var mid := StoreOf(kb);
    RecordAttemptOutcome(tc, e, kb, env.now);
    ghost var after := StoreOf(kb);
    outs' := outs + [e];
    passed := e.None?;
    if e.Some? {
      rem' := AttemptsFrom(tc, env, k + 1, cap, after);
      error', retries' := e, k + 1;
    } else {
      rem' := rem;
      error', retries' := error, retries;
    }
    RetryNext(tc, env, cap, all, k, before, outs, rem, error, retries, e, mid, after);
  }

  /** The retry loop's state after attempt `k`, which failed with `e` or
   *  passed (`e` is `None`), leaving the tables `after`. */
  lemma RetryNext(tc: TestCase, env: TestEnv, cap: nat, all: (seq<Option<string>>, Option<Store>), k: nat,
                  before: Option<Store>, outs: seq<Option<string>>, rem: (seq<Option<string>>, Option<Store>),
                  error: Option<string>, retries: nat, e: Option<string>, mid: Option<Store>, after: Option<Store>)
    requires k < cap
    requires RetryState(tc, env, cap, all, k, before, outs, rem, error, retries, false)
    requires (e, mid) == AttemptRun(tc, env.pages(k), before, env.now) && after == Recorded(tc, e, mid, env.now)
    ensures RetryState(tc, env, cap, all, if e.None? then k else k + 1, after, outs + [e],
                       if e.Some? then AttemptsFrom(tc, env, k + 1, cap, after) else rem,
                       if e.Some? then e else error, if e.Some? then k + 1 else retries, e.None?)
  {
    AttemptsFromStep(tc, env, k, cap, before);
    AttemptSnoc(outs, e);
    if e.Some? {
      assert (outs + [e]) + AttemptsFrom(tc, env, k + 1, cap, after).0 == outs + rem.0;
    }
  }

  /** The retry loop of `executeTest`. */
  method RetryLoop(tc: TestCase, env: TestEnv, maxRetries: int, kb: KnowledgeBase?)
    returns (flaky: bool, error: Option<string>, retries: nat, ghost outs: seq<Option<string>>)
    requires kb != null ==> kb.Valid()
    modifies kb
    ensures kb != null ==> kb.Valid()
    ensures (outs, StoreOf(kb)) == AttemptsFrom(tc, env, 0, AttemptCap(maxRetries), old(StoreOf(kb)))
    ensures flaky == (PassedLast(outs) && |outs| > 1) && error == LastError(outs) && retries == RetriesOf(outs)
  {
    ghost var cap := AttemptCap(maxRetries);
    ghost var all := AttemptsFrom(tc, env, 0, cap, StoreOf(kb));
    ghost var rem := all;
    flaky, error, retries := false, None, 0;
    outs := [];
    var attempt: nat := 0;
    var done := false;
    while attempt <= maxRetries && !done
      invariant kb != null ==> kb.Valid()
      invariant RetryState(tc, env, cap, all, attempt, StoreOf(kb), outs, rem, error, retries, done)
      invariant flaky == (done && |outs| > 1)
      decreases cap - attempt, if done then 0 else 1
    {
      done, error, retries, outs, rem := AttemptOnce(tc, env, attempt, cap, all, kb, outs, rem, error, retries);
      if done {
        flaky := attempt > 0;
      } else {
        attempt := attempt + 1;
      }
    }
    if !done {
      assert rem.0 == [];
      assert outs + [] == outs;
    }
  }

  /** The loop's counters after one more attempt. */
  lemma AttemptSnoc(outs: seq<Option<string>>, e: Option<string>)
    ensures LastError(outs + [e]) == if e.Some? then e else LastError(outs)
    ensures RetriesOf(outs + [e]) == if e.Some? then |outs| + 1 else RetriesOf(outs)
    ensures PassedLast(outs + [e]) == e.None?
  {
    assert (outs + [e])[..|outs|] == outs;
  }

  /** `executeTest`. */
  method ExecuteTest(tc: TestCase, options: AdapterOptions, env: TestEnv, kb: KnowledgeBase?) returns (r: TestResult)
    requires kb != null ==> kb.Valid()
    modifies kb
    ensures kb != null ==> kb.Valid()
    ensures r == TestResultOf(tc, options, env, old(StoreOf(kb)))
    ensures StoreOf(kb) == TestStoreOf(tc, options, env, old(StoreOf(kb)))
  {
    var flaky, error, retries, outs := RetryLoop(tc, env, options.retries, kb);
    var status := if flaky then Flaky else Pass;
    var artifacts: seq<string> := [];
    var shot: Option<string> := None;
    if error.Some? && retries > options.retries {
      status := Fail;
      if kb != null {
        kb.RecordTestRun(tc.id, tc.name, false, env.now);
      }
      if options.screenshotOnFail && env.screenshotTaken {
        var path := options.artifactsDir + "/" + tc.id + "-fail.png";
        artifacts := artifacts + [path];
        shot := Some(path);
      }
    }
    r := TestResult(tc.id, tc.name, status, env.duration, retries, env.startTime, env.endTime,
                    match error case Some(m) => Some(ErrorDetails(m, shot)) case None => None, artifacts);
  }

  // ---------------------------------------------------------------------
  // Suites and the run

  /** The results of a suite's tests, test `i` run in `env(i)`, with the
   *  tables they leave. */
  function ResultsOf(tests: seq<TestCase>, options: AdapterOptions, env: nat -> TestEnv, kb: Option<Store>): (seq<TestResult>, Option<Store>)
    decreases |tests|
  {
    if |tests| == 0 then ([], kb)
    else
      var n := |tests| - 1;
      var (rs, s) := ResultsOf(tests[..n], options, env, kb);
      (rs + [TestResultOf(tests[n], options, env(n), s)], TestStoreOf(tests[n], options, env(n), s))
  }

  lemma ResultsOfSnoc(tests: seq<TestCase>, i: nat, options: AdapterOptions, env: nat -> TestEnv, kb: Option<Store>)
    requires i < |tests|
    ensures var (rs, s) := ResultsOf(tests[..i], options, env, kb);
      ResultsOf(tests[..i + 1], options, env, kb)
        == (rs + [TestResultOf(tests[i], options, env(i), s)], TestStoreOf(tests[i], options, env(i), s))
  {
    assert tests[..i + 1][..i] == tests[..i];
  }

  /** `executeSuite`. */
  method ExecuteSuite(suite: TestSuite, options: AdapterOptions, env: nat -> TestEnv, kb: KnowledgeBase?) returns (r: SuiteResult)
    requires kb != null ==> kb.Valid()
    modifies kb
    ensures kb != null ==> kb.Valid()
    ensures r == SuiteResultOf(suite.id, suite.name, ResultsOf(suite.tests, options, env, old(StoreOf(kb))).0)
    ensures StoreOf(kb) == ResultsOf(suite.tests, options, env, old(StoreOf(kb))).1
  {
    ghost var start := StoreOf(kb);
    var results: seq<TestResult> := [];
    for i := 0 to |suite.tests|
      invariant kb != null ==> kb.Valid()
      invariant (results, StoreOf(kb)) == ResultsOf(suite.tests[..i], options, env, start)
    {
      ResultsOfSnoc(suite.tests, i, options, env, start);
      var result := ExecuteTest(suite.tests[i], options, env(i), kb);
      results := results + [result];
    }
    assert suite.tests[..|suite.tests|] == suite.tests;
    r := SuiteResultOf(suite.id, suite.name, results);
  }

  lemma {:induction false} ResultsNeverSkip(tests: seq<TestCase>, options: AdapterOptions, env: nat -> TestEnv, kb: Option<Store>)
    ensures var rs := ResultsOf(tests, options, env, kb).0;
      |rs| == |tests| && forall i :: 0 <= i < |rs| ==> rs[i].status != Skip
    decreases |tests|
  {
    if |tests| > 0 {
      var n := |tests| - 1;
      ResultsNeverSkip(tests[..n], options, env, kb);
      TestResultSpec(tests[n], options, env(n), ResultsOf(tests[..n], options, env, kb).1);
    }
  }

  /** A suite has one result per test and never a skipped one. */
  lemma SuiteNeverSkips(suite: TestSuite, options: AdapterOptions, env: nat -> TestEnv, kb: Option<Store>)
    ensures var r := SuiteResultOf(suite.id, suite.name, ResultsOf(suite.tests, options, env, kb).0);
      r.skipped == 0 && |r.tests| == |suite.tests| && r.passed + r.failed + r.flaky == |suite.tests|
  {
    var results := ResultsOf(suite.tests, options, env, kb).0;
    ResultsNeverSkip(suite.tests, options, env, kb);
    CountAbsentStatus(results, Skip);
    StatusCountsPartition(results);
  }

  /** The suite results of a run, suite `j` run in `envs(j)`, with the
   *  tables they leave. */
  function SuitesOf(suites: seq<TestSuite>, options: AdapterOptions, envs: nat -> nat -> TestEnv, kb: Option<Store>): (seq<SuiteResult>, Option<Store>)
    decreases |suites|
  {
    if |suites| == 0 then ([], kb)
    else
      var n := |suites| - 1;
      var (rs, s) := SuitesOf(suites[..n], options, envs, kb);
      var (tests, s2) := ResultsOf(suites[n].tests, options, envs(n), s);
      (rs + [SuiteResultOf(suites[n].id, suites[n].name, tests)], s2)
  }

  lemma SuitesOfSnoc(suites: seq<TestSuite>, j: nat, options: AdapterOptions, envs: nat -> nat -> TestEnv, kb: Option<Store>)
    requires j < |suites|
    ensures var (rs, s) := SuitesOf(suites[..j], options, envs, kb);
      var (tests, s2) := ResultsOf(suites[j].tests, options, envs(j), s);
      SuitesOf(suites[..j + 1], options, envs, kb) == (rs + [SuiteResultOf(suites[j].id, suites[j].name, tests)], s2)
  {
    assert suites[..j + 1][..j] == suites[..j];
  }

  /** The parts of a run result the model keeps. */
  datatype RunResult = RunResult(runId: string, runner: string, retries: int, suites: seq<SuiteResult>, summary: Summary)

  /** `execute`: every suite in order, then the summary. */
  method Execute(plan: TestPlan, options: AdapterOptions, envs: nat -> nat -> TestEnv, kb: KnowledgeBase?, runId: string)
    returns (r: RunResult)
    requires kb != null ==> kb.Valid()
    modifies kb
    ensures kb != null ==> kb.Valid()
    ensures r.suites == SuitesOf(plan.suites, options, envs, old(StoreOf(kb))).0
    ensures StoreOf(kb) == SuitesOf(plan.suites, options, envs, old(StoreOf(kb))).1
    ensures r.summary == CalculateSummary(r.suites)
    ensures r.runner == "selenium" && r.runId == runId && r.retries == options.retries
  {
    ghost var start := StoreOf(kb);
    var results: seq<SuiteResult> := [];
    for j := 0 to |plan.suites|
      invariant kb != null ==> kb.Valid()
      invariant (results, StoreOf(kb)) == SuitesOf(plan.suites[..j], options, envs, start)
    {
      SuitesOfSnoc(plan.suites, j, options, envs, start);
      var sr := ExecuteSuite(plan.suites[j], options, envs(j), kb);
      results := results + [sr];
    }
    assert plan.suites[..|plan.suites|] == plan.suites;
    r := RunResult(runId, "selenium", options.retries, results, CalculateSummary(results));
  }

  lemma {:induction false} SuitesOfCounted(suites: seq<TestSuite>, options: AdapterOptions, envs: nat -> nat -> TestEnv, kb: Option<Store>)
    ensures var rs := SuitesOf(suites, options, envs, kb).0;
      |rs| == |suites| && forall i :: 0 <= i < |rs| ==> SuiteCounted(rs[i]) && rs[i].skipped == 0
    decreases |suites|
  {
    if |suites| > 0 {
      var n := |suites| - 1;
      var (rs, st) := SuitesOf(suites[..n], options, envs, kb);
      var last := SuiteResultOf(suites[n].id, suites[n].name, ResultsOf(suites[n].tests, options, envs(n), st).0);
      assert SuitesOf(suites, options, envs, kb).0 == rs + [last];
      SuitesOfCounted(suites[..n], options, envs, kb);
      SuiteNeverSkips(suites[n], options, envs(n), st);
    }
  }

  lemma {:induction false} SumSkippedZero(suites: seq<SuiteResult>)
    requires forall i :: 0 <= i < |suites| ==> suites[i].skipped == 0
    ensures SumSkipped(suites) == 0
    decreases |suites|
  {
    if |suites| > 0 {
      SumSkippedZero(suites[..|suites| - 1]);
    }
  }

  /** A run's summary never counts a skipped test; every test counts once
   *  under pass, fail or flaky, and the pass rate is a percentage. */
  lemma RunSummarySpec(suites: seq<TestSuite>, options: AdapterOptions, envs: nat -> nat -> TestEnv, kb: Option<Store>)
    ensures var s := CalculateSummary(SuitesOf(suites, options, envs, kb).0);
      && s.skipped == 0
      && s.passed + s.failed + s.flaky == s.totalTests
      && s.passRate <= 100
      && (s.totalTests == 0 ==> s.passRate == 0)
  {
    var rs := SuitesOf(suites, options, envs, kb).0;
    SuitesOfCounted(suites, options, envs, kb);
    SumSkippedZero(rs);
    SummarySpec(rs);
  }
}
