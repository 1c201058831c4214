/** The learning store: element signatures with their selector
 *  alternatives and healing counters, the selector-attempt log, recorded
 *  test failures, and per-test flakiness aggregates. Each table is a
 *  sequence of rows in insertion order; `ORDER BY … LIMIT …` queries are
 *  a filter, a stable sort and a prefix. */
module KnowledgeStore {
  import opened Wrappers
  import opened Text
  import opened Seqs
  import opened Sorting

  /** A row of `element_signatures`. The alternative selectors are kept as
   *  the list the JSON text encodes. */
  datatype ElementSignature = ElementSignature(
    id: string,
    elementId: string,
    role: string,
    text: Option<string>,
    attributes: string,
    primarySelector: string,
    alternativeSelectors: seq<string>,
    stability: real,
    lastSeen: string,
    successCount: nat,
    failCount: nat)

  /** What `upsertSignature` is given: a signature without its counters. */
  datatype SignatureInput = SignatureInput(
    id: string,
    elementId: string,
    role: string,
    text: Option<string>,
    attributes: string,
    primarySelector: string,
    alternativeSelectors: seq<string>,
    stability: real,
    lastSeen: string)

  datatype SelectorAttempt = SelectorAttempt(
    id: nat,
    signatureId: string,
    selector: string,
    success: bool,
    timestamp: string,
    context: Option<string>)

  datatype AttemptInput = AttemptInput(
    signatureId: string,
    selector: string,
    success: bool,
    timestamp: string,
    context: Option<string>)

  datatype TestFailure = TestFailure(
    id: nat,
    testId: string,
    testName: string,
    route: Option<string>,
    errorType: string,
    errorMessage: string,
    selector: Option<string>,
    timestamp: string,
    resolved: bool,
    suggestedFix: Option<string>)

  datatype FailureInput = FailureInput(
    testId: string,
    testName: string,
    route: Option<string>,
    errorType: string,
    errorMessage: string,
    selector: Option<string>,
    timestamp: string,
    resolved: bool,
    suggestedFix: Option<string>)

  datatype FlakyTest = FlakyTest(
    testId: string,
    testName: string,
    totalRuns: nat,
    failures: nat,
    flakinessScore: real,
    lastFailure: Option<string>)

  /** `value || null`: an empty string is stored as NULL. */
  function NullIfEmpty(o: Option<string>): (r: Option<string>)
    ensures r.Some? ==> r.value != "" && r == o
    ensures Truthy(o) ==> r == o
  {
    if Truthy(o) then o else None
  }

  // ---- element_signatures ----

  predicate UniqueSignatureIds(rows: seq<ElementSignature>) {
    forall i, j :: 0 <= i < j < |rows| ==> rows[i].id != rows[j].id
  }

  function NewSignature(sig: SignatureInput): ElementSignature {
    ElementSignature(sig.id, sig.elementId, sig.role, NullIfEmpty(sig.text), sig.attributes,
      sig.primarySelector, sig.alternativeSelectors, sig.stability, sig.lastSeen, 0, 0)
  }

  /** The `ON CONFLICT(id) DO UPDATE` assignments. */
  function Refreshed(row: ElementSignature, sig: SignatureInput): ElementSignature {
    row.(text := NullIfEmpty(sig.text), attributes := sig.attributes, primarySelector := sig.primarySelector,
      alternativeSelectors := sig.alternativeSelectors, stability := sig.stability, lastSeen := sig.lastSeen)
  }

  function SignatureIndex(rows: seq<ElementSignature>, id: string): Option<nat> {
    FindIndex(rows, (r: ElementSignature) => r.id == id)
  }

  /** The table after `upsertSignature`. */
  function Upserted(rows: seq<ElementSignature>, sig: SignatureInput): seq<ElementSignature> {
    match SignatureIndex(rows, sig.id)
    case Some(i) => rows[i := Refreshed(rows[i], sig)]
    case None => rows + [NewSignature(sig)]
  }

  /** A new id is appended with both counters at zero. */
  lemma UpsertInserts(rows: seq<ElementSignature>, sig: SignatureInput)
    requires forall r :: r in rows ==> r.id != sig.id
    ensures Upserted(rows, sig) == rows + [NewSignature(sig)]
    ensures Upserted(rows, sig)[|rows|].successCount == 0 && Upserted(rows, sig)[|rows|].failCount == 0
  {
    assert forall j :: 0 <= j < |rows| ==> rows[j] in rows;
  }

  /** An existing id keeps its identity and counters; only the six
   *  refreshed columns change, and no other row does. */
  lemma UpsertRefreshes(rows: seq<ElementSignature>, sig: SignatureInput, i: nat)
    requires UniqueSignatureIds(rows) && i < |rows| && rows[i].id == sig.id
    ensures var r := Upserted(rows, sig);
      && |r| == |rows|
      && (forall j :: 0 <= j < |rows| && j != i ==> r[j] == rows[j])
      && r[i].id == rows[i].id && r[i].elementId == rows[i].elementId && r[i].role == rows[i].role
      && r[i].successCount == rows[i].successCount && r[i].failCount == rows[i].failCount
      && r[i].text == NullIfEmpty(sig.text) && r[i].attributes == sig.attributes
      && r[i].primarySelector == sig.primarySelector && r[i].alternativeSelectors == sig.alternativeSelectors
      && r[i].stability == sig.stability && r[i].lastSeen == sig.lastSeen
  {
    FindIndexUnique(rows, (r: ElementSignature) => r.id == sig.id, i);
  }

  lemma UpsertKeepsUnique(rows: seq<ElementSignature>, sig: SignatureInput)
    requires UniqueSignatureIds(rows)
    ensures UniqueSignatureIds(Upserted(rows, sig))
    ensures exists i :: 0 <= i < |Upserted(rows, sig)| && Upserted(rows, sig)[i].id == sig.id
  {
    match SignatureIndex(rows, sig.id)
    case Some(i) =>
      assert Upserted(rows, sig)[i].id == sig.id;
    case None =>
      assert Upserted(rows, sig)[|rows|].id == sig.id;
  }

  /** The table after `incrementSuccess` (`success`) or `incrementFail`. */
  function Bumped(rows: seq<ElementSignature>, id: string, success: bool): seq<ElementSignature> {
    Map(rows, (r: ElementSignature) => if r.id != id then r
                   else if success then r.(successCount := r.successCount + 1)
                   else r.(failCount := r.failCount + 1))
  }

  /** The named row gains one on exactly one counter; nothing else changes,
   *  and an unknown id changes nothing. */
  lemma BumpedSpec(rows: seq<ElementSignature>, id: string, success: bool)
    ensures |Bumped(rows, id, success)| == |rows|
    ensures forall j :: 0 <= j < |rows| && rows[j].id != id ==> Bumped(rows, id, success)[j] == rows[j]
    ensures forall j :: 0 <= j < |rows| && rows[j].id == id ==>
      Bumped(rows, id, success)[j]
        == if success then rows[j].(successCount := rows[j].successCount + 1)
           else rows[j].(failCount := rows[j].failCount + 1)
    ensures (forall r :: r in rows ==> r.id != id) ==> Bumped(rows, id, success) == rows
  {
  }

  // ---- selector_attempts and test_failures ----

  /** AUTOINCREMENT ids with no deletions: row `i` has id `i + 1`. */
  predicate AttemptsNumbered(rows: seq<SelectorAttempt>) {
    forall i :: 0 <= i < |rows| ==> rows[i].id == i + 1
  }

  predicate FailuresNumbered(rows: seq<TestFailure>) {
    forall i :: 0 <= i < |rows| ==> rows[i].id == i + 1
  }

  function AttemptRow(id: nat, a: AttemptInput): SelectorAttempt {
    SelectorAttempt(id, a.signatureId, a.selector, a.success, a.timestamp, NullIfEmpty(a.context))
  }

  function FailureRow(id: nat, f: FailureInput): TestFailure {
    TestFailure(id, f.testId, f.testName, NullIfEmpty(f.route), f.errorType, f.errorMessage,
      NullIfEmpty(f.selector), f.timestamp, f.resolved, NullIfEmpty(f.suggestedFix))
  }

  function NewestAttemptFirst(a: SelectorAttempt, b: SelectorAttempt): bool {
    LexLe(b.timestamp, a.timestamp)
  }

  function NewestFailureFirst(a: TestFailure, b: TestFailure): bool {
    LexLe(b.timestamp, a.timestamp)
  }

  lemma NewestAttemptFirstOrders()
    ensures TotalPreorder(NewestAttemptFirst)
  {
    forall a, b ensures NewestAttemptFirst(a, b) || NewestAttemptFirst(b, a) {
      LexLeTotal(a.timestamp, b.timestamp);
    }
    forall a, b, c | NewestAttemptFirst(a, b) && NewestAttemptFirst(b, c) ensures NewestAttemptFirst(a, c) {
      LexLeTrans(c.timestamp, b.timestamp, a.timestamp);
    }
  }

  lemma NewestFailureFirstOrders()
    ensures TotalPreorder(NewestFailureFirst)
  {
    forall a, b ensures NewestFailureFirst(a, b) || NewestFailureFirst(b, a) {
      LexLeTotal(a.timestamp, b.timestamp);
    }
    forall a, b, c | NewestFailureFirst(a, b) && NewestFailureFirst(b, c) ensures NewestFailureFirst(a, c) {
      LexLeTrans(c.timestamp, b.timestamp, a.timestamp);
    }
  }

  /** `SELECT … WHERE signatureId = ? ORDER BY timestamp DESC LIMIT ?`. */
  function AttemptsOf(rows: seq<SelectorAttempt>, signatureId: string, limit: int): seq<SelectorAttempt> {
    Limit(Sort(Filter(rows, (a: SelectorAttempt) => a.signatureId == signatureId), NewestAttemptFirst), limit)
  }

  /** `SELECT … WHERE errorType = ? AND resolved = 0 ORDER BY timestamp DESC
   *  LIMIT ?`. */
  function OpenFailuresOf(rows: seq<TestFailure>, errorType: string, limit: int): seq<TestFailure> {
    Limit(Sort(Filter(rows, (f: TestFailure) => f.errorType == errorType && !f.resolved), NewestFailureFirst), limit)
  }

  /** `SELECT … WHERE p ORDER BY le LIMIT n` in general: the rows kept are
   *  matching rows of the table, in order, as many as the limit allows, and
   *  every matching row left out may be placed after every row kept. */
  lemma SelectTop<T(!new)>(rows: seq<T>, p: T -> bool, le: (T, T) -> bool, n: int)
    requires TotalPreorder(le)
    ensures var m := Filter(rows, p);
      var r := Limit(Sort(m, le), n);
      && multiset(r) <= multiset(m)
      && (forall x :: x in r ==> x in rows && p(x))
      && Sorted(r, le)
      && |r| == (if n < 0 || n >= |m| then |m| else n)
      && (forall x, y :: x in rows && p(x) && x !in r && y in r ==> le(y, x))
      && (n < 0 || n >= |m| ==> multiset(r) == multiset(m))
  {
    var m := Filter(rows, p);
    SortPermutes(m, le);
    LimitSortSpec(m, le, n);
    var r := Limit(Sort(m, le), n);
    forall x | x in r ensures x in rows && p(x) {
      assert x in multiset(m);
    }
  }

  /** The result is the first `limit` unresolved rows of the type, newest
   *  first: drawn from the table, in order, as many as the limit allows,
   *  and no matching row left out is newer than a row kept; when the limit
   *  does not cut, it is every such row. */
  lemma OpenFailuresOfSpec(rows: seq<TestFailure>, errorType: string, limit: int)
    ensures multiset(OpenFailuresOf(rows, errorType, limit))
      <= multiset(Filter(rows, (f: TestFailure) => f.errorType == errorType && !f.resolved))
    ensures forall f :: f in OpenFailuresOf(rows, errorType, limit) ==>
      f in rows && f.errorType == errorType && !f.resolved
    ensures Sorted(OpenFailuresOf(rows, errorType, limit), NewestFailureFirst)
    ensures var n := |Filter(rows, (f: TestFailure) => f.errorType == errorType && !f.resolved)|;
      |OpenFailuresOf(rows, errorType, limit)| == if limit < 0 || limit >= n then n else limit
    ensures forall f, g ::
      (f in rows && f.errorType == errorType && !f.resolved
       && f !in OpenFailuresOf(rows, errorType, limit) && g in OpenFailuresOf(rows, errorType, limit))
      ==> LexLe(f.timestamp, g.timestamp)
    ensures var open := Filter(rows, (f: TestFailure) => f.errorType == errorType && !f.resolved);
      limit < 0 || limit >= |open| ==> multiset(OpenFailuresOf(rows, errorType, limit)) == multiset(open)
  {
    var open := (f: TestFailure) => f.errorType == errorType && !f.resolved;
    var r := OpenFailuresOf(rows, errorType, limit);
    NewestFailureFirstOrders();
    SelectTop(rows, open, NewestFailureFirst, limit);
    forall f, g | f in rows && f.errorType == errorType && !f.resolved && f !in r && g in r
      ensures LexLe(f.timestamp, g.timestamp)
    {
      assert open(f);
      assert NewestFailureFirst(g, f);
    }
  }

  /** The result is the first `limit` attempts on the signature, newest
   *  first, in the same sense. */
  lemma AttemptsOfSpec(rows: seq<SelectorAttempt>, signatureId: string, limit: int)
    ensures multiset(AttemptsOf(rows, signatureId, limit))
      <= multiset(Filter(rows, (a: SelectorAttempt) => a.signatureId == signatureId))
    ensures forall a :: a in AttemptsOf(rows, signatureId, limit) ==> a in rows && a.signatureId == signatureId
    ensures Sorted(AttemptsOf(rows, signatureId, limit), NewestAttemptFirst)
    ensures var n := |Filter(rows, (a: SelectorAttempt) => a.signatureId == signatureId)|;
      |AttemptsOf(rows, signatureId, limit)| == if limit < 0 || limit >= n then n else limit
    ensures forall a, b ::
      (a in rows && a.signatureId == signatureId
       && a !in AttemptsOf(rows, signatureId, limit) && b in AttemptsOf(rows, signatureId, limit))
      ==> LexLe(a.timestamp, b.timestamp)
    ensures limit < 0 || limit >= |Filter(rows, (a: SelectorAttempt) => a.signatureId == signatureId)| ==>
      multiset(AttemptsOf(rows, signatureId, limit))
      == multiset(Filter(rows, (a: SelectorAttempt) => a.signatureId == signatureId))
  {
    var mine := (a: SelectorAttempt) => a.signatureId == signatureId;
    var r := AttemptsOf(rows, signatureId, limit);
    NewestAttemptFirstOrders();
    SelectTop(rows, mine, NewestAttemptFirst, limit);
    forall a, b | a in rows && a.signatureId == signatureId && a !in r && b in r
      ensures LexLe(a.timestamp, b.timestamp)
    {
      assert mine(a);
      assert NewestAttemptFirst(b, a);
    }
  }

  /** The table after `markFailureResolved(id)`. */
  function Resolve(rows: seq<TestFailure>, id: int): seq<TestFailure> {
    Map(rows, (f: TestFailure) => if f.id == id then f.(resolved := true) else f)
  }

  /** With numbered rows, exactly row `id - 1` becomes resolved and every
   *  other row is unchanged; an id outside the table changes nothing. */
  lemma ResolveSpec(rows: seq<TestFailure>, id: int)
    requires FailuresNumbered(rows)
    ensures |Resolve(rows, id)| == |rows| && FailuresNumbered(Resolve(rows, id))
    ensures forall j :: 0 <= j < |rows| && j != id - 1 ==> Resolve(rows, id)[j] == rows[j]
    ensures 1 <= id <= |rows| ==> Resolve(rows, id)[id - 1] == rows[id - 1].(resolved := true)
    ensures !(1 <= id <= |rows|) ==> Resolve(rows, id) == rows
  {
  }

  // ---- flaky_tests ----

  predicate UniqueTestIds(rows: seq<FlakyTest>) {
    forall i, j :: 0 <= i < j < |rows| ==> rows[i].testId != rows[j].testId
  }

  /** The aggregate a row keeps: at least one run, no more failures than
   *  runs, and the score is their ratio. */
  predicate FlakyRowOk(r: FlakyTest) {
    1 <= r.totalRuns && r.failures <= r.totalRuns
    && r.flakinessScore == (r.failures as real) / (r.totalRuns as real)
  }

  lemma ScoreIsRatio(r: FlakyTest)
    requires FlakyRowOk(r)
    ensures 0.0 <= r.flakinessScore <= 1.0
  {
    var t := r.totalRuns as real;
    assert r.flakinessScore * t == r.failures as real;
  }

  function TestIndex(rows: seq<FlakyTest>, testId: string): Option<nat> {
    FindIndex(rows, (r: FlakyTest) => r.testId == testId)
  }

  /** The table after `recordTestRun`; `now` is the failure time. */
  function RunRecorded(rows: seq<FlakyTest>, testId: string, testName: string, passed: bool, now: string): seq<FlakyTest> {
    match TestIndex(rows, testId)
    case None =>
      rows + [FlakyTest(testId, testName, 1, if passed then 0 else 1, if passed then 0.0 else 1.0,
                        if passed then None else NullIfEmpty(Some(now)))]
    case Some(i) =>
      var row := rows[i];
      var total := row.totalRuns + 1;
      var fails := row.failures + (if passed then 0 else 1);
      rows[i := row.(totalRuns := total, failures := fails, flakinessScore := (fails as real) / (total as real),
                     lastFailure := if passed then NullIfEmpty(row.lastFailure) else NullIfEmpty(Some(now)))]
  }

  /** The first run of a test inserts one run with one failure exactly
   *  when it failed. */
  lemma FirstRun(rows: seq<FlakyTest>, testId: string, testName: string, passed: bool, now: string)
    requires forall r :: r in rows ==> r.testId != testId
    ensures var t := RunRecorded(rows, testId, testName, passed, now);
      && t[..|rows|] == rows && |t| == |rows| + 1
      && t[|rows|].testId == testId && t[|rows|].totalRuns == 1
      && t[|rows|].failures == (if passed then 0 else 1)
      && FlakyRowOk(t[|rows|])
  {
    assert forall j :: 0 <= j < |rows| ==> rows[j] in rows;
  }

  /** A later run adds one run, and one failure only when it failed; the
   *  last failure time is kept on a pass and replaced on a failure. */
  lemma LaterRun(rows: seq<FlakyTest>, testId: string, testName: string, passed: bool, now: string, i: nat)
    requires UniqueTestIds(rows) && i < |rows| && rows[i].testId == testId
    ensures var t := RunRecorded(rows, testId, testName, passed, now);
      && |t| == |rows|
      && (forall j :: 0 <= j < |rows| && j != i ==> t[j] == rows[j])
      && t[i].testId == testId && t[i].testName == rows[i].testName
      && t[i].totalRuns == rows[i].totalRuns + 1
      && t[i].failures == rows[i].failures + (if passed then 0 else 1)
      && (passed ==> t[i].lastFailure == NullIfEmpty(rows[i].lastFailure))
      && (!passed && now != "" ==> t[i].lastFailure == Some(now))
  {
    FindIndexUnique(rows, (r: FlakyTest) => r.testId == testId, i);
  }

  /** Recording a run keeps every row's aggregate consistent (so each
   *  score stays within [0, 1]) and test ids unique. */
  lemma RunRecordedKeepsRows(rows: seq<FlakyTest>, testId: string, testName: string, passed: bool, now: string)
    requires UniqueTestIds(rows) && forall r :: r in rows ==> FlakyRowOk(r)
    ensures UniqueTestIds(RunRecorded(rows, testId, testName, passed, now))
    ensures forall r :: r in RunRecorded(rows, testId, testName, passed, now) ==> FlakyRowOk(r)
  {
    var t := RunRecorded(rows, testId, testName, passed, now);
    match TestIndex(rows, testId)
    case None =>
      forall i, j | 0 <= i < j < |t| ensures t[i].testId != t[j].testId {
        if j == |rows| {
          assert t[i] == rows[i];
          assert !((r: FlakyTest) => r.testId == testId)(rows[i]);
        }
      }
    case Some(i) =>
      assert rows[i] in rows;
      forall r | r in t ensures FlakyRowOk(r) {
        var k :| 0 <= k < |t| && t[k] == r;
        if k != i {
          assert rows[k] in rows;
        }
      }
  }

  function HigherScoreFirst(a: FlakyTest, b: FlakyTest): bool {
    a.flakinessScore >= b.flakinessScore
  }

  /** The `getFlakyTests` query: the rows scoring at least `threshold`
   *  over three runs or more, highest score first, at most `limit`. */
  function FlakyOf(rows: seq<FlakyTest>, threshold: real, limit: int): seq<FlakyTest> {
    Limit(Sort(Filter(rows, (r: FlakyTest) => r.flakinessScore >= threshold && r.totalRuns >= 3), HigherScoreFirst), limit)
  }

  /** The result is the first `limit` tests that ran at least three times
   *  with a score at or above the threshold, highest score first: as many
   *  as the limit allows, and no such test left out scores higher than a
   *  test kept. */
  lemma FlakyOfSpec(rows: seq<FlakyTest>, threshold: real, limit: int)
    ensures multiset(FlakyOf(rows, threshold, limit))
      <= multiset(Filter(rows, (r: FlakyTest) => r.flakinessScore >= threshold && r.totalRuns >= 3))
    ensures forall t :: t in FlakyOf(rows, threshold, limit) ==>
      t in rows && t.flakinessScore >= threshold && t.totalRuns >= 3
    ensures var r := FlakyOf(rows, threshold, limit);
      forall i, j :: 0 <= i < j < |r| ==> r[i].flakinessScore >= r[j].flakinessScore
    ensures var n := |Filter(rows, (r: FlakyTest) => r.flakinessScore >= threshold && r.totalRuns >= 3)|;
      |FlakyOf(rows, threshold, limit)| == if limit < 0 || limit >= n then n else limit
    ensures forall t, u ::
      (t in rows && t.flakinessScore >= threshold && t.totalRuns >= 3
       && t !in FlakyOf(rows, threshold, limit) && u in FlakyOf(rows, threshold, limit))
      ==> t.flakinessScore <= u.flakinessScore
    ensures var picked := Filter(rows, (r: FlakyTest) => r.flakinessScore >= threshold && r.totalRuns >= 3);
      limit < 0 || limit >= |picked| ==> multiset(FlakyOf(rows, threshold, limit)) == multiset(picked)
  {
    var picked := (r: FlakyTest) => r.flakinessScore >= threshold && r.totalRuns >= 3;
    var r := FlakyOf(rows, threshold, limit);
    SelectTop(rows, picked, HigherScoreFirst, limit);
    forall t, u | t in rows && t.flakinessScore >= threshold && t.totalRuns >= 3 && t !in r && u in r
      ensures t.flakinessScore <= u.flakinessScore
    {
      assert picked(t);
      assert HigherScoreFirst(u, t);
    }
  }

  function LatestSeenFirst(a: ElementSignature, b: ElementSignature): bool {
    LexLe(b.lastSeen, a.lastSeen)
  }

  lemma LatestSeenFirstOrders()
    ensures TotalPreorder(LatestSeenFirst)
  {
    forall a, b ensures LatestSeenFirst(a, b) || LatestSeenFirst(b, a) {
      LexLeTotal(a.lastSeen, b.lastSeen);
    }
    forall a, b, c | LatestSeenFirst(a, b) && LatestSeenFirst(b, c) ensures LatestSeenFirst(a, c) {
      LexLeTrans(c.lastSeen, b.lastSeen, a.lastSeen);
    }
  }

  /** `SELECT … WHERE elementId = ? ORDER BY lastSeen DESC LIMIT 1`. */
  function LatestOfElement(rows: seq<ElementSignature>, elementId: string): (r: Option<ElementSignature>)
    ensures r.Some? ==>
      && r.value in rows && r.value.elementId == elementId
      && forall s :: s in rows && s.elementId == elementId ==> LexLe(s.lastSeen, r.value.lastSeen)
    ensures r.None? ==> forall s :: s in rows ==> s.elementId != elementId
  {
    var mine := Filter(rows, (s: ElementSignature) => s.elementId == elementId);
    var sorted := Sort(mine, LatestSeenFirst);
    var r := Limit(sorted, 1);
    LatestSeenFirstOrders();
    SortPermutes(mine, LatestSeenFirst);
    if |r| == 0 then None
    else
      SortHead(mine, LatestSeenFirst);
      Some(r[0])
  }

  /** The store. The tables start empty: the database file and its loading
   *  are not part of this model. */
  class KnowledgeBase {
    var signatures: seq<ElementSignature>
    var attempts: seq<SelectorAttempt>
    var failures: seq<TestFailure>
    var flakyTests: seq<FlakyTest>

    /** The keys and aggregates the schema and the methods maintain. */
    ghost predicate Valid()
      reads this
    {
      UniqueSignatureIds(signatures) && AttemptsNumbered(attempts) && FailuresNumbered(failures)
      && UniqueTestIds(flakyTests) && forall r :: r in flakyTests ==> FlakyRowOk(r)
    }

    constructor ()
      ensures Valid()
      ensures signatures == [] && attempts == [] && failures == [] && flakyTests == []
    {
      signatures, attempts, failures, flakyTests := [], [], [], [];
    }

    method UpsertSignature(sig: SignatureInput)
      requires Valid()
      modifies this
      ensures Valid()
      ensures signatures == Upserted(old(signatures), sig)
      ensures attempts == old(attempts) && failures == old(failures) && flakyTests == old(flakyTests)
    {
      UpsertKeepsUnique(signatures, sig);
      var k := SignatureIndex(signatures, sig.id);
      if k.Some? {
        signatures := signatures[k.value := Refreshed(signatures[k.value], sig)];
      } else {
        signatures := signatures + [NewSignature(sig)];
      }
    }

    /** `SELECT * FROM element_signatures WHERE id = ?`. */
    function GetSignature(id: string): (r: Option<ElementSignature>)
      reads this
      ensures r.Some? ==> r.value in signatures && r.value.id == id
      ensures r.None? ==> forall s :: s in signatures ==> s.id != id
    {
      match SignatureIndex(signatures, id)
      case Some(i) => Some(signatures[i])
      case None => None
    }

    function GetSignatureByElementId(elementId: string): (r: Option<ElementSignature>)
      reads this
      ensures r == LatestOfElement(signatures, elementId)
    {
      LatestOfElement(signatures, elementId)
    }

    method IncrementSuccess(signatureId: string)
      requires Valid()
      modifies this
      ensures Valid()
      ensures signatures == Bumped(old(signatures), signatureId, true)
      ensures attempts == old(attempts) && failures == old(failures) && flakyTests == old(flakyTests)
    {
      signatures := Bumped(signatures, signatureId, true);
    }

    method IncrementFail(signatureId: string)
      requires Valid()
      modifies this
      ensures Valid()
      ensures signatures == Bumped(old(signatures), signatureId, false)
      ensures attempts == old(attempts) && failures == old(failures) && flakyTests == old(flakyTests)
    {
      signatures := Bumped(signatures, signatureId, false);
    }

    /** Appends one row; existing rows are untouched. */
    method RecordAttempt(a: AttemptInput)
      requires Valid()
      modifies this
      ensures Valid()
      ensures attempts == old(attempts) + [AttemptRow(|old(attempts)| + 1, a)]
      ensures signatures == old(signatures) && failures == old(failures) && flakyTests == old(flakyTests)
    {
      attempts := attempts + [AttemptRow(|attempts| + 1, a)];
    }

    function GetRecentAttempts(signatureId: string, limit: int): (r: seq<SelectorAttempt>)
      reads this
      ensures r == AttemptsOf(attempts, signatureId, limit)
    {
      AttemptsOf(attempts, signatureId, limit)
    }

    /** Appends one row and reports 1. */
    method RecordFailure(f: FailureInput) returns (inserted: int)
      requires Valid()
      modifies this
      ensures Valid()
      ensures inserted == 1
      ensures failures == old(failures) + [FailureRow(|old(failures)| + 1, f)]
      ensures signatures == old(signatures) && attempts == old(attempts) && flakyTests == old(flakyTests)
    {
      failures := failures + [FailureRow(|failures| + 1, f)];
      inserted := 1;
    }

    function GetFailuresByType(errorType: string, limit: int): (r: seq<TestFailure>)
      reads this
      ensures r == OpenFailuresOf(failures, errorType, limit)
    {
      OpenFailuresOf(failures, errorType, limit)
    }

    method MarkFailureResolved(id: int)
      requires Valid()
      modifies this
      ensures Valid()
      ensures failures == Resolve(old(failures), id)
      ensures signatures == old(signatures) && attempts == old(attempts) && flakyTests == old(flakyTests)
    {
      ResolveSpec(failures, id);
      failures := Resolve(failures, id);
    }

    /** Reads the test's row, then inserts or rewrites it. */
    method RecordTestRun(testId: string, testName: string, passed: bool, now: string)
      requires Valid()
      modifies this
      ensures Valid()
      ensures flakyTests == RunRecorded(old(flakyTests), testId, testName, passed, now)
      ensures signatures == old(signatures) && attempts == old(attempts) && failures == old(failures)
    {
      RunRecordedKeepsRows(flakyTests, testId, testName, passed, now);
      var existing := TestIndex(flakyTests, testId);
      if existing.None? {
        var lastFail := if passed then None else Some(now);
        flakyTests := flakyTests + [FlakyTest(testId, testName, 1, if passed then 0 else 1,
                                               if passed then 0.0 else 1.0, NullIfEmpty(lastFail))];
      } else {
        var row := flakyTests[existing.value];
        var totalRuns := row.totalRuns + 1;
        var fails := row.failures + (if passed then 0 else 1);
        var score := (fails as real) / (totalRuns as real);
        var lastFail := if passed then NullIfEmpty(row.lastFailure) else Some(now);
        flakyTests := flakyTests[existing.value := row.(totalRuns := totalRuns, failures := fails,
                                                        flakinessScore := score, lastFailure := NullIfEmpty(lastFail))];
      }
    }

    function GetFlakyTests(threshold: real, limit: int): (r: seq<FlakyTest>)
      reads this
      ensures r == FlakyOf(flakyTests, threshold, limit)
    {
      FlakyOf(flakyTests, threshold, limit)
    }
  }
}
