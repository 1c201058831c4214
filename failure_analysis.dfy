/** Failure analysis: an error message is classified by ordered keyword
 *  rules, each class has one suggested fix, and the open failures in the
 *  knowledge base are grouped by class. */
module FailureAnalysis {
  import opened Wrappers
  import opened Text
  import opened Seqs
  import opened Sorting
  import opened KnowledgeStore

  datatype ErrorType = Timeout | SelectorError | NavigationError | Detached | Overlay | Auth | Network | AssertionError | Unknown

  /** The name stored in the failure table's `errorType` column. */
  function TypeName(t: ErrorType): string {
    match t
    case Timeout => "timeout"
    case SelectorError => "selector"
    case NavigationError => "navigation"
    case Detached => "detached"
    case Overlay => "overlay"
    case Auth => "auth"
    case Network => "network"
    case AssertionError => "assertion"
    case Unknown => "unknown"
  }

  datatype Rule = Rule(result: ErrorType, keywords: seq<string>)

  /** The rules in the order they are tried. */
  const Rules: seq<Rule> := [
    Rule(Timeout, ["timeout", "timed out"]),
    Rule(SelectorError, ["selector", "not found", "no element"]),
    Rule(NavigationError, ["navigation", "navigating"]),
    Rule(Detached, ["detached", "stale element"]),
    Rule(Overlay, ["overlay", "obscured", "covered"]),
    Rule(Auth, ["auth", "unauthorized", "403", "401"]),
    Rule(Network, ["network", "net::", "failed to fetch"]),
    Rule(AssertionError, ["expect", "assert"])
  ]

  predicate Matches(msg: string, rule: Rule) {
    exists k :: k in rule.keywords && Contains(msg, k)
  }

  /** The result of the first rule that matches, or `Unknown`. */
  function FirstMatch(msg: string, rules: seq<Rule>): ErrorType
    decreases |rules|
  {
    if |rules| == 0 then Unknown
    else if Matches(msg, rules[0]) then rules[0].result
    else FirstMatch(msg, rules[1..])
  }

  function ClassifyError(errorMessage: string): ErrorType {
    FirstMatch(ToLower(errorMessage), Rules)
  }

  /** Rule `k` matches and no earlier rule does. */
  predicate FirstMatching(msg: string, rules: seq<Rule>, k: int) {
    0 <= k < |rules| && Matches(msg, rules[k]) && forall j :: 0 <= j < k ==> !Matches(msg, rules[j])
  }

  /** The first matching rule wins; no match gives `Unknown`. */
  lemma {:induction false} FirstMatchSpec(msg: string, rules: seq<Rule>)
    requires forall k :: 0 <= k < |rules| ==> rules[k].result != Unknown
    ensures FirstMatch(msg, rules) == Unknown <==> forall k :: 0 <= k < |rules| ==> !Matches(msg, rules[k])
    ensures forall k :: FirstMatching(msg, rules, k) ==> FirstMatch(msg, rules) == rules[k].result
    decreases |rules|
  {
    if |rules| > 0 {
      FirstMatchSpec(msg, rules[1..]);
      assert forall k :: 1 <= k < |rules| ==> rules[1..][k - 1] == rules[k];
      forall k | FirstMatching(msg, rules, k) && k > 0
        ensures FirstMatching(msg, rules[1..], k - 1)
      {
        assert forall j :: 0 <= j < k - 1 ==> rules[1..][j] == rules[j + 1];
      }
    }
  }

  /** Classification follows the rule table on the lower-cased message. */
  lemma ClassifyByRules(errorMessage: string)
    ensures ClassifyError(errorMessage) == Unknown <==> forall k :: 0 <= k < |Rules| ==> !Matches(ToLower(errorMessage), Rules[k])
    ensures forall k :: FirstMatching(ToLower(errorMessage), Rules, k) ==> ClassifyError(errorMessage) == Rules[k].result
  {
    FirstMatchSpec(ToLower(errorMessage), Rules);
  }

  lemma ToLowerIdempotent(s: string)
    ensures ToLower(ToLower(s)) == ToLower(s)
  {
  }

  /** Case does not matter: a message and its lower-cased form classify
   *  alike. */
  lemma ClassifyIgnoresCase(errorMessage: string)
    ensures ClassifyError(ToLower(errorMessage)) == ClassifyError(errorMessage)
  {
    ToLowerIdempotent(errorMessage);
  }

  /** A timeout keyword wins over a later selector keyword. */
  lemma TimeoutBeatsSelector()
    ensures ClassifyError("Timeout waiting for selector") == Timeout
  {
    var msg := ToLower("Timeout waiting for selector");
    assert msg[..7] == "timeout";
    ContainsWhenOccurs(msg, "timeout", 0);
    assert "timeout" in Rules[0].keywords;
    assert Matches(msg, Rules[0]);
  }

  function SuggestFix(t: ErrorType): string {
    match t
    case Timeout => "Increase timeout or add explicit wait for element/network idle. Check if page is slow to load."
    case SelectorError => "Selector may have changed. Enable auto-healing or update selector. Consider using data-testid or stable attributes."
    case NavigationError => "Add wait for navigation to complete (networkidle/load). Check if navigation triggers are stable."
    case Detached => "Element detached from DOM during action. Add retry logic or wait for DOM to stabilize."
    case Overlay => "Element obscured by overlay/modal. Close overlay first or scroll element into view."
    case Auth => "Session expired or auth required. Refresh session, re-login, or check auth strategy."
    case Network => "Network request failed. Check API availability, add retry logic, or mock network responses."
    case AssertionError => "Assertion failed. Verify expected value is correct or update test data."
    case Unknown => "Unknown error. Review error message and test flow."
  }

  datatype FailureCluster = FailureCluster(errorType: ErrorType, count: nat, failures: seq<TestFailure>, suggestedFix: string)

  /** The classes that are clustered: every one but `Unknown`, in rule
   *  order. */
  const ClusterTypes: seq<ErrorType> := [Timeout, SelectorError, NavigationError, Detached, Overlay, Auth, Network, AssertionError]

  const ClusterLimit: int := 50

  function ClusterOf(t: ErrorType, open: seq<TestFailure>): FailureCluster {
    FailureCluster(t, |open|, open, SuggestFix(t))
  }

  /** The knowledge-base query `clusterFailures` makes for a class: at
   *  most 50 of its unresolved failures, newest first. */
  function OpenQuery(rows: seq<TestFailure>): ErrorType -> seq<TestFailure> {
    (t: ErrorType) => OpenFailuresOf(rows, TypeName(t), ClusterLimit)
  }

  /** The clusters before sorting: one per class whose query returns
   *  something, in class order. */
  function ClustersOf(open: ErrorType -> seq<TestFailure>, types: seq<ErrorType>): seq<FailureCluster>
    decreases |types|
  {
    if |types| == 0 then []
    else
      var t := types[|types| - 1];
      ClustersOf(open, types[..|types| - 1]) + (if |open(t)| > 0 then [ClusterOf(t, open(t))] else [])
  }

  lemma ClustersSnoc(open: ErrorType -> seq<TestFailure>, types: seq<ErrorType>, k: int)
    requires 0 <= k < |types|
    ensures ClustersOf(open, types[..k + 1]) ==
      ClustersOf(open, types[..k]) + (if |open(types[k])| > 0 then [ClusterOf(types[k], open(types[k]))] else [])
  {
    assert types[..k + 1][..k] == types[..k];
  }

  function MoreFailuresFirst(a: FailureCluster, b: FailureCluster): bool {
    a.count >= b.count
  }

  lemma MoreFailuresFirstOrders()
    ensures TotalPreorder(MoreFailuresFirst)
  {
  }

  /** The clustered classes are listed once each. */
  lemma ClusterTypesListedOnce()
    ensures Seqs.Distinct(ClusterTypes)
  {
  }

  /** What a cluster holds: the non-empty answer to its class's query,
   *  the answer's size, and the class's fix. */
  predicate ClusterOk(c: FailureCluster, open: ErrorType -> seq<TestFailure>) {
    && c.count == |c.failures| && c.count > 0
    && c.failures == open(c.errorType)
    && c.suggestedFix == SuggestFix(c.errorType)
  }

  predicate HasClusterFor(cs: seq<FailureCluster>, t: ErrorType) {
    exists c :: c in cs && c.errorType == t
  }

  predicate OneClusterPerType(cs: seq<FailureCluster>) {
    forall i, j :: 0 <= i < j < |cs| ==> cs[i].errorType != cs[j].errorType
  }

  lemma {:induction false} ClustersOfOk(open: ErrorType -> seq<TestFailure>, types: seq<ErrorType>)
    ensures forall c :: c in ClustersOf(open, types) ==> ClusterOk(c, open) && c.errorType in types
    decreases |types|
  {
    if |types| > 0 {
      var init := types[..|types| - 1];
      var t := types[|types| - 1];
      ClustersOfOk(open, init);
      var before := ClustersOf(open, init);
      var cs := ClustersOf(open, types);
      forall c | c in cs ensures ClusterOk(c, open) && c.errorType in types {
        if c in before {
          assert c.errorType in init;
        }
      }
    }
  }

  lemma {:induction false} ClustersOfTypes(open: ErrorType -> seq<TestFailure>, types: seq<ErrorType>)
    ensures forall c :: c in ClustersOf(open, types) ==> c.errorType in types
    decreases |types|
  {
    if |types| > 0 {
      var init := types[..|types| - 1];
      ClustersOfTypes(open, init);
      assert forall x :: x in init ==> x in types;
    }
  }

  lemma {:induction false} ClustersOfCovers(open: ErrorType -> seq<TestFailure>, types: seq<ErrorType>)
    ensures forall t :: t in types && |open(t)| > 0 ==> HasClusterFor(ClustersOf(open, types), t)
    decreases |types|
  {
    if |types| > 0 {
      var init := types[..|types| - 1];
      var last := types[|types| - 1];
      ClustersOfCovers(open, init);
      assert types == init + [last];
      var cs := ClustersOf(open, types);
      forall t | t in types && |open(t)| > 0
        ensures HasClusterFor(cs, t)
      {
        if t == last {
          assert cs == ClustersOf(open, init) + [ClusterOf(t, open(t))];
          assert cs[|cs| - 1].errorType == t;
        } else {
          var c :| c in ClustersOf(open, init) && c.errorType == t;
          assert c in cs;
        }
      }
    }
  }

  lemma AppendKeepsOnePerType(before: seq<FailureCluster>, c: FailureCluster)
    requires OneClusterPerType(before)
    requires forall x :: x in before ==> x.errorType != c.errorType
    ensures OneClusterPerType(before + [c])
  {
    var cs := before + [c];
    forall i, j | 0 <= i < j < |cs| ensures cs[i].errorType != cs[j].errorType {
      assert cs[i] == before[i];
      if j == |before| {
        assert before[i] in before;
      }
    }
  }

  lemma LastNotEarlier<T>(s: seq<T>)
    requires |s| > 0 && Seqs.Distinct(s)
    ensures s[|s| - 1] !in s[..|s| - 1]
    ensures Seqs.Distinct(s[..|s| - 1])
  {
  }

  lemma {:induction false} ClustersOfDistinct(open: ErrorType -> seq<TestFailure>, types: seq<ErrorType>)
    requires Seqs.Distinct(types)
    ensures OneClusterPerType(ClustersOf(open, types))
    decreases |types|
  {
    if |types| > 0 {
      var init := types[..|types| - 1];
      var t := types[|types| - 1];
      LastNotEarlier(types);
      ClustersOfDistinct(open, init);
      ClustersOfTypes(open, init);
      if |open(t)| > 0 {
        AppendKeepsOnePerType(ClustersOf(open, init), ClusterOf(t, open(t)));
      }
    }
  }

  /** `clusterFailures`: the loop over the classes, then the sort. */
  method ClusterFailures(kb: KnowledgeBase) returns (clusters: seq<FailureCluster>)
    ensures clusters == ClusterResult(kb.failures)
  {
    ghost var open := OpenQuery(kb.failures);
    var found: seq<FailureCluster> := [];
    var k := 0;
    while k < |ClusterTypes|
      invariant 0 <= k <= |ClusterTypes|
      invariant found == ClustersOf(open, ClusterTypes[..k])
    {
      var t := ClusterTypes[k];
      var failures := kb.GetFailuresByType(TypeName(t), ClusterLimit);
      assert failures == open(t);
      ClustersSnoc(open, ClusterTypes, k);
      if |failures| > 0 {
        found := found + [ClusterOf(t, failures)];
      }
      k := k + 1;
    }
    assert ClusterTypes[..k] == ClusterTypes;
    clusters := Sort(found, MoreFailuresFirst);
  }

  /** Each query answer holds between 1 and 50 unresolved failures of
   *  its class. */
  lemma OpenQuerySpec(rows: seq<TestFailure>, t: ErrorType)
    ensures |OpenQuery(rows)(t)| <= 50
    ensures forall f :: f in OpenQuery(rows)(t) ==> f in rows && f.errorType == TypeName(t) && !f.resolved
  {
    OpenFailuresOfSpec(rows, TypeName(t), ClusterLimit);
  }

  lemma ClusterTypesAll(t: ErrorType)
    requires t != Unknown
    ensures t in ClusterTypes
  {
    match t
    case Timeout => assert ClusterTypes[0] == t;
    case SelectorError => assert ClusterTypes[1] == t;
    case NavigationError => assert ClusterTypes[2] == t;
    case Detached => assert ClusterTypes[3] == t;
    case Overlay => assert ClusterTypes[4] == t;
    case Auth => assert ClusterTypes[5] == t;
    case Network => assert ClusterTypes[6] == t;
    case AssertionError => assert ClusterTypes[7] == t;
  }

  lemma ClusterTypeKnown(t: ErrorType)
    requires t in ClusterTypes
    ensures t != Unknown
  {
  }

  /** The unsorted clusters `clusterFailures` builds from a failure table. */
  function RawClusters(rows: seq<TestFailure>): seq<FailureCluster> {
    ClustersOf(OpenQuery(rows), ClusterTypes)
  }

  /** `clusterFailures`'s answer: the clusters, largest first. */
  function ClusterResult(rows: seq<TestFailure>): seq<FailureCluster> {
    Sort(RawClusters(rows), MoreFailuresFirst)
  }

  /** The answer reorders the unsorted clusters, largest first, and no
   *  class has two clusters. */
  lemma ClusterResultOrdered(rows: seq<TestFailure>)
    ensures multiset(ClusterResult(rows)) == multiset(RawClusters(rows))
    ensures forall i, j :: 0 <= i < j < |ClusterResult(rows)| ==> ClusterResult(rows)[i].count >= ClusterResult(rows)[j].count
    ensures OneClusterPerType(RawClusters(rows))
  {
    SortPermutes(RawClusters(rows), MoreFailuresFirst);
    MoreFailuresFirstOrders();
    SortSorted(RawClusters(rows), MoreFailuresFirst);
    ClusterTypesListedOnce();
    ClustersOfDistinct(OpenQuery(rows), ClusterTypes);
  }

  /** Every cluster in the answer is the non-empty query answer for a class
   *  other than `Unknown`, with its size and the class's fix. */
  lemma ClusterResultOk(rows: seq<TestFailure>)
    ensures forall c :: c in ClusterResult(rows) ==> ClusterOk(c, OpenQuery(rows)) && c.errorType != Unknown
  {
    var raw := RawClusters(rows);
    var sorted := ClusterResult(rows);
    ClustersOfOk(OpenQuery(rows), ClusterTypes);
    SortPermutes(raw, MoreFailuresFirst);
    forall c | c in sorted ensures ClusterOk(c, OpenQuery(rows)) && c.errorType != Unknown {
      assert c in multiset(sorted);
      assert c in raw;
      ClusterTypeKnown(c.errorType);
    }
  }

  /** Every class other than `Unknown` with open failures has a cluster. */
  lemma ClusterResultCovers(rows: seq<TestFailure>, t: ErrorType)
    requires t != Unknown && |OpenQuery(rows)(t)| > 0
    ensures HasClusterFor(ClusterResult(rows), t)
  {
    var raw := RawClusters(rows);
    ClusterTypesAll(t);
    ClustersOfCovers(OpenQuery(rows), ClusterTypes);
    SortPermutes(raw, MoreFailuresFirst);
    var c :| c in raw && c.errorType == t;
    assert c in multiset(ClusterResult(rows));
  }
}
