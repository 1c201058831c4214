/** Journey tests: multi-step navigation flows found by a bounded
 *  depth-first walk over the graph's edges between route nodes, with
 *  de-duplication of node paths. */
module JourneyGenerator {
  import opened Wrappers
  import opened Text
  import opened Seqs
  import opened Ids
  import opened GraphModel
  import opened PlanModel

  datatype JourneyOptions = JourneyOptions(maxSteps: Option<int>, maxJourneys: Option<int>, seed: Option<int>)

  /** `options.maxSteps ?? 5`. */
  function MaxSteps(options: JourneyOptions): int {
    options.maxSteps.GetOr(5)
  }

  /** `options.maxJourneys ?? 20`. */
  function MaxJourneys(options: JourneyOptions): int {
    options.maxJourneys.GetOr(20)
  }

  /** `new Map(routeNodes.map(n => [n.id, n]))`: a later node with the
   *  same id replaces an earlier one. */
  function ById(nodes: seq<AppNode>): (r: map<string, AppNode>)
    ensures forall k :: k in r ==> r[k] in nodes && r[k].id == k
    ensures forall n :: n in nodes ==> n.id in r
    decreases |nodes|
  {
    if |nodes| == 0 then map[]
    else
      var last := nodes[|nodes| - 1];
      ById(nodes[..|nodes| - 1])[last.id := last]
  }

  /** The edges leaving `id`, in graph order. */
  function EdgesFrom(edges: seq<AppEdge>, id: string): (r: seq<AppEdge>)
    ensures forall e :: e in r <==> e in edges && e.from == id
    decreases |edges|
  {
    if |edges| == 0 then []
    else
      var last := edges[|edges| - 1];
      EdgesFrom(edges[..|edges| - 1], id) + (if last.from == id then [last] else [])
  }

  lemma EdgesFromSnoc(edges: seq<AppEdge>, i: nat)
    requires i < |edges|
    ensures forall id ::
      EdgesFrom(edges[..i + 1], id) == EdgesFrom(edges[..i], id) + (if edges[i].from == id then [edges[i]] else [])
  {
    assert edges[..i + 1][..i] == edges[..i];
  }

  /** `m` holds the out-edge lists of `edges`: an id is a key exactly
   *  when some edge leaves it, and its list holds those edges in order. */
  ghost predicate OutEdgesOf(m: map<string, seq<AppEdge>>, edges: seq<AppEdge>) {
    && (forall id :: id in m <==> EdgesFrom(edges, id) != [])
    && (forall id :: id in m ==> m[id] == EdgesFrom(edges, id))
  }

  /** Builds the out-edge lists of the graph's edges. */
  method BuildOutEdges(edges: seq<AppEdge>) returns (m: map<string, seq<AppEdge>>)
    ensures OutEdgesOf(m, edges)
  {
    m := map[];
    var i := 0;
    while i < |edges|
      invariant 0 <= i <= |edges|
      invariant OutEdgesOf(m, edges[..i])
    {
      var e := edges[i];
      ghost var before := m;
      if e.from !in m {
        m := m[e.from := []];
      }
      m := m[e.from := m[e.from] + [e]];
      OutEdgesSnoc(before, edges, i);
      i := i + 1;
    }
    assert edges[..i] == edges;
  }

  /** Appending edge `i` to its source's list (a new empty one when the
   *  source has none) keeps the lists those of the edges seen so far. */
  lemma OutEdgesSnoc(m: map<string, seq<AppEdge>>, edges: seq<AppEdge>, i: nat)
    requires i < |edges| && OutEdgesOf(m, edges[..i])
    ensures var e := edges[i];
      OutEdgesOf(m[e.from := (if e.from in m then m[e.from] else []) + [e]], edges[..i + 1])
  {
    EdgesFromSnoc(edges, i);
  }

  /** `[...path].join('->')`: the de-duplication key of a node path. */
  function Key(p: seq<string>): string {
    Join(p, "->")
  }

  /** `s` holds no `->`. */
  predicate ArrowFree(s: string) {
    forall i, j :: 0 <= i < |s| && j == i + 1 && j < |s| ==> !(s[i] == '-' && s[j] == '>')
  }

  /** The key of two or more nodes holds a `->` right after its first
   *  node, so it differs from every id without one. */
  lemma KeyHasArrow(p: seq<string>)
    requires |p| >= 2
    ensures !ArrowFree(Key(p))
  {
    var k := Key(p);
    assert k == p[0] + "->" + Join(p[1..], "->");
    assert k[|p[0]|] == '-' && k[|p[0]| + 1] == '>';
  }

  /** In `x + "->" + y` with `x` free of `->`, the first `->` starts
   *  right after `x`. */
  lemma ArrowAfter(x: string, y: string)
    requires ArrowFree(x)
    ensures var s := x + "->" + y;
      && s[|x|] == '-' && s[|x| + 1] == '>'
      && forall i, j :: 0 <= i < |x| && j == i + 1 ==> !(s[i] == '-' && s[j] == '>')
  {
    var s := x + "->" + y;
    forall i | 0 <= i < |x|
      ensures !(s[i] == '-' && s[i + 1] == '>')
    {
      if i == |x| - 1 {
        assert s[i + 1] == '-';
      } else {
        assert s[i] == x[i] && s[i + 1] == x[i + 1];
      }
    }
  }

  /** Splitting at the first `->` gives back both parts. */
  lemma ArrowSplit(x: string, y: string, x': string, y': string)
    requires ArrowFree(x) && ArrowFree(x')
    requires x + "->" + y == x' + "->" + y'
    ensures x == x' && y == y'
  {
    ArrowAfter(x, y);
    ArrowAfter(x', y');
    var s := x + "->" + y;
    assert |x| == |x'|;
    assert x == s[..|x|] && x' == s[..|x'|];
    assert y == s[|x| + 2..] && y' == s[|x'| + 2..];
  }

  /** Keys tell paths of two or three nodes apart as long as no node id
   *  holds `->`. */
  lemma KeyInjective(p: seq<string>, q: seq<string>)
    requires 2 <= |p| <= 3 && 2 <= |q| <= 3
    requires forall x :: x in p ==> ArrowFree(x)
    requires forall x :: x in q ==> ArrowFree(x)
    requires Key(p) == Key(q)
    ensures p == q
  {
    var tp, tq := Join(p[1..], "->"), Join(q[1..], "->");
    assert Key(p) == p[0] + "->" + tp;
    assert Key(q) == q[0] + "->" + tq;
    assert p[0] in p && q[0] in q;
    ArrowSplit(p[0], tp, q[0], tq);
    TailKey(p);
    TailKey(q);
    if |p| == 2 {
      assert p == [p[0], p[1]] && q == [q[0], q[1]];
    } else {
      assert p[1] in p && p[2] in p && q[1] in q && q[2] in q;
      ArrowSplit(p[1], p[2], q[1], q[2]);
      assert p == [p[0], p[1], p[2]] && q == [q[0], q[1], q[2]];
    }
  }

  /** After the first node of a two- or three-node path comes the second
   *  node alone or `second->third`, which holds a `->` exactly in the
   *  three-node case. */
  lemma TailKey(p: seq<string>)
    requires 2 <= |p| <= 3
    requires forall x :: x in p ==> ArrowFree(x)
    ensures |p| == 2 ==> Join(p[1..], "->") == p[1]
    ensures |p| == 3 ==> Join(p[1..], "->") == p[1] + "->" + p[2]
    ensures ArrowFree(Join(p[1..], "->")) <==> |p| == 2
  {
    assert p[1] in p;
    if |p| == 3 {
      assert p[1..][1..] == [p[2]];
      KeyHasArrow(p[1..]);
    }
  }

  /** The node path a journey test records after its two fixed tags. */
  function PathOf(t: TestCase): seq<string> {
    if |t.tags| >= 2 then t.tags[2..] else []
  }

  predicate AllKnown(p: seq<string>, byId: map<string, AppNode>) {
    forall x :: x in p ==> x in byId
  }

  function UrlAssertion(node: AppNode): Assertion {
    var route := OrElse(node.route, "/");
    Assertion(HasUrl, ByText(route), Some(route), Some(OpContains))
  }

  predicate LinksTo(prev: string, cur: string, e: AppEdge) {
    e.from == prev && e.to == cur
  }

  /** The steps reaching `node` from the previous node: a click on the
   *  first matching edge's trigger when it has one, then a wait. */
  function HopSteps(prev: string, cur: string, graph: AppGraph): seq<TestStep> {
    var edge := Find(graph.edges, e => LinksTo(prev, cur, e));
    var click :=
      if edge.Some? && edge.value.trigger.Some? then
        [TestStep(GeneratedId("step"), Click, Some(ByElement(edge.value.trigger.value)), None, Some(StepOptions(Some(5000), None)))]
      else [];
    click + [TestStep(GeneratedId("step"), Wait, None, None, Some(StepOptions(Some(2000), Some(UntilNetworkIdle))))]
  }

  function JourneySteps(p: seq<string>, byId: map<string, AppNode>, graph: AppGraph): seq<TestStep>
    requires AllKnown(p, byId)
    decreases |p|
  {
    if |p| == 0 then []
    else if |p| == 1 then [MkStep(GeneratedId("step"), Navigate, Some(ByText(PageUrl(byId[p[0]], graph.baseUrl))), None)]
    else
      var n := |p| - 1;
      JourneySteps(p[..n], byId, graph) + HopSteps(p[n - 1], p[n], graph)
  }

  function JourneyAssertions(p: seq<string>, byId: map<string, AppNode>): (r: seq<Assertion>)
    requires AllKnown(p, byId)
    ensures |r| == |p|
    ensures forall i :: 0 <= i < |p| ==> r[i] == UrlAssertion(byId[p[i]])
    decreases |p|
  {
    if |p| == 0 then []
    else JourneyAssertions(p[..|p| - 1], byId) + [UrlAssertion(byId[p[|p| - 1]])]
  }

  function Names(p: seq<string>, byId: map<string, AppNode>): seq<string>
    requires AllKnown(p, byId)
    decreases |p|
  {
    if |p| == 0 then [] else Names(p[..|p| - 1], byId) + [byId[p[|p| - 1]].name]
  }

  /** The journey test over a node path, or none when the path is shorter
   *  than two nodes or leaves the route nodes. */
  function JourneyTest(p: seq<string>, byId: map<string, AppNode>, graph: AppGraph): Option<TestCase> {
    if |p| < 2 || !AllKnown(p, byId) then None
    else
      var steps := JourneySteps(p, byId, graph);
      var names := Join(Names(p, byId), " \U{2192} ");
      Some(TestCase(GeneratedId("test"), "[Journey] " + names, steps, JourneyAssertions(p, byId),
        ["journey", "navigation"] + p, if |p| > 2 then High else Medium, Some(|steps| * 2000)))
  }

  /** A journey over n nodes opens the first node, then reaches each
   *  later node with at most a click and exactly one wait: between n and
   *  2n - 1 steps, the last of them a wait. */
  lemma {:induction false} JourneyStepsShape(p: seq<string>, byId: map<string, AppNode>, graph: AppGraph)
    requires AllKnown(p, byId) && |p| >= 1
    ensures var r := JourneySteps(p, byId, graph);
      && |p| <= |r| <= 2 * |p| - 1
      && r[0].action == Navigate && r[0].target == Some(ByText(PageUrl(byId[p[0]], graph.baseUrl)))
      && (|p| >= 2 ==> r[|r| - 1].action == Wait)
    decreases |p|
  {
    if |p| > 1 {
      var n := |p| - 1;
      assert forall x :: x in p[..n] ==> x in p;
      JourneyStepsShape(p[..n], byId, graph);
      assert p[..n][0] == p[0];
    }
  }

  /** The journey test over a valid path: one URL assertion per node in
   *  path order, high priority exactly for paths longer than two nodes,
   *  the path recorded in the tags, and 2 seconds per step. */
  lemma JourneyTestShape(p: seq<string>, byId: map<string, AppNode>, graph: AppGraph)
    requires |p| >= 2 && AllKnown(p, byId)
    ensures JourneyTest(p, byId, graph).Some?
    ensures var t := JourneyTest(p, byId, graph).value;
      && PathOf(t) == p
      && |t.assertions| == |p|
      && (forall i :: 0 <= i < |p| ==>
            t.assertions[i].atype == HasUrl && t.assertions[i].operator == Some(OpContains)
            && t.assertions[i].target == ByText(OrElse(byId[p[i]].route, "/")))
      && (t.priority == High <==> |p| > 2)
      && |p| <= |t.flow| <= 2 * |p| - 1
      && t.estimatedDuration == Some(|t.flow| * 2000)
  {
    JourneyTestPath(p, byId, graph);
    JourneyStepsShape(p, byId, graph);
  }

  /** `buildJourneyTest`: no test for a path shorter than two nodes or
   *  through a node missing from `byId`. */
  method BuildJourneyTest(p: seq<string>, byId: map<string, AppNode>, graph: AppGraph) returns (r: Option<TestCase>)
    ensures r == JourneyTest(p, byId, graph)
  {
    if |p| < 2 {
      return None;
    }
    var known, steps, assertions, names := JourneyParts(p, byId, graph);
    if !known {
      return None;
    }
    r := Some(TestCase(GeneratedId("test"), "[Journey] " + Join(names, " \U{2192} "), steps, assertions,
      ["journey", "navigation"] + p, if |p| > 2 then High else Medium, Some(|steps| * 2000)));
  }

  /** The loop of `buildJourneyTest`: the steps, assertions and node names
   *  of the path, or `known` false at the first node missing from `byId`. */
  method JourneyParts(p: seq<string>, byId: map<string, AppNode>, graph: AppGraph)
    returns (known: bool, steps: seq<TestStep>, assertions: seq<Assertion>, names: seq<string>)
    ensures known == AllKnown(p, byId)
    ensures known ==>
      steps == JourneySteps(p, byId, graph) && assertions == JourneyAssertions(p, byId) && names == Names(p, byId)
  {
    steps, assertions, names := [], [], [];
    var i := 0;
    while i < |p|
      invariant 0 <= i <= |p|
      invariant AllKnown(p[..i], byId)
      invariant steps == JourneySteps(p[..i], byId, graph)
      invariant assertions == JourneyAssertions(p[..i], byId)
      invariant names == Names(p[..i], byId)
    {
      if p[i] !in byId {
        assert p[i] in p;
        return false, steps, assertions, names;
      }
      steps, assertions, names := AppendNode(p, byId, graph, i, steps, assertions, names);
      i := i + 1;
    }
    assert p[..i] == p;
    known := true;
  }

  /** One pass of that loop: the name, the steps reaching node `i` and its
   *  URL assertion. */
  method AppendNode(p: seq<string>, byId: map<string, AppNode>, graph: AppGraph, i: int,
                    steps: seq<TestStep>, assertions: seq<Assertion>, names: seq<string>)
    returns (steps': seq<TestStep>, assertions': seq<Assertion>, names': seq<string>)
    requires 0 <= i < |p| && AllKnown(p[..i], byId) && p[i] in byId
    requires steps == JourneySteps(p[..i], byId, graph) && assertions == JourneyAssertions(p[..i], byId)
    requires names == Names(p[..i], byId)
    ensures AllKnown(p[..i + 1], byId)
    ensures steps' == JourneySteps(p[..i + 1], byId, graph) && assertions' == JourneyAssertions(p[..i + 1], byId)
    ensures names' == Names(p[..i + 1], byId)
  {
    var node := byId[p[i]];
    JourneySnoc(p, byId, graph, i);
    names' := names + [node.name];
    if i == 0 {
      steps' := steps + [MkStep(GeneratedId("step"), Navigate, Some(ByText(PageUrl(node, graph.baseUrl))), None)];
    } else {
      steps' := steps + HopSteps(p[i - 1], p[i], graph);
    }
    assertions' := assertions + [UrlAssertion(node)];
  }

  lemma JourneySnoc(p: seq<string>, byId: map<string, AppNode>, graph: AppGraph, i: int)
    requires 0 <= i < |p| && AllKnown(p[..i], byId) && p[i] in byId
    ensures AllKnown(p[..i + 1], byId)
    ensures JourneySteps(p[..i + 1], byId, graph) ==
      if i == 0 then [MkStep(GeneratedId("step"), Navigate, Some(ByText(PageUrl(byId[p[i]], graph.baseUrl))), None)]
      else JourneySteps(p[..i], byId, graph) + HopSteps(p[i - 1], p[i], graph)
    ensures JourneyAssertions(p[..i + 1], byId) == JourneyAssertions(p[..i], byId) + [UrlAssertion(byId[p[i]])]
    ensures Names(p[..i + 1], byId) == Names(p[..i], byId) + [byId[p[i]].name]
  {
    var prefix := p[..i + 1];
    assert prefix[..i] == p[..i];
    assert forall x :: x in prefix ==> x in p[..i] || x == p[i];
    if i > 0 {
      assert prefix[i - 1] == p[i - 1];
    }
  }

  /** Some out-edge of `a` leads to `b`. */
  predicate HasOutEdge(outEdges: map<string, seq<AppEdge>>, a: string, b: string) {
    a in outEdges && exists e :: e in outEdges[a] && e.to == b
  }

  /** Each consecutive pair of `q` is joined by an out-edge. */
  predicate Linked(q: seq<string>, outEdges: map<string, seq<AppEdge>>) {
    forall i, j :: 0 <= i < |q| && j == i + 1 && j < |q| ==> HasOutEdge(outEdges, q[i], q[j])
  }

  /** The most nodes a path emitted by `walk` at this point can have:
   *  `maxSteps - depth` more than `path` (at least one more), and never
   *  more than 3 in all from a fresh start (`path` empty) or 2 more than
   *  `path` otherwise. */
  function Bound(pathLen: nat, depth: int, maxSteps: int): int {
    var byDepth := pathLen + (if maxSteps - depth >= 1 then maxSteps - depth else 1);
    var byKey := if pathLen == 0 then 3 else pathLen + 2;
    if byDepth <= byKey then byDepth else byKey
  }

  /** `t` is a journey test emitted by `walk(nodeId, path, ...)`: its path
   *  extends `path + [nodeId]` along out-edges, stays within the bound,
   *  and its key was not yet seen when the walk began. */
  predicate Emitted(t: TestCase, path: seq<string>, nodeId: string, byId: map<string, AppNode>,
                    outEdges: map<string, seq<AppEdge>>, graph: AppGraph, seenBefore: set<string>, bound: int) {
    var p := PathOf(t);
    && JourneyTest(p, byId, graph) == Some(t)
    && |path| < |p| && p[..|path|] == path && p[|path|] == nodeId
    && Linked(p[|path|..], outEdges)
    && |p| <= bound
    && Key(p) !in seenBefore
  }

  /** The new tests (from index `from` on) have pairwise distinct keys. */
  predicate DistinctKeys(tests: seq<TestCase>, from: nat) {
    forall i, j :: from <= i < j < |tests| ==> Key(PathOf(tests[i])) != Key(PathOf(tests[j]))
  }

  /** `walk` ends at `nodeId` at this depth: the step budget is spent or
   *  no edge leaves the node. */
  predicate LeafAt(nodeId: string, depth: int, outEdges: map<string, seq<AppEdge>>, maxSteps: int) {
    depth >= maxSteps - 1 || nodeId !in outEdges || |outEdges[nodeId]| == 0
  }

  /** A two-node journey ends where a walk from a fresh start ends at
   *  depth 1: two-node paths come only from that push. */
  predicate LeafShaped(t: TestCase, outEdges: map<string, seq<AppEdge>>, maxSteps: int) {
    |PathOf(t)| == 2 ==> LeafAt(PathOf(t)[1], 1, outEdges, maxSteps)
  }

  /** The path keys of the tests. */
  function KeysOf(tests: seq<TestCase>): set<string> {
    set i | 0 <= i < |tests| :: Key(PathOf(tests[i]))
  }

  lemma KeysOfPrefix(a: seq<TestCase>, b: seq<TestCase>)
    requires |a| <= |b| && b[..|a|] == a
    ensures KeysOf(a) <= KeysOf(b)
  {
    forall k | k in KeysOf(a)
      ensures k in KeysOf(b)
    {
      var i :| 0 <= i < |a| && Key(PathOf(a[i])) == k;
      assert b[i] == a[i];
    }
  }

  /** Every out-edge of `n` into a route node gives the key of
   *  `path + [n, m]` in `seen`. */
  ghost predicate HopsIn(path: seq<string>, n: string, seen: set<string>, byId: map<string, AppNode>,
                         outEdges: map<string, seq<AppEdge>>) {
    forall m :: HasOutEdge(outEdges, n, m) && m in byId ==> Key(path + [n] + [m]) in seen
  }

  /** What the edge loop of `walk(n, path, ...)` has left in `seen` for
   *  the edge into `m`: below a non-empty path, the hop key; from a fresh
   *  start, the two-node key, or (when the walk goes on past `m`) every
   *  hop key through `m`. */
  ghost predicate EdgeDone(path: seq<string>, n: string, m: string, seen: set<string>, byId: map<string, AppNode>,
                           outEdges: map<string, seq<AppEdge>>, maxSteps: int) {
    if |path| >= 1 then Key(path + [n] + [m]) in seen
    else Key([n] + [m]) in seen || (!LeafAt(m, 1, outEdges, maxSteps) && HopsIn([n], m, seen, byId, outEdges))
  }

  /** What a full `walk(nodeId, path, ..., depth)` leaves in `seen`: the
   *  key of `path + [nodeId]` where the walk ends, otherwise its part for
   *  every edge into a route node. */
  ghost predicate WalkDone(nodeId: string, path: seq<string>, depth: int, seen: set<string>, byId: map<string, AppNode>,
                           outEdges: map<string, seq<AppEdge>>, maxSteps: int) {
    if LeafAt(nodeId, depth, outEdges, maxSteps) then |path| >= 1 ==> Key(path + [nodeId]) in seen
    else forall m :: HasOutEdge(outEdges, nodeId, m) && m in byId ==>
      EdgeDone(path, nodeId, m, seen, byId, outEdges, maxSteps)
  }

  lemma EdgeDoneGrows(path: seq<string>, n: string, m: string, seen: set<string>, seen': set<string>,
                      byId: map<string, AppNode>, outEdges: map<string, seq<AppEdge>>, maxSteps: int)
    requires seen <= seen' && EdgeDone(path, n, m, seen, byId, outEdges, maxSteps)
    ensures EdgeDone(path, n, m, seen', byId, outEdges, maxSteps)
  {
  }

  lemma WalkDoneGrows(nodeId: string, path: seq<string>, depth: int, seen: set<string>, seen': set<string>,
                      byId: map<string, AppNode>, outEdges: map<string, seq<AppEdge>>, maxSteps: int)
    requires seen <= seen' && WalkDone(nodeId, path, depth, seen, byId, outEdges, maxSteps)
    ensures WalkDone(nodeId, path, depth, seen', byId, outEdges, maxSteps)
  {
    if !LeafAt(nodeId, depth, outEdges, maxSteps) {
      forall m | HasOutEdge(outEdges, nodeId, m) && m in byId
        ensures EdgeDone(path, nodeId, m, seen', byId, outEdges, maxSteps)
      {
        EdgeDoneGrows(path, nodeId, m, seen, seen', byId, outEdges, maxSteps);
      }
    }
  }

  lemma JourneyTestPath(p: seq<string>, byId: map<string, AppNode>, graph: AppGraph)
    requires JourneyTest(p, byId, graph).Some?
    ensures PathOf(JourneyTest(p, byId, graph).value) == p
    ensures AllKnown(p, byId) && |p| >= 2
  {
    assert (["journey", "navigation"] + p)[2..] == p;
  }

  /** A test emitted below `nodeId` names only known nodes of its path. */
  lemma EmittedKnown(t: TestCase, path: seq<string>, nodeId: string, byId: map<string, AppNode>,
                     outEdges: map<string, seq<AppEdge>>, graph: AppGraph, seenBefore: set<string>, bound: int)
    requires Emitted(t, path, nodeId, byId, outEdges, graph, seenBefore, bound)
    ensures AllKnown(path + [nodeId], byId)
  {
    JourneyTestPath(PathOf(t), byId, graph);
    KnownPrefix(PathOf(t), path, nodeId, byId);
  }

  lemma KnownPrefix(p: seq<string>, path: seq<string>, nodeId: string, byId: map<string, AppNode>)
    requires AllKnown(p, byId)
    requires |path| < |p| && p[..|path|] == path && p[|path|] == nodeId
    ensures AllKnown(path + [nodeId], byId)
  {
    assert p[..|path| + 1] == path + [nodeId];
    forall x | x in path + [nodeId]
      ensures x in byId
    {
      assert x in p;
    }
  }

  /** A test emitted by the walk into `nextId` from a fresh start is one
   *  emitted by the walk from `nodeId`. */
  lemma EmittedLift(t: TestCase, nodeId: string, nextId: string, byId: map<string, AppNode>,
                    outEdges: map<string, seq<AppEdge>>, graph: AppGraph, seenBefore: set<string>, seenChild: set<string>,
                    depth: int, maxSteps: int)
    requires Emitted(t, [nodeId], nextId, byId, outEdges, graph, seenChild, Bound(1, depth + 1, maxSteps))
    requires seenBefore <= seenChild
    requires HasOutEdge(outEdges, nodeId, nextId)
    requires depth < maxSteps - 1
    ensures Emitted(t, [], nodeId, byId, outEdges, graph, seenBefore, Bound(0, depth, maxSteps))
  {
    var p := PathOf(t);
    assert p[0] == nodeId;
    assert p[1] == nextId;
    assert p[0..] == p;
    forall i | 0 <= i < |p| - 1
      ensures HasOutEdge(outEdges, p[i], p[i + 1])
    {
      if i > 0 {
        assert p[1..][i - 1] == p[i];
        assert p[1..][i] == p[i + 1];
      }
    }
  }

  lemma HopEmitted(nextId: string, nodeId: string, path: seq<string>, byId: map<string, AppNode>,
                   outEdges: map<string, seq<AppEdge>>, graph: AppGraph, seen: set<string>, depth: int, maxSteps: int)
    requires HasOutEdge(outEdges, nodeId, nextId)
    requires depth < maxSteps - 1 && |path| >= 1
    requires JourneyTest(path + [nodeId] + [nextId], byId, graph).Some?
    requires Key(path + [nodeId] + [nextId]) !in seen
    ensures var t := JourneyTest(path + [nodeId] + [nextId], byId, graph).value;
      Emitted(t, path, nodeId, byId, outEdges, graph, seen, Bound(|path|, depth, maxSteps))
      && Key(PathOf(t)) == Key(path + [nodeId] + [nextId])
  {
    JourneyTestPath(path + [nodeId] + [nextId], byId, graph);
    HopPath(nextId, nodeId, path, outEdges, depth, maxSteps);
  }

  /** The path through one more edge extends `path + [nodeId]` along an
   *  out-edge and stays within the bound. */
  lemma HopPath(nextId: string, nodeId: string, path: seq<string>, outEdges: map<string, seq<AppEdge>>,
                depth: int, maxSteps: int)
    requires HasOutEdge(outEdges, nodeId, nextId)
    requires depth < maxSteps - 1
    ensures var p := path + [nodeId] + [nextId];
      && p[..|path|] == path && p[|path|] == nodeId
      && Linked(p[|path|..], outEdges)
      && |p| <= Bound(|path|, depth, maxSteps)
  {
    var p := path + [nodeId] + [nextId];
    assert p[..|path|] == path;
    var q := p[|path|..];
    assert q == [nodeId, nextId];
    forall i | 0 <= i < |q| - 1
      ensures HasOutEdge(outEdges, q[i], q[i + 1])
    {
      assert i == 0;
    }
  }

  lemma LeafEmitted(nodeId: string, path: seq<string>, byId: map<string, AppNode>,
                    outEdges: map<string, seq<AppEdge>>, graph: AppGraph, seen: set<string>, depth: int, maxSteps: int)
    requires JourneyTest(path + [nodeId], byId, graph).Some?
    requires Key(path + [nodeId]) !in seen
    ensures var t := JourneyTest(path + [nodeId], byId, graph).value;
      Emitted(t, path, nodeId, byId, outEdges, graph, seen, Bound(|path|, depth, maxSteps))
      && Key(PathOf(t)) == Key(path + [nodeId])
  {
    JourneyTestPath(path + [nodeId], byId, graph);
    LeafPath(nodeId, path, outEdges, depth, maxSteps);
  }

  /** The path ending at `nodeId` extends `path + [nodeId]`, trivially
   *  along out-edges, and stays within the bound. */
  lemma LeafPath(nodeId: string, path: seq<string>, outEdges: map<string, seq<AppEdge>>, depth: int, maxSteps: int)
    ensures var p := path + [nodeId];
      && p[..|path|] == path && p[|path|] == nodeId
      && Linked(p[|path|..], outEdges)
      && |p| <= Bound(|path|, depth, maxSteps)
  {
    var p := path + [nodeId];
    assert p[..|path|] == path;
    assert p[|path|..] == [nodeId];
  }

  /** The test `path + [nodeId]` where the walk stops, unless its key was
   *  seen. */
  method PushLeaf(nodeId: string, path: seq<string>, byId: map<string, AppNode>,
                  outEdges: map<string, seq<AppEdge>>, graph: AppGraph, seen: set<string>, tests: seq<TestCase>,
                  depth: int, maxSteps: int)
    returns (seen': set<string>, tests': seq<TestCase>)
    requires |path| >= 1 && depth == |path| && LeafAt(nodeId, depth, outEdges, maxSteps)
    ensures seen <= seen' && |tests| <= |tests'| <= |tests| + 1 && tests'[..|tests|] == tests
    ensures forall i :: |tests| <= i < |tests'| ==>
      Emitted(tests'[i], path, nodeId, byId, outEdges, graph, seen, Bound(|path|, depth, maxSteps))
      && Key(PathOf(tests'[i])) in seen' && LeafShaped(tests'[i], outEdges, maxSteps)
    ensures seen' <= seen + KeysOf(tests')
    ensures Key(path + [nodeId]) in seen ==> seen' == seen && tests' == tests
    ensures AllKnown(path + [nodeId], byId) ==> Key(path + [nodeId]) in seen'
  {
    seen', tests' := seen, tests;
    var pathKey := Key(path + [nodeId]);
    var tc := BuildJourneyTest(path + [nodeId], byId, graph);
    if tc.Some? && pathKey !in seen' {
      var t := tc.value;
      LeafEmitted(nodeId, path, byId, outEdges, graph, seen, depth, maxSteps);
      JourneyTestPath(path + [nodeId], byId, graph);
      assert Emitted(t, path, nodeId, byId, outEdges, graph, seen, Bound(|path|, depth, maxSteps));
      assert PathOf(t) == path + [nodeId];
      seen' := seen' + {pathKey};
      assert Key(PathOf(t)) in seen';
      tests' := tests' + [t];
      assert tests'[..|tests|] == tests;
      assert tests'[|tests|] == t;
      assert pathKey in KeysOf(tests');
      forall i | |tests| <= i < |tests'|
        ensures Emitted(tests'[i], path, nodeId, byId, outEdges, graph, seen, Bound(|path|, depth, maxSteps))
          && Key(PathOf(tests'[i])) in seen' && LeafShaped(tests'[i], outEdges, maxSteps)
      {
        assert i == |tests| && tests'[i] == t;
      }
    }
  }

  /** The three-node (or longer) test `path + [nodeId, nextId]`, unless
   *  its key was seen. */
  method PushHop(nextId: string, nodeId: string, path: seq<string>, byId: map<string, AppNode>,
                 outEdges: map<string, seq<AppEdge>>, graph: AppGraph, seen: set<string>, tests: seq<TestCase>,
                 depth: int, maxSteps: int)
    returns (seen': set<string>, tests': seq<TestCase>)
    requires HasOutEdge(outEdges, nodeId, nextId)
    requires depth < maxSteps - 1 && |path| >= 1
    ensures seen <= seen' && |tests| <= |tests'| && tests'[..|tests|] == tests
    ensures forall i :: |tests| <= i < |tests'| ==>
      Emitted(tests'[i], path, nodeId, byId, outEdges, graph, seen, Bound(|path|, depth, maxSteps))
      && Key(PathOf(tests'[i])) in seen' && LeafShaped(tests'[i], outEdges, maxSteps)
    ensures seen' <= seen + KeysOf(tests')
    ensures |tests'| <= |tests| + 1
    ensures Key(path + [nodeId] + [nextId]) in seen' || !AllKnown(path + [nodeId] + [nextId], byId)
  {
    seen', tests' := seen, tests;
    var p := path + [nodeId] + [nextId];
    var pathKey2 := Key(p);
    if pathKey2 !in seen' {
      var tc := BuildJourneyTest(p, byId, graph);
      if tc.Some? {
        var t := tc.value;
        HopEmitted(nextId, nodeId, path, byId, outEdges, graph, seen, depth, maxSteps);
        JourneyTestPath(p, byId, graph);
        assert Emitted(t, path, nodeId, byId, outEdges, graph, seen, Bound(|path|, depth, maxSteps));
        assert |PathOf(t)| >= 3;
        seen' := seen' + {pathKey2};
        assert Key(PathOf(t)) in seen';
        tests' := tests' + [t];
        assert tests'[..|tests|] == tests;
        assert tests'[|tests|] == t;
        assert pathKey2 in KeysOf(tests');
        forall i | |tests| <= i < |tests'|
          ensures Emitted(tests'[i], path, nodeId, byId, outEdges, graph, seen, Bound(|path|, depth, maxSteps))
            && Key(PathOf(tests'[i])) in seen' && LeafShaped(tests'[i], outEdges, maxSteps)
        {
          assert i == |tests| && tests'[i] == t;
        }
      } else {
        assert |p| >= 2;
        assert !AllKnown(p, byId);
      }
    }
  }

  /** One edge of the walk's loop: the three-node test through `edge`
   *  when `path` is non-empty, then the walk into the edge's target. */
  method WalkEdge(edge: AppEdge, nodeId: string, path: seq<string>, byId: map<string, AppNode>,
                  outEdges: map<string, seq<AppEdge>>, graph: AppGraph, seen: set<string>, tests: seq<TestCase>,
                  depth: int, maxSteps: int, stop: bool)
    returns (seen': set<string>, tests': seq<TestCase>)
    requires nodeId in outEdges && edge in outEdges[nodeId]
    requires depth < maxSteps - 1 && depth == |path|
    decreases maxSteps - depth, 0
    ensures Appended(tests, tests', seen, seen', path, nodeId, byId, outEdges, graph, Bound(|path|, depth, maxSteps), maxSteps)
    ensures !stop && nodeId in byId && edge.to in byId && AllKnown(path, byId) ==>
      EdgeDone(path, nodeId, edge.to, seen', byId, outEdges, maxSteps)
  {
    seen', tests' := seen, tests;
    var nextId := edge.to;
    if nextId !in byId {
      return;
    }
    assert HasOutEdge(outEdges, nodeId, nextId);
    var nextPath := path + [nodeId];
    if |nextPath| >= 2 {
      seen', tests' := PushHop(nextId, nodeId, path, byId, outEdges, graph, seen', tests', depth, maxSteps);
    }
    ghost var seenMid := seen';
    ghost var testsMid := tests';
    seen', tests' := Walk(nextId, nextPath, byId, outEdges, graph, seen', tests', depth + 1, maxSteps, stop);
    KeysOfPrefix(testsMid, tests');
    if |path| >= 1 {
      if Key(nextPath + [nextId]) !in seenMid {
        assert !AllKnown(nextPath + [nextId], byId);
        if |tests'| > |testsMid| {
          EmittedKnown(tests'[|testsMid|], nextPath, nextId, byId, outEdges, graph, seenMid, Bound(|nextPath|, depth + 1, maxSteps));
          assert false;
        }
      }
      assert tests' == testsMid;
    } else {
      assert nextPath == [nodeId];
      ChildAppended(tests, tests', seen, seen', nodeId, nextId, byId, outEdges, graph, depth, maxSteps);
    }
  }

  /** The journeys the walk into `nextId` appends after a fresh start at
   *  `nodeId` are journeys appended by the walk from `nodeId`. */
  lemma ChildAppended(tests: seq<TestCase>, tests': seq<TestCase>, seen: set<string>, seen': set<string>,
                      nodeId: string, nextId: string, byId: map<string, AppNode>,
                      outEdges: map<string, seq<AppEdge>>, graph: AppGraph, depth: int, maxSteps: int)
    requires Appended(tests, tests', seen, seen', [nodeId], nextId, byId, outEdges, graph, Bound(1, depth + 1, maxSteps), maxSteps)
    requires HasOutEdge(outEdges, nodeId, nextId) && depth < maxSteps - 1
    ensures Appended(tests, tests', seen, seen', [], nodeId, byId, outEdges, graph, Bound(0, depth, maxSteps), maxSteps)
  {
    forall i | |tests| <= i < |tests'|
      ensures Emitted(tests'[i], [], nodeId, byId, outEdges, graph, seen, Bound(0, depth, maxSteps))
    {
      EmittedLift(tests'[i], nodeId, nextId, byId, outEdges, graph, seen, seen, depth, maxSteps);
    }
  }

  /** `walk`: emits the journeys below `nodeId` that extend `path`. The
   *  recursion keeps `depth` equal to the length of `path`. */
  method Walk(nodeId: string, path: seq<string>, byId: map<string, AppNode>,
              outEdges: map<string, seq<AppEdge>>, graph: AppGraph, seen: set<string>, tests: seq<TestCase>,
              depth: int, maxSteps: int, stop: bool)
    returns (seen': set<string>, tests': seq<TestCase>)
    requires depth == |path|
    decreases maxSteps - depth, 1
    ensures Appended(tests, tests', seen, seen', path, nodeId, byId, outEdges, graph, Bound(|path|, depth, maxSteps), maxSteps)
    ensures stop || Key(path + [nodeId]) in seen ==> seen' == seen && tests' == tests
    ensures !stop && nodeId in byId && AllKnown(path, byId) && Key(path + [nodeId]) !in seen ==>
      WalkDone(nodeId, path, depth, seen', byId, outEdges, maxSteps)
  {
    seen', tests' := seen, tests;
    if stop {
      return;
    }
    var pathKey := Key(path + [nodeId]);
    if pathKey in seen {
      return;
    }
    if nodeId !in byId {
      return;
    }
    var edges := if nodeId in outEdges then outEdges[nodeId] else [];
    if depth >= maxSteps - 1 || |edges| == 0 {
      if |path| >= 1 {
        seen', tests' := PushLeaf(nodeId, path, byId, outEdges, graph, seen', tests', depth, maxSteps);
        if AllKnown(path, byId) {
          KnownSnoc(path, nodeId, byId);
        }
      }
      return;
    }
    var k := 0;
    while k < |edges|
      invariant 0 <= k <= |edges|
      invariant Appended(tests, tests', seen, seen', path, nodeId, byId, outEdges, graph, Bound(|path|, depth, maxSteps), maxSteps)
      invariant AllKnown(path, byId) ==> forall j :: 0 <= j < k && edges[j].to in byId ==>
        EdgeDone(path, nodeId, edges[j].to, seen', byId, outEdges, maxSteps)
    {
      ghost var seenMid := seen';
      ghost var testsMid := tests';
      seen', tests' := WalkEdge(edges[k], nodeId, path, byId, outEdges, graph, seen', tests', depth, maxSteps, stop);
      AppendedTwice(tests, testsMid, tests', seen, seenMid, seen', path, nodeId, byId, outEdges, graph,
        Bound(|path|, depth, maxSteps), maxSteps);
      if AllKnown(path, byId) {
        EdgeLoopDone(path, nodeId, edges, k, seenMid, seen', byId, outEdges, maxSteps);
      }
      k := k + 1;
    }
    if AllKnown(path, byId) {
      AllEdgesDone(path, nodeId, depth, seen', byId, outEdges, maxSteps);
    }
  }

  /** `tests'` and `seen'` extend `tests` and `seen` by journeys emitted
   *  below `nodeId` after `path`: fresh, pairwise distinct keys, each
   *  recorded, and no other key recorded. */
  ghost predicate Appended(tests: seq<TestCase>, tests': seq<TestCase>, seen: set<string>, seen': set<string>,
                           path: seq<string>, nodeId: string, byId: map<string, AppNode>,
                           outEdges: map<string, seq<AppEdge>>, graph: AppGraph, bound: int, maxSteps: int) {
    && seen <= seen' && |tests| <= |tests'| && tests'[..|tests|] == tests
    && (forall i :: |tests| <= i < |tests'| ==>
          Emitted(tests'[i], path, nodeId, byId, outEdges, graph, seen, bound)
          && Key(PathOf(tests'[i])) in seen' && LeafShaped(tests'[i], outEdges, maxSteps))
    && DistinctKeys(tests', |tests|)
    && seen' <= seen + KeysOf(tests')
  }

  /** Two appends in a row, the second emitting keys fresh after the
   *  first, make one append. */
  lemma AppendedTwice(tests: seq<TestCase>, tests1: seq<TestCase>, tests2: seq<TestCase>,
                      seen: set<string>, seen1: set<string>, seen2: set<string>,
                      path: seq<string>, nodeId: string, byId: map<string, AppNode>,
                      outEdges: map<string, seq<AppEdge>>, graph: AppGraph, bound: int, maxSteps: int)
    requires Appended(tests, tests1, seen, seen1, path, nodeId, byId, outEdges, graph, bound, maxSteps)
    requires Appended(tests1, tests2, seen1, seen2, path, nodeId, byId, outEdges, graph, bound, maxSteps)
    ensures Appended(tests, tests2, seen, seen2, path, nodeId, byId, outEdges, graph, bound, maxSteps)
  {
    assert tests2[..|tests|] == tests by {
      assert tests2[..|tests|] == tests2[..|tests1|][..|tests|];
    }
    forall i | |tests| <= i < |tests1|
      ensures tests2[i] == tests1[i]
    {
      assert tests2[..|tests1|][i] == tests2[i];
    }
    KeysOfPrefix(tests1, tests2);
  }

  /** One more pass of the edge loop keeps the work of the earlier
   *  passes and adds its own. */
  lemma EdgeLoopDone(path: seq<string>, nodeId: string, edges: seq<AppEdge>, k: nat, seen: set<string>,
                     seen': set<string>, byId: map<string, AppNode>, outEdges: map<string, seq<AppEdge>>, maxSteps: int)
    requires k < |edges| && seen <= seen'
    requires forall j :: 0 <= j < k && edges[j].to in byId ==> EdgeDone(path, nodeId, edges[j].to, seen, byId, outEdges, maxSteps)
    requires edges[k].to in byId ==> EdgeDone(path, nodeId, edges[k].to, seen', byId, outEdges, maxSteps)
    ensures forall j :: 0 <= j < k + 1 && edges[j].to in byId ==>
      EdgeDone(path, nodeId, edges[j].to, seen', byId, outEdges, maxSteps)
  {
    forall j | 0 <= j < k && edges[j].to in byId
      ensures EdgeDone(path, nodeId, edges[j].to, seen', byId, outEdges, maxSteps)
    {
      EdgeDoneGrows(path, nodeId, edges[j].to, seen, seen', byId, outEdges, maxSteps);
    }
  }

  /** The edge loop has run over every out-edge of `nodeId`: the walk
   *  has done its work. */
  lemma AllEdgesDone(path: seq<string>, nodeId: string, depth: int, seen: set<string>, byId: map<string, AppNode>,
                     outEdges: map<string, seq<AppEdge>>, maxSteps: int)
    requires nodeId in outEdges
    requires forall j :: 0 <= j < |outEdges[nodeId]| && outEdges[nodeId][j].to in byId ==>
      EdgeDone(path, nodeId, outEdges[nodeId][j].to, seen, byId, outEdges, maxSteps)
    ensures !LeafAt(nodeId, depth, outEdges, maxSteps) ==> WalkDone(nodeId, path, depth, seen, byId, outEdges, maxSteps)
  {
    var edges := outEdges[nodeId];
    forall m | HasOutEdge(outEdges, nodeId, m) && m in byId
      ensures EdgeDone(path, nodeId, m, seen, byId, outEdges, maxSteps)
    {
      var e :| e in edges && e.to == m;
      var j :| 0 <= j < |edges| && edges[j] == e;
    }
  }

  lemma KnownSnoc(path: seq<string>, nodeId: string, byId: map<string, AppNode>)
    requires AllKnown(path, byId) && nodeId in byId
    ensures AllKnown(path + [nodeId], byId)
  {
  }

  /** What the walks have gathered so far: journeys from fresh starts,
   *  each key recorded in `seen`, no key twice. */
  predicate Collected(tests: seq<TestCase>, seen: set<string>, byId: map<string, AppNode>,
                      outEdges: map<string, seq<AppEdge>>, graph: AppGraph, maxSteps: int) {
    && (forall i :: 0 <= i < |tests| ==>
          Journey(tests[i], byId, outEdges, graph, maxSteps) && Key(PathOf(tests[i])) in seen
          && LeafShaped(tests[i], outEdges, maxSteps))
    && DistinctKeys(tests, 0)
    && seen <= KeysOf(tests)
  }

  /** The path of `t` begins at `s`. */
  predicate StartsAt(t: TestCase, s: string) {
    |PathOf(t)| > 0 && PathOf(t)[0] == s
  }

  /** `t` is the journey test over its path, which follows out-edges and
   *  has at most as many nodes as a walk from a fresh start allows. */
  predicate Journey(t: TestCase, byId: map<string, AppNode>, outEdges: map<string, seq<AppEdge>>, graph: AppGraph,
                    maxSteps: int) {
    var p := PathOf(t);
    JourneyTest(p, byId, graph) == Some(t) && Linked(p, outEdges) && |p| <= Bound(0, 0, maxSteps)
  }

  /** A test emitted by a walk from a fresh start is a journey whose key
   *  was not seen when the walk began. */
  lemma EmittedJourney(t: TestCase, startId: string, byId: map<string, AppNode>, outEdges: map<string, seq<AppEdge>>,
                       graph: AppGraph, seen: set<string>, maxSteps: int)
    requires Emitted(t, [], startId, byId, outEdges, graph, seen, Bound(0, 0, maxSteps))
    ensures Journey(t, byId, outEdges, graph, maxSteps) && Key(PathOf(t)) !in seen
  {
    var p := PathOf(t);
    assert p[0..] == p;
  }

  /** A walk from a fresh start keeps `Collected`. */
  method WalkFrom(startId: string, byId: map<string, AppNode>, outEdges: map<string, seq<AppEdge>>, graph: AppGraph,
                  seen: set<string>, tests: seq<TestCase>, maxSteps: int, stop: bool)
    returns (seen': set<string>, tests': seq<TestCase>)
    requires Collected(tests, seen, byId, outEdges, graph, maxSteps)
    ensures Collected(tests', seen', byId, outEdges, graph, maxSteps)
    ensures |tests| <= |tests'| && tests'[..|tests|] == tests && seen <= seen'
    ensures forall i :: |tests| <= i < |tests'| ==> StartsAt(tests'[i], startId)
    ensures stop ==> tests' == tests
    ensures !stop && startId in byId && startId !in seen ==> WalkDone(startId, [], 0, seen', byId, outEdges, maxSteps)
  {
    seen', tests' := Walk(startId, [], byId, outEdges, graph, seen, tests, 0, maxSteps, stop);
    assert [] + [startId] == [startId];
    KeysOfPrefix(tests, tests');
    forall i | |tests| <= i < |tests'|
      ensures Journey(tests'[i], byId, outEdges, graph, maxSteps) && Key(PathOf(tests'[i])) !in seen
      ensures StartsAt(tests'[i], startId)
    {
      EmittedJourney(tests'[i], startId, byId, outEdges, graph, seen, maxSteps);
    }
    forall i | 0 <= i < |tests'|
      ensures Journey(tests'[i], byId, outEdges, graph, maxSteps) && Key(PathOf(tests'[i])) in seen'
      ensures LeafShaped(tests'[i], outEdges, maxSteps)
    {
      if i < |tests| {
        assert tests'[..|tests|][i] == tests[i];
      }
    }
    forall i, j | 0 <= i < j < |tests'|
      ensures Key(PathOf(tests'[i])) != Key(PathOf(tests'[j]))
    {
      if j < |tests| {
        assert tests'[..|tests|][i] == tests[i];
        assert tests'[..|tests|][j] == tests[j];
      } else if i < |tests| {
        assert tests'[..|tests|][i] == tests[i];
        assert Key(PathOf(tests'[i])) in seen;
      }
    }
  }

  /** Each consecutive pair of `p` is joined by an edge of the graph. */
  predicate EdgePath(p: seq<string>, edges: seq<AppEdge>) {
    forall i, j :: 0 <= i < |p| && j == i + 1 && j < |p| ==> Joined(edges, p[i], p[j])
  }

  /** Some edge leads from `a` to `b`. */
  predicate Joined(edges: seq<AppEdge>, a: string, b: string) {
    exists e :: e in edges && e.from == a && e.to == b
  }

  /** A journey as the generator promises it: the test built for its
   *  path, 2 to `min(3, maxSteps)` route nodes joined by graph edges. */
  predicate ValidJourney(t: TestCase, graph: AppGraph, maxSteps: int) {
    var p := PathOf(t);
    var byId := ById(Filter(graph.nodes, IsRoute));
    && JourneyTest(p, byId, graph) == Some(t)
    && 2 <= |p| <= 3 && |p| <= maxSteps
    && (forall x :: x in p ==> x in byId && IsRoute(byId[x]))
    && EdgePath(p, graph.edges)
  }

  lemma CollectedValid(tests: seq<TestCase>, seen: set<string>, graph: AppGraph, outEdges: map<string, seq<AppEdge>>, maxSteps: int)
    requires Collected(tests, seen, ById(Filter(graph.nodes, IsRoute)), outEdges, graph, maxSteps)
    requires forall id :: id in outEdges ==> outEdges[id] == EdgesFrom(graph.edges, id)
    ensures forall t :: t in tests ==> ValidJourney(t, graph, maxSteps)
  {
    forall t | t in tests
      ensures ValidJourney(t, graph, maxSteps)
    {
      var i :| 0 <= i < |tests| && tests[i] == t;
      PathValid(t, graph, outEdges, maxSteps);
    }
  }

  lemma PathValid(t: TestCase, graph: AppGraph, outEdges: map<string, seq<AppEdge>>, maxSteps: int)
    requires JourneyTest(PathOf(t), ById(Filter(graph.nodes, IsRoute)), graph) == Some(t)
    requires Linked(PathOf(t), outEdges) && |PathOf(t)| <= Bound(0, 0, maxSteps)
    requires forall id :: id in outEdges ==> outEdges[id] == EdgesFrom(graph.edges, id)
    ensures ValidJourney(t, graph, maxSteps)
  {
    var byId := ById(Filter(graph.nodes, IsRoute));
    var p := PathOf(t);
    JourneyTestPath(p, byId, graph);
    RoutePath(p, graph);
    LinkedEdgePath(p, graph, outEdges);
  }

  lemma RoutePath(p: seq<string>, graph: AppGraph)
    requires AllKnown(p, ById(Filter(graph.nodes, IsRoute)))
    ensures var byId := ById(Filter(graph.nodes, IsRoute));
      forall x :: x in p ==> x in byId && IsRoute(byId[x])
  {
    var byId := ById(Filter(graph.nodes, IsRoute));
    forall x | x in p
      ensures x in byId && IsRoute(byId[x])
    {
      assert byId[x] in Filter(graph.nodes, IsRoute);
    }
  }

  lemma LinkedEdgePath(p: seq<string>, graph: AppGraph, outEdges: map<string, seq<AppEdge>>)
    requires Linked(p, outEdges)
    requires forall id :: id in outEdges ==> outEdges[id] == EdgesFrom(graph.edges, id)
    ensures EdgePath(p, graph.edges)
  {
    forall j | 0 <= j < |p| - 1
      ensures Joined(graph.edges, p[j], p[j + 1])
    {
      assert HasOutEdge(outEdges, p[j], p[j + 1]);
      var e :| e in outEdges[p[j]] && e.to == p[j + 1];
      assert e in EdgesFrom(graph.edges, p[j]);
      assert e in graph.edges && e.from == p[j] && e.to == p[j + 1];
    }
  }

  /** The start nodes: the route nodes at `/`, `''` or without a route,
   *  else the first three route nodes. */
  predicate IsStart(n: AppNode) {
    n.route.None? || n.route == Some("/") || n.route == Some("")
  }

  function Starts(routeNodes: seq<AppNode>): seq<AppNode> {
    var startNodes := Filter(routeNodes, IsStart);
    if |startNodes| > 0 then startNodes else routeNodes[..if |routeNodes| < 3 then |routeNodes| else 3]
  }

  /** One walk of `generate`'s loops: the node it started from and how
   *  many tests had been collected before and after it. */
  datatype WalkRecord = WalkRecord(start: string, before: nat, after: nat)

  /** `walks` lists the walks in the order they ran: each began with
   *  fewer than `maxJourneys` tests, and together they split `tests` into
   *  consecutive runs, each run's paths beginning at its walk's node. */
  ghost predicate Scheduled(walks: seq<WalkRecord>, tests: seq<TestCase>, maxJourneys: int) {
    && (|walks| == 0 ==> |tests| == 0)
    && (|walks| > 0 ==> walks[0].before == 0 && walks[|walks| - 1].after == |tests|)
    && (forall k :: 0 <= k < |walks| ==> walks[k].before <= walks[k].after <= |tests| && walks[k].before < maxJourneys)
    && (forall k, j :: 0 <= k < |walks| && 0 <= j < |walks| && j == k + 1 ==> walks[k].after == walks[j].before)
    && (forall k, i :: 0 <= k < |walks| && walks[k].before <= i < walks[k].after ==>
          i < |tests| && StartsAt(tests[i], walks[k].start))
  }

  /** The walk from route node `s` has done its work, when `s` holds no
   *  `->` (otherwise its own key could clash with a longer path's). */
  ghost predicate Covered(s: string, seen: set<string>, byId: map<string, AppNode>,
                          outEdges: map<string, seq<AppEdge>>, maxSteps: int) {
    s in byId && ArrowFree(s) ==> WalkDone(s, [], 0, seen, byId, outEdges, maxSteps)
  }

  /** The state of `generate` between walks. */
  ghost predicate Progress(tests: seq<TestCase>, seen: set<string>, walks: seq<WalkRecord>, byId: map<string, AppNode>,
                           outEdges: map<string, seq<AppEdge>>, graph: AppGraph, maxSteps: int, maxJourneys: int) {
    && Collected(tests, seen, byId, outEdges, graph, maxSteps)
    && Scheduled(walks, tests, maxJourneys)
    && (forall k :: 0 <= k < |walks| ==> Covered(walks[k].start, seen, byId, outEdges, maxSteps))
  }

  /** An id without `->` is never the key of a collected journey, whose
   *  paths have two nodes or more. */
  lemma StartUnseen(s: string, tests: seq<TestCase>, seen: set<string>, byId: map<string, AppNode>,
                    outEdges: map<string, seq<AppEdge>>, graph: AppGraph, maxSteps: int)
    requires Collected(tests, seen, byId, outEdges, graph, maxSteps) && ArrowFree(s)
    ensures s !in seen
  {
    forall i | 0 <= i < |tests|
      ensures Key(PathOf(tests[i])) != s
    {
      JourneyTestPath(PathOf(tests[i]), byId, graph);
      KeyHasArrow(PathOf(tests[i]));
    }
  }

  /** One pass of either loop of `generate`: the walk from `startId`,
   *  recorded in `walks`. The loops call it only while fewer than
   *  `maxJourneys` tests exist, and `stop` reads the same count, so it
   *  is false throughout the walk. */
  method WalkStep(startId: string, byId: map<string, AppNode>, outEdges: map<string, seq<AppEdge>>, graph: AppGraph,
                  seen: set<string>, tests: seq<TestCase>, ghost walks: seq<WalkRecord>, maxSteps: int, maxJourneys: int,
                  stop: bool)
    returns (seen': set<string>, tests': seq<TestCase>, ghost walks': seq<WalkRecord>)
    requires Progress(tests, seen, walks, byId, outEdges, graph, maxSteps, maxJourneys)
    requires |tests| < maxJourneys && !stop
    ensures Progress(tests', seen', walks', byId, outEdges, graph, maxSteps, maxJourneys)
    ensures walks' == walks + [WalkRecord(startId, |tests|, |tests'|)]
    ensures |tests| <= |tests'| && tests'[..|tests|] == tests
  {
    seen', tests' := WalkFrom(startId, byId, outEdges, graph, seen, tests, maxSteps, stop);
    walks' := walks + [WalkRecord(startId, |tests|, |tests'|)];
    ScheduledSnoc(walks, tests, tests', startId, maxJourneys);
    if startId in byId && ArrowFree(startId) {
      StartUnseen(startId, tests, seen, byId, outEdges, graph, maxSteps);
    }
    forall k | 0 <= k < |walks'|
      ensures Covered(walks'[k].start, seen', byId, outEdges, maxSteps)
    {
      if k < |walks| {
        var s := walks[k].start;
        if s in byId && ArrowFree(s) {
          WalkDoneGrows(s, [], 0, seen, seen', byId, outEdges, maxSteps);
        }
      }
    }
  }

  /** Recording one more walk, started below the cap, whose tests all
   *  begin at its node, keeps the schedule. */
  lemma ScheduledSnoc(walks: seq<WalkRecord>, tests: seq<TestCase>, tests': seq<TestCase>, startId: string,
                      maxJourneys: int)
    requires Scheduled(walks, tests, maxJourneys) && |tests| < maxJourneys
    requires |tests| <= |tests'| && tests'[..|tests|] == tests
    requires forall i :: |tests| <= i < |tests'| ==> StartsAt(tests'[i], startId)
    ensures Scheduled(walks + [WalkRecord(startId, |tests|, |tests'|)], tests', maxJourneys)
  {
    var w := walks + [WalkRecord(startId, |tests|, |tests'|)];
    forall k, i | 0 <= k < |w| && w[k].before <= i < w[k].after
      ensures i < |tests'| && StartsAt(tests'[i], w[k].start)
    {
      if k < |walks| {
        assert w[k] == walks[k];
        assert tests'[..|tests|][i] == tests[i];
      }
    }
  }

  /** The ids of the graph's route nodes. */
  function RouteIds(graph: AppGraph): set<string> {
    set n | n in graph.nodes && IsRoute(n) :: n.id
  }

  /** No route node's id holds the key separator `->`. */
  predicate ArrowFreeIds(graph: AppGraph) {
    forall n :: n in graph.nodes && IsRoute(n) ==> ArrowFree(n.id)
  }

  /** A walk from a fresh start that reaches `n` second stops there: the
   *  step budget allows two nodes only, or no edge leaves `n`. */
  predicate EndsAt(graph: AppGraph, n: string, maxSteps: int) {
    maxSteps <= 2 || forall e :: e in graph.edges ==> e.from != n
  }

  /** Some test's path is `p`. */
  predicate HasPath(tests: seq<TestCase>, p: seq<string>) {
    exists t :: t in tests && PathOf(t) == p
  }

  /** Every route node `s` and edge `s -> n` into a route node give a
   *  journey: `[s, n]` when the walk stops at `n`, otherwise `[s, n, m]`
   *  for every edge `n -> m` into a route node. */
  ghost predicate Complete(tests: seq<TestCase>, graph: AppGraph, maxSteps: int) {
    forall s, n :: s in RouteIds(graph) && n in RouteIds(graph) && Joined(graph.edges, s, n) ==>
      && (EndsAt(graph, n, maxSteps) ==> HasPath(tests, [s, n]))
      && (!EndsAt(graph, n, maxSteps) ==>
            forall m :: m in RouteIds(graph) && Joined(graph.edges, n, m) ==> HasPath(tests, [s, n, m]))
  }

  /** The route map's keys are the route ids, and with `ArrowFreeIds` none
   *  holds `->`. */
  lemma RouteIdsKnown(graph: AppGraph)
    ensures forall x :: x in RouteIds(graph) <==> x in ById(Filter(graph.nodes, IsRoute))
    ensures ArrowFreeIds(graph) ==> forall x :: x in ById(Filter(graph.nodes, IsRoute)) ==> ArrowFree(x)
  {
    var byId := ById(Filter(graph.nodes, IsRoute));
    forall x | x in byId
      ensures x in RouteIds(graph)
      ensures ArrowFreeIds(graph) ==> ArrowFree(x)
    {
      assert byId[x] in Filter(graph.nodes, IsRoute);
    }
  }

  /** A graph edge between route ids is an out-edge, and whether the walk
   *  stops at a node at depth 1 is `EndsAt`. */
  lemma OutEdgeFacts(graph: AppGraph, outEdges: map<string, seq<AppEdge>>, a: string, b: string, maxSteps: int)
    requires OutEdgesOf(outEdges, graph.edges)
    ensures Joined(graph.edges, a, b) ==> HasOutEdge(outEdges, a, b)
    ensures LeafAt(b, 1, outEdges, maxSteps) <==> EndsAt(graph, b, maxSteps)
  {
    if Joined(graph.edges, a, b) {
      var e :| e in graph.edges && e.from == a && e.to == b;
      assert e in EdgesFrom(graph.edges, a);
    }
    if !EndsAt(graph, b, maxSteps) {
      var e :| e in graph.edges && e.from == b;
      assert e in EdgesFrom(graph.edges, b);
    }
    if b in outEdges && |outEdges[b]| > 0 {
      assert outEdges[b][0] in EdgesFrom(graph.edges, b);
    }
  }

  /** What the completeness proof needs of the collected journeys: each
   *  seen key is a journey's, and each journey has 2 or 3 route nodes
   *  and is `LeafShaped`. */
  ghost predicate Indexed(tests: seq<TestCase>, seen: set<string>, byId: map<string, AppNode>,
                          outEdges: map<string, seq<AppEdge>>, maxSteps: int) {
    && seen <= KeysOf(tests)
    && forall i :: 0 <= i < |tests| ==>
      2 <= |PathOf(tests[i])| <= 3 && AllKnown(PathOf(tests[i]), byId) && LeafShaped(tests[i], outEdges, maxSteps)
  }

  lemma CollectedIndexed(tests: seq<TestCase>, seen: set<string>, byId: map<string, AppNode>,
                         outEdges: map<string, seq<AppEdge>>, graph: AppGraph, maxSteps: int)
    requires Collected(tests, seen, byId, outEdges, graph, maxSteps)
    ensures Indexed(tests, seen, byId, outEdges, maxSteps)
  {
    forall i | 0 <= i < |tests|
      ensures 2 <= |PathOf(tests[i])| <= 3 && AllKnown(PathOf(tests[i]), byId)
    {
      JourneyTestPath(PathOf(tests[i]), byId, graph);
    }
  }

  /** A two- or three-node path of route ids whose key was seen is some
   *  collected journey's path. */
  lemma SeenPath(q: seq<string>, tests: seq<TestCase>, seen: set<string>, byId: map<string, AppNode>,
                 outEdges: map<string, seq<AppEdge>>, graph: AppGraph, maxSteps: int)
    requires Indexed(tests, seen, byId, outEdges, maxSteps)
    requires forall x :: x in byId ==> ArrowFree(x)
    requires 2 <= |q| <= 3 && AllKnown(q, byId) && Key(q) in seen
    ensures exists i :: 0 <= i < |tests| && PathOf(tests[i]) == q
    ensures HasPath(tests, q)
  {
    var i :| 0 <= i < |tests| && Key(PathOf(tests[i])) == Key(q);
    KeyInjective(PathOf(tests[i]), q);
    assert tests[i] in tests;
  }

  /** A seen two-node key `[s, n]` means the walk stops at `n`: two-node
   *  journeys end there. */
  lemma TwoKeyLeaf(s: string, n: string, tests: seq<TestCase>, seen: set<string>, byId: map<string, AppNode>,
                   outEdges: map<string, seq<AppEdge>>, graph: AppGraph, maxSteps: int)
    requires Indexed(tests, seen, byId, outEdges, maxSteps)
    requires forall x :: x in byId ==> ArrowFree(x)
    requires s in byId && n in byId && Key([s, n]) in seen
    ensures LeafAt(n, 1, outEdges, maxSteps)
  {
    SeenPath([s, n], tests, seen, byId, outEdges, graph, maxSteps);
    var i :| 0 <= i < |tests| && PathOf(tests[i]) == [s, n];
    assert LeafShaped(tests[i], outEdges, maxSteps);
  }

  /** When every route node's walk has done its work, the journeys are
   *  complete. */
  lemma CompleteFromWalks(tests: seq<TestCase>, seen: set<string>, graph: AppGraph,
                          outEdges: map<string, seq<AppEdge>>, maxSteps: int)
    requires Collected(tests, seen, ById(Filter(graph.nodes, IsRoute)), outEdges, graph, maxSteps)
    requires OutEdgesOf(outEdges, graph.edges)
    requires maxSteps >= 2 && ArrowFreeIds(graph)
    requires forall x :: x in ById(Filter(graph.nodes, IsRoute)) ==>
      WalkDone(x, [], 0, seen, ById(Filter(graph.nodes, IsRoute)), outEdges, maxSteps)
    ensures Complete(tests, graph, maxSteps)
  {
    var byId := ById(Filter(graph.nodes, IsRoute));
    RouteIdsKnown(graph);
    CollectedIndexed(tests, seen, byId, outEdges, graph, maxSteps);
    forall s, n | s in RouteIds(graph) && n in RouteIds(graph) && Joined(graph.edges, s, n)
      ensures EndsAt(graph, n, maxSteps) ==> HasPath(tests, [s, n])
      ensures !EndsAt(graph, n, maxSteps) ==>
        forall m :: m in RouteIds(graph) && Joined(graph.edges, n, m) ==> HasPath(tests, [s, n, m])
    {
      EdgeJourneys(s, n, tests, seen, byId, outEdges, graph, maxSteps);
    }
  }

  /** The journeys through the edge `s -> n` once the walk from `s` has
   *  done its work. */
  lemma EdgeJourneys(s: string, n: string, tests: seq<TestCase>, seen: set<string>, byId: map<string, AppNode>,
                     outEdges: map<string, seq<AppEdge>>, graph: AppGraph, maxSteps: int)
    requires Indexed(tests, seen, byId, outEdges, maxSteps)
    requires forall x :: x in byId ==> ArrowFree(x)
    requires OutEdgesOf(outEdges, graph.edges) && maxSteps >= 2
    requires s in byId && n in byId && Joined(graph.edges, s, n)
    requires WalkDone(s, [], 0, seen, byId, outEdges, maxSteps)
    ensures EndsAt(graph, n, maxSteps) ==> HasPath(tests, [s, n])
    ensures !EndsAt(graph, n, maxSteps) ==>
      forall m :: m in byId && Joined(graph.edges, n, m) ==> HasPath(tests, [s, n, m])
  {
    OutEdgeFacts(graph, outEdges, s, n, maxSteps);
    StartEdgeDone(s, n, seen, byId, outEdges, maxSteps);
    if EndsAt(graph, n, maxSteps) {
      LeafJourney(s, n, tests, seen, byId, outEdges, graph, maxSteps);
    } else {
      HopJourneys(s, n, tests, seen, byId, outEdges, graph, maxSteps);
    }
  }

  /** The walk from a fresh start at `s` has done its part for the edge
   *  into `n`. */
  lemma StartEdgeDone(s: string, n: string, seen: set<string>, byId: map<string, AppNode>,
                      outEdges: map<string, seq<AppEdge>>, maxSteps: int)
    requires WalkDone(s, [], 0, seen, byId, outEdges, maxSteps)
    requires HasOutEdge(outEdges, s, n) && n in byId && maxSteps >= 2
    ensures Key([s, n]) in seen || (!LeafAt(n, 1, outEdges, maxSteps) && HopsIn([s], n, seen, byId, outEdges))
  {
    assert !LeafAt(s, 0, outEdges, maxSteps);
    assert EdgeDone([], s, n, seen, byId, outEdges, maxSteps);
    assert [s] + [n] == [s, n];
  }

  /** Where the walk stops at `n`, the journey `[s, n]` is there. */
  lemma LeafJourney(s: string, n: string, tests: seq<TestCase>, seen: set<string>, byId: map<string, AppNode>,
                    outEdges: map<string, seq<AppEdge>>, graph: AppGraph, maxSteps: int)
    requires Indexed(tests, seen, byId, outEdges, maxSteps)
    requires forall x :: x in byId ==> ArrowFree(x)
    requires s in byId && n in byId && LeafAt(n, 1, outEdges, maxSteps)
    requires Key([s, n]) in seen || (!LeafAt(n, 1, outEdges, maxSteps) && HopsIn([s], n, seen, byId, outEdges))
    ensures HasPath(tests, [s, n])
  {
    SeenPath([s, n], tests, seen, byId, outEdges, graph, maxSteps);
  }

  /** Where the walk goes on past `n`, every journey `[s, n, m]` is there. */
  lemma HopJourneys(s: string, n: string, tests: seq<TestCase>, seen: set<string>, byId: map<string, AppNode>,
                    outEdges: map<string, seq<AppEdge>>, graph: AppGraph, maxSteps: int)
    requires Indexed(tests, seen, byId, outEdges, maxSteps)
    requires forall x :: x in byId ==> ArrowFree(x)
    requires OutEdgesOf(outEdges, graph.edges)
    requires s in byId && n in byId && !LeafAt(n, 1, outEdges, maxSteps)
    requires Key([s, n]) in seen || HopsIn([s], n, seen, byId, outEdges)
    ensures forall m :: m in byId && Joined(graph.edges, n, m) ==> HasPath(tests, [s, n, m])
  {
    if Key([s, n]) in seen {
      TwoKeyLeaf(s, n, tests, seen, byId, outEdges, graph, maxSteps);
      assert false;
    }
    forall m | m in byId && Joined(graph.edges, n, m)
      ensures HasPath(tests, [s, n, m])
    {
      OutEdgeFacts(graph, outEdges, n, m, maxSteps);
      HopJourney(s, n, m, tests, seen, byId, outEdges, graph, maxSteps);
    }
  }

  lemma HopJourney(s: string, n: string, m: string, tests: seq<TestCase>, seen: set<string>, byId: map<string, AppNode>,
                   outEdges: map<string, seq<AppEdge>>, graph: AppGraph, maxSteps: int)
    requires Indexed(tests, seen, byId, outEdges, maxSteps)
    requires forall x :: x in byId ==> ArrowFree(x)
    requires s in byId && n in byId && m in byId && HasOutEdge(outEdges, n, m)
    requires HopsIn([s], n, seen, byId, outEdges)
    ensures HasPath(tests, [s, n, m])
  {
    assert [s] + [n] + [m] == [s, n, m];
    SeenPath([s, n, m], tests, seen, byId, outEdges, graph, maxSteps);
  }

  /** The ids of `nodes`, in order. */
  function NodeIds(nodes: seq<AppNode>): seq<string> {
    Map(nodes, (n: AppNode) => n.id)
  }

  /** The order in which `generate` may start walks: the start nodes,
   *  then every route node. */
  function WalkOrder(graph: AppGraph): seq<string> {
    var routeNodes := Filter(graph.nodes, IsRoute);
    NodeIds(Starts(routeNodes)) + NodeIds(routeNodes)
  }

  /** `JourneyGenerator.generate`. Every journey is the test of a path of
   *  2 to 3 route nodes (never more than `maxSteps`) along graph edges,
   *  and no two journeys share a path key. `walks` records the walks in
   *  the order they ran: they follow `WalkOrder`, each starts with fewer
   *  than `maxJourneys` tests (one walk may end above it), and the run
   *  stops early only once the cap is reached. When it ends below the
   *  cap, every two-node journey where a walk stops and every three-node
   *  journey through an inner node is there, from every route node. */
  method Generate(graph: AppGraph, options: JourneyOptions) returns (tests: seq<TestCase>, ghost walks: seq<WalkRecord>)
    ensures |graph.edges| == 0 ==> tests == [] && walks == []
    ensures MaxJourneys(options) <= 0 ==> tests == []
    ensures forall t :: t in tests ==> ValidJourney(t, graph, MaxSteps(options))
    ensures DistinctKeys(tests, 0)
    ensures Scheduled(walks, tests, MaxJourneys(options))
    ensures |walks| <= |WalkOrder(graph)|
    ensures forall k :: 0 <= k < |walks| ==> walks[k].start == WalkOrder(graph)[k]
    ensures |graph.edges| > 0 && |walks| < |WalkOrder(graph)| ==> |tests| >= MaxJourneys(options)
    ensures |tests| < MaxJourneys(options) && MaxSteps(options) >= 2 && ArrowFreeIds(graph) ==>
      Complete(tests, graph, MaxSteps(options))
  {
    walks := [];
    if |graph.edges| == 0 {
      return [], walks;
    }
    var routeNodes := Filter(graph.nodes, IsRoute);
    var byId := ById(routeNodes);
    var outEdges := BuildOutEdges(graph.edges);
    var maxJourneys := MaxJourneys(options);
    var maxSteps := MaxSteps(options);
    var starts := Starts(routeNodes);
    var seen, generated;
    Begun(byId, outEdges, graph, maxSteps, maxJourneys);
    seen, tests, generated, walks := WalkNodes(starts, byId, outEdges, graph, {}, [], 0, [], [], maxSteps, maxJourneys);
    if generated < maxJourneys {
      seen, tests, generated, walks := WalkNodes(routeNodes, byId, outEdges, graph, seen, tests, generated, walks,
        [] + NodeIds(starts), maxSteps, maxJourneys);
    } else {
      InOrderExtend(walks, [] + NodeIds(starts), NodeIds(routeNodes));
    }
    OrderOfWalks(graph);
    Finished(tests, seen, walks, graph, outEdges, maxSteps, maxJourneys);
  }

  /** Before any walk, nothing is collected and nothing is scheduled. */
  lemma Begun(byId: map<string, AppNode>, outEdges: map<string, seq<AppEdge>>, graph: AppGraph,
              maxSteps: int, maxJourneys: int)
    ensures Progress([], {}, [], byId, outEdges, graph, maxSteps, maxJourneys)
  {
  }

  /** The two loops' orders, joined, are `WalkOrder`. */
  lemma OrderOfWalks(graph: AppGraph)
    ensures ([] + NodeIds(Starts(Filter(graph.nodes, IsRoute)))) + NodeIds(Filter(graph.nodes, IsRoute)) == WalkOrder(graph)
  {
    var starts := NodeIds(Starts(Filter(graph.nodes, IsRoute)));
    assert [] + starts == starts;
  }

  /** `walks` started from the first nodes of `order`, in turn. */
  ghost predicate InOrder(walks: seq<WalkRecord>, order: seq<string>) {
    |walks| <= |order| && forall k :: 0 <= k < |walks| ==> walks[k].start == order[k]
  }

  lemma InOrderExtend(walks: seq<WalkRecord>, order: seq<string>, more: seq<string>)
    requires InOrder(walks, order)
    ensures InOrder(walks, order + more)
  {
  }

  /** What `generate` promises, from the state its loops leave. */
  lemma Finished(tests: seq<TestCase>, seen: set<string>, walks: seq<WalkRecord>, graph: AppGraph,
                 outEdges: map<string, seq<AppEdge>>, maxSteps: int, maxJourneys: int)
    requires Progress(tests, seen, walks, ById(Filter(graph.nodes, IsRoute)), outEdges, graph, maxSteps, maxJourneys)
    requires OutEdgesOf(outEdges, graph.edges)
    requires InOrder(walks, WalkOrder(graph))
    requires |walks| < |WalkOrder(graph)| ==> |tests| >= maxJourneys
    ensures forall t :: t in tests ==> ValidJourney(t, graph, maxSteps)
    ensures DistinctKeys(tests, 0)
    ensures Scheduled(walks, tests, maxJourneys)
    ensures maxJourneys <= 0 ==> tests == []
    ensures |walks| <= |WalkOrder(graph)|
    ensures forall k :: 0 <= k < |walks| ==> walks[k].start == WalkOrder(graph)[k]
    ensures |tests| < maxJourneys && maxSteps >= 2 && ArrowFreeIds(graph) ==> Complete(tests, graph, maxSteps)
  {
    CollectedValid(tests, seen, graph, outEdges, maxSteps);
    if |tests| < maxJourneys && maxSteps >= 2 && ArrowFreeIds(graph) {
      AllWalked(walks, seen, graph, outEdges, maxSteps);
      CompleteFromWalks(tests, seen, graph, outEdges, maxSteps);
    }
  }

  /** One of `generate`'s two loops: a walk from each of `nodes` in
   *  turn, while fewer than `maxJourneys` tests exist. Stops early only
   *  at the cap. */
  method WalkNodes(nodes: seq<AppNode>, byId: map<string, AppNode>, outEdges: map<string, seq<AppEdge>>,
                   graph: AppGraph, seen: set<string>, tests: seq<TestCase>, generated: int,
                   ghost walks: seq<WalkRecord>, ghost order: seq<string>, maxSteps: int, maxJourneys: int)
    returns (seen': set<string>, tests': seq<TestCase>, generated': int, ghost walks': seq<WalkRecord>)
    requires Progress(tests, seen, walks, byId, outEdges, graph, maxSteps, maxJourneys)
    requires generated == |tests|
    requires |walks| == |order| && InOrder(walks, order)
    ensures Progress(tests', seen', walks', byId, outEdges, graph, maxSteps, maxJourneys)
    ensures generated' == |tests'|
    ensures InOrder(walks', order + NodeIds(nodes))
    ensures generated' < maxJourneys ==> |walks'| == |order + NodeIds(nodes)|
  {
    seen', tests', generated', walks' := seen, tests, generated, walks;
    ghost var all := order + NodeIds(nodes);
    var i := 0;
    while i < |nodes|
      invariant 0 <= i <= |nodes|
      invariant Progress(tests', seen', walks', byId, outEdges, graph, maxSteps, maxJourneys)
      invariant generated' == |tests'|
      invariant |walks'| == |order| + i && InOrder(walks', all)
    {
      if generated' >= maxJourneys {
        break;
      }
      ghost var before := walks';
      seen', tests', walks' := WalkStep(nodes[i].id, byId, outEdges, graph, seen', tests', walks', maxSteps, maxJourneys,
        generated' >= maxJourneys);
      assert all[|before|] == nodes[i].id;
      if |tests'| > generated' {
        generated' := |tests'|;
      }
      i := i + 1;
    }
  }

  /** After a walk from every node of `WalkOrder`, every route node's walk
   *  has done its work. */
  lemma AllWalked(walks: seq<WalkRecord>, seen: set<string>, graph: AppGraph,
                  outEdges: map<string, seq<AppEdge>>, maxSteps: int)
    requires forall k :: 0 <= k < |walks| ==>
      Covered(walks[k].start, seen, ById(Filter(graph.nodes, IsRoute)), outEdges, maxSteps)
    requires |walks| == |WalkOrder(graph)| && InOrder(walks, WalkOrder(graph))
    requires ArrowFreeIds(graph)
    ensures forall x :: x in ById(Filter(graph.nodes, IsRoute)) ==>
      WalkDone(x, [], 0, seen, ById(Filter(graph.nodes, IsRoute)), outEdges, maxSteps)
  {
    var byId := ById(Filter(graph.nodes, IsRoute));
    RouteIdsKnown(graph);
    forall x | x in byId
      ensures WalkDone(x, [], 0, seen, byId, outEdges, maxSteps)
    {
      RouteWalked(x, walks, seen, graph, outEdges, maxSteps);
    }
  }

  /** The walk from route node `x`: `WalkOrder` lists every route node
   *  after the start nodes. */
  lemma RouteWalked(x: string, walks: seq<WalkRecord>, seen: set<string>, graph: AppGraph,
                    outEdges: map<string, seq<AppEdge>>, maxSteps: int)
    requires forall k :: 0 <= k < |walks| ==>
      Covered(walks[k].start, seen, ById(Filter(graph.nodes, IsRoute)), outEdges, maxSteps)
    requires |walks| == |WalkOrder(graph)| && InOrder(walks, WalkOrder(graph))
    requires x in ById(Filter(graph.nodes, IsRoute)) && ArrowFree(x)
    ensures WalkDone(x, [], 0, seen, ById(Filter(graph.nodes, IsRoute)), outEdges, maxSteps)
  {
    var routeNodes := Filter(graph.nodes, IsRoute);
    var byId := ById(routeNodes);
    var k :| 0 <= k < |routeNodes| && routeNodes[k] == byId[x];
    var j := WalkOrderAt(graph, k);
    assert walks[j].start == x;
    assert Covered(walks[j].start, seen, byId, outEdges, maxSteps);
  }

  /** Where `WalkOrder` lists the `k`-th route node. */
  lemma WalkOrderAt(graph: AppGraph, k: int) returns (j: int)
    requires 0 <= k < |Filter(graph.nodes, IsRoute)|
    ensures 0 <= j < |WalkOrder(graph)| && WalkOrder(graph)[j] == Filter(graph.nodes, IsRoute)[k].id
  {
    var routeNodes := Filter(graph.nodes, IsRoute);
    var starts := NodeIds(Starts(routeNodes));
    j := |starts| + k;
    assert WalkOrder(graph)[j] == NodeIds(routeNodes)[k];
  }

}
