/** Assembling an application graph from crawled nodes and edges, and
 *  merging the graphs of several crawls into one. */
module GraphBuilder {
  import opened Wrappers
  import opened Text
  import opened Seqs
  import opened GraphModel
  import GraphMigrations

  /** The signature stored for a node: the hash of its element list and
   *  the time the node was first seen. `hash` stands for hashing the JSON
   *  text of the list. */
  function NodeSignature(n: AppNode, hash: seq<ElementDescriptor> -> string): Signature {
    Signature(hash(n.elements), n.metadata.firstSeen)
  }

  /** `signatures[node.id] = …` for every node in turn. */
  function SignaturesOf(nodes: seq<AppNode>, hash: seq<ElementDescriptor> -> string): map<string, Signature>
    decreases |nodes|
  {
    if |nodes| == 0 then map[]
    else
      var n := nodes[|nodes| - 1];
      SignaturesOf(nodes[..|nodes| - 1], hash)[n.id := NodeSignature(n, hash)]
  }

  /** `nodes.reduce((sum, n) => sum + size(n), 0)`. */
  function SumBy(nodes: seq<AppNode>, size: AppNode -> nat): nat
    decreases |nodes|
  {
    if |nodes| == 0 then 0 else SumBy(nodes[..|nodes| - 1], size) + size(nodes[|nodes| - 1])
  }

  function ElementCount(n: AppNode): nat {
    |n.elements|
  }

  function FormCount(n: AppNode): nat {
    |n.forms|
  }

  /** The graph `build` returns; `now` stands for the clock reading. */
  function BuiltGraph(appName: string, baseUrl: string, nodes: seq<AppNode>, edges: seq<AppEdge>,
                      framework: Option<string>, crawlDuration: Option<int>, now: string,
                      hash: seq<ElementDescriptor> -> string): AppGraph
  {
    AppGraph(GraphMigrations.CurrentGraphVersion, appName, baseUrl, now, framework, nodes, edges,
      SignaturesOf(nodes, hash),
      GraphMetadata(|nodes|, |edges|, SumBy(nodes, ElementCount), SumBy(nodes, FormCount),
        crawlDuration.GetOr(0), DynamicCrawl))
  }

  method Build(appName: string, baseUrl: string, nodes: seq<AppNode>, edges: seq<AppEdge>,
               framework: Option<string>, crawlDuration: Option<int>, now: string,
               hash: seq<ElementDescriptor> -> string)
    returns (g: AppGraph)
    ensures g == BuiltGraph(appName, baseUrl, nodes, edges, framework, crawlDuration, now, hash)
  {
    var signatures: map<string, Signature> := map[];
    for i := 0 to |nodes|
      invariant signatures == SignaturesOf(nodes[..i], hash)
    {
      assert nodes[..i + 1][..i] == nodes[..i];
      signatures := signatures[nodes[i].id := NodeSignature(nodes[i], hash)];
    }
    assert nodes[..|nodes|] == nodes;
    var metadata := GraphMetadata(|nodes|, |edges|, SumBy(nodes, ElementCount), SumBy(nodes, FormCount),
      crawlDuration.GetOr(0), DynamicCrawl);
    g := AppGraph(GraphMigrations.CurrentGraphVersion, appName, baseUrl, now, framework, nodes, edges,
      signatures, metadata);
  }

  /** There is a signature for exactly the node ids. */
  lemma {:induction false} SignaturesOfKeys(nodes: seq<AppNode>, hash: seq<ElementDescriptor> -> string)
    ensures SignaturesOf(nodes, hash).Keys == KeySet(nodes, NodeId)
    decreases |nodes|
  {
    if |nodes| > 0 {
      var init := nodes[..|nodes| - 1];
      SignaturesOfKeys(init, hash);
      KeySetSnoc(init, nodes[|nodes| - 1], NodeId);
      assert nodes == init + [nodes[|nodes| - 1]];
    }
  }

  /** No later node has the id of `nodes[i]`. */
  predicate LastWithId(nodes: seq<AppNode>, i: int) {
    0 <= i < |nodes| && forall j :: i < j < |nodes| ==> nodes[j].id != nodes[i].id
  }

  /** Of several nodes with one id, the last one's signature is kept. */
  lemma {:induction false} SignaturesOfLatest(nodes: seq<AppNode>, hash: seq<ElementDescriptor> -> string, i: int)
    requires LastWithId(nodes, i)
    ensures nodes[i].id in SignaturesOf(nodes, hash)
    ensures SignaturesOf(nodes, hash)[nodes[i].id] == NodeSignature(nodes[i], hash)
    decreases |nodes|
  {
    if i < |nodes| - 1 {
      var init := nodes[..|nodes| - 1];
      assert init[i] == nodes[i];
      assert LastWithId(init, i) by {
        forall j | i < j < |init| ensures init[j].id != init[i].id {
          assert init[j] == nodes[j];
        }
      }
      SignaturesOfLatest(init, hash, i);
    }
  }

  /** Sums add up over concatenation. */
  lemma {:induction false} SumByAppend(a: seq<AppNode>, b: seq<AppNode>, size: AppNode -> nat)
    ensures SumBy(a + b, size) == SumBy(a, size) + SumBy(b, size)
    decreases |b|
  {
    if |b| == 0 {
      assert a + b == a;
    } else {
      var init := b[..|b| - 1];
      SumByAppend(a, init, size);
      assert (a + b)[..|a + b| - 1] == a + init;
      assert (a + b)[|a + b| - 1] == b[|b| - 1];
    }
  }

  /** A built graph carries the current format version, one signature per
   *  node id (the last node with an id wins), the list lengths and the
   *  element and form sums, and a missing crawl duration counts as 0. */
  lemma BuildSpec(appName: string, baseUrl: string, nodes: seq<AppNode>, edges: seq<AppEdge>,
                  framework: Option<string>, crawlDuration: Option<int>, now: string,
                  hash: seq<ElementDescriptor> -> string)
    ensures var g := BuiltGraph(appName, baseUrl, nodes, edges, framework, crawlDuration, now, hash);
      && g.version == "6.1.0"
      && g.nodes == nodes && g.edges == edges
      && g.signatures.Keys == KeySet(nodes, NodeId)
      && (forall i :: LastWithId(nodes, i) ==> g.signatures[nodes[i].id] == NodeSignature(nodes[i], hash))
      && g.metadata.totalNodes == |nodes| && g.metadata.totalEdges == |edges|
      && g.metadata.totalElements == SumBy(nodes, ElementCount)
      && g.metadata.totalForms == SumBy(nodes, FormCount)
      && g.metadata.crawlDuration == (if crawlDuration.Some? then crawlDuration.value else 0)
      && g.metadata.crawlMethod == DynamicCrawl
  {
    SignaturesOfKeys(nodes, hash);
    forall i | LastWithId(nodes, i) ensures SignaturesOf(nodes, hash)[nodes[i].id] == NodeSignature(nodes[i], hash) {
      SignaturesOfLatest(nodes, hash, i);
    }
  }

  /** `el.selector.primary || el.text || el.id`. */
  function ElementKey(e: ElementDescriptor): string {
    if e.selector.primary != "" then e.selector.primary else OrElse(e.text, e.id)
  }

  function EdgeTypeName(t: EdgeType): string {
    match t
    case NavigateEdge => "navigate"
    case SubmitEdge => "submit"
    case ModalEdge => "modal"
    case TabEdge => "tab"
  }

  /** `${from}->${to}-${type}`. */
  function EdgeKey(e: AppEdge): string {
    e.from + "->" + e.to + "-" + EdgeTypeName(e.etype)
  }

  /** The element list `mergeElements` returns. */
  function MergedElements(a: seq<ElementDescriptor>, b: seq<ElementDescriptor>): seq<ElementDescriptor> {
    DedupBy(a + b, ElementKey)
  }

  method MergeElements(a: seq<ElementDescriptor>, b: seq<ElementDescriptor>) returns (r: seq<ElementDescriptor>)
    ensures r == MergedElements(a, b)
  {
    var all := a + b;
    var seen: set<string> := {};
    r := [];
    for i := 0 to |all|
      invariant r == DedupBy(all[..i], ElementKey)
      invariant seen == KeySet(all[..i], ElementKey)
    {
      assert all[..i + 1] == all[..i] + [all[i]];
      assert all[..i + 1][..i] == all[..i];
      KeySetSnoc(all[..i], all[i], ElementKey);
      var key := ElementKey(all[i]);
      if key !in seen {
        seen := seen + {key};
        r := r + [all[i]];
      }
    }
    assert all[..|all|] == all;
  }

  /** Merging element lists keeps every key of both, once, with the
   *  first element carrying it, in order of first occurrence. */
  lemma MergedElementsSpec(a: seq<ElementDescriptor>, b: seq<ElementDescriptor>)
    ensures KeySet(MergedElements(a, b), ElementKey) == KeySet(a, ElementKey) + KeySet(b, ElementKey)
    ensures KeysDistinct(MergedElements(a, b), ElementKey)
    ensures FirstPerKey(MergedElements(a, b), a + b, ElementKey)
    ensures InFirstKeyOrder(MergedElements(a, b), a + b, ElementKey)
  {
    DedupByKeys(a + b, ElementKey);
    KeySetAppend(a, b, ElementKey);
    DedupByDistinct(a + b, ElementKey);
    DedupByFirst(a + b, ElementKey);
    DedupByOrder(a + b, ElementKey);
  }

  /** The `nodeMap` of `merge` after the nodes `s`, in turn: a node with a
   *  new id is added, and one with a known id only adds its elements to
   *  the node already there. */
  function MergeNodes(s: seq<AppNode>): seq<AppNode>
    decreases |s|
  {
    if |s| == 0 then []
    else
      var acc := MergeNodes(s[..|s| - 1]);
      var n := s[|s| - 1];
      if n.id in KeySet(acc, NodeId) then
        var k := FirstKeyIndex(acc, NodeId, n.id);
        acc[k := acc[k].(elements := MergedElements(acc[k].elements, n.elements))]
      else
        acc + [n]
  }

  lemma MergeNodesSnoc(s: seq<AppNode>, n: AppNode)
    ensures MergeNodes(s + [n]) ==
      if n.id in KeySet(MergeNodes(s), NodeId) then
        var k := FirstKeyIndex(MergeNodes(s), NodeId, n.id);
        MergeNodes(s)[k := MergeNodes(s)[k].(elements := MergedElements(MergeNodes(s)[k].elements, n.elements))]
      else
        MergeNodes(s) + [n]
  {
    assert (s + [n])[..|s|] == s;
  }

  /** A node apart from its element list. */
  function Header(n: AppNode): AppNode {
    n.(elements := [])
  }

  /** The merged nodes are the first node per id, apart from their
   *  elements. */
  lemma {:induction false} MergeNodesShape(s: seq<AppNode>)
    ensures |MergeNodes(s)| == |DedupBy(s, NodeId)|
    ensures forall i :: 0 <= i < |MergeNodes(s)| ==> Header(MergeNodes(s)[i]) == Header(DedupBy(s, NodeId)[i])
    decreases |s|
  {
    if |s| > 0 {
      var init := s[..|s| - 1];
      MergeNodesShape(init);
      DedupByKeys(init, NodeId);
      var acc := MergeNodes(init);
      var d := DedupBy(init, NodeId);
      KeySetSameKeys(acc, NodeId, d, NodeId);
    }
  }

  /** Merged node ids are exactly the ids seen, each once. */
  lemma MergeNodesIds(s: seq<AppNode>)
    ensures KeySet(MergeNodes(s), NodeId) == KeySet(s, NodeId)
    ensures KeysDistinct(MergeNodes(s), NodeId)
  {
    var r := MergeNodes(s);
    var d := DedupBy(s, NodeId);
    MergeNodesShape(s);
    DedupByKeys(s, NodeId);
    DedupByDistinct(s, NodeId);
    assert forall i :: 0 <= i < |r| ==> r[i].id == d[i].id;
    KeySetSameKeys(r, NodeId, d, NodeId);
  }

  /** Merged nodes come in order of the first occurrence of their ids, and
   *  each is the first node with its id apart from its elements. */
  lemma MergeNodesFirst(s: seq<AppNode>)
    ensures InFirstKeyOrder(MergeNodes(s), s, NodeId)
    ensures forall i :: 0 <= i < |MergeNodes(s)| ==>
      MergeNodes(s)[i].id in KeySet(s, NodeId) && Header(MergeNodes(s)[i]) == Header(s[FirstKeyIndex(s, NodeId, MergeNodes(s)[i].id)])
  {
    var r := MergeNodes(s);
    var d := DedupBy(s, NodeId);
    MergeNodesShape(s);
    DedupByFirst(s, NodeId);
    DedupByOrder(s, NodeId);
    assert forall i :: 0 <= i < |r| ==> r[i].id == d[i].id;
  }

  /** The elements of every node with id `id`, in order. */
  function ElementsWithId(s: seq<AppNode>, id: string): seq<ElementDescriptor>
    decreases |s|
  {
    if |s| == 0 then []
    else
      var n := s[|s| - 1];
      ElementsWithId(s[..|s| - 1], id) + (if n.id == id then n.elements else [])
  }

  lemma {:induction false} ElementsWithIdAbsent(s: seq<AppNode>, id: string)
    requires id !in KeySet(s, NodeId)
    ensures ElementsWithId(s, id) == []
    decreases |s|
  {
    if |s| > 0 {
      var init := s[..|s| - 1];
      KeySetSnoc(init, s[|s| - 1], NodeId);
      assert s == init + [s[|s| - 1]];
      ElementsWithIdAbsent(init, id);
    }
  }

  lemma ElementsWithIdSnoc(init: seq<AppNode>, n: AppNode, id: string)
    ensures ElementsWithId(init + [n], id) == ElementsWithId(init, id) + (if n.id == id then n.elements else [])
  {
    assert (init + [n])[..|init|] == init;
  }

  /** When the last node's id is new, the other merged nodes are untouched
   *  and have other ids. */
  lemma MergeNodesNewId(init: seq<AppNode>, n: AppNode, i: nat)
    requires n.id !in KeySet(MergeNodes(init), NodeId) && i < |MergeNodes(init)|
    ensures MergeNodes(init + [n])[i] == MergeNodes(init)[i] && MergeNodes(init)[i].id != n.id
  {
    MergeNodesSnoc(init, n);
    assert NodeId(MergeNodes(init)[i]) in KeySet(MergeNodes(init), NodeId);
  }

  /** When the last node's id is known, only the node with that id
   *  changes. */
  lemma MergeNodesKnownId(init: seq<AppNode>, n: AppNode, i: nat)
    requires n.id in KeySet(MergeNodes(init), NodeId) && i < |MergeNodes(init)|
    requires i != FirstKeyIndex(MergeNodes(init), NodeId, n.id)
    ensures MergeNodes(init + [n])[i] == MergeNodes(init)[i] && MergeNodes(init)[i].id != n.id
  {
    MergeNodesSnoc(init, n);
    MergeNodesIds(init);
    var acc := MergeNodes(init);
    var k := FirstKeyIndex(acc, NodeId, n.id);
    assert NodeId(acc[k]) == n.id;
    if i < k {
      assert NodeId(acc[i]) != NodeId(acc[k]);
    } else {
      assert NodeId(acc[k]) != NodeId(acc[i]);
    }
  }

  /** A merged node has exactly the element keys of all nodes with its
   *  id. */
  lemma {:induction false} MergeNodesElementKeys(s: seq<AppNode>)
    ensures forall i :: 0 <= i < |MergeNodes(s)| ==>
      KeySet(MergeNodes(s)[i].elements, ElementKey) == KeySet(ElementsWithId(s, MergeNodes(s)[i].id), ElementKey)
    decreases |s|
  {
    if |s| > 0 {
      var init := s[..|s| - 1];
      var n := s[|s| - 1];
      assert s == init + [n];
      MergeNodesElementKeys(init);
      MergeNodesIds(init);
      MergeNodesSnoc(init, n);
      var acc := MergeNodes(init);
      var r := MergeNodes(s);
      forall i | 0 <= i < |r| ensures KeySet(r[i].elements, ElementKey) == KeySet(ElementsWithId(s, r[i].id), ElementKey) {
        ElementsWithIdSnoc(init, n, r[i].id);
        if n.id in KeySet(acc, NodeId) {
          var k := FirstKeyIndex(acc, NodeId, n.id);
          if i == k {
            var a := acc[k].elements;
            assert r[k].elements == DedupBy(a + n.elements, ElementKey) && r[k].id == n.id == acc[k].id;
            assert KeySet(a, ElementKey) == KeySet(ElementsWithId(init, n.id), ElementKey);
            DedupByKeys(a + n.elements, ElementKey);
            KeySetAppend(a, n.elements, ElementKey);
            KeySetAppend(ElementsWithId(init, n.id), n.elements, ElementKey);
          } else {
            MergeNodesKnownId(init, n, i);
            assert ElementsWithId(s, r[i].id) == ElementsWithId(init, acc[i].id);
          }
        } else if i < |acc| {
          MergeNodesNewId(init, n, i);
          assert ElementsWithId(s, r[i].id) == ElementsWithId(init, acc[i].id);
        } else {
          ElementsWithIdAbsent(init, n.id);
          assert r[i] == n;
          assert [] + n.elements == n.elements;
          assert ElementsWithId(s, r[i].id) == n.elements;
        }
      }
    }
  }

  /** A merged node holds only elements of nodes with its id. */
  lemma {:induction false} MergeNodesElementsFrom(s: seq<AppNode>)
    ensures forall i, x :: 0 <= i < |MergeNodes(s)| && x in MergeNodes(s)[i].elements ==>
      x in ElementsWithId(s, MergeNodes(s)[i].id)
    decreases |s|
  {
    if |s| > 0 {
      var init := s[..|s| - 1];
      var n := s[|s| - 1];
      assert s == init + [n];
      MergeNodesElementsFrom(init);
      MergeNodesIds(init);
      MergeNodesSnoc(init, n);
      var acc := MergeNodes(init);
      var r := MergeNodes(s);
      forall i, x | 0 <= i < |r| && x in r[i].elements ensures x in ElementsWithId(s, r[i].id) {
        ElementsWithIdSnoc(init, n, r[i].id);
        if n.id in KeySet(acc, NodeId) {
          var k := FirstKeyIndex(acc, NodeId, n.id);
          if i == k {
            DedupByMembers(acc[k].elements + n.elements, ElementKey);
          } else {
            MergeNodesKnownId(init, n, i);
          }
        } else if i < |acc| {
          MergeNodesNewId(init, n, i);
        }
      }
    }
  }

  /** `nodes` of every graph in turn. */
  function AllNodes(graphs: seq<AppGraph>): seq<AppNode>
    decreases |graphs|
  {
    if |graphs| == 0 then [] else AllNodes(graphs[..|graphs| - 1]) + graphs[|graphs| - 1].nodes
  }

  /** `edges` of every graph in turn. */
  function AllEdges(graphs: seq<AppGraph>): seq<AppEdge>
    decreases |graphs|
  {
    if |graphs| == 0 then [] else AllEdges(graphs[..|graphs| - 1]) + graphs[|graphs| - 1].edges
  }

  /** `graphs.reduce((sum, g) => sum + (g.metadata.crawlDuration || 0), 0)`. */
  function TotalDuration(graphs: seq<AppGraph>): int
    decreases |graphs|
  {
    if |graphs| == 0 then 0
    else TotalDuration(graphs[..|graphs| - 1]) + graphs[|graphs| - 1].metadata.crawlDuration
  }

  /** The graph `merge` builds from two or more graphs: the first graph's
   *  name, base URL and framework, the merged nodes, the edges without
   *  repeated keys and the summed crawl time. */
  function MergedGraph(graphs: seq<AppGraph>, now: string, hash: seq<ElementDescriptor> -> string): AppGraph
    requires |graphs| > 0
  {
    BuiltGraph(graphs[0].appName, graphs[0].baseUrl, MergeNodes(AllNodes(graphs)),
      DedupBy(AllEdges(graphs), EdgeKey), graphs[0].framework, Some(TotalDuration(graphs)), now, hash)
  }

  /** `nodeMap`: `index[id]` is where the node with that id sits. */
  ghost predicate IndexOk(index: map<string, nat>, merged: seq<AppNode>) {
    && index.Keys == KeySet(merged, NodeId)
    && (forall id :: id in index ==> index[id] < |merged| && merged[index[id]].id == id)
  }

  method Merge(graphs: seq<AppGraph>, now: string, hash: seq<ElementDescriptor> -> string)
    returns (r: Result<AppGraph>)
    ensures |graphs| == 0 <==> r.Err?
    ensures |graphs| == 1 ==> r == Ok(graphs[0])
    ensures |graphs| > 1 ==> r == Ok(MergedGraph(graphs, now, hash))
  {
    if |graphs| == 0 {
      return Err("No graphs to merge");
    }
    if |graphs| == 1 {
      return Ok(graphs[0]);
    }
    var merged: seq<AppNode> := [];
    var index: map<string, nat> := map[];
    var edgeKeys: set<string> := {};
    var edges: seq<AppEdge> := [];
    for g := 0 to |graphs|
      invariant merged == MergeNodes(AllNodes(graphs[..g]))
      invariant IndexOk(index, merged)
      invariant edges == DedupBy(AllEdges(graphs[..g]), EdgeKey)
      invariant edgeKeys == KeySet(AllEdges(graphs[..g]), EdgeKey)
    {
      assert graphs[..g + 1][..g] == graphs[..g];
      merged, index := MergeGraphNodes(merged, index, AllNodes(graphs[..g]), graphs[g].nodes);
      edges, edgeKeys := MergeGraphEdges(edges, edgeKeys, AllEdges(graphs[..g]), graphs[g].edges);
    }
    assert graphs[..|graphs|] == graphs;
    var g := Build(graphs[0].appName, graphs[0].baseUrl, merged, edges, graphs[0].framework,
      Some(TotalDuration(graphs)), now, hash);
    return Ok(g);
  }

  /** The inner node loop of `merge` over one graph's nodes. */
  method MergeGraphNodes(merged0: seq<AppNode>, index0: map<string, nat>, ghost before: seq<AppNode>, nodes: seq<AppNode>)
    returns (merged: seq<AppNode>, index: map<string, nat>)
    requires merged0 == MergeNodes(before) && IndexOk(index0, merged0)
    ensures merged == MergeNodes(before + nodes) && IndexOk(index, merged)
  {
    merged, index := merged0, index0;
    assert before + nodes[..0] == before;
    for j := 0 to |nodes|
      invariant merged == MergeNodes(before + nodes[..j])
      invariant IndexOk(index, merged)
    {
      AppendPrefixSnoc(before, nodes, j);
      merged, index := MergeNode(merged, index, before + nodes[..j], nodes[j]);
    }
    assert nodes[..|nodes|] == nodes;
  }

  /** One step of the node loop: a known id merges its elements into the
   *  node already stored, a new one is stored. */
  method MergeNode(merged0: seq<AppNode>, index0: map<string, nat>, ghost prefix: seq<AppNode>, node: AppNode)
    returns (merged: seq<AppNode>, index: map<string, nat>)
    requires merged0 == MergeNodes(prefix) && IndexOk(index0, merged0)
    ensures merged == MergeNodes(prefix + [node]) && IndexOk(index, merged)
  {
    MergeNodesSnoc(prefix, node);
    if node.id in index0 {
      var k := index0[node.id];
      IndexFindsFirst(index0, prefix, node.id);
      var elements := MergeElements(merged0[k].elements, node.elements);
      merged := merged0[k := merged0[k].(elements := elements)];
      IndexOkUpdate(index0, merged0, k, elements);
      index := index0;
    } else {
      index := index0[node.id := |merged0|];
      merged := merged0 + [node];
      IndexOkAppend(index0, merged0, node);
    }
  }

  /** The stored position of an id is the first merged node with it. */
  lemma IndexFindsFirst(index: map<string, nat>, prefix: seq<AppNode>, id: string)
    requires IndexOk(index, MergeNodes(prefix)) && id in index
    ensures id in KeySet(MergeNodes(prefix), NodeId) && FirstKeyIndex(MergeNodes(prefix), NodeId, id) == index[id]
  {
    var merged := MergeNodes(prefix);
    MergeNodesIds(prefix);
    var k := index[id];
    var f := FirstKeyIndex(merged, NodeId, id);
    assert NodeId(merged[f]) == NodeId(merged[k]);
  }

  lemma IndexOkUpdate(index: map<string, nat>, merged: seq<AppNode>, k: nat, elements: seq<ElementDescriptor>)
    requires IndexOk(index, merged) && k < |merged|
    ensures IndexOk(index, merged[k := merged[k].(elements := elements)])
  {
    var updated := merged[k := merged[k].(elements := elements)];
    KeySetSameKeys(updated, NodeId, merged, NodeId);
  }

  lemma IndexOkAppend(index: map<string, nat>, merged: seq<AppNode>, node: AppNode)
    requires IndexOk(index, merged) && node.id !in index
    ensures IndexOk(index[node.id := |merged|], merged + [node])
  {
    KeySetSnoc(merged, node, NodeId);
  }

  /** The inner edge loop of `merge` over one graph's edges. */
  method MergeGraphEdges(edges0: seq<AppEdge>, keys0: set<string>, ghost before: seq<AppEdge>, more: seq<AppEdge>)
    returns (edges: seq<AppEdge>, keys: set<string>)
    requires edges0 == DedupBy(before, EdgeKey) && keys0 == KeySet(before, EdgeKey)
    ensures edges == DedupBy(before + more, EdgeKey) && keys == KeySet(before + more, EdgeKey)
  {
    edges, keys := edges0, keys0;
    assert before + more[..0] == before;
    for j := 0 to |more|
      invariant edges == DedupBy(before + more[..j], EdgeKey)
      invariant keys == KeySet(before + more[..j], EdgeKey)
    {
      var edge := more[j];
      ghost var prefix := before + more[..j];
      AppendPrefixSnoc(before, more, j);
      KeySetSnoc(prefix, edge, EdgeKey);
      DedupBySnoc(prefix, edge, EdgeKey);
      var key := EdgeKey(edge);
      if key !in keys {
        keys := keys + {key};
        edges := edges + [edge];
      }
    }
    assert more[..|more|] == more;
  }

  /** Merged edges keep one edge per key, the first, in order of first
   *  occurrence across the graphs, and lose no key. */
  lemma MergedEdgesSpec(graphs: seq<AppGraph>)
    ensures KeySet(DedupBy(AllEdges(graphs), EdgeKey), EdgeKey) == KeySet(AllEdges(graphs), EdgeKey)
    ensures KeysDistinct(DedupBy(AllEdges(graphs), EdgeKey), EdgeKey)
    ensures FirstPerKey(DedupBy(AllEdges(graphs), EdgeKey), AllEdges(graphs), EdgeKey)
    ensures InFirstKeyOrder(DedupBy(AllEdges(graphs), EdgeKey), AllEdges(graphs), EdgeKey)
  {
    DedupByKeys(AllEdges(graphs), EdgeKey);
    DedupByDistinct(AllEdges(graphs), EdgeKey);
    DedupByFirst(AllEdges(graphs), EdgeKey);
    DedupByOrder(AllEdges(graphs), EdgeKey);
  }

  /** The edge key is plain text, so two different edges whose ids contain
   *  `->` can share a key, and merging keeps only the first. */
  lemma EdgeKeyCollides()
    ensures var e1 := AppEdge("a", "b-tab->c", TabEdge, None);
            var e2 := AppEdge("a->b-tab", "c", TabEdge, None);
            e1 != e2 && DedupBy([e1, e2], EdgeKey) == [e1]
  {
    var e1 := AppEdge("a", "b-tab->c", TabEdge, None);
    var e2 := AppEdge("a->b-tab", "c", TabEdge, None);
    assert EdgeKey(e1) == "a->b-tab->c-tab" == EdgeKey(e2);
    assert KeySet([], EdgeKey) == {};
    DedupBySnoc([], e1, EdgeKey);
    assert [] + [e1] == [e1] && [e1] + [e2] == [e1, e2];
    assert EdgeKey([e1][0]) in KeySet([e1], EdgeKey);
    DedupBySnoc([e1], e2, EdgeKey);
  }
}
