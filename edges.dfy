/**
 * Edge assembly (`workflow/utils.py`, `create_workflow_edges`): the abstract SOP graph and
 * the concrete node list become Dify edge dictionaries.
 */
module Edges {
  import opened Wrappers
  import opened Json

  /** One abstract edge; `None` is an edge dictionary without `targetNodeId`. */
  datatype SopEdge = SopEdge(targetNodeId: Option<string>)

  /** One SOP node; `None` is a node dictionary without `edges`. */
  datatype SopNode = SopNode(edges: Option<seq<SopEdge>>)

  /** The SOP definition: its `nodes` dictionary, in insertion order, or `None` when absent. */
  datatype SopDefinition = SopDefinition(nodes: Option<seq<(string, SopNode)>>)

  /** The two entries of a built node dictionary that edge assembly reads: `id` and `data.type`. */
  datatype DifyNode = DifyNode(id: string, typ: string)

  datatype EdgeData = EdgeData(sourceType: string, targetType: string, isInLoop: bool)

  /** An edge dictionary. */
  datatype Edge = Edge(id: string, typ: string, source: string, target: string, sourceHandle: string,
                       targetHandle: string, data: EdgeData, zIndex: int)
  {
    function ToJson(): Json
    {
      JObj(map["id" := JStr(id), "type" := JStr(typ), "source" := JStr(source), "target" := JStr(target),
               "sourceHandle" := JStr(sourceHandle), "targetHandle" := JStr(targetHandle),
               "data" := JObj(map["sourceType" := JStr(data.sourceType), "targetType" := JStr(data.targetType),
                                  "isInLoop" := JBool(data.isInLoop)]),
               "zIndex" := JInt(zIndex)])
    }
  }

  /** `node_types`: id to type; a later node with the same id replaces an earlier one. */
  function NodeTypes(nodes: seq<DifyNode>): (types: map<string, string>)
    ensures forall id :: id in types <==> exists i :: 0 <= i < |nodes| && nodes[i].id == id
  {
    if |nodes| == 0 then map[]
    else
      var types := NodeTypes(nodes[..|nodes| - 1]);
      assert forall i :: 0 <= i < |nodes| - 1 ==> nodes[..|nodes| - 1][i] == nodes[i];
      types[nodes[|nodes| - 1].id := nodes[|nodes| - 1].typ]
  }

  /** The edge from `source` to `target`: fixed handles, fixed type, not in a loop, z-index 0. */
  function MakeEdge(source: string, target: string, types: map<string, string>): Edge
    requires source in types && target in types
  {
    Edge(source + "-source-" + target + "-target", "custom", source, target, "source", "target",
         EdgeData(types[source], types[target], false), 0)
  }

  /** Whether an abstract edge leads to an existing node. */
  predicate Lands(e: SopEdge, types: map<string, string>)
  {
    e.targetNodeId.Some? && e.targetNodeId.value in types
  }

  /** The edges of one existing source node, in its edge order, dropping those whose target is missing. */
  function NodeEdges(source: string, es: seq<SopEdge>, types: map<string, string>): seq<Edge>
    requires source in types
  {
    if |es| == 0 then []
    else
      var last := es[|es| - 1];
      NodeEdges(source, es[..|es| - 1], types) +
      (if Lands(last, types) then [MakeEdge(source, last.targetNodeId.value, types)] else [])
  }

  function EdgesOfNode(nd: (string, SopNode), types: map<string, string>): seq<Edge>
  {
    if nd.0 in types then NodeEdges(nd.0, nd.1.edges.GetOr([]), types) else []
  }

  /** The edges of the given SOP nodes, node by node. */
  function AllEdges(nodes: seq<(string, SopNode)>, types: map<string, string>): seq<Edge>
  {
    if |nodes| == 0 then []
    else AllEdges(nodes[..|nodes| - 1], types) + EdgesOfNode(nodes[|nodes| - 1], types)
  }

  /** What `create_workflow_edges` returns. */
  function WorkflowEdges(sop: SopDefinition, difyNodes: seq<DifyNode>): seq<Edge>
  {
    AllEdges(sop.nodes.GetOr([]), NodeTypes(difyNodes))
  }

  /** `create_workflow_edges`: for each SOP node that exists, for each of its edges whose target exists, one edge. */
  method CreateWorkflowEdges(sop: SopDefinition, difyNodes: seq<DifyNode>) returns (edges: seq<Edge>)
    ensures edges == WorkflowEdges(sop, difyNodes)
  {
    var types := NodeTypesLoop(difyNodes);
    var sopNodes := sop.nodes.GetOr([]);
    edges := [];
    for i := 0 to |sopNodes|
      invariant edges == AllEdges(sopNodes[..i], types)
    {
      AllEdgesStep(sopNodes, i, types);
      var source := sopNodes[i].0;
      if source in types {
        var nodeEdges := SourceEdges(source, sopNodes[i].1.edges.GetOr([]), types);
        edges := edges + nodeEdges;
      }
    }
    assert sopNodes[..|sopNodes|] == sopNodes;
  }

  /** The inner loop of `create_workflow_edges`: the edges of one existing source node. */
  method SourceEdges(source: string, es: seq<SopEdge>, types: map<string, string>) returns (edges: seq<Edge>)
    requires source in types
    ensures edges == NodeEdges(source, es, types)
  {
    edges := [];
    for j := 0 to |es|
      invariant edges == NodeEdges(source, es[..j], types)
    {
      NodeEdgesStep(source, es, j, types);
      var target := es[j].targetNodeId;
      if target.Some? && target.value in types {
        edges := edges + [MakeEdge(source, target.value, types)];
      }
    }
    assert es[..|es|] == es;
  }

  /** One more SOP node adds its own edges at the end. */
  lemma AllEdgesStep(nodes: seq<(string, SopNode)>, i: nat, types: map<string, string>)
    requires i < |nodes|
    ensures AllEdges(nodes[..i + 1], types) == AllEdges(nodes[..i], types) + EdgesOfNode(nodes[i], types)
  {
    assert nodes[..i + 1][..i] == nodes[..i];
  }

  /** One more abstract edge adds at most its own edge at the end. */
  lemma NodeEdgesStep(source: string, es: seq<SopEdge>, j: nat, types: map<string, string>)
    requires source in types && j < |es|
    ensures NodeEdges(source, es[..j + 1], types) ==
            NodeEdges(source, es[..j], types) + (if Lands(es[j], types) then [MakeEdge(source, es[j].targetNodeId.value, types)] else [])
  {
    assert es[..j + 1][..j] == es[..j];
  }

  /** The `node_types` comprehension, one node at a time. */
  method NodeTypesLoop(nodes: seq<DifyNode>) returns (types: map<string, string>)
    ensures types == NodeTypes(nodes)
  {
    types := map[];
    var i := 0;
    while i < |nodes|
      invariant 0 <= i <= |nodes|
      invariant types == NodeTypes(nodes[..i])
    {
      assert nodes[..i + 1][..i] == nodes[..i];
      types := types[nodes[i].id := nodes[i].typ];
      i := i + 1;
    }
    assert nodes[..|nodes|] == nodes;
  }

  /** A node's type is the type of the last node with its id. */
  lemma {:induction false} NodeTypesLast(nodes: seq<DifyNode>, i: nat)
    requires i < |nodes|
    requires forall j :: i < j < |nodes| ==> nodes[j].id != nodes[i].id
    ensures NodeTypes(nodes)[nodes[i].id] == nodes[i].typ
  {
    if i < |nodes| - 1 {
      var init := nodes[..|nodes| - 1];
      assert init[i] == nodes[i];
      assert forall j :: i < j < |init| ==> init[j] == nodes[j];
      NodeTypesLast(init, i);
    }
  }

  /** Each emitted edge joins an existing source to one of its existing targets, with the fixed fields. */
  lemma {:induction false} NodeEdgesSound(source: string, es: seq<SopEdge>, types: map<string, string>, e: Edge)
    requires source in types
    requires e in NodeEdges(source, es, types)
    ensures exists k :: 0 <= k < |es| && Lands(es[k], types) && e == MakeEdge(source, es[k].targetNodeId.value, types)
  {
    var init := es[..|es| - 1];
    if e in NodeEdges(source, init, types) {
      NodeEdgesSound(source, init, types, e);
      var k :| 0 <= k < |init| && Lands(init[k], types) && e == MakeEdge(source, init[k].targetNodeId.value, types);
      assert es[k] == init[k];
    } else {
      assert Lands(es[|es| - 1], types);
    }
  }

  /** Every abstract edge from an existing source to an existing target is emitted. */
  lemma {:induction false} NodeEdgesComplete(source: string, es: seq<SopEdge>, types: map<string, string>, k: nat)
    requires source in types && k < |es| && Lands(es[k], types)
    ensures MakeEdge(source, es[k].targetNodeId.value, types) in NodeEdges(source, es, types)
  {
    if k < |es| - 1 {
      var init := es[..|es| - 1];
      assert init[k] == es[k];
      NodeEdgesComplete(source, init, types, k);
    }
  }

  /** An edge is emitted exactly when both its endpoints are existing nodes. */
  lemma {:induction false} EdgeEmittedIff(nodes: seq<(string, SopNode)>, types: map<string, string>, e: Edge)
    ensures e in AllEdges(nodes, types) <==>
            exists i, k :: 0 <= i < |nodes| && nodes[i].0 in types && 0 <= k < |nodes[i].1.edges.GetOr([])| &&
                           Lands(nodes[i].1.edges.GetOr([])[k], types) &&
                           e == MakeEdge(nodes[i].0, nodes[i].1.edges.GetOr([])[k].targetNodeId.value, types)
  {
    if |nodes| > 0 {
      var init := nodes[..|nodes| - 1];
      var last := nodes[|nodes| - 1];
      EdgeEmittedIff(init, types, e);
      assert forall i :: 0 <= i < |init| ==> init[i] == nodes[i];
      if e in AllEdges(nodes, types) && e !in AllEdges(init, types) {
        assert e in EdgesOfNode(last, types);
        NodeEdgesSound(last.0, last.1.edges.GetOr([]), types, e);
      }
      if exists i, k :: 0 <= i < |nodes| && nodes[i].0 in types && 0 <= k < |nodes[i].1.edges.GetOr([])| &&
                        Lands(nodes[i].1.edges.GetOr([])[k], types) &&
                        e == MakeEdge(nodes[i].0, nodes[i].1.edges.GetOr([])[k].targetNodeId.value, types) {
        var i, k :| 0 <= i < |nodes| && nodes[i].0 in types && 0 <= k < |nodes[i].1.edges.GetOr([])| &&
                    Lands(nodes[i].1.edges.GetOr([])[k], types) &&
                    e == MakeEdge(nodes[i].0, nodes[i].1.edges.GetOr([])[k].targetNodeId.value, types);
        if i == |nodes| - 1 {
          NodeEdgesComplete(last.0, last.1.edges.GetOr([]), types, k);
        }
      }
    }
  }

  /** Every emitted edge has the fixed handles, type, loop flag and z-index, and an id built from its endpoints. */
  lemma EdgeShape(nodes: seq<(string, SopNode)>, types: map<string, string>, e: Edge)
    requires e in AllEdges(nodes, types)
    ensures e.source in types && e.target in types
    ensures e.id == e.source + "-source-" + e.target + "-target"
    ensures e.typ == "custom" && e.sourceHandle == "source" && e.targetHandle == "target"
    ensures e.data == EdgeData(types[e.source], types[e.target], false) && e.zIndex == 0
  {
    EdgeEmittedIff(nodes, types, e);
  }

  /** The number of abstract edges of the SOP nodes. */
  function AbstractEdgeCount(nodes: seq<(string, SopNode)>): nat
  {
    if |nodes| == 0 then 0 else AbstractEdgeCount(nodes[..|nodes| - 1]) + |nodes[|nodes| - 1].1.edges.GetOr([])|
  }

  /** Whether every source and every target of the SOP exists. */
  predicate AllEndpointsExist(nodes: seq<(string, SopNode)>, types: map<string, string>)
  {
    forall i :: 0 <= i < |nodes| ==>
      nodes[i].0 in types && forall k :: 0 <= k < |nodes[i].1.edges.GetOr([])| ==> Lands(nodes[i].1.edges.GetOr([])[k], types)
  }

  lemma {:induction false} NodeEdgesCount(source: string, es: seq<SopEdge>, types: map<string, string>)
    requires source in types
    ensures |NodeEdges(source, es, types)| <= |es|
    ensures (forall k :: 0 <= k < |es| ==> Lands(es[k], types)) ==> |NodeEdges(source, es, types)| == |es|
  {
    if |es| > 0 {
      var init := es[..|es| - 1];
      NodeEdgesCount(source, init, types);
      assert forall k :: 0 <= k < |init| ==> init[k] == es[k];
    }
  }

  /** At most one edge per abstract edge, and exactly one each when every endpoint exists. */
  lemma {:induction false} EdgeCount(nodes: seq<(string, SopNode)>, types: map<string, string>)
    ensures |AllEdges(nodes, types)| <= AbstractEdgeCount(nodes)
    ensures AllEndpointsExist(nodes, types) ==> |AllEdges(nodes, types)| == AbstractEdgeCount(nodes)
  {
    if |nodes| > 0 {
      var init := nodes[..|nodes| - 1];
      var last := nodes[|nodes| - 1];
      EdgeCount(init, types);
      if last.0 in types {
        NodeEdgesCount(last.0, last.1.edges.GetOr([]), types);
      }
      if AllEndpointsExist(nodes, types) {
        assert forall i :: 0 <= i < |init| ==> init[i] == nodes[i];
        assert AllEndpointsExist(init, types);
        assert forall k :: 0 <= k < |last.1.edges.GetOr([])| ==> Lands(last.1.edges.GetOr([])[k], types);
      }
    }
  }

  /** An SOP without `nodes` and an empty node list both give no edges. */
  lemma NoEdgesWithoutNodes(sop: SopDefinition, difyNodes: seq<DifyNode>)
    requires sop.nodes.None? || |difyNodes| == 0
    ensures WorkflowEdges(sop, difyNodes) == []
  {
    var nodes := sop.nodes.GetOr([]);
    EdgeCount(nodes, NodeTypes(difyNodes));
    if |difyNodes| == 0 && |WorkflowEdges(sop, difyNodes)| > 0 {
      var e := WorkflowEdges(sop, difyNodes)[0];
      EdgeShape(nodes, NodeTypes(difyNodes), e);
    }
  }
}
