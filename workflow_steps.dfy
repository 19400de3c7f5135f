/**
 * The step list of the workflow page (`parseWorkflowSteps` in `WorkflowChat.jsx`): a
 * breadth-first traversal from the start node collects the steps, a trace along the preferred
 * edges picks the main path, the steps are renumbered (main path first, the others after it
 * in traversal order) and sorted by their numbers.
 *
 * An absent `nodeDescription`, `targetNodeId` or `sourceHandle` is the empty string, and an
 * absent `edges` list is empty: the page treats each of them as falsy.
 */
module WorkflowSteps {
  import opened Wrappers

  datatype Edge = Edge(targetNodeId: string, sourceHandle: string)

  datatype Node = Node(nodeType: string, nodeTitle: string, nodeDescription: string, edges: seq<Edge>)

  type Nodes = map<string, Node>

  /** The page's `workflowData`: `nodes` may be missing, and `startNodeId` is "" when missing. */
  datatype WorkflowData = WorkflowData(nodes: Option<Nodes>, startNodeId: string)

  datatype Step = Step(id: string, name: string, description: string, stepType: string,
                       typeText: string, nodeType: string, edges: seq<Edge>)

  datatype NumberedStep = NumberedStep(step: Step, stepNumber: nat, isMainPath: bool)

  predicate Distinct<T(==)>(s: seq<T>)
  {
    forall i, j :: 0 <= i < j < |s| ==> s[i] != s[j]
  }

  function SetOf<T>(s: seq<T>): set<T>
  {
    set x | x in s
  }

  // Steps of single nodes.

  const KnownNodeTypes: set<string> :=
    {"TRIGGER_USER_INPUT", "ACTION_WEB_SEARCH", "ACTION_LLM_TRANSFORM", "CONDITION_BRANCH",
     "LOOP_START", "LOOP_END", "OUTPUT_FORMAT"}

  /** The `switch` on `nodeType`: the step type and its label. */
  function StepKind(nodeType: string): (string, string)
  {
    if nodeType == "TRIGGER_USER_INPUT" then ("input", "输入")
    else if nodeType == "ACTION_WEB_SEARCH" then ("search", "搜索")
    else if nodeType == "ACTION_LLM_TRANSFORM" then ("ai_processing", "AI处理")
    else if nodeType == "CONDITION_BRANCH" then ("validation", "判断")
    else if nodeType == "LOOP_START" then ("loop", "循环开始")
    else if nodeType == "LOOP_END" then ("loop", "循环结束")
    else if nodeType == "OUTPUT_FORMAT" then ("output", "输出")
    else ("ai_processing", "处理")
  }

  /**
   * The label tells the node types apart: two known types with the same label are the same
   * type, and an unknown type gets the fallback, whose label no known type has. The step type
   * alone does not: both loop ends are "loop", and an unknown type shares "ai_processing".
   */
  lemma StepKindLabels(t: string, u: string)
    ensures t in KnownNodeTypes && u in KnownNodeTypes && StepKind(t).1 == StepKind(u).1 ==> t == u
    ensures t !in KnownNodeTypes ==> StepKind(t) == ("ai_processing", "处理")
    ensures t in KnownNodeTypes ==> StepKind(t).1 != "处理"
    ensures StepKind("LOOP_START").0 == StepKind("LOOP_END").0
    ensures t !in KnownNodeTypes ==> StepKind(t).0 == StepKind("ACTION_LLM_TRANSFORM").0
  {
  }

  /** `nodeDescription || `执行${nodeTitle}操作``. */
  function Description(node: Node): (r: string)
    ensures node.nodeDescription != "" <==> r == node.nodeDescription && r != ""
    ensures node.nodeDescription == "" ==> r == "执行" + node.nodeTitle + "操作"
  {
    if node.nodeDescription != "" then node.nodeDescription else "执行" + node.nodeTitle + "操作"
  }

  /** The step object built for one visited node (its provisional number is not kept). */
  function StepOf(id: string, node: Node): (r: Step)
    ensures r.id == id && r.name == node.nodeTitle && r.nodeType == node.nodeType && r.edges == node.edges
    ensures (r.stepType, r.typeText) == StepKind(node.nodeType) && r.description == Description(node)
  {
    var kind := StepKind(node.nodeType);
    Step(id, node.nodeTitle, Description(node), kind.0, kind.1, node.nodeType, node.edges)
  }

  function Ids(steps: seq<Step>): (r: seq<string>)
    ensures |r| == |steps| && forall i :: 0 <= i < |steps| ==> r[i] == steps[i].id
  {
    seq(|steps|, i requires 0 <= i < |steps| => steps[i].id)
  }

  // Reachability: the specification of the traversal.

  /** A node id the traversal visits when it meets it: non-empty and present in `nodes`. */
  predicate Eligible(nodes: Nodes, id: string)
  {
    id != "" && id in nodes
  }

  /** The non-empty targets of a node's edges. */
  function Targets(node: Node): (r: set<string>)
    ensures forall t :: t in r <==> t != "" && exists e :: e in node.edges && e.targetNodeId == t
  {
    set e | e in node.edges && e.targetNodeId != "" :: e.targetNodeId
  }

  /** A walk along edges through eligible nodes. */
  ghost predicate IsPath(nodes: Nodes, p: seq<string>)
  {
    |p| > 0 && (forall i :: 0 <= i < |p| ==> Eligible(nodes, p[i])) &&
    forall i :: 0 <= i < |p| - 1 ==> p[i + 1] in Targets(nodes[p[i]])
  }

  ghost predicate Reachable(nodes: Nodes, start: string, x: string)
  {
    exists p :: IsPath(nodes, p) && p[0] == start && p[|p| - 1] == x
  }

  lemma PrefixPath(nodes: Nodes, p: seq<string>, k: nat)
    requires IsPath(nodes, p) && 0 < k <= |p|
    ensures IsPath(nodes, p[..k]) && p[..k][0] == p[0] && p[..k][k - 1] == p[k - 1]
  {
  }

  lemma ExtendPath(nodes: Nodes, p: seq<string>, x: string)
    requires IsPath(nodes, p) && Eligible(nodes, x) && x in Targets(nodes[p[|p| - 1]])
    ensures IsPath(nodes, p + [x]) && (p + [x])[0] == p[0] && (p + [x])[|p|] == x
  {
    var q := p + [x];
    forall i | 0 <= i < |q| - 1
      ensures q[i + 1] in Targets(nodes[q[i]])
    {
      if i < |p| - 1 {
        assert q[i] == p[i] && q[i + 1] == p[i + 1];
      }
    }
  }

  /** A queue entry is the start node or a target of a visited node. */
  predicate Discovered(nodes: Nodes, start: string, visited: set<string>, q: string)
  {
    q == start || exists v :: v in visited && v in nodes && q in Targets(nodes[v])
  }

  lemma DiscoveredIsReachable(nodes: Nodes, start: string, visited: set<string>, q: string)
    requires Discovered(nodes, start, visited, q) && Eligible(nodes, q)
    requires forall x :: x in visited ==> Reachable(nodes, start, x)
    ensures Reachable(nodes, start, q)
  {
    if q == start {
      assert IsPath(nodes, [q]);
    } else {
      var v :| v in visited && v in nodes && q in Targets(nodes[v]);
      var p :| IsPath(nodes, p) && p[0] == start && p[|p| - 1] == v;
      ExtendPath(nodes, p, q);
    }
  }

  /** A set holding the start and closed under eligible targets holds every reachable node. */
  lemma ClosedSetHoldsReachable(nodes: Nodes, start: string, visited: set<string>)
    requires Eligible(nodes, start) ==> start in visited
    requires forall v, t :: v in visited && v in nodes && t in Targets(nodes[v]) && t in nodes ==> t in visited
    ensures forall x :: Reachable(nodes, start, x) ==> x in visited
  {
    forall x | Reachable(nodes, start, x)
      ensures x in visited
    {
      var p :| IsPath(nodes, p) && p[0] == start && p[|p| - 1] == x;
      PathStaysInside(nodes, visited, p);
    }
  }

  lemma {:induction false} PathStaysInside(nodes: Nodes, visited: set<string>, p: seq<string>)
    requires IsPath(nodes, p) && p[0] in visited
    requires forall v, t :: v in visited && v in nodes && t in Targets(nodes[v]) && t in nodes ==> t in visited
    ensures p[|p| - 1] in visited
    decreases |p|
  {
    if |p| > 1 {
      PrefixPath(nodes, p, |p| - 1);
      PathStaysInside(nodes, visited, p[..|p| - 1]);
      assert p[|p| - 1] in Targets(nodes[p[|p| - 2]]);
    }
  }

  lemma CardinalityDrops(keys: set<string>, visited: set<string>, x: string)
    requires x in keys && x !in visited
    ensures |keys - (visited + {x})| < |keys - visited|
  {
    assert keys - visited == (keys - (visited + {x})) + {x};
  }

  /** The targets the `forEach` over `edges` queues: non-empty and not yet visited, in edge order. */
  function NewTargets(edges: seq<Edge>, visited: set<string>): (r: seq<string>)
    ensures forall t :: t in r <==> t != "" && t !in visited && exists e :: e in edges && e.targetNodeId == t
  {
    if edges == [] then []
    else
      var e := edges[|edges| - 1];
      assert edges == edges[..|edges| - 1] + [e];
      NewTargets(edges[..|edges| - 1], visited) + (if e.targetNodeId != "" && e.targetNodeId !in visited then [e.targetNodeId] else [])
  }

  /** The `forEach` over a node's edges, pushing onto the queue. */
  method Enqueue(queue: seq<string>, node: Node, visited: set<string>) returns (q: seq<string>)
    ensures q == queue + NewTargets(node.edges, visited)
  {
    q := queue;
    for j := 0 to |node.edges|
      invariant q == queue + NewTargets(node.edges[..j], visited)
    {
      var target := node.edges[j].targetNodeId;
      assert node.edges[..j + 1][..j] == node.edges[..j];
      if target != "" && target !in visited {
        q := q + [target];
      }
    }
    assert node.edges[..|node.edges|] == node.edges;
  }

  // The traversal's loop invariant, in three parts.

  /** The steps are the visited nodes, once each, in visiting order from the start node. */
  ghost predicate StepsOfVisited(nodes: Nodes, start: string, visited: set<string>, queue: seq<string>, steps: seq<Step>)
  {
    visited <= nodes.Keys && "" !in visited &&
    Distinct(Ids(steps)) && (forall x :: x in visited <==> x in Ids(steps)) &&
    (forall i :: 0 <= i < |steps| ==> steps[i].id in nodes && steps[i] == StepOf(steps[i].id, nodes[steps[i].id])) &&
    (steps == [] ==> queue == [start] || queue == []) &&
    (steps != [] ==> steps[0].id == start)
  }

  /** Everything visited is reachable, and everything queued was discovered. */
  ghost predicate Sound(nodes: Nodes, start: string, visited: set<string>, queue: seq<string>)
  {
    (forall x :: x in visited ==> Reachable(nodes, start, x)) &&
    forall q :: q in queue ==> Discovered(nodes, start, visited, q)
  }

  /** The start node and every eligible target of a visited node are visited or queued. */
  ghost predicate Frontier(nodes: Nodes, start: string, visited: set<string>, queue: seq<string>)
  {
    (Eligible(nodes, start) ==> start in visited || start in queue) &&
    forall v, t :: v in visited && v in nodes && t in Targets(nodes[v]) && t in nodes ==> t in visited || t in queue
  }

  /** The entry the loop takes next is visited now. */
  predicate Visits(nodes: Nodes, visited: set<string>, queue: seq<string>)
    requires queue != []
  {
    queue[0] != "" && queue[0] !in visited && queue[0] in nodes
  }

  /** The three parts together. */
  ghost predicate TraversalInvariant(nodes: Nodes, start: string, visited: set<string>, queue: seq<string>, steps: seq<Step>)
  {
    StepsOfVisited(nodes, start, visited, queue, steps) && Sound(nodes, start, visited, queue) &&
    Frontier(nodes, start, visited, queue)
  }

  /** Visiting the next entry keeps the invariant and leaves fewer nodes to visit. */
  lemma VisitKeepsInvariant(nodes: Nodes, start: string, visited: set<string>, queue: seq<string>, steps: seq<Step>)
    requires queue != [] && Visits(nodes, visited, queue)
    requires TraversalInvariant(nodes, start, visited, queue, steps)
    ensures var id := queue[0];
      TraversalInvariant(nodes, start, visited + {id}, queue[1..] + NewTargets(nodes[id].edges, visited + {id}),
                         steps + [StepOf(id, nodes[id])]) &&
      |nodes.Keys - (visited + {id})| < |nodes.Keys - visited|
  {
    VisitKeepsSteps(nodes, start, visited, queue, steps);
    VisitKeepsSound(nodes, start, visited, queue);
    VisitKeepsFrontier(nodes, start, visited, queue);
    CardinalityDrops(nodes.Keys, visited, queue[0]);
  }

  /** Once the queue is empty, the steps are exactly the reachable nodes. */
  lemma TraversalComplete(nodes: Nodes, start: string, visited: set<string>, steps: seq<Step>)
    requires TraversalInvariant(nodes, start, visited, [], steps)
    ensures Distinct(Ids(steps))
    ensures forall x :: x in Ids(steps) <==> Reachable(nodes, start, x)
    ensures forall i :: 0 <= i < |steps| ==> steps[i].id in nodes && steps[i] == StepOf(steps[i].id, nodes[steps[i].id])
    ensures Eligible(nodes, start) ==> steps != [] && steps[0].id == start
  {
    assert StepsOfVisited(nodes, start, visited, [], steps);
    assert Sound(nodes, start, visited, []);
    assert Frontier(nodes, start, visited, []);
    assert Eligible(nodes, start) ==> start in visited;
    forall v, t | v in visited && v in nodes && t in Targets(nodes[v]) && t in nodes
      ensures t in visited
    {
      assert t in visited || t in [];
    }
    ClosedSetHoldsReachable(nodes, start, visited);
    assert forall x :: x in Ids(steps) <==> x in visited;
    if Eligible(nodes, start) {
      assert start in Ids(steps);
    }
  }

  lemma SkipKeepsInvariant(nodes: Nodes, start: string, visited: set<string>, queue: seq<string>, steps: seq<Step>)
    requires queue != [] && !Visits(nodes, visited, queue)
    requires TraversalInvariant(nodes, start, visited, queue, steps)
    ensures TraversalInvariant(nodes, start, visited, queue[1..], steps)
  {
    assert forall q :: q in queue ==> q == queue[0] || q in queue[1..];
  }

  lemma VisitKeepsSteps(nodes: Nodes, start: string, visited: set<string>, queue: seq<string>, steps: seq<Step>)
    requires queue != [] && Visits(nodes, visited, queue)
    requires StepsOfVisited(nodes, start, visited, queue, steps)
    ensures var id := queue[0];
      StepsOfVisited(nodes, start, visited + {id}, queue[1..] + NewTargets(nodes[id].edges, visited + {id}),
                     steps + [StepOf(id, nodes[id])])
  {
    var id := queue[0];
    assert Ids(steps + [StepOf(id, nodes[id])]) == Ids(steps) + [id];
  }

  lemma VisitKeepsSound(nodes: Nodes, start: string, visited: set<string>, queue: seq<string>)
    requires queue != [] && Visits(nodes, visited, queue)
    requires Sound(nodes, start, visited, queue)
    ensures var id := queue[0];
      Sound(nodes, start, visited + {id}, queue[1..] + NewTargets(nodes[id].edges, visited + {id}))
  {
    var id := queue[0];
    DiscoveredIsReachable(nodes, start, visited, id);
    var v2 := visited + {id};
    forall q | q in queue[1..] + NewTargets(nodes[id].edges, v2)
      ensures Discovered(nodes, start, v2, q)
    {
      if q in queue[1..] {
        assert q in queue;
      } else {
        assert q in Targets(nodes[id]);
      }
    }
  }

  lemma VisitKeepsFrontier(nodes: Nodes, start: string, visited: set<string>, queue: seq<string>)
    requires queue != [] && Visits(nodes, visited, queue)
    requires Frontier(nodes, start, visited, queue)
    ensures var id := queue[0];
      Frontier(nodes, start, visited + {id}, queue[1..] + NewTargets(nodes[id].edges, visited + {id}))
  {
    var id := queue[0];
    var v2 := visited + {id};
    var q2 := queue[1..] + NewTargets(nodes[id].edges, v2);
    assert forall q :: q in queue ==> q == id || q in q2;
  }

  /**
   * The breadth-first visiting order, as a reference: the queue is served front first, an entry
   * that is empty, already visited or not a node is dropped, and a visited node's non-empty
   * unvisited targets join the back of the queue in edge order.
   */
  function Bfs(nodes: Nodes, queue: seq<string>, visited: set<string>): seq<string>
    decreases |nodes.Keys - visited|, |queue|
  {
    if queue == [] then []
    else
      var id := queue[0];
      if id != "" && id !in visited && id in nodes then
        CardinalityDrops(nodes.Keys, visited, id);
        [id] + Bfs(nodes, queue[1..] + NewTargets(nodes[id].edges, visited + {id}), visited + {id})
      else Bfs(nodes, queue[1..], visited)
  }

  /** The ids in the order the page visits them, starting from `start`. */
  function BfsOrder(nodes: Nodes, start: string): seq<string>
  {
    Bfs(nodes, [start], {})
  }

  /** A queue of distinct unvisited leaves is visited exactly in queue order. */
  lemma {:induction false} BfsLeaves(nodes: Nodes, queue: seq<string>, visited: set<string>)
    requires Distinct(queue)
    requires forall i :: 0 <= i < |queue| ==> queue[i] != "" && queue[i] !in visited && queue[i] in nodes && nodes[queue[i]].edges == []
    ensures Bfs(nodes, queue, visited) == queue
    decreases |queue|
  {
    if queue != [] {
      var x := queue[0];
      BfsLeaf(nodes, x, queue, queue[1..], visited, visited + {x});
      forall i | 0 <= i < |queue[1..]|
        ensures queue[1..][i] != x
      {
        assert queue[1..][i] == queue[i + 1];
      }
      BfsLeaves(nodes, queue[1..], visited + {x});
    }
  }

  /**
   * A start whose children are distinct leaves: the order is the start, then the children in
   * edge order (for edges to `a`, `b`, `c`, the order `start, a, b, c`).
   */
  lemma BfsChildrenInEdgeOrder(nodes: Nodes, start: string)
    requires Eligible(nodes, start)
    requires var kids := NewTargets(nodes[start].edges, {start});
      Distinct(kids) && forall i :: 0 <= i < |kids| ==> kids[i] in nodes && nodes[kids[i]].edges == []
    ensures BfsOrder(nodes, start) == [start] + NewTargets(nodes[start].edges, {start})
  {
    var kids := NewTargets(nodes[start].edges, {start});
    assert [start][1..] + kids == kids;
    assert {} + {start} == {start};
    forall i | 0 <= i < |kids|
      ensures kids[i] != "" && kids[i] !in {start}
    {
      assert kids[i] in kids;
    }
    BfsLeaves(nodes, kids, {start});
  }

  /** An unvisited leaf at the front of the queue is visited and adds nothing to the queue. */
  lemma BfsLeaf(nodes: Nodes, x: string, queue: seq<string>, rest: seq<string>, visited: set<string>, after: set<string>)
    requires x != "" && x !in visited && x in nodes && nodes[x].edges == []
    requires queue == [x] + rest && after == visited + {x}
    ensures Bfs(nodes, queue, visited) == [x] + Bfs(nodes, rest, after)
  {
    assert queue[0] == x && queue[1..] == rest;
    assert NewTargets(nodes[x].edges, after) == [];
    assert rest + [] == rest;
  }

  /**
   * `traverseAllNodes`: breadth-first from the start node; an entry that is empty, already
   * visited or not a node is skipped, and every non-empty unvisited edge target is queued.
   * The steps are the reachable nodes, each once, the start node first, in breadth-first order.
   */
  method Traverse(nodes: Nodes, start: string) returns (steps: seq<Step>)
    ensures Ids(steps) == BfsOrder(nodes, start)
    ensures Distinct(Ids(steps))
    ensures forall x :: x in Ids(steps) <==> Reachable(nodes, start, x)
    ensures forall i :: 0 <= i < |steps| ==> steps[i].id in nodes && steps[i] == StepOf(steps[i].id, nodes[steps[i].id])
    ensures Eligible(nodes, start) ==> steps != [] && steps[0].id == start
  {
    var queue := [start];
    var visited: set<string> := {};
    steps := [];
    BfsBegin(nodes, start);
    while queue != []
      invariant TraversalInvariant(nodes, start, visited, queue, steps)
      invariant OrderSoFar(nodes, start, queue, visited, steps)
      decreases |nodes.Keys - visited|, |queue|
    {
      var nodeId := queue[0];
      if nodeId != "" && nodeId !in visited && nodeId in nodes {
        VisitKeepsInvariant(nodes, start, visited, queue, steps);
        BfsVisit(nodes, start, queue, visited, steps);
        queue := queue[1..];
        visited := visited + {nodeId};
        var node := nodes[nodeId];
        steps := steps + [StepOf(nodeId, node)];
        queue := Enqueue(queue, node, visited);
      } else {
        SkipKeepsInvariant(nodes, start, visited, queue, steps);
        BfsSkip(nodes, start, queue, visited, steps);
        queue := queue[1..];
      }
    }
    TraversalComplete(nodes, start, visited, steps);
    BfsDone(nodes, start, visited, steps);
  }

  /** The steps so far followed by the breadth-first order of the queue make up the whole order. */
  predicate OrderSoFar(nodes: Nodes, start: string, queue: seq<string>, visited: set<string>, steps: seq<Step>)
  {
    Ids(steps) + Bfs(nodes, queue, visited) == BfsOrder(nodes, start)
  }

  lemma BfsBegin(nodes: Nodes, start: string)
    ensures OrderSoFar(nodes, start, [start], {}, [])
  {
    assert Ids([]) == [];
  }

  /** Visiting the queue's first entry moves that id from the pending order to the steps. */
  lemma BfsVisit(nodes: Nodes, start: string, queue: seq<string>, visited: set<string>, steps: seq<Step>)
    requires queue != [] && Visits(nodes, visited, queue)
    requires OrderSoFar(nodes, start, queue, visited, steps)
    ensures var id := queue[0];
      OrderSoFar(nodes, start, queue[1..] + NewTargets(nodes[id].edges, visited + {id}), visited + {id},
                 steps + [StepOf(id, nodes[id])])
  {
    var id := queue[0];
    var rest := Bfs(nodes, queue[1..] + NewTargets(nodes[id].edges, visited + {id}), visited + {id});
    BfsUnfoldVisit(nodes, queue, visited);
    IdsSnoc(steps, StepOf(id, nodes[id]));
    SnocAssoc(Ids(steps), id, rest);
  }

  lemma BfsUnfoldVisit(nodes: Nodes, queue: seq<string>, visited: set<string>)
    requires queue != [] && Visits(nodes, visited, queue)
    ensures var id := queue[0];
      Bfs(nodes, queue, visited) == [id] + Bfs(nodes, queue[1..] + NewTargets(nodes[id].edges, visited + {id}), visited + {id})
  {
  }

  lemma IdsSnoc(steps: seq<Step>, st: Step)
    ensures Ids(steps + [st]) == Ids(steps) + [st.id]
  {
  }

  lemma SnocAssoc(a: seq<string>, x: string, b: seq<string>)
    ensures a + ([x] + b) == (a + [x]) + b
  {
  }

  /** Dropping an entry that is not visited leaves the order unchanged. */
  lemma BfsSkip(nodes: Nodes, start: string, queue: seq<string>, visited: set<string>, steps: seq<Step>)
    requires queue != [] && !Visits(nodes, visited, queue)
    requires OrderSoFar(nodes, start, queue, visited, steps)
    ensures OrderSoFar(nodes, start, queue[1..], visited, steps)
  {
    assert Bfs(nodes, queue, visited) == Bfs(nodes, queue[1..], visited);
  }

  lemma BfsDone(nodes: Nodes, start: string, visited: set<string>, steps: seq<Step>)
    requires OrderSoFar(nodes, start, [], visited, steps)
    ensures Ids(steps) == BfsOrder(nodes, start)
  {
    assert Bfs(nodes, [], visited) == [];
    assert Ids(steps) + [] == Ids(steps);
  }

  // The main path.

  /** `CONDITION_BRANCH` prefers `onSuccess`, `LOOP_END` prefers `onComplete`, the rest `default`. */
  function PreferredHandle(nodeType: string): string
  {
    if nodeType == "CONDITION_BRANCH" then "onSuccess"
    else if nodeType == "LOOP_END" then "onComplete"
    else "default"
  }

  /** `edges.find(edge => edge.sourceHandle === handle)`, as an index. */
  function FindHandle(edges: seq<Edge>, handle: string): (r: Option<nat>)
    ensures r.Some? ==> r.value < |edges| && edges[r.value].sourceHandle == handle &&
                        forall k :: 0 <= k < r.value ==> edges[k].sourceHandle != handle
    ensures r.None? ==> forall k :: 0 <= k < |edges| ==> edges[k].sourceHandle != handle
  {
    if edges == [] then None
    else if edges[0].sourceHandle == handle then Some(0)
    else match FindHandle(edges[1..], handle)
      case None => None
      case Some(k) => Some(k + 1)
  }

  /** The edge the trace follows: the first with the preferred handle, else the first edge. */
  function NextEdge(node: Node): (r: Option<Edge>)
    ensures r.Some? <==> node.edges != []
    ensures r.Some? ==> r.value in node.edges
    ensures r.Some? && (exists k :: 0 <= k < |node.edges| && node.edges[k].sourceHandle == PreferredHandle(node.nodeType)) ==>
              r.value.sourceHandle == PreferredHandle(node.nodeType)
    ensures r.Some? && (forall k :: 0 <= k < |node.edges| ==> node.edges[k].sourceHandle != PreferredHandle(node.nodeType)) ==>
              r.value == node.edges[0]
  {
    if node.edges == [] then None
    else match FindHandle(node.edges, PreferredHandle(node.nodeType))
      case Some(k) => Some(node.edges[k])
      case None => Some(node.edges[0])
  }

  /** The target the trace follows from a node: the next edge's target, "" when there is none. */
  function Followed(node: Node): (t: string)
    ensures t != "" ==> t in Targets(node)
  {
    match NextEdge(node)
    case None => ""
    case Some(e) => e.targetNodeId
  }

  /** Where a trace ends: no edge to follow, or its target is empty, already seen or not a node. */
  predicate Stops(nodes: Nodes, seen: set<string>, last: string)
    requires last in nodes
  {
    var t := Followed(nodes[last]);
    t == "" || t in seen || t !in nodes
  }

  /**
   * `traceMainPath`: from `id`, follow the preferred edge until the trace stops. The trace
   * holds eligible, unvisited nodes and starts at `id` when that is eligible and unvisited.
   */
  function Trace(nodes: Nodes, id: string, visited: set<string>): (r: seq<string>)
    ensures r == [] <==> !Eligible(nodes, id) || id in visited
    ensures r != [] ==> r[0] == id
    ensures forall x :: x in r ==> Eligible(nodes, x) && x !in visited
    decreases |nodes.Keys - visited|
  {
    if id == "" || id in visited || id !in nodes then []
    else
      CardinalityDrops(nodes.Keys, visited, id);
      if Followed(nodes[id]) == "" then [id]
      else [id] + Trace(nodes, Followed(nodes[id]), visited + {id})
  }

  /** The trace has no repeated node. */
  lemma {:induction false} TraceDistinct(nodes: Nodes, id: string, visited: set<string>)
    ensures Distinct(Trace(nodes, id, visited))
    decreases |nodes.Keys - visited|
  {
    if id != "" && id !in visited && id in nodes && Followed(nodes[id]) != "" {
      CardinalityDrops(nodes.Keys, visited, id);
      var r := Trace(nodes, id, visited);
      var rest := Trace(nodes, Followed(nodes[id]), visited + {id});
      TraceDistinct(nodes, Followed(nodes[id]), visited + {id});
      assert r == [id] + rest;
      forall i, j | 0 <= i < j < |r|
        ensures r[i] != r[j]
      {
        assert r[j] == rest[j - 1] && rest[j - 1] in rest;
        if i > 0 {
          assert r[i] == rest[i - 1];
        }
      }
    }
  }

  /** Each node of `r` is the followed target of the one before. */
  predicate FollowsEdges(nodes: Nodes, r: seq<string>)
  {
    forall i :: 0 <= i < |r| - 1 ==> r[i] in nodes && r[i + 1] == Followed(nodes[r[i]])
  }

  /** The trace goes along followed edges. */
  lemma {:induction false} TraceFollowsEdges(nodes: Nodes, id: string, visited: set<string>)
    ensures FollowsEdges(nodes, Trace(nodes, id, visited))
    decreases |nodes.Keys - visited|
  {
    if id != "" && id !in visited && id in nodes && Followed(nodes[id]) != "" {
      CardinalityDrops(nodes.Keys, visited, id);
      var r := Trace(nodes, id, visited);
      var rest := Trace(nodes, Followed(nodes[id]), visited + {id});
      TraceFollowsEdges(nodes, Followed(nodes[id]), visited + {id});
      assert r == [id] + rest;
      forall i | 0 < i < |r| - 1
        ensures r[i] in nodes && r[i + 1] == Followed(nodes[r[i]])
      {
        assert r[i] == rest[i - 1] && r[i + 1] == rest[i];
      }
    }
  }

  /** The last node of a non-empty trace `r` is one where `Stops` holds, given the nodes seen before `r`. */
  predicate EndsStopped(nodes: Nodes, visited: set<string>, r: seq<string>)
  {
    r != [] ==> r[|r| - 1] in nodes && Stops(nodes, visited + SetOf(r), r[|r| - 1])
  }

  /**
   * The trace ends where `Stops` says: at its last node the followed edge is missing, empty,
   * or leads to a node seen before or to no node.
   */
  lemma {:induction false} TraceStops(nodes: Nodes, id: string, visited: set<string>)
    ensures EndsStopped(nodes, visited, Trace(nodes, id, visited))
    decreases |nodes.Keys - visited|
  {
    if id != "" && id !in visited && id in nodes {
      var r := Trace(nodes, id, visited);
      if Followed(nodes[id]) != "" {
        CardinalityDrops(nodes.Keys, visited, id);
        var v2 := visited + {id};
        var rest := Trace(nodes, Followed(nodes[id]), v2);
        TraceStops(nodes, Followed(nodes[id]), v2);
        assert r == [id] + rest;
        TraceStopsCons(nodes, id, visited, rest);
      } else {
        assert r == [id];
      }
    }
  }

  /** One step of `TraceStops`: putting `id` in front of the rest of the trace keeps where it stops. */
  lemma TraceStopsCons(nodes: Nodes, id: string, visited: set<string>, rest: seq<string>)
    requires id in nodes && Followed(nodes[id]) != ""
    requires rest == [] ==> !Eligible(nodes, Followed(nodes[id])) || Followed(nodes[id]) in visited + {id}
    requires EndsStopped(nodes, visited + {id}, rest)
    ensures EndsStopped(nodes, visited, [id] + rest)
  {
    var r := [id] + rest;
    assert SetOf(r) == {id} + SetOf(rest) by {
      assert forall y :: y in r <==> y == id || y in rest;
    }
    if rest != [] {
      assert r[|r| - 1] == rest[|rest| - 1];
    }
  }

  function MainPath(nodes: Nodes, start: string): seq<string>
  {
    Trace(nodes, start, {})
  }

  /** Every node on the main path is reachable, so the traversal has a step for it. */
  lemma MainPathReachable(nodes: Nodes, start: string)
    ensures Distinct(MainPath(nodes, start))
    ensures forall x :: x in MainPath(nodes, start) ==> Reachable(nodes, start, x)
  {
    var m := MainPath(nodes, start);
    TraceDistinct(nodes, start, {});
    TraceFollowsEdges(nodes, start, {});
    if m != [] {
      forall i | 0 <= i < |m| - 1
        ensures m[i + 1] in Targets(nodes[m[i]])
      {
        assert m[i] in nodes && m[i + 1] == Followed(nodes[m[i]]);
        assert m[i + 1] in m;
      }
      assert IsPath(nodes, m);
      forall x | x in m
        ensures Reachable(nodes, start, x)
      {
        var i :| 0 <= i < |m| && m[i] == x;
        PrefixPath(nodes, m, i + 1);
      }
    }
  }

  // Renumbering.

  /** `mainPath.indexOf(id)` for an id on the path. */
  function IndexIn(s: seq<string>, x: string): (i: nat)
    requires x in s
    ensures i < |s| && s[i] == x && x !in s[..i]
  {
    if s[0] == x then 0 else 1 + IndexIn(s[1..], x)
  }

  /** The number of steps off the main path. */
  function SideCount(steps: seq<Step>, main: seq<string>): (n: nat)
    ensures n <= |steps|
  {
    if steps == [] then 0
    else SideCount(steps[..|steps| - 1], main) + (if steps[|steps| - 1].id in main then 0 else 1)
  }

  /** A main-path step gets its position on the path plus one; the others follow the path. */
  function NumberAt(steps: seq<Step>, main: seq<string>, i: nat): nat
    requires i < |steps|
  {
    if steps[i].id in main then IndexIn(main, steps[i].id) + 1
    else |main| + 1 + SideCount(steps[..i], main)
  }

  function Renumbered(steps: seq<Step>, main: seq<string>): (r: seq<NumberedStep>)
    ensures |r| == |steps| && forall i :: 0 <= i < |r| ==> r[i].step == steps[i]
  {
    seq(|steps|, i requires 0 <= i < |steps| =>
      NumberedStep(steps[i], NumberAt(steps, main, i), steps[i].id in main))
  }

  /** `reassignStepNumbers`: one pass over the steps with a counter for the side steps. */
  method Renumber(steps: seq<Step>, main: seq<string>) returns (r: seq<NumberedStep>)
    ensures r == Renumbered(steps, main)
  {
    var sideIndex := |main| + 1;
    r := [];
    for i := 0 to |steps|
      invariant |r| == i
      invariant sideIndex == |main| + 1 + SideCount(steps[..i], main)
      invariant forall k :: 0 <= k < i ==> r[k] == NumberedStep(steps[k], NumberAt(steps, main, k), steps[k].id in main)
    {
      var step := steps[i];
      assert steps[..i + 1][..i] == steps[..i];
      if step.id in main {
        r := r + [NumberedStep(step, IndexIn(main, step.id) + 1, true)];
      } else {
        r := r + [NumberedStep(step, sideIndex, false)];
        sideIndex := sideIndex + 1;
      }
    }
  }

  lemma {:induction false} SideCountGrows(steps: seq<Step>, main: seq<string>, i: nat, j: nat)
    requires i < j <= |steps|
    ensures SideCount(steps[..i], main) + (if steps[i].id in main then 0 else 1) <= SideCount(steps[..j], main)
    decreases j - i
  {
    assert steps[..i + 1][..i] == steps[..i];
    if j > i + 1 {
      SideCountGrows(steps, main, i, j - 1);
      assert steps[..j][..j - 1] == steps[..j - 1];
    }
  }

  /** Side steps are numbered in traversal order, one after another. */
  lemma SideNumbersFollowTraversal(steps: seq<Step>, main: seq<string>, i: nat, j: nat)
    requires i < j < |steps| && steps[i].id !in main && steps[j].id !in main
    ensures NumberAt(steps, main, i) < NumberAt(steps, main, j)
  {
    SideCountGrows(steps, main, i, j);
  }

  lemma {:induction false} DistinctCard(s: seq<string>)
    requires Distinct(s)
    ensures |SetOf(s)| == |s|
  {
    if s != [] {
      var t := s[..|s| - 1];
      DistinctCard(t);
      assert SetOf(s) == SetOf(t) + {s[|s| - 1]};
      assert s[|s| - 1] !in SetOf(t);
    }
  }

  /** The steps on the main path are as many as the path's nodes that have a step. */
  lemma {:induction false} MainCount(steps: seq<Step>, main: seq<string>)
    requires Distinct(Ids(steps))
    ensures |steps| - SideCount(steps, main) == |SetOf(Ids(steps)) * SetOf(main)|
  {
    if steps != [] {
      var t := steps[..|steps| - 1];
      var x := steps[|steps| - 1].id;
      assert Ids(t) == Ids(steps)[..|steps| - 1];
      MainCount(t, main);
      assert SetOf(Ids(steps)) == SetOf(Ids(t)) + {x};
      assert x !in SetOf(Ids(t));
      if x in main {
        assert SetOf(Ids(steps)) * SetOf(main) == (SetOf(Ids(t)) * SetOf(main)) + {x};
      } else {
        assert SetOf(Ids(steps)) * SetOf(main) == SetOf(Ids(t)) * SetOf(main);
      }
    }
  }

  /** Every number lies in 1..hi. */
  predicate NumbersWithin(s: seq<NumberedStep>, hi: nat)
  {
    forall i :: 0 <= i < |s| ==> 1 <= s[i].stepNumber <= hi
  }

  predicate NumbersDistinct(s: seq<NumberedStep>)
  {
    forall i, j :: 0 <= i < j < |s| ==> s[i].stepNumber != s[j].stepNumber
  }

  /** A step is on the main path exactly when its number is at most the path's length, and then
      the path holds its id at the position the number names. */
  predicate MainPositions(s: seq<NumberedStep>, steps: seq<Step>, main: seq<string>)
  {
    forall i :: 0 <= i < |s| ==>
      (s[i].isMainPath <==> s[i].stepNumber <= |main|) &&
      (s[i].isMainPath && i < |steps| && 1 <= s[i].stepNumber ==> main[s[i].stepNumber - 1] == steps[i].id)
  }

  /** A main-path step is numbered by its position on the path. */
  lemma RenumberedMainPositions(steps: seq<Step>, main: seq<string>)
    ensures MainPositions(Renumbered(steps, main), steps, main)
  {
  }

  /** With distinct step ids, no two steps get the same number. */
  lemma RenumberedDistinct(steps: seq<Step>, main: seq<string>)
    requires Distinct(Ids(steps))
    ensures NumbersDistinct(Renumbered(steps, main))
  {
    var r := Renumbered(steps, main);
    forall i, j | 0 <= i < j < |r|
      ensures r[i].stepNumber != r[j].stepNumber
    {
      if steps[i].id in main && steps[j].id in main {
        assert Ids(steps)[i] != Ids(steps)[j];
      } else if steps[i].id !in main && steps[j].id !in main {
        SideNumbersFollowTraversal(steps, main, i, j);
      }
    }
  }

  /**
   * When the main path is distinct and all its nodes have steps (which have distinct ids),
   * the numbers stay within 1..n.
   */
  lemma RenumberedWithin(steps: seq<Step>, main: seq<string>)
    requires Distinct(Ids(steps)) && Distinct(main)
    requires forall x :: x in main ==> x in Ids(steps)
    ensures |main| <= |steps|
    ensures NumbersWithin(Renumbered(steps, main), |steps|)
  {
    var r := Renumbered(steps, main);
    MainCount(steps, main);
    DistinctCard(main);
    assert SetOf(Ids(steps)) * SetOf(main) == SetOf(main);
    forall i | 0 <= i < |r|
      ensures 1 <= r[i].stepNumber <= |steps|
    {
      if steps[i].id !in main {
        SideCountGrows(steps, main, i, |steps|);
        assert steps[..|steps|] == steps;
      }
    }
  }

  // Sorting by step number.

  predicate Sorted(s: seq<NumberedStep>)
  {
    forall i, j :: 0 <= i < j < |s| ==> s[i].stepNumber <= s[j].stepNumber
  }

  predicate StrictlySorted(s: seq<NumberedStep>)
  {
    forall i, j :: 0 <= i < j < |s| ==> s[i].stepNumber < s[j].stepNumber
  }

  /** Inserts `x` after every element whose number is not greater, which keeps the sort stable. */
  function Insert(x: NumberedStep, s: seq<NumberedStep>): (r: seq<NumberedStep>)
    ensures multiset(r) == multiset(s) + multiset{x}
    ensures |r| == |s| + 1
    ensures r[0] == x || (s != [] && r[0] == s[0])
  {
    if s == [] then [x]
    else if s[0].stepNumber <= x.stepNumber then
      assert s == [s[0]] + s[1..];
      [s[0]] + Insert(x, s[1..])
    else [x] + s
  }

  lemma ConsSorted(a: NumberedStep, r: seq<NumberedStep>)
    requires Sorted(r) && forall y :: y in r ==> a.stepNumber <= y.stepNumber
    ensures Sorted([a] + r)
  {
    forall i, j | 0 <= i < j < |r| + 1
      ensures ([a] + r)[i].stepNumber <= ([a] + r)[j].stepNumber
    {
      assert ([a] + r)[j] == r[j - 1];
      if i > 0 {
        assert ([a] + r)[i] == r[i - 1];
      }
    }
  }

  /** Inserting into a sorted sequence keeps it sorted. */
  lemma {:induction false} InsertSorted(x: NumberedStep, s: seq<NumberedStep>)
    requires Sorted(s)
    ensures Sorted(Insert(x, s))
  {
    if s == [] {
    } else if s[0].stepNumber > x.stepNumber {
      forall y | y in s
        ensures x.stepNumber <= y.stepNumber
      {
        var k :| 0 <= k < |s| && s[k] == y;
        assert s[0].stepNumber <= s[k].stepNumber;
      }
      ConsSorted(x, s);
    } else {
      var t := s[1..];
      assert Sorted(t);
      InsertSorted(x, t);
      var r := Insert(x, t);
      forall y | y in r
        ensures s[0].stepNumber <= y.stepNumber
      {
        assert y in multiset(r);
        if y != x {
          var k :| 0 <= k < |t| && t[k] == y;
          assert s[k + 1] == y;
        }
      }
      ConsSorted(s[0], r);
    }
  }

  lemma ConsStrict(a: NumberedStep, r: seq<NumberedStep>)
    requires StrictlySorted(r) && forall y :: y in r ==> a.stepNumber < y.stepNumber
    ensures StrictlySorted([a] + r)
  {
    forall i, j | 0 <= i < j < |r| + 1
      ensures ([a] + r)[i].stepNumber < ([a] + r)[j].stepNumber
    {
      assert ([a] + r)[j] == r[j - 1];
      if i > 0 {
        assert ([a] + r)[i] == r[i - 1];
      }
    }
  }

  /** Inserting a number the sequence does not hold keeps it strictly increasing. */
  lemma {:induction false} InsertStrict(x: NumberedStep, s: seq<NumberedStep>)
    requires StrictlySorted(s) && forall y :: y in s ==> y.stepNumber != x.stepNumber
    ensures StrictlySorted(Insert(x, s))
  {
    if s == [] {
    } else if s[0].stepNumber > x.stepNumber {
      forall y | y in s
        ensures x.stepNumber < y.stepNumber
      {
        var k :| 0 <= k < |s| && s[k] == y;
      }
      ConsStrict(x, s);
    } else {
      var t := s[1..];
      InsertStrict(x, t);
      var r := Insert(x, t);
      forall y | y in r
        ensures s[0].stepNumber < y.stepNumber
      {
        assert y in multiset(r);
        if y != x {
          var k :| 0 <= k < |t| && t[k] == y;
          assert s[k + 1] == y;
        }
      }
      ConsStrict(s[0], r);
    }
  }

  /** `steps.sort((a, b) => a.stepNumber - b.stepNumber)`, a stable sort. */
  function SortSteps(s: seq<NumberedStep>): (r: seq<NumberedStep>)
    ensures multiset(r) == multiset(s) && |r| == |s|
    ensures Sorted(r)
  {
    if s == [] then []
    else
      assert s == s[..|s| - 1] + [s[|s| - 1]];
      var sorted := SortSteps(s[..|s| - 1]);
      InsertSorted(s[|s| - 1], sorted);
      Insert(s[|s| - 1], sorted)
  }

  /** Distinct numbers come out strictly increasing. */
  lemma {:induction false} SortStrict(s: seq<NumberedStep>)
    requires NumbersDistinct(s)
    ensures StrictlySorted(SortSteps(s))
  {
    if s != [] {
      var init := s[..|s| - 1];
      SortStrict(init);
      var sorted := SortSteps(init);
      assert forall y :: y in sorted ==> y in multiset(init);
      InsertStrict(s[|s| - 1], sorted);
    }
  }

  lemma {:induction false} NumbersFromBelow(r: seq<NumberedStep>, k: nat)
    requires StrictlySorted(r) && k < |r|
    requires forall i :: 0 <= i < |r| ==> 1 <= r[i].stepNumber
    ensures r[k].stepNumber >= k + 1
  {
    if k > 0 {
      NumbersFromBelow(r, k - 1);
    }
  }

  lemma {:induction false} NumbersFromAbove(r: seq<NumberedStep>, k: nat)
    requires StrictlySorted(r) && k < |r|
    requires forall i :: 0 <= i < |r| ==> r[i].stepNumber <= |r|
    ensures r[k].stepNumber <= k + 1
    decreases |r| - k
  {
    if k < |r| - 1 {
      NumbersFromAbove(r, k + 1);
    }
  }

  /** Strictly increasing numbers drawn from 1..n on n steps are exactly 1, 2, ..., n. */
  lemma ExactNumbers(r: seq<NumberedStep>)
    requires StrictlySorted(r) && NumbersWithin(r, |r|)
    ensures forall k :: 0 <= k < |r| ==> r[k].stepNumber == k + 1
  {
    forall k | 0 <= k < |r|
      ensures r[k].stepNumber == k + 1
    {
      NumbersFromBelow(r, k);
      NumbersFromAbove(r, k);
    }
  }

  function StepIds(r: seq<NumberedStep>): (ids: seq<string>)
    ensures |ids| == |r| && forall i :: 0 <= i < |r| ==> ids[i] == r[i].step.id
  {
    seq(|r|, i requires 0 <= i < |r| => r[i].step.id)
  }

  /**
   * A strictly sorted rearrangement of steps whose numbers lie within 1..n holds them at the
   * positions their numbers name.
   */
  lemma RearrangedExact(n: seq<NumberedStep>, r: seq<NumberedStep>)
    requires multiset(r) == multiset(n) && |r| == |n| && StrictlySorted(r) && NumbersWithin(n, |n|)
    ensures forall k :: 0 <= k < |r| ==> r[k].stepNumber == k + 1
    ensures forall k :: 0 <= k < |r| ==> exists i :: 0 <= i < |n| && n[i] == r[k]
    ensures forall i :: 0 <= i < |n| ==> n[i] in r
  {
    forall k | 0 <= k < |r|
      ensures exists i :: 0 <= i < |n| && n[i] == r[k]
    {
      assert r[k] in multiset(r);
      assert r[k] in n;
    }
    forall i | 0 <= i < |n|
      ensures n[i] in r
    {
      assert n[i] in multiset(n);
    }
    assert NumbersWithin(r, |r|) by {
      forall k | 0 <= k < |r|
        ensures 1 <= r[k].stepNumber <= |r|
      {
        var i :| 0 <= i < |n| && n[i] == r[k];
      }
    }
    ExactNumbers(r);
  }

  /** `r` holds the steps of `n`, each at the position its number names. */
  predicate Arranged(n: seq<NumberedStep>, r: seq<NumberedStep>)
  {
    |r| == |n| &&
    (forall k :: 0 <= k < |r| ==> r[k].stepNumber == k + 1) &&
    (forall k :: 0 <= k < |r| ==> exists i :: 0 <= i < |n| && n[i] == r[k]) &&
    (forall i :: 0 <= i < |n| ==> n[i] in r)
  }

  /** Sorting steps whose numbers are distinct and within 1..n puts them where their numbers say. */
  lemma SortedExact(n: seq<NumberedStep>)
    requires NumbersWithin(n, |n|) && NumbersDistinct(n)
    ensures Arranged(n, SortSteps(n))
  {
    SortStrict(n);
    RearrangedExact(n, SortSteps(n));
  }

  /** A rearrangement of the renumbered steps holds the same step ids. */
  lemma RearrangedIds(n: seq<NumberedStep>, r: seq<NumberedStep>, steps: seq<Step>)
    requires |n| == |steps| && (forall i :: 0 <= i < |n| ==> n[i].step == steps[i]) && Arranged(n, r)
    ensures forall x :: x in StepIds(r) <==> x in Ids(steps)
    ensures forall k :: 0 <= k < |r| ==> r[k].step in steps
  {
    forall x | x in Ids(steps)
      ensures x in StepIds(r)
    {
      var i :| 0 <= i < |steps| && steps[i].id == x;
      var k :| 0 <= k < |r| && r[k] == n[i];
      assert StepIds(r)[k] == x;
    }
    forall k | 0 <= k < |r|
      ensures r[k].step in steps
    {
      var i :| 0 <= i < |n| && n[i] == r[k];
    }
  }

  /** ... and holds each of them once. */
  lemma RearrangedIdsDistinct(n: seq<NumberedStep>, r: seq<NumberedStep>, steps: seq<Step>)
    requires |n| == |steps| && (forall i :: 0 <= i < |n| ==> n[i].step == steps[i])
    requires Distinct(Ids(steps)) && Arranged(n, r)
    ensures Distinct(StepIds(r))
  {
    forall k, k' | 0 <= k < k' < |r|
      ensures StepIds(r)[k] != StepIds(r)[k']
    {
      var i :| 0 <= i < |n| && n[i] == r[k];
      var i' :| 0 <= i' < |n| && n[i'] == r[k'];
      assert r[k].stepNumber == k + 1 && r[k'].stepNumber == k' + 1;
      assert i != i';
      var ids := Ids(steps);
      assert ids[i] == steps[i].id && ids[i'] == steps[i'].id;
      if i < i' {
        assert ids[i] != ids[i'];
      } else {
        assert ids[i'] != ids[i];
      }
      assert StepIds(r)[k] == steps[i].id && StepIds(r)[k'] == steps[i'].id;
    }
  }

  /** In a rearrangement at exact positions, the main path takes the first positions, in order. */
  lemma RearrangedMain(n: seq<NumberedStep>, r: seq<NumberedStep>, steps: seq<Step>, main: seq<string>)
    requires |n| == |steps| && (forall i :: 0 <= i < |n| ==> n[i].step == steps[i]) && |main| <= |steps|
    requires MainPositions(n, steps, main) && Arranged(n, r)
    ensures forall k :: 0 <= k < |r| ==> (r[k].isMainPath <==> k < |main|)
    ensures forall k :: 0 <= k < |main| ==> r[k].step.id == main[k]
  {
    forall k | 0 <= k < |r|
      ensures r[k].isMainPath <==> k < |main|
      ensures k < |main| ==> r[k].step.id == main[k]
    {
      var i :| 0 <= i < |n| && n[i] == r[k];
    }
  }

  lemma RearrangedShape(n: seq<NumberedStep>, r: seq<NumberedStep>, steps: seq<Step>, main: seq<string>)
    requires |n| == |steps| && (forall i :: 0 <= i < |n| ==> n[i].step == steps[i]) && |main| <= |steps|
    requires Distinct(Ids(steps)) && MainPositions(n, steps, main) && Arranged(n, r)
    ensures Shape(r, steps, main)
  {
    RearrangedIds(n, r, steps);
    RearrangedIdsDistinct(n, r, steps);
    RearrangedMain(n, r, steps, main);
  }

  /**
   * The page's step list for `steps` and `main`: numbered 1..n in order, the main path first
   * at its own positions, then the others; every step appears once.
   */
  ghost predicate Shape(r: seq<NumberedStep>, steps: seq<Step>, main: seq<string>)
  {
    |r| == |steps| && |main| <= |r| &&
    (forall k :: 0 <= k < |r| ==> r[k].stepNumber == k + 1) &&
    (forall x :: x in StepIds(r) <==> x in Ids(steps)) &&
    Distinct(StepIds(r)) &&
    (forall k :: 0 <= k < |r| ==> r[k].step in steps) &&
    (forall k :: 0 <= k < |r| ==> (r[k].isMainPath <==> k < |main|)) &&
    (forall k :: 0 <= k < |main| ==> r[k].step.id == main[k])
  }

  /** Sorting the renumbered steps gives the page's step list. */
  lemma SortedRenumbering(steps: seq<Step>, main: seq<string>)
    requires Distinct(Ids(steps)) && Distinct(main)
    requires forall x :: x in main ==> x in Ids(steps)
    ensures Shape(SortSteps(Renumbered(steps, main)), steps, main)
  {
    RenumberedWithin(steps, main);
    RenumberedDistinct(steps, main);
    RenumberedMainPositions(steps, main);
    var n := Renumbered(steps, main);
    SortedExact(n);
    RearrangedShape(n, SortSteps(n), steps, main);
  }

  /** The elements of `s` that are not on `main`, in order. */
  function Without(s: seq<string>, main: seq<string>): seq<string>
  {
    if s == [] then []
    else Without(s[..|s| - 1], main) + (if s[|s| - 1] in main then [] else [s[|s| - 1]])
  }

  /** The side ids are exactly the ids not on the main path. */
  lemma {:induction false} WithoutMembers(s: seq<string>, main: seq<string>)
    ensures forall x :: x in Without(s, main) <==> x in s && x !in main
    decreases |s|
  {
    if s != [] {
      var t := s[..|s| - 1];
      WithoutMembers(t, main);
      assert s == t + [s[|s| - 1]];
    }
  }

  /** Dropping the last step drops the last id, which is kept when it is off the main path. */
  lemma WithoutSnoc(steps: seq<Step>, main: seq<string>)
    requires steps != []
    ensures Without(Ids(steps), main) ==
      Without(Ids(steps[..|steps| - 1]), main) + (if steps[|steps| - 1].id in main then [] else [steps[|steps| - 1].id])
  {
    var s := Ids(steps);
    assert s[..|s| - 1] == Ids(steps[..|steps| - 1]);
  }

  /** There are as many ids off the main path as side steps. */
  lemma {:induction false} WithoutLength(steps: seq<Step>, main: seq<string>)
    ensures |Without(Ids(steps), main)| == SideCount(steps, main)
    decreases |steps|
  {
    if steps != [] {
      WithoutSnoc(steps, main);
      WithoutLength(steps[..|steps| - 1], main);
    }
  }

  /** The last step, when off the main path, holds the last side id. */
  lemma WithoutAtLast(steps: seq<Step>, main: seq<string>)
    requires steps != [] && steps[|steps| - 1].id !in main
    ensures SideCount(steps[..|steps| - 1], main) < |Without(Ids(steps), main)|
    ensures Without(Ids(steps), main)[SideCount(steps[..|steps| - 1], main)] == steps[|steps| - 1].id
  {
    var t := steps[..|steps| - 1];
    WithoutSnoc(steps, main);
    WithoutLength(t, main);
  }

  /** A side step's id sits in the side ids at the count of side steps before it. */
  lemma {:induction false} WithoutAt(steps: seq<Step>, main: seq<string>, i: nat)
    requires i < |steps| && steps[i].id !in main
    ensures SideCount(steps[..i], main) < |Without(Ids(steps), main)|
    ensures Without(Ids(steps), main)[SideCount(steps[..i], main)] == steps[i].id
    decreases |steps|
  {
    if i == |steps| - 1 {
      WithoutAtLast(steps, main);
    } else {
      var t := steps[..|steps| - 1];
      WithoutSnoc(steps, main);
      assert t[..i] == steps[..i];
      assert t[i] == steps[i];
      WithoutAt(t, main, i);
    }
  }

  /** When every node of the main path has a step, the other steps number |steps| - |main|. */
  lemma SideCountOfCovered(steps: seq<Step>, main: seq<string>)
    requires Distinct(Ids(steps)) && Distinct(main)
    requires forall x :: x in main ==> x in Ids(steps)
    ensures SideCount(steps, main) + |main| == |steps|
  {
    MainCount(steps, main);
    DistinctCard(main);
    assert SetOf(Ids(steps)) * SetOf(main) == SetOf(main);
  }

  /** A step numbered past the main path holds the side id its number counts to. */
  lemma NumberPastMain(steps: seq<Step>, main: seq<string>, i: nat, j: nat)
    requires i < |steps| && NumberAt(steps, main, i) == |main| + 1 + j
    ensures j < |Without(Ids(steps), main)|
    ensures Without(Ids(steps), main)[j] == steps[i].id
  {
    assert steps[i].id !in main;
    WithoutAt(steps, main, i);
  }

  /** Each position of `r` holds one of `steps` with the number that step gets. */
  predicate NumberedFrom(steps: seq<Step>, main: seq<string>, r: seq<NumberedStep>)
  {
    forall k :: 0 <= k < |r| ==> NumberedAt(steps, main, r[k], k)
  }

  predicate NumberedAt(steps: seq<Step>, main: seq<string>, x: NumberedStep, k: nat)
  {
    exists i :: 0 <= i < |steps| && x.step == steps[i] && NumberAt(steps, main, i) == k + 1
  }

  /** The step at each position comes from `steps`, numbered as the renumbering numbers it. */
  lemma ArrangedOrigin(steps: seq<Step>, main: seq<string>, r: seq<NumberedStep>, k: nat) returns (i: nat)
    requires Arranged(Renumbered(steps, main), r) && k < |r|
    ensures i < |steps| && r[k].step == steps[i] && NumberAt(steps, main, i) == k + 1
  {
    var n := Renumbered(steps, main);
    i :| 0 <= i < |n| && n[i] == r[k];
  }

  lemma ArrangedNumberedFrom(steps: seq<Step>, main: seq<string>, r: seq<NumberedStep>)
    requires Arranged(Renumbered(steps, main), r)
    ensures NumberedFrom(steps, main, r)
  {
    forall k | 0 <= k < |r|
      ensures NumberedAt(steps, main, r[k], k)
    {
      var i := ArrangedOrigin(steps, main, r, k);
    }
  }

  /** The positions after the main path hold the side ids, in order. */
  lemma SideSlice(steps: seq<Step>, main: seq<string>, r: seq<NumberedStep>)
    requires NumberedFrom(steps, main, r)
    requires |r| == |main| + |Without(Ids(steps), main)|
    ensures StepIds(r)[|main|..] == Without(Ids(steps), main)
  {
    var side := Without(Ids(steps), main);
    var tail := StepIds(r)[|main|..];
    forall j | 0 <= j < |side|
      ensures tail[j] == side[j]
    {
      var k := |main| + j;
      assert NumberedAt(steps, main, r[k], k);
      var i :| 0 <= i < |steps| && r[k].step == steps[i] && NumberAt(steps, main, i) == k + 1;
      NumberPastMain(steps, main, i, j);
      assert tail[j] == r[k].step.id;
    }
  }

  /** After the main path, the sorted list holds the side steps in traversal order. */
  lemma SideStepsInOrder(steps: seq<Step>, main: seq<string>)
    requires Distinct(Ids(steps)) && Distinct(main)
    requires forall x :: x in main ==> x in Ids(steps)
    ensures |main| <= |SortSteps(Renumbered(steps, main))|
    ensures StepIds(SortSteps(Renumbered(steps, main)))[|main|..] == Without(Ids(steps), main)
  {
    var n := Renumbered(steps, main);
    RenumberedWithin(steps, main);
    RenumberedDistinct(steps, main);
    SortedExact(n);
    SideCountOfCovered(steps, main);
    WithoutLength(steps, main);
    ArrangedNumberedFrom(steps, main, SortSteps(n));
    SideSlice(steps, main, SortSteps(n));
  }

  // The whole of `parseWorkflowSteps`.

  /** `workflowData`, its `nodes` and its `startNodeId` are all present. */
  predicate Parseable(data: Option<WorkflowData>)
  {
    data.Some? && data.value.nodes.Some? && data.value.startNodeId != ""
  }

  /**
   * `parseWorkflowSteps`: nothing when the data, its nodes or its start node are missing;
   * otherwise one step per node reachable from the start, numbered 1..n in order, the main
   * path first and at its own positions, then the other steps in breadth-first order.
   */
  method ParseWorkflowSteps(data: Option<WorkflowData>) returns (r: seq<NumberedStep>)
    ensures !Parseable(data) ==> r == []
    ensures Parseable(data) ==>
      var nodes := data.value.nodes.value;
      var start := data.value.startNodeId;
      var main := MainPath(nodes, start);
      (forall x :: x in StepIds(r) <==> Reachable(nodes, start, x)) &&
      Distinct(StepIds(r)) &&
      (forall k :: 0 <= k < |r| ==> r[k].stepNumber == k + 1) &&
      (forall k :: 0 <= k < |r| ==> r[k].step.id in nodes && r[k].step == StepOf(r[k].step.id, nodes[r[k].step.id])) &&
      |main| <= |r| &&
      (forall k :: 0 <= k < |r| ==> (r[k].isMainPath <==> k < |main|)) &&
      (forall k :: 0 <= k < |main| ==> r[k].step.id == main[k]) &&
      StepIds(r)[|main|..] == Without(BfsOrder(nodes, start), main)
  {
    if !Parseable(data) {
      return [];
    }
    var nodes := data.value.nodes.value;
    var start := data.value.startNodeId;
    var steps := Traverse(nodes, start);
    var main := MainPath(nodes, start);
    MainPathReachable(nodes, start);
    var numbered := Renumber(steps, main);
    SortedRenumbering(steps, main);
    r := SortSteps(numbered);
    ShapeOfTraversal(nodes, start, steps, main, r);
    SideStepsInOrder(steps, main);
  }

  /** The arranged list holds the traversal's steps: the reachable nodes, each as its node gives it. */
  lemma ShapeOfTraversal(nodes: Nodes, start: string, steps: seq<Step>, main: seq<string>, r: seq<NumberedStep>)
    requires forall x :: x in Ids(steps) <==> Reachable(nodes, start, x)
    requires forall i :: 0 <= i < |steps| ==> steps[i].id in nodes && steps[i] == StepOf(steps[i].id, nodes[steps[i].id])
    requires Shape(r, steps, main)
    ensures forall x :: x in StepIds(r) <==> Reachable(nodes, start, x)
    ensures forall k :: 0 <= k < |r| ==> r[k].step.id in nodes && r[k].step == StepOf(r[k].step.id, nodes[r[k].step.id])
  {
    forall k | 0 <= k < |r|
      ensures r[k].step.id in nodes && r[k].step == StepOf(r[k].step.id, nodes[r[k].step.id])
    {
      var i :| 0 <= i < |steps| && steps[i] == r[k].step;
    }
  }
}
