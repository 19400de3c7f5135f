/**
 * The loop node and the loop-start node placed inside it (`dify_nodes/loop`): loop variables,
 * break conditions, and one output variable per distinct loop variable.
 */
module LoopNode {
  import opened Wrappers
  import opened Json
  import opened Text
  import opened NodeTypes
  import opened NodeBase

  const LoopStartNodeType := "custom-loop-start"

  /** One loop variable as the agent passes it; `None` is a key the dictionary does not have. */
  datatype LoopVariableArg = LoopVariableArg(id: Option<string>, labelText: Option<string>, varType: Option<string>,
                                             valueType: Option<string>, value: Option<Json>)

  /** One break condition as the agent passes it. */
  datatype LoopConditionArg = LoopConditionArg(id: Option<string>, varType: Option<string>, variable: Option<string>,
                                               comparisonOperator: Option<string>, value: Option<Json>)

  /**
   * The value stored for a loop variable: a string given for a variable-valued loop variable
   * is parsed into a selector path; any other value is kept as given ("" when absent).
   */
  function LoopValueOf(a: LoopVariableArg): (v: Json)
    ensures a.valueType == Some("variable") && a.value.GetOr(JStr("")).JStr? ==>
              v == StrList(ParseVariable(a.value.GetOr(JStr("")).s))
    ensures !(a.valueType == Some("variable") && a.value.GetOr(JStr("")).JStr?) ==> v == a.value.GetOr(JStr(""))
  {
    var raw := a.value.GetOr(JStr(""));
    if a.valueType == Some("variable") && raw.JStr? then StrList(ParseVariable(raw.s)) else raw
  }

  function LoopVariableOf(a: LoopVariableArg): (v: LoopVariable)
    ensures v.id == a.id.GetOr("") && v.labelText == a.labelText.GetOr("")
    ensures v.varType == a.varType.GetOr("string") && v.valueType == a.valueType.GetOr("constant")
    ensures v.value == LoopValueOf(a)
  {
    LoopVariable(a.id.GetOr(""), a.labelText.GetOr(""), a.varType.GetOr("string"), a.valueType.GetOr("constant"),
                 LoopValueOf(a))
  }

  function LoopVariablesOf(args: seq<LoopVariableArg>): (vs: seq<LoopVariable>)
  {
    seq(|args|, i requires 0 <= i < |args| => LoopVariableOf(args[i]))
  }

  /** The loop of `create_loop_node` over the loop variables. */
  method ConvertLoopVariables(args: seq<LoopVariableArg>) returns (vs: seq<LoopVariable>)
    ensures vs == LoopVariablesOf(args)
  {
    vs := [];
    var i := 0;
    while i < |args|
      invariant 0 <= i <= |args|
      invariant |vs| == i
      invariant forall j :: 0 <= j < i ==> vs[j] == LoopVariableOf(args[j])
    {
      vs := vs + [LoopVariableOf(args[i])];
      i := i + 1;
    }
  }

  /** The `i`-th break condition: the variable parsed, `cond_<i>`, "string", "is" and "" by default. */
  function LoopConditionOf(a: LoopConditionArg, i: nat): (c: LoopCondition)
    ensures c.id == a.id.GetOr("cond_" + NatToString(i)) && c.varType == a.varType.GetOr("string")
    ensures c.variableSelector == ParseVariable(a.variable.GetOr(""))
    ensures c.comparisonOperator == a.comparisonOperator.GetOr("is") && c.value == a.value.GetOr(JStr(""))
  {
    LoopCondition(a.id.GetOr("cond_" + NatToString(i)), a.varType.GetOr("string"), ParseVariable(a.variable.GetOr("")),
                  a.comparisonOperator.GetOr("is"), a.value.GetOr(JStr("")))
  }

  /** The break conditions: none when the argument is missing or empty. */
  function LoopConditionsOf(args: Option<seq<LoopConditionArg>>): (cs: seq<LoopCondition>)
    ensures |cs| == |args.GetOr([])|
  {
    var given := args.GetOr([]);
    seq(|given|, i requires 0 <= i < |given| => LoopConditionOf(given[i], i))
  }

  /** The loop of `create_loop_node` over the break conditions, entered only for a non-empty list. */
  method ConvertBreakConditions(args: Option<seq<LoopConditionArg>>) returns (cs: seq<LoopCondition>)
    ensures cs == LoopConditionsOf(args)
  {
    cs := [];
    if args.Some? && |args.value| > 0 {
      var given := args.value;
      var i := 0;
      while i < |given|
        invariant 0 <= i <= |given|
        invariant |cs| == i
        invariant forall j :: 0 <= j < i ==> cs[j] == LoopConditionOf(given[j], j)
      {
        cs := cs + [LoopConditionOf(given[i], i)];
        i := i + 1;
      }
    }
  }

  /** Break conditions the agent leaves unnamed never share an id. */
  lemma DefaultConditionIdsDistinct(args: seq<LoopConditionArg>, i: nat, j: nat)
    requires i < j < |args| && args[i].id.None? && args[j].id.None?
    ensures LoopConditionsOf(Some(args))[i].id != LoopConditionsOf(Some(args))[j].id
  {
    NumberedNamesDistinct("cond_", i, j);
  }

  // Output variables.

  /** The output variable a loop variable stands for (its type kept as given). */
  function LoopOutputFor(v: LoopVariable): (o: OutputVariable)
    ensures o.variable == v.labelText && o.typ == v.varType
  {
    OutputVariable(v.labelText, "循环变量 " + v.labelText, v.varType, "循环中的变量 " + v.labelText)
  }

  function LoopOutputCandidates(vs: seq<LoopVariable>): (os: seq<OutputVariable>)
    ensures |os| == |vs|
    ensures forall i :: 0 <= i < |vs| ==> os[i] == LoopOutputFor(vs[i])
  {
    seq(|vs|, i requires 0 <= i < |vs| => LoopOutputFor(vs[i]))
  }

  /** `xs` with each later repetition of an earlier element dropped. */
  function Dedup<T(==)>(xs: seq<T>): seq<T>
    decreases |xs|
  {
    if xs == [] then []
    else
      var d := Dedup(xs[..|xs| - 1]);
      if xs[|xs| - 1] in d then d else d + [xs[|xs| - 1]]
  }

  predicate NoDuplicates<T(==)>(xs: seq<T>)
  {
    forall i, j :: 0 <= i < j < |xs| ==> xs[i] != xs[j]
  }

  /** `Dedup` keeps exactly the elements of its input... */
  lemma {:induction false} DedupSameElements<T>(xs: seq<T>)
    ensures forall x :: x in Dedup(xs) <==> x in xs
    decreases |xs|
  {
    if xs != [] {
      var init := xs[..|xs| - 1];
      DedupSameElements(init);
      assert xs == init + [xs[|xs| - 1]];
    }
  }

  /** ...each of them once... */
  lemma {:induction false} DedupNoDuplicates<T>(xs: seq<T>)
    ensures NoDuplicates(Dedup(xs))
    decreases |xs|
  {
    if xs != [] {
      DedupNoDuplicates(xs[..|xs| - 1]);
    }
  }

  /** ...and leaves a list without repetitions as it is. */
  lemma {:induction false} DedupOfDistinct<T>(xs: seq<T>)
    requires NoDuplicates(xs)
    ensures Dedup(xs) == xs
    decreases |xs|
  {
    if xs != [] {
      var init := xs[..|xs| - 1];
      DedupOfDistinct(init);
      DedupSameElements(init);
      assert xs[|xs| - 1] !in init by {
        forall k | 0 <= k < |init|
          ensures init[k] != xs[|xs| - 1]
        {
          assert init[k] == xs[k];
        }
      }
      assert xs == init + [xs[|xs| - 1]];
    }
  }

  /**
   * `LoopNodeData.__post_init__`: starting from no output variables, each loop variable's
   * output variable is appended unless an equal one is already there.
   */
  method LoopOutputVariables(vs: seq<LoopVariable>) returns (ovs: seq<OutputVariable>)
    ensures ovs == Dedup(LoopOutputCandidates(vs))
  {
    var cands := LoopOutputCandidates(vs);
    ovs := [];
    var i := 0;
    while i < |vs|
      invariant 0 <= i <= |vs|
      invariant ovs == Dedup(cands[..i])
    {
      var o := LoopOutputFor(vs[i]);
      assert cands[..i + 1][..i] == cands[..i];
      if o !in ovs {
        ovs := ovs + [o];
      }
      i := i + 1;
    }
    assert cands[..i] == cands;
  }

  /** Every loop variable has its output variable, and no output variable appears twice. */
  lemma LoopOutputsCover(vs: seq<LoopVariable>)
    ensures NoDuplicates(Dedup(LoopOutputCandidates(vs)))
    ensures forall i :: 0 <= i < |vs| ==> LoopOutputFor(vs[i]) in Dedup(LoopOutputCandidates(vs))
    ensures forall o :: o in Dedup(LoopOutputCandidates(vs)) ==> exists i :: 0 <= i < |vs| && o == LoopOutputFor(vs[i])
  {
    var cands := LoopOutputCandidates(vs);
    DedupNoDuplicates(cands);
    DedupSameElements(cands);
    assert forall i :: 0 <= i < |vs| ==> cands[i] in cands;
  }

  /** Loop variables whose output variables all differ each keep theirs, in order. */
  lemma DistinctLoopOutputsKept(vs: seq<LoopVariable>)
    requires NoDuplicates(LoopOutputCandidates(vs))
    ensures Dedup(LoopOutputCandidates(vs)) == LoopOutputCandidates(vs)
  {
    DedupOfDistinct(LoopOutputCandidates(vs));
  }

  // The two nodes.

  function LoopData(title: string, desc: string, startNodeId: string, conds: seq<LoopCondition>, loopCount: int,
                    logicalOperator: string, errorHandleMode: string, vs: seq<LoopVariable>): (d: NodeData)
    ensures d.typ == "loop" && d.title == title && d.desc == desc
    ensures d.kind == LoopKind(startNodeId, conds, loopCount, logicalOperator, errorHandleMode, vs)
    ensures d.outputVariables == Dedup(LoopOutputCandidates(vs)) && d.variables == []
  {
    NodeData("loop", title, desc, [], Dedup(LoopOutputCandidates(vs)), false,
             LoopKind(startNodeId, conds, loopCount, logicalOperator, errorHandleMode, vs))
  }

  /** `LoopStartNodeData(title="", desc="", isInLoop=True, selected=False)`. */
  const LoopStartData := NodeData("loop-start", "", "", [], [], false, LoopStartKind(true))

  /** The loop node: 388 by 178 at the given position; its start node's id is the loop id followed by "start". */
  function LoopNodeOf(nodeId: string, x: int, y: int, vs: seq<LoopVariable>, conds: seq<LoopCondition>,
                      loopCount: int, logicalOperator: string, errorHandleMode: string, title: string,
                      desc: string): (n: Node)
    ensures n.id == nodeId && n.position == Position(x, y) && n.width == 388 && n.height == 178
    ensures n.data == LoopData(title, desc, nodeId + "start", conds, loopCount, logicalOperator, errorHandleMode, vs)
  {
    NewNode(LoopData(title, desc, nodeId + "start", conds, loopCount, logicalOperator, errorHandleMode, vs),
            Position(x, y), nodeId, DefaultNodeType, 388, 178)
  }

  /** The loop-start node: 44 by 48 at (24, 68) relative to its loop. */
  function LoopStartNodeOf(nodeId: string): (n: Node)
    ensures n.id == nodeId + "start" && n.typ == LoopStartNodeType && n.position == Position(24, 68)
    ensures n.width == 44 && n.height == 48 && !n.selected && n.data == LoopStartData
  {
    NewNode(LoopStartData, Position(24, 68), nodeId + "start", LoopStartNodeType, 44, 48)
  }

  /**
   * The loop-start node's dictionary, placed inside its parent: not selectable, not
   * draggable, on layer 1002, its absolute position offset from the loop's.
   */
  function LoopStartDict(nodeId: string, x: int, y: int): Json
  {
    var start := NodeToDict(LoopStartNodeOf(nodeId));
    JObj(start.fields["parentId" := JStr(nodeId)]["selectable" := JBool(false)]["draggable" := JBool(false)]
                     ["zIndex" := JInt(1002)]["positionAbsolute" := Position(x + 24, y + 68).ToJson()])
  }

  /**
   * `create_loop_node`: both node dictionaries, an observation that counts the loop
   * variables and break conditions, and no output references at all.
   */
  method CreateLoopNode(nodeId: string, x: int, y: int, loopVariables: seq<LoopVariableArg>,
                        breakConditions: Option<seq<LoopConditionArg>>, loopCount: int, logicalOperator: string,
                        errorHandleMode: string, title: string, desc: string) returns (r: ToolReply)
    ensures r.NodeReply? && r.output.None?
    ensures r.node == JArr([NodeToDict(LoopNodeOf(nodeId, x, y, LoopVariablesOf(loopVariables),
                                                   LoopConditionsOf(breakConditions), loopCount, logicalOperator,
                                                   errorHandleMode, title, desc)),
                            LoopStartDict(nodeId, x, y)])
    ensures r.observation == "已经创建了一个名为'" + title + "'的循环节点和循环开始节点，包含 " +
                             NatToString(|loopVariables|) + " 个循环变量和 " +
                             NatToString(|breakConditions.GetOr([])|) + " 个跳出条件。"
  {
    var vs := ConvertLoopVariables(loopVariables);
    var conds := ConvertBreakConditions(breakConditions);
    var ovs := LoopOutputVariables(vs);
    var loopNode := NewNode(NodeData("loop", title, desc, [], ovs, false,
                                     LoopKind(nodeId + "start", conds, loopCount, logicalOperator, errorHandleMode, vs)),
                            Position(x, y), nodeId, DefaultNodeType, 388, 178);
    assert loopNode == LoopNodeOf(nodeId, x, y, vs, conds, loopCount, logicalOperator, errorHandleMode, title, desc);
    r := NodeReply(JArr([NodeToDict(loopNode), LoopStartDict(nodeId, x, y)]),
                   "已经创建了一个名为'" + title + "'的循环节点和循环开始节点，包含 " + NatToString(|vs|) +
                   " 个循环变量和 " + NatToString(|conds|) + " 个跳出条件。",
                   None);
  }

  /**
   * The loop-start dictionary names its parent loop, sits at the loop's position plus
   * (24, 68) and cannot be dragged...
   */
  lemma LoopStartPlacement(nodeId: string, x: int, y: int)
    ensures Get(LoopStartDict(nodeId, x, y), "parentId") == Some(JStr(nodeId))
    ensures Get(LoopStartDict(nodeId, x, y), "positionAbsolute") == Some(Position(x + 24, y + 68).ToJson())
    ensures Get(LoopStartDict(nodeId, x, y), "draggable") == Some(JBool(false))
  {
  }

  /** ...and keeps the start node's own id and type. */
  lemma LoopStartIdentity(nodeId: string, x: int, y: int)
    ensures Get(LoopStartDict(nodeId, x, y), "id") == Some(JStr(nodeId + "start"))
    ensures Get(LoopStartDict(nodeId, x, y), "type") == Some(JStr(LoopStartNodeType))
  {
    var n := LoopStartNodeOf(nodeId);
    NodeToDictIdentity(n);
    var f := NodeToDict(n).fields;
    var placed := f["parentId" := JStr(nodeId)]["selectable" := JBool(false)]["draggable" := JBool(false)]
                   ["zIndex" := JInt(1002)]["positionAbsolute" := Position(x + 24, y + 68).ToJson()];
    assert LoopStartDict(nodeId, x, y) == JObj(placed);
    assert placed["id"] == f["id"] && placed["type"] == f["type"];
  }

  /** A variable-valued loop variable given as a reference stores the parsed path. */
  lemma VariableValueParsed(a: LoopVariableArg, sourceId: string, variable: string)
    requires a.valueType == Some("variable") && a.value == Some(JStr(Reference(sourceId, variable)))
    requires IsPlainName(sourceId) && IsPlainName(variable)
    ensures LoopVariableOf(a).value == StrList([sourceId, variable])
  {
    ParseReference(sourceId, variable);
  }
}
