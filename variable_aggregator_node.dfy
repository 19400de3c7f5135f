/** The variable-aggregator node, which merges the branches' values into one variable (`dify_nodes/variable_aggregator`). */
module VariableAggregatorNode {
  import opened Wrappers
  import opened Json
  import opened Text
  import opened NodeTypes
  import opened NodeBase

  /** The one output of every aggregator: the merged value. */
  const AggregatorOutput := OutputVariable("output", "聚合输出", "string", "聚合后的变量输出")

  /** `VariableAggregatorNodeData(title, desc, variable_references, output_type)`. */
  function AggregatorData(title: string, desc: string, refs: seq<Binding>, outputType: string): (d: NodeData)
    ensures d.typ == "variable-aggregator" && d.title == title && d.desc == desc
    ensures d.kind == VariableAggregatorKind(refs, outputType)
    ensures d.outputVariables == [AggregatorOutput] && d.variables == []
  {
    NodeData("variable-aggregator", title, desc, [], [AggregatorOutput], false, VariableAggregatorKind(refs, outputType))
  }

  function AggregatorNodeOf(nodeId: string, x: int, y: int, refs: seq<Binding>, outputType: string, title: string,
                            desc: string): (n: Node)
    ensures n.id == nodeId && n.position == Position(x, y) && n.width == 244 && n.height == 131
    ensures n.data == AggregatorData(title, desc, refs, outputType)
  {
    NewNode(AggregatorData(title, desc, refs, outputType), Position(x, y), nodeId, DefaultNodeType, 244, 131)
  }

  /**
   * `create_variable_aggregator_node`: one reference per variable given, an observation that
   * counts them and names the output type, and the single reference `{{#<id>.output#}}`.
   */
  method CreateVariableAggregatorNode(nodeId: string, x: int, y: int, variables: Option<seq<BindingArg>>,
                                      outputType: string, title: string, desc: string)
    returns (r: ToolReply)
    ensures r == Reply(AggregatorNodeOf(nodeId, x, y, BindingsOf(variables.GetOr([])), outputType, title, desc),
                       "已经创建了一个名为" + title + "的变量聚合器节点。该节点将聚合" +
                       NatToString(|variables.GetOr([])|) + "个变量，输出类型为" + outputType + "。")
    ensures r.output == Some([Reference(nodeId, "output")])
  {
    var refs := ConvertBindings(variables.GetOr([]));
    var n := AggregatorNodeOf(nodeId, x, y, refs, outputType, title, desc);
    assert OutputReferences(n) == [Reference(nodeId, "output")] by {
      assert |OutputReferences(n)| == 1;
    }
    r := Reply(n, "已经创建了一个名为" + title + "的变量聚合器节点。该节点将聚合" + NatToString(|refs|) +
                  "个变量，输出类型为" + outputType + "。");
  }

  /** The `to_dict` of the node publishes the references as `variables` and drops `variable_references`. */
  lemma AggregatorDictFacts(title: string, desc: string, refs: seq<Binding>, outputType: string)
    ensures var dd := DataToDict(AggregatorData(title, desc, refs, outputType), None);
      "variable_references" !in dd && "output_variables" !in dd &&
      "variables" in dd && dd["variables"] == BindingsJson(refs) &&
      "output_type" in dd && dd["output_type"] == JStr(outputType)
  {
    var d := AggregatorData(title, desc, refs, outputType);
    AsDictKindField(d, "output_type");
    KeptKeys();
    DataToDictKeeps(d, None, "output_type");
    DataToDictExcludes(d, None, "output_variables");
  }
}
