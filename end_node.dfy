/** The end node, which closes a workflow and names its outputs (`dify_nodes/end`). */
module EndNode {
  import opened Wrappers
  import opened Json
  import opened Text
  import opened NodeTypes
  import opened NodeBase

  /** `EndNodeData(title, desc, outputs)`: kind "end", no output variables of its own. */
  function EndData(title: string, desc: string, outputs: seq<Binding>): (d: NodeData)
    ensures d.typ == "end" && d.title == title && d.desc == desc && d.kind == EndKind(outputs)
    ensures d.outputVariables == [] && d.variables == []
  {
    NodeData("end", title, desc, [], [], false, EndKind(outputs))
  }

  function EndNodeOf(nodeId: string, x: int, y: int, outputs: seq<Binding>, title: string, desc: string): (n: Node)
    ensures n.id == nodeId && n.position == Position(x, y) && n.width == 244 && n.height == 90
    ensures n.data == EndData(title, desc, outputs)
  {
    NewNode(EndData(title, desc, outputs), Position(x, y), nodeId, DefaultNodeType, 244, 90)
  }

  /**
   * `create_end_node`: one output per argument (its `value_selector` string parsed into a
   * path), an observation that counts them, and no references.
   */
  method CreateEndNode(nodeId: string, x: int, y: int, outputs: seq<BindingArg>, title: string, desc: string)
    returns (r: ToolReply)
    ensures r.NodeReply? && r.node == NodeToDict(EndNodeOf(nodeId, x, y, BindingsOf(outputs), title, desc))
    ensures r.observation == "已经创建了一个名为'" + title + "'的结束节点，包含 " + NatToString(|outputs|) + " 个输出变量。"
    ensures r.output == Some([])
  {
    var endOutputs := ConvertBindings(outputs);
    var n := EndNodeOf(nodeId, x, y, endOutputs, title, desc);
    r := NodeReply(NodeToDict(n),
                   "已经创建了一个名为'" + title + "'的结束节点，包含 " + NatToString(|endOutputs|) + " 个输出变量。",
                   Some([]));
  }

  /** The end node's `to_dict` writes the outputs back as plain dictionaries, one per output, in order. */
  lemma EndDictFacts(title: string, desc: string, outputs: seq<Binding>)
    ensures var dd := DataToDict(EndData(title, desc, outputs), None);
      "outputs" in dd && dd["outputs"] == BindingsJson(outputs) && "output_variables" !in dd &&
      "variables" in dd
  {
    var d := EndData(title, desc, outputs);
    DataToDictExcludes(d, None, "output_variables");
    AsDictKeys(d);
  }
}
