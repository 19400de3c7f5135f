/** The start node, the entry point of the generated workflow (`dify_nodes/start`). */
module StartNode {
  import opened Wrappers
  import opened Json
  import opened NodeBase

  /** `StartNodeData(title, desc, variables)`: kind "start" and no output variables. */
  function StartData(title: string, desc: string, variables: seq<NodeVariable>): (d: NodeData)
    ensures d.typ == "start" && d.title == title && d.desc == desc && d.variables == variables
    ensures d.outputVariables == [] && d.kind == StartKind
  {
    NodeData("start", title, desc, variables, [], false, StartKind)
  }

  /** `create_start_node`: a 244 by 140 node that publishes no references. */
  function CreateStartNode(nodeId: string, x: int, y: int, variables: seq<NodeVariable>, title: string, desc: string): (r: ToolReply)
    ensures r.NodeReply? && r.output == Some([])
    ensures r.observation == "已经创建了一个名为" + title + "的输出节点。"
  {
    Reply(NewNode(StartData(title, desc, variables), Position(x, y), nodeId, DefaultNodeType, 244, 140),
          "已经创建了一个名为" + title + "的输出节点。")
  }

  /** The start node's dictionary keeps the given variables, in order. */
  lemma CreateStartNodeFacts(nodeId: string, x: int, y: int, variables: seq<NodeVariable>, title: string, desc: string)
    ensures var r := CreateStartNode(nodeId, x, y, variables, title, desc);
      Get(r.node, "id") == Some(JStr(nodeId)) &&
      DataField(r.node, "type") == Some(JStr("start")) &&
      DataField(r.node, "variables") == Some(ListJson(variables, (v: NodeVariable) => v.ToJson())) &&
      Get(r.node, "height") == Some(JInt(140))
  {
    var n := NewNode(StartData(title, desc, variables), Position(x, y), nodeId, DefaultNodeType, 244, 140);
    var observation := "已经创建了一个名为" + title + "的输出节点。";
    ReplyFacts(n, observation);
    ReplyHeight(n, observation);
    ReplyPlainVariables(n, observation);
  }
}
