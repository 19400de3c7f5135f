/** The answer node, which returns content to the user (`dify_nodes/answer`). */
module AnswerNode {
  import opened Wrappers
  import opened Json
  import opened NodeBase

  const AnswerOutput := OutputVariable("answer", "回复内容", "text", "最终返回给用户的回复内容")

  /** `AnswerNodeData(title, desc, answer)`: kind "answer", one text output `answer`. */
  function AnswerData(title: string, desc: string, answer: string): (d: NodeData)
    ensures d.typ == "answer" && d.title == title && d.desc == desc && d.kind == AnswerKind(answer)
    ensures d.outputVariables == [AnswerOutput] && d.variables == [] && !d.selected
  {
    NodeData("answer", title, desc, [], [AnswerOutput], false, AnswerKind(answer))
  }

  /** The node `create_answer_node` builds: 244 by 105 at the given position. */
  function AnswerNodeOf(nodeId: string, x: int, y: int, answerContent: string, title: string, desc: string): (n: Node)
    ensures n.id == nodeId && n.position == Position(x, y) && n.width == 244 && n.height == 105
    ensures n.data == AnswerData(title, desc, answerContent)
  {
    NewNode(AnswerData(title, desc, answerContent), Position(x, y), nodeId, DefaultNodeType, 244, 105)
  }

  /** `create_answer_node`. */
  function CreateAnswerNode(nodeId: string, x: int, y: int, answerContent: string, title: string, desc: string): (r: ToolReply)
    ensures r.NodeReply? && r.output == Some([Reference(nodeId, "answer")])
    ensures r.observation == "已经创建了一个名为" + title + "的输出节点。当前节点会输出" + answerContent
  {
    var n := AnswerNodeOf(nodeId, x, y, answerContent, title, desc);
    assert OutputReferences(n) == [Reference(nodeId, "answer")] by {
      assert |OutputReferences(n)| == 1;
    }
    Reply(n,
          "已经创建了一个名为" + title + "的输出节点。当前节点会输出" + answerContent)
  }

  /**
   * The answer node's data dictionary carries the answer and keeps no output variables, and
   * its one reference parses back to `[node id, "answer"]`.
   */
  lemma AnswerNodeFacts(nodeId: string, x: int, y: int, answerContent: string, title: string, desc: string)
    requires IsPlainName(nodeId)
    ensures var n := AnswerNodeOf(nodeId, x, y, answerContent, title, desc);
      var dd := DataToDict(n.data, None);
      "answer" in dd && dd["answer"] == JStr(answerContent) && "output_variables" !in dd &&
      ParseVariable(OutputReferences(n)[0]) == [nodeId, "answer"]
  {
    var n := AnswerNodeOf(nodeId, x, y, answerContent, title, desc);
    KeptKeys();
    DataToDictKeeps(n.data, None, "answer");
    DataToDictExcludes(n.data, None, "output_variables");
    assert OutputReferences(n)[0] == Reference(nodeId, "answer");
    ParseReference(nodeId, "answer");
  }
}
