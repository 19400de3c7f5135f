/** The LLM node, a language-model inference step (`dify_nodes/llm`). */
module LlmNode {
  import opened Wrappers
  import opened Json
  import opened NodeTypes
  import opened NodeBase

  const LlmOutputs := [
    OutputVariable("text", "文本输出", "text", "LLM生成的文本内容"),
    OutputVariable("usage", "使用统计", "json", "Token使用统计信息")
  ]

  /** A prompt message as given: `role` and `text` entries, either possibly missing. */
  datatype PromptMessage = PromptMessage(role: Option<string>, text: Option<string>)

  /** One prompt item per message, role defaulting to "user" and text to "". */
  function PromptTemplate(messages: seq<PromptMessage>): (r: seq<PromptTemplateItem>)
    ensures |r| == |messages|
    ensures forall i :: 0 <= i < |r| ==>
              r[i] == PromptTemplateItem(messages[i].role.GetOr("user"), messages[i].text.GetOr(""))
  {
    if messages == [] then []
    else [PromptTemplateItem(messages[0].role.GetOr("user"), messages[0].text.GetOr(""))] + PromptTemplate(messages[1..])
  }

  /** The node `create_llm_node` builds: 320 by 180, chat mode, the given provider, model and temperature. */
  function LlmNodeOf(nodeId: string, x: int, y: int, messages: seq<PromptMessage>, title: string,
                     provider: string, modelName: string, temperature: real, desc: string): (n: Node)
    ensures n.id == nodeId && n.width == 320 && n.height == 180 && n.positionAbsolute == Position(x, y)
    ensures n.data.typ == "llm" && n.data.title == title && n.data.outputVariables == LlmOutputs
    ensures n.data.kind.LlmKind? && n.data.kind.model == LlmModel(provider, modelName, "chat", temperature)
    ensures n.data.kind.promptTemplate == PromptTemplate(messages)
  {
    var kind := LlmKind(LlmModel(provider, modelName, "chat", temperature), PromptTemplate(messages),
                        DefaultLlmContext, DefaultLlmVision, DefaultLlmMemory);
    NewNode(NodeData("llm", title, desc, [], LlmOutputs, false, kind), Position(x, y), nodeId, DefaultNodeType, 320, 180)
  }

  /** `create_llm_node`; the stop sequences are accepted and ignored. */
  function CreateLlmNode(nodeId: string, x: int, y: int, messages: seq<PromptMessage>, title: string,
                         provider: string, modelName: string, temperature: real, stopSequences: Option<seq<string>>,
                         desc: string): (r: ToolReply)
    ensures r.NodeReply? && r.observation == "已经创建了一个名为" + title + "的LLM节点。节点的描述为：" + desc
  {
    Reply(LlmNodeOf(nodeId, x, y, messages, title, provider, modelName, temperature, desc),
          "已经创建了一个名为" + title + "的LLM节点。节点的描述为：" + desc)
  }

  /** The stop sequences never reach the node: any two choices give the same reply. */
  lemma StopSequencesIgnored(nodeId: string, x: int, y: int, messages: seq<PromptMessage>, title: string,
                             provider: string, modelName: string, temperature: real, s1: Option<seq<string>>,
                             s2: Option<seq<string>>, desc: string)
    ensures CreateLlmNode(nodeId, x, y, messages, title, provider, modelName, temperature, s1, desc) ==
            CreateLlmNode(nodeId, x, y, messages, title, provider, modelName, temperature, s2, desc)
  {
  }

  /** The LLM node publishes `text` then `usage`, and both references parse back. */
  lemma LlmReferences(nodeId: string, x: int, y: int, messages: seq<PromptMessage>, title: string,
                      provider: string, modelName: string, temperature: real, desc: string)
    requires IsPlainName(nodeId)
    ensures var refs := CreateLlmNode(nodeId, x, y, messages, title, provider, modelName, temperature, None, desc).output.value;
      |refs| == 2 && ParseVariable(refs[0]) == [nodeId, "text"] && ParseVariable(refs[1]) == [nodeId, "usage"]
  {
    var n := LlmNodeOf(nodeId, x, y, messages, title, provider, modelName, temperature, desc);
    assert forall i :: 0 <= i < |LlmOutputs| ==> IsPlainName(LlmOutputs[i].variable);
    OutputReferencesParseBack(n);
  }
}
