/** The document-extractor node, which extracts text from uploaded files (`dify_nodes/document_extractor`). */
module DocumentExtractorNode {
  import opened Wrappers
  import opened Json
  import opened Text
  import opened NodeBase

  const DefaultTitle := "文档提取器"
  const DefaultDesc := "提取并解析文档文件中的文本内容"

  /** `__post_init__`: the single `text` output is a list of strings exactly for a file array. */
  function ExtractorOutputs(isArrayFile: bool): (outs: seq<OutputVariable>)
    ensures |outs| == 1 && outs[0].variable == "text"
    ensures outs[0].typ == (if isArrayFile then "array[string]" else "string")
  {
    if isArrayFile then [OutputVariable("text", "文本输出", "array[string]", "从多个文档中提取的文本内容列表")]
    else [OutputVariable("text", "文本输出", "string", "从文档中提取的文本内容")]
  }

  /** `DocumentExtractorNodeData(...)` after `__post_init__`. */
  function ExtractorData(title: string, desc: string, selector: seq<string>, isArrayFile: bool): (d: NodeData)
    ensures d.typ == "document-extractor" && d.title == title && d.desc == desc
    ensures d.kind == DocumentExtractorKind(selector, isArrayFile)
    ensures d.outputVariables == ExtractorOutputs(isArrayFile)
  {
    NodeData("document-extractor", title, desc, [], ExtractorOutputs(isArrayFile), false,
             DocumentExtractorKind(selector, isArrayFile))
  }

  /** The selector names a file array when it is non-empty and contains "files", ignoring case. */
  predicate IsArraySelector(variableSelector: string)
  {
    variableSelector != "" && Contains(Lower(variableSelector), "files")
  }

  /** `create_document_extractor_node`: a 244 by 54 node whose selector is the parsed string. */
  function ExtractorNodeOf(nodeId: string, x: int, y: int, variableSelector: string, title: string, desc: string): (n: Node)
    ensures n.id == nodeId && n.width == 244 && n.height == 54 && n.positionAbsolute == Position(x, y)
    ensures n.data == ExtractorData(title, desc, ParseVariable(variableSelector), IsArraySelector(variableSelector))
    ensures n.data.outputVariables[0].typ == "array[string]" <==> IsArraySelector(variableSelector)
  {
    NewNode(ExtractorData(title, desc, ParseVariable(variableSelector), IsArraySelector(variableSelector)),
            Position(x, y), nodeId, DefaultNodeType, 244, 54)
  }

  function CreateDocumentExtractorNode(nodeId: string, x: int, y: int, variableSelector: string,
                                       title: string, desc: string): (r: ToolReply)
    ensures r.NodeReply? && r.output == Some([Reference(nodeId, "text")])
    ensures r.observation == "已经创建了一个名为" + title + "的文档提取器节点。节点的描述为：" + desc + "。" +
                             (if IsArraySelector(variableSelector) then "提取的文本内容列表（每个文件对应一个文本）"
                              else "提取的文本内容")
  {
    var n := ExtractorNodeOf(nodeId, x, y, variableSelector, title, desc);
    assert OutputReferences(n) == [Reference(nodeId, "text")] by {
      assert |OutputReferences(n)| == 1;
    }
    var outputDesc := if IsArraySelector(variableSelector) then "提取的文本内容列表（每个文件对应一个文本）"
                      else "提取的文本内容";
    Reply(n,
          "已经创建了一个名为" + title + "的文档提取器节点。节点的描述为：" + desc + "。" + outputDesc)
  }

  /** A selector referring to a `files` variable yields an array output and the parsed path. */
  lemma FilesSelectorIsArray(nodeId: string, sourceId: string)
    requires IsPlainName(sourceId)
    ensures var n := ExtractorNodeOf(nodeId, 0, 0, Reference(sourceId, "files"), DefaultTitle, DefaultDesc);
      n.data.outputVariables[0].typ == "array[string]" &&
      n.data.kind.variableSelector == [sourceId, "files"]
  {
    var s := Reference(sourceId, "files");
    var i := |s| - 8;
    assert Lower(s)[i..] == "files#}}";
    assert "files" <= Lower(s)[i..];
    ParseReference(sourceId, "files");
  }

  /** A selector with no "files" in it, such as a single `file` reference, yields a string output. */
  lemma FileSelectorIsString(nodeId: string, variableSelector: string)
    requires !Contains(Lower(variableSelector), "files")
    ensures ExtractorNodeOf(nodeId, 0, 0, variableSelector, DefaultTitle, DefaultDesc).data.outputVariables[0].typ == "string"
  {
  }
}
