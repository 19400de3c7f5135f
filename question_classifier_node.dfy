/** The question-classifier node, which sorts the user's question into one of several classes (`dify_nodes/question_classifier`). */
module QuestionClassifierNode {
  import opened Wrappers
  import opened Json
  import opened Text
  import opened NodeTypes
  import opened NodeBase

  /** The two outputs every classifier publishes: the chosen class name and the model usage. */
  const ClassifierOutputs := [OutputVariable("class_name", "分类名称", "string", ""),
                              OutputVariable("usage", "模型用量信息", "object", "")]

  /** The classes, numbered "1", "2", ... in the order the names are given. */
  function ClassesOf(names: seq<string>): (r: seq<QuestionClass>)
    ensures |r| == |names|
    ensures forall i :: 0 <= i < |r| ==> r[i].name == names[i]
  {
    seq(|names|, i requires 0 <= i < |names| => QuestionClass(NatToString(i + 1), names[i]))
  }

  /** Each class id is the decimal numeral of its position counted from one, so `int(id)` recovers it. */
  lemma ClassIdsNumbered(names: seq<string>, i: nat)
    requires i < |names|
    ensures forall k :: 0 <= k < |ClassesOf(names)[i].id| ==> IsDigit(ClassesOf(names)[i].id[k])
    ensures ParseDigits(ClassesOf(names)[i].id) == i + 1
  {
    ParseNatToString(i + 1);
  }

  /** No two classes share an id. */
  lemma ClassIdsDistinct(names: seq<string>, i: nat, j: nat)
    requires i < j < |names|
    ensures ClassesOf(names)[i].id != ClassesOf(names)[j].id
  {
    NumberedNamesDistinct("", i + 1, j + 1);
    assert "" + NatToString(i + 1) == NatToString(i + 1);
    assert "" + NatToString(j + 1) == NatToString(j + 1);
  }

  /**
   * `QuestionClassifierNodeData(title, desc, query_variable_selector, model, classes)`: no
   * instructions or topics, vision off, the two standard outputs.
   */
  function ClassifierData(title: string, desc: string, selector: seq<string>, model: LlmModel,
                          classes: seq<QuestionClass>): (d: NodeData)
    ensures d.typ == "question-classifier" && d.title == title && d.desc == desc
    ensures d.kind == QuestionClassifierKind("", selector, [], model, classes, DefaultLlmVision)
    ensures d.outputVariables == ClassifierOutputs && d.variables == []
  {
    NodeData("question-classifier", title, desc, [], ClassifierOutputs, false,
             QuestionClassifierKind("", selector, [], model, classes, DefaultLlmVision))
  }

  /**
   * The node `create_question_classifier_node` builds: 320 by 240, the query parsed into a
   * selector, a chat model with the default temperature.
   */
  function ClassifierNodeOf(nodeId: string, x: int, y: int, query: string, classes: seq<string>, title: string,
                            provider: string, modelName: string, desc: string): (n: Node)
    ensures n.id == nodeId && n.position == Position(x, y) && n.width == 320 && n.height == 240
    ensures n.data == ClassifierData(title, desc, ParseVariable(query),
                                     LlmModel(provider, modelName, "chat", DefaultTemperature), ClassesOf(classes))
  {
    NewNode(ClassifierData(title, desc, ParseVariable(query), LlmModel(provider, modelName, "chat", DefaultTemperature),
                           ClassesOf(classes)),
            Position(x, y), nodeId, DefaultNodeType, 320, 240)
  }

  /** `create_question_classifier_node`. */
  function CreateQuestionClassifierNode(nodeId: string, x: int, y: int, query: string, classes: seq<string>,
                                        title: string, provider: string, modelName: string, desc: string): (r: ToolReply)
    ensures r.NodeReply? && r.observation == "已经创建了一个名为" + title + "的问题分类器节点。"
    ensures r.output.Some? && |r.output.value| == 2
    ensures r.output.value[0] == Reference(nodeId, "class_name") && r.output.value[1] == Reference(nodeId, "usage")
  {
    var n := ClassifierNodeOf(nodeId, x, y, query, classes, title, provider, modelName, desc);
    assert OutputVariableNames(n)[0] == "class_name" && OutputVariableNames(n)[1] == "usage";
    Reply(n, "已经创建了一个名为" + title + "的问题分类器节点。")
  }

  /**
   * The data dictionary lists the classes and the model, and, like the classifier's
   * `to_dict`, drops `variables`.
   */
  lemma ClassifierDictFacts(title: string, desc: string, selector: seq<string>, model: LlmModel,
                            classes: seq<QuestionClass>)
    ensures var dd := DataToDict(ClassifierData(title, desc, selector, model, classes), None);
      "variables" !in dd && "output_variables" !in dd &&
      "classes" in dd && dd["classes"] == ListJson(classes, (c: QuestionClass) => c.ToJson()) &&
      "model" in dd && dd["model"] == model.ToJson()
  {
    var d := ClassifierData(title, desc, selector, model, classes);
    ClassifierKindEntries(d);
    var base := BaseDict(d, None);
    assert DataToDict(d, None) == base - {"variables"};
    assert "output_variables" !in base;
    assert "classes" in base && "model" in base;
  }

  /** `asdict` of classifier data holds its classes and its model. */
  lemma ClassifierKindEntries(d: NodeData)
    requires d.kind.QuestionClassifierKind?
    ensures "classes" in AsDict(d) && AsDict(d)["classes"] == ListJson(d.kind.classes, (c: QuestionClass) => c.ToJson())
    ensures "model" in AsDict(d) && AsDict(d)["model"] == d.kind.classifierModel.ToJson()
  {
    var k := KindFields(d.kind);
    assert "classes" in k && k["classes"] == ListJson(d.kind.classes, (c: QuestionClass) => c.ToJson());
    assert "model" in k && k["model"] == d.kind.classifierModel.ToJson();
    AsDictKindField(d, "classes");
    AsDictKindField(d, "model");
  }
}
