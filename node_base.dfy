/**
 * The shared shape of every workflow node the agent can create: node data (common fields plus
 * the fields of one node kind), the canvas node that wraps it, their dictionary projections,
 * variable references `{{#node.var#}}` and the parser that turns such a reference into a
 * selector path.
 */
module NodeBase {
  import opened Wrappers
  import opened Json
  import opened Text
  import opened NodeTypes

  /** Fields left out of the dictionary unless the caller names others. */
  const DefaultExcludeFields: set<string> := {"output_variables"}

  /** An input variable of a node (used by the start node). */
  datatype NodeVariable = NodeVariable(variable: string, labelText: string, typ: string, required: bool, maxLength: int)
  {
    function ToJson(): Json
    {
      JObj(map["variable" := JStr(variable), "label" := JStr(labelText), "type" := JStr(typ),
               "required" := JBool(required), "max_length" := JInt(maxLength)])
    }
  }

  /** `NodeVariable(variable, label)` with its defaults: text input, optional, 48 characters. */
  function DefaultNodeVariable(variable: string, labelText: string): (v: NodeVariable)
    ensures v.typ == "text-input" && !v.required && v.maxLength == 48
  {
    NodeVariable(variable, labelText, "text-input", false, 48)
  }

  /** A value a node makes available to later nodes. */
  datatype OutputVariable = OutputVariable(variable: string, labelText: string, typ: string, description: string)
  {
    function ToJson(): Json
    {
      JObj(map["variable" := JStr(variable), "label" := JStr(labelText), "type" := JStr(typ),
               "description" := JStr(description)])
    }
  }

  datatype Position = Position(x: int, y: int)
  {
    function ToJson(): Json
    {
      JObj(map["x" := JInt(x), "y" := JInt(y)])
    }
  }

  /**
   * The fields one node kind adds to the common node data: one variant per data class of
   * `dify_nodes/<kind>/node.py` (and `LoopStartNodeData` of `loop/type.py`).
   */
  datatype KindData =
    | AnswerKind(answer: string)
    | CodeKind(codeVariables: seq<Binding>, codeLanguage: string, code: string, outputs: seq<(string, CodeOutput)>)
    | DocumentExtractorKind(variableSelector: seq<string>, isArrayFile: bool)
    | EndKind(endOutputs: seq<Binding>)
    | HttpRequestKind(httpMethod: string, url: string, authorization: AuthConfig, headers: string, params: string,
                      body: HttpBody, sslVerify: bool, timeout: HttpTimeout, retryConfig: HttpRetryConfig)
    | IfElseKind(cases: seq<IfElseCase>)
    | LlmKind(model: LlmModel, promptTemplate: seq<PromptTemplateItem>, context: LlmContext, vision: LlmVision,
              memory: LlmMemory)
    | LoopKind(startNodeId: string, breakConditions: seq<LoopCondition>, loopCount: int, logicalOperator: string,
               errorHandleMode: string, loopVariables: seq<LoopVariable>)
    | LoopStartKind(isInLoop: bool)
    | QuestionClassifierKind(instructions: string, queryVariableSelector: seq<string>, topics: seq<Json>,
                             classifierModel: LlmModel, classes: seq<QuestionClass>, classifierVision: LlmVision)
    | StartKind
    | TemplateTransformKind(templateVariables: seq<Binding>, template: string)
    | VariableAggregatorKind(variableReferences: seq<Binding>, outputType: string)

  /** Node data: the fields of `BaseNodeData` and those of the node's kind. */
  datatype NodeData = NodeData(typ: string, title: string, desc: string, variables: seq<NodeVariable>,
                               outputVariables: seq<OutputVariable>, selected: bool, kind: KindData)

  /** An ordered dictionary (distinct keys, in insertion order) as a Python dictionary value. */
  predicate DistinctKeys<V>(entries: seq<(string, V)>)
  {
    forall i, j :: 0 <= i < j < |entries| ==> entries[i].0 != entries[j].0
  }

  function CodeOutputsJson(outputs: seq<(string, CodeOutput)>): (r: map<string, Json>)
    ensures forall k :: k in r <==> exists i :: 0 <= i < |outputs| && outputs[i].0 == k
    decreases |outputs|
  {
    if outputs == [] then map[]
    else
      var last := outputs[|outputs| - 1];
      var r := CodeOutputsJson(outputs[..|outputs| - 1]);
      assert forall i :: 0 <= i < |outputs| - 1 ==> outputs[..|outputs| - 1][i] == outputs[i];
      r[last.0 := JObj(map["type" := JStr(last.1.typ), "children" := last.1.children])]
  }

  function ListJson<T>(xs: seq<T>, f: T -> Json): Json
  {
    JArr(seq(|xs|, i requires 0 <= i < |xs| => f(xs[i])))
  }

  /** The names `dataclasses.asdict` gives the fields of each node kind. */
  function KindKeys(k: KindData): set<string>
  {
    match k
    case AnswerKind(_) => {"answer"}
    case CodeKind(_, _, _, _) => {"code_variables", "code_language", "code", "outputs"}
    case DocumentExtractorKind(_, _) => {"variable_selector", "is_array_file"}
    case EndKind(_) => {"outputs"}
    case HttpRequestKind(_, _, _, _, _, _, _, _, _) =>
      {"method", "url", "authorization", "headers", "params", "body", "ssl_verify", "timeout", "retry_config"}
    case IfElseKind(_) => {"cases"}
    case LlmKind(_, _, _, _, _) => {"model", "prompt_template", "context", "vision", "memory"}
    case LoopKind(_, _, _, _, _, _) =>
      {"start_node_id", "break_conditions", "loop_count", "logical_operator", "error_handle_mode", "loop_variables"}
    case LoopStartKind(_) => {"isInLoop"}
    case QuestionClassifierKind(_, _, _, _, _, _) =>
      {"instructions", "query_variable_selector", "topics", "model", "classes", "vision"}
    case StartKind => {}
    case TemplateTransformKind(_, _) => {"template_variables", "template"}
    case VariableAggregatorKind(_, _) => {"variable_references", "output_type"}
  }

  /** `asdict` of the kind-specific fields. */
  function KindFields(k: KindData): map<string, Json>
  {
    match k
    case AnswerKind(answer) => map["answer" := JStr(answer)]
    case CodeKind(vars, lang, code, outputs) =>
      map["code_variables" := BindingsJson(vars), "code_language" := JStr(lang), "code" := JStr(code),
          "outputs" := JObj(CodeOutputsJson(outputs))]
    case DocumentExtractorKind(sel, isArray) =>
      map["variable_selector" := StrList(sel), "is_array_file" := JBool(isArray)]
    case EndKind(outs) => map["outputs" := BindingsJson(outs)]
    case HttpRequestKind(m, url, auth, headers, params, body, ssl, timeout, retry) =>
      map["method" := JStr(m), "url" := JStr(url), "authorization" := auth.ToJson(), "headers" := JStr(headers),
          "params" := JStr(params), "body" := body.ToJson(), "ssl_verify" := JBool(ssl),
          "timeout" := timeout.ToJson(), "retry_config" := retry.ToJson()]
    case IfElseKind(cases) => map["cases" := ListJson(cases, (c: IfElseCase) => c.ToJson())]
    case LlmKind(model, prompt, context, vision, memory) =>
      map["model" := model.ToJson(), "prompt_template" := ListJson(prompt, (p: PromptTemplateItem) => p.ToJson()),
          "context" := context.ToJson(), "vision" := vision.ToJson(), "memory" := memory.ToJson()]
    case LoopKind(start, conds, count, op, mode, vars) =>
      map["start_node_id" := JStr(start), "break_conditions" := ListJson(conds, (c: LoopCondition) => c.ToJson()),
          "loop_count" := JInt(count), "logical_operator" := JStr(op), "error_handle_mode" := JStr(mode),
          "loop_variables" := ListJson(vars, (v: LoopVariable) => v.ToJson())]
    case LoopStartKind(inLoop) => map["isInLoop" := JBool(inLoop)]
    case QuestionClassifierKind(instr, query, topics, model, classes, vision) =>
      map["instructions" := JStr(instr), "query_variable_selector" := StrList(query), "topics" := JArr(topics),
          "model" := model.ToJson(), "classes" := ListJson(classes, (c: QuestionClass) => c.ToJson()),
          "vision" := vision.ToJson()]
    case StartKind => map[]
    case TemplateTransformKind(vars, template) =>
      map["template_variables" := BindingsJson(vars), "template" := JStr(template)]
    case VariableAggregatorKind(refs, outputType) =>
      map["variable_references" := BindingsJson(refs), "output_type" := JStr(outputType)]
  }

  const BaseKeys: set<string> := {"type", "title", "desc", "variables", "output_variables", "selected"}

  /** `asdict(data)`, which is also `to_dict_full`: every field, excluded or not. */
  function AsDict(d: NodeData): map<string, Json>
  {
    KindFields(d.kind) + map["type" := JStr(d.typ), "title" := JStr(d.title), "desc" := JStr(d.desc),
                             "variables" := ListJson(d.variables, (v: NodeVariable) => v.ToJson()),
                             "output_variables" := ListJson(d.outputVariables, (v: OutputVariable) => v.ToJson()),
                             "selected" := JBool(d.selected)]
  }

  /**
   * `asdict` has one entry per field of the common data and of the kind, and records the
   * type, title, description and output variables as given.
   */
  lemma AsDictKeys(d: NodeData)
    ensures AsDict(d).Keys == BaseKeys + KindKeys(d.kind)
  {
    KindFieldsKeys(d.kind);
  }

  /** `asdict` of the kind-specific fields has one entry per field of the kind. */
  lemma KindFieldsKeys(k: KindData)
    ensures KindFields(k).Keys == KindKeys(k)
  {
    match k
    case AnswerKind(_) => FewFieldsKeys(k);
    case CodeKind(_, _, _, _) => CodeFieldsKeys(k);
    case DocumentExtractorKind(_, _) => FewFieldsKeys(k);
    case EndKind(_) => FewFieldsKeys(k);
    case HttpRequestKind(_, _, _, _, _, _, _, _, _) => HttpFieldsKeys(k);
    case IfElseKind(_) => FewFieldsKeys(k);
    case LlmKind(_, _, _, _, _) => LlmFieldsKeys(k);
    case LoopKind(_, _, _, _, _, _) => LoopFieldsKeys(k);
    case LoopStartKind(_) => FewFieldsKeys(k);
    case QuestionClassifierKind(_, _, _, _, _, _) => ClassifierFieldsKeys(k);
    case StartKind => FewFieldsKeys(k);
    case TemplateTransformKind(_, _) => PairFieldsKeys(k);
    case VariableAggregatorKind(_, _) => PairFieldsKeys(k);
  }

  lemma FewFieldsKeys(k: KindData)
    requires k.AnswerKind? || k.DocumentExtractorKind? || k.EndKind? || k.IfElseKind? || k.LoopStartKind? || k.StartKind?
    ensures KindFields(k).Keys == KindKeys(k)
  {
  }

  lemma PairFieldsKeys(k: KindData)
    requires k.TemplateTransformKind? || k.VariableAggregatorKind?
    ensures KindFields(k).Keys == KindKeys(k)
  {
  }

  lemma CodeFieldsKeys(k: KindData)
    requires k.CodeKind?
    ensures KindFields(k).Keys == KindKeys(k)
  {
  }

  lemma HttpFieldsKeys(k: KindData)
    requires k.HttpRequestKind?
    ensures KindFields(k).Keys == KindKeys(k)
  {
  }

  lemma LlmFieldsKeys(k: KindData)
    requires k.LlmKind?
    ensures KindFields(k).Keys == KindKeys(k)
  {
  }

  lemma LoopFieldsKeys(k: KindData)
    requires k.LoopKind?
    ensures KindFields(k).Keys == KindKeys(k)
  {
  }

  lemma ClassifierFieldsKeys(k: KindData)
    requires k.QuestionClassifierKind?
    ensures KindFields(k).Keys == KindKeys(k)
  {
  }

  /** A field of the kind that is not a common field keeps its `asdict` value of the kind. */
  lemma AsDictKindField(d: NodeData, key: string)
    requires key in KindKeys(d.kind) && key !in BaseKeys
    ensures key in AsDict(d) && AsDict(d)[key] == KindFields(d.kind)[key]
  {
    KindFieldsKeys(d.kind);
  }

  /** `asdict` records the common fields as given. */
  lemma AsDictCommon(d: NodeData)
    ensures "type" in AsDict(d) && AsDict(d)["type"] == JStr(d.typ)
    ensures "title" in AsDict(d) && AsDict(d)["title"] == JStr(d.title)
    ensures "desc" in AsDict(d) && AsDict(d)["desc"] == JStr(d.desc)
    ensures "output_variables" in AsDict(d)
    ensures AsDict(d)["output_variables"] == ListJson(d.outputVariables, (v: OutputVariable) => v.ToJson())
  {
  }

  /** The field names to drop: the caller's list, or the default set when none is given. */
  function ExcludedKeys(excludeFields: Option<seq<string>>): (r: set<string>)
    ensures excludeFields.None? ==> r == DefaultExcludeFields
    ensures excludeFields.Some? ==> forall f :: f in r <==> f in excludeFields.value
  {
    match excludeFields
    case None => DefaultExcludeFields
    case Some(fs) => set f | f in fs
  }

  /**
   * `BaseNodeData.to_dict`: `asdict`, then each excluded name popped in turn. The result is
   * `asdict` without exactly the excluded names.
   */
  method BaseToDict(d: NodeData, excludeFields: Option<seq<string>>) returns (r: map<string, Json>)
    ensures forall k :: k in r <==> k in AsDict(d) && k !in ExcludedKeys(excludeFields)
    ensures forall k :: k in r ==> r[k] == AsDict(d)[k]
  {
    var names: seq<string>;
    if excludeFields.None? {
      names := ["output_variables"];
    } else {
      names := excludeFields.value;
    }
    assert forall f :: f in ExcludedKeys(excludeFields) <==> f in names;
    var full := AsDict(d);
    r := full;
    var i := 0;
    while i < |names|
      invariant 0 <= i <= |names|
      invariant forall k :: k in r <==> k in full && k !in names[..i]
      invariant forall k :: k in r ==> r[k] == full[k]
    {
      assert names[..i + 1] == names[..i] + [names[i]];
      r := r - {names[i]};
      i := i + 1;
    }
    assert names[..i] == names;
  }

  /** The dictionary `BaseToDict` computes. */
  function BaseDict(d: NodeData, excludeFields: Option<seq<string>>): map<string, Json>
  {
    AsDict(d) - ExcludedKeys(excludeFields)
  }

  /** The fields that some kind's own `to_dict` writes or removes after the exclusion. */
  const OverrideKeys: set<string> := {"variables", "outputs", "code_variables", "template_variables", "variable_references"}

  /**
   * The kind-specific part of `to_dict`: the code node turns `code_variables` into
   * `variables` and rewrites `outputs`; the end node rewrites `outputs`; if-else, loop and
   * question-classifier nodes drop `variables`; template-transform and variable-aggregator
   * nodes publish their bindings as `variables` and drop the original field.
   */
  function Override(k: KindData, base: map<string, Json>): map<string, Json>
  {
    match k
    case CodeKind(vars, _, _, outputs) =>
      base["variables" := BindingsJson(vars)]["outputs" := JObj(CodeOutputsJson(outputs))] - {"code_variables"}
    case EndKind(outs) => base["outputs" := BindingsJson(outs)]
    case IfElseKind(_) => base - {"variables"}
    case LoopKind(_, _, _, _, _, _) => base - {"variables"}
    case QuestionClassifierKind(_, _, _, _, _, _) => base - {"variables"}
    case TemplateTransformKind(vars, _) => base["variables" := BindingsJson(vars)] - {"template_variables"}
    case VariableAggregatorKind(refs, _) => base["variables" := BindingsJson(refs)] - {"variable_references"}
    case _ => base
  }

  /** No kind's own `to_dict` touches a field outside `OverrideKeys`. */
  lemma OverrideKeeps(k: KindData, base: map<string, Json>, key: string)
    requires key !in OverrideKeys
    ensures key in Override(k, base) <==> key in base
    ensures key in base ==> Override(k, base)[key] == base[key]
  {
  }

  /** The fields that modelled callers read back, none of which a kind's own `to_dict` touches. */
  lemma KeptKeys()
    ensures "title" !in OverrideKeys && "type" !in OverrideKeys && "answer" !in OverrideKeys
    ensures "cases" !in OverrideKeys && "template" !in OverrideKeys && "output_type" !in OverrideKeys
  {
  }

  /** `to_dict` of the node data: the common exclusion, then the kind's own changes. */
  function DataToDict(d: NodeData, excludeFields: Option<seq<string>>): map<string, Json>
  {
    Override(d.kind, BaseDict(d, excludeFields))
  }

  /** A field outside `OverrideKeys` is in `to_dict` exactly when it is in `asdict` and not excluded. */
  lemma DataToDictKeeps(d: NodeData, excludeFields: Option<seq<string>>, key: string)
    requires key !in OverrideKeys
    ensures key in DataToDict(d, excludeFields) <==> key in AsDict(d) && key !in ExcludedKeys(excludeFields)
    ensures key in DataToDict(d, excludeFields) ==> DataToDict(d, excludeFields)[key] == AsDict(d)[key]
  {
    OverrideKeeps(d.kind, BaseDict(d, excludeFields), key);
  }

  /**
   * Every excluded field stays out of the dictionary, except `variables` and `outputs`, which
   * some kinds write back after the exclusion.
   */
  lemma DataToDictExcludes(d: NodeData, excludeFields: Option<seq<string>>, k: string)
    requires k in ExcludedKeys(excludeFields) && k != "variables" && k != "outputs"
    ensures k !in DataToDict(d, excludeFields)
  {
    assert k !in BaseDict(d, excludeFields);
    OverrideAddsOnly(d.kind, BaseDict(d, excludeFields), k);
  }

  /** A kind's own `to_dict` writes no field but `variables` and `outputs`. */
  lemma OverrideAddsOnly(k: KindData, base: map<string, Json>, key: string)
    requires key != "variables" && key != "outputs" && key !in base
    ensures key !in Override(k, base)
  {
  }

  /** For a kind without its own `to_dict`, the dictionary is `asdict` minus the excluded names. */
  lemma DataToDictPlain(d: NodeData, excludeFields: Option<seq<string>>)
    requires d.kind.AnswerKind? || d.kind.DocumentExtractorKind? || d.kind.HttpRequestKind? || d.kind.LlmKind?
          || d.kind.LoopStartKind? || d.kind.StartKind?
    ensures DataToDict(d, excludeFields) == AsDict(d) - ExcludedKeys(excludeFields)
  {
  }

  /** The canvas node that wraps node data. */
  datatype Node = Node(data: NodeData, position: Position, id: string, typ: string, targetPosition: string,
                       sourcePosition: string, positionAbsolute: Position, width: int, height: int,
                       selected: bool, draggable: Option<bool>)

  const DefaultNodeType := "custom"

  /**
   * `Node(...)` with its defaults, followed by `__post_init__`: the absolute position starts
   * as a copy of the position.
   */
  function NewNode(data: NodeData, position: Position, id: string, typ: string, width: int, height: int): (n: Node)
    ensures n.data == data && n.id == id && n.typ == typ && n.width == width && n.height == height
    ensures n.position == position && n.positionAbsolute == position
    ensures n.targetPosition == "left" && n.sourcePosition == "right"
    ensures !n.selected && n.draggable == Some(true)
  {
    Node(data, position, id, typ, "left", "right", position, width, height, false, Some(true))
  }

  const NodeKeys: set<string> := {"data", "position", "id", "type", "targetPosition", "sourcePosition",
                                  "positionAbsolute", "width", "height", "selected", "draggable"}

  /** `asdict(node)` with its `data` entry replaced by `dataDict`. */
  function NodeDictWith(n: Node, dataDict: map<string, Json>): Json
  {
    JObj(map["data" := JObj(dataDict), "position" := n.position.ToJson(), "id" := JStr(n.id),
             "type" := JStr(n.typ), "targetPosition" := JStr(n.targetPosition),
             "sourcePosition" := JStr(n.sourcePosition), "positionAbsolute" := n.positionAbsolute.ToJson(),
             "width" := JInt(n.width), "height" := JInt(n.height), "selected" := JBool(n.selected),
             "draggable" := match n.draggable case Some(b) => JBool(b) case None => JNull])
  }

  /** `Node.to_dict()`: the data dictionary is the default `to_dict` of the data. */
  function NodeToDict(n: Node): Json
  {
    NodeDictWith(n, DataToDict(n.data, None))
  }

  /** `Node.to_dict_full()`: the data dictionary keeps every field. */
  function NodeToDictFull(n: Node): Json
  {
    NodeDictWith(n, AsDict(n.data))
  }

  /**
   * The node dictionary records the node's id and its data's type and title, which is what
   * tool execution and edge assembly read back from it.
   */
  lemma NodeToDictReadBack(n: Node)
    ensures Get(NodeToDict(n), "id") == Some(JStr(n.id))
    ensures DataField(NodeToDict(n), "title") == Some(JStr(n.data.title))
    ensures DataField(NodeToDict(n), "type") == Some(JStr(n.data.typ))
  {
    var dd := DataToDict(n.data, None);
    AsDictCommon(n.data);
    KeptKeys();
    DataToDictKeeps(n.data, None, "title");
    DataToDictKeeps(n.data, None, "type");
    NodeDictId(n, dd);
    NodeDictData(n, dd, "title");
    NodeDictData(n, dd, "type");
  }

  /** `to_dict` is an object whose `id` and `type` entries are the node's id and canvas type. */
  lemma NodeToDictIdentity(n: Node)
    ensures NodeToDict(n).JObj?
    ensures "id" in NodeToDict(n).fields && NodeToDict(n).fields["id"] == JStr(n.id)
    ensures "type" in NodeToDict(n).fields && NodeToDict(n).fields["type"] == JStr(n.typ)
  {
    NodeDictId(n, DataToDict(n.data, None));
    NodeDictType(n, DataToDict(n.data, None));
  }

  /** The node dictionary's `id` entry is the node id. */
  lemma NodeDictId(n: Node, dataDict: map<string, Json>)
    ensures Get(NodeDictWith(n, dataDict), "id") == Some(JStr(n.id))
  {
  }

  /** The node dictionary's `type` entry is the node's canvas type. */
  lemma NodeDictType(n: Node, dataDict: map<string, Json>)
    ensures Get(NodeDictWith(n, dataDict), "type") == Some(JStr(n.typ))
  {
  }

  /** An entry of the node dictionary's data is the entry of the data dictionary it was built from. */
  lemma NodeDictData(n: Node, dataDict: map<string, Json>, key: string)
    ensures DataField(NodeDictWith(n, dataDict), key) == if key in dataDict then Some(dataDict[key]) else None
  {
    NodeDictKeys(n, dataDict);
  }

  /**
   * The reply of a node-creating tool carries the node's dictionary, whose id, title and type
   * are the node's, and the node's output references.
   */
  lemma ReplyFacts(n: Node, observation: string)
    ensures Reply(n, observation).NodeReply? && Reply(n, observation).node == NodeToDict(n)
    ensures Reply(n, observation).output == Some(OutputReferences(n))
    ensures Get(Reply(n, observation).node, "id") == Some(JStr(n.id))
    ensures DataField(Reply(n, observation).node, "title") == Some(JStr(n.data.title))
    ensures DataField(Reply(n, observation).node, "type") == Some(JStr(n.data.typ))
  {
    NodeToDictReadBack(n);
  }

  /** The node dictionary's `height` entry is the node's height. */
  lemma ReplyHeight(n: Node, observation: string)
    ensures Reply(n, observation).NodeReply?
    ensures Get(Reply(n, observation).node, "height") == Some(JInt(n.height))
  {
    NodeDictKeys(n, DataToDict(n.data, None));
  }

  /** For a kind without its own `to_dict`, the reply's data keeps the input variables as given. */
  lemma ReplyPlainVariables(n: Node, observation: string)
    requires n.data.kind.AnswerKind? || n.data.kind.DocumentExtractorKind? || n.data.kind.HttpRequestKind?
          || n.data.kind.LlmKind? || n.data.kind.LoopStartKind? || n.data.kind.StartKind?
    ensures Reply(n, observation).NodeReply?
    ensures DataField(Reply(n, observation).node, "variables") ==
            Some(ListJson(n.data.variables, (v: NodeVariable) => v.ToJson()))
  {
    var dd := DataToDict(n.data, None);
    DataToDictPlain(n.data, None);
    assert "variables" in dd && dd["variables"] == ListJson(n.data.variables, (v: NodeVariable) => v.ToJson());
    NodeDictData(n, dd, "variables");
  }

  /** The node dictionary has exactly the fields of `Node`. */
  lemma NodeDictKeys(n: Node, dataDict: map<string, Json>)
    ensures NodeDictWith(n, dataDict).JObj? && NodeDictWith(n, dataDict).fields.Keys == NodeKeys
    ensures NodeDictWith(n, dataDict).fields["data"] == JObj(dataDict)
  {
  }

  /**
   * What a node-creating tool returns: the node dictionary (or a list of them), an
   * observation for the agent and the references the node publishes; a tool that returns
   * its configuration dictionary alone gives `ConfigReply`.
   */
  datatype ToolReply =
    | NodeReply(node: Json, observation: string, output: Option<seq<string>>)
    | ConfigReply(config: Json)

  /** The usual reply: the node's dictionary, the observation and the node's output references. */
  function Reply(n: Node, observation: string): ToolReply
  {
    NodeReply(NodeToDict(n), observation, Some(OutputReferences(n)))
  }

  /** Entry `key` of the data dictionary of a node dictionary. */
  function DataField(node: Json, key: string): Option<Json>
  {
    match Get(node, "data")
    case Some(d) => Get(d, key)
    case None => None
  }

  /** The full dictionary keeps the output variables; the default one drops them. */
  lemma FullAndDefaultDicts(n: Node)
    ensures DataField(NodeToDictFull(n), "output_variables") ==
            Some(ListJson(n.data.outputVariables, (v: OutputVariable) => v.ToJson()))
    ensures DataField(NodeToDict(n), "output_variables").None?
  {
    NodeDictKeys(n, AsDict(n.data));
    NodeDictKeys(n, DataToDict(n.data, None));
    AsDictCommon(n.data);
    DataToDictExcludes(n.data, None, "output_variables");
  }

  // Variable references.

  /** `{{#<node id>.<variable>#}}`, the reference a node's output is addressed by. */
  function Reference(nodeId: string, variable: string): string
  {
    "{{#" + nodeId + "." + variable + "#}}"
  }

  /** The names of the output variables, in order. */
  function VariableNames(outs: seq<OutputVariable>): (r: seq<string>)
    ensures |r| == |outs|
    ensures forall i :: 0 <= i < |r| ==> r[i] == outs[i].variable
  {
    if outs == [] then [] else [outs[0].variable] + VariableNames(outs[1..])
  }

  /** One reference per output variable of node `nodeId`, in the same order. */
  function References(nodeId: string, outs: seq<OutputVariable>): (r: seq<string>)
    ensures |r| == |outs|
    ensures forall i :: 0 <= i < |r| ==> r[i] == Reference(nodeId, outs[i].variable)
  {
    if outs == [] then [] else [Reference(nodeId, outs[0].variable)] + References(nodeId, outs[1..])
  }

  /** `get_output_variable_names`. */
  function OutputVariableNames(n: Node): seq<string>
  {
    VariableNames(n.data.outputVariables)
  }

  /** `get_output_variable_references`: the references follow the names one for one. */
  function OutputReferences(n: Node): (r: seq<string>)
    ensures |r| == |OutputVariableNames(n)|
    ensures forall i :: 0 <= i < |r| ==> r[i] == Reference(n.id, OutputVariableNames(n)[i])
  {
    References(n.id, n.data.outputVariables)
  }

  /** The characters of the class `[\w.-]` (ASCII letters, digits, `_`, `.` and `-`). */
  predicate IsSelectorChar(c: char)
  {
    ('a' <= c <= 'z') || ('A' <= c <= 'Z') || ('0' <= c <= '9') || c == '_' || c == '.' || c == '-'
  }

  /** A node id or variable name that a reference carries intact: selector characters, no dot. */
  predicate IsPlainName(s: string)
  {
    forall i :: 0 <= i < |s| ==> IsSelectorChar(s[i]) && s[i] != '.'
  }

  /** The end of the longest run of selector characters starting at `k`. */
  function RunEnd(s: string, k: nat): (e: nat)
    requires k <= |s|
    ensures k <= e <= |s|
    ensures forall m :: k <= m < e ==> IsSelectorChar(s[m])
    ensures e < |s| ==> !IsSelectorChar(s[e])
    decreases |s| - k
  {
    if k < |s| && IsSelectorChar(s[k]) then RunEnd(s, k + 1) else k
  }

  /**
   * The pattern `{{#([\w.-]+)#}}` matches at `i` with its group ending at `j`.
   */
  predicate RegexMatch(s: string, i: nat, j: nat)
  {
    i + 3 < j && j + 3 <= |s| && s[i..i + 3] == "{{#" && s[j..j + 3] == "#}}"
    && forall m :: i + 3 <= m < j ==> IsSelectorChar(s[m])
  }

  /** The pattern matches at `i`: the group is the selector run after `{{#`, then `#}}`. */
  predicate ReferenceAt(s: string, i: nat)
  {
    i + 3 <= |s| && s[i..i + 3] == "{{#" &&
    var e := RunEnd(s, i + 3);
    e > i + 3 && e + 3 <= |s| && s[e..e + 3] == "#}}"
  }

  /** Since `#` is no selector character, a match at `i` has exactly one group end. */
  lemma ReferenceAtIsRegexMatch(s: string, i: nat, j: nat)
    ensures RegexMatch(s, i, j) ==> ReferenceAt(s, i) && j == RunEnd(s, i + 3)
    ensures ReferenceAt(s, i) && j == RunEnd(s, i + 3) ==> RegexMatch(s, i, j)
  {
    if RegexMatch(s, i, j) {
      var e := RunEnd(s, i + 3);
      assert s[j] == '#';
      assert e == j;
    }
  }

  /** The first position at or after `from` where the pattern matches. */
  function FindReference(s: string, from: nat): (r: Option<nat>)
    requires from <= |s|
    ensures r.Some? ==> from <= r.value < |s| && ReferenceAt(s, r.value)
    ensures r.Some? ==> forall k :: from <= k < r.value ==> !ReferenceAt(s, k)
    ensures r.None? ==> forall k :: from <= k < |s| ==> !ReferenceAt(s, k)
    decreases |s| - from
  {
    if from == |s| then None
    else if ReferenceAt(s, from) then Some(from)
    else FindReference(s, from + 1)
  }

  /**
   * `parse_variable`: the group of the FIRST match anywhere in the string, split on dots;
   * the whole string as a single-element path when nothing matches.
   */
  function ParseVariable(s: string): (r: seq<string>)
    ensures |r| >= 1
  {
    match FindReference(s, 0)
    case None => [s]
    case Some(i) => Split(s[i + 3..RunEnd(s, i + 3)], '.')
  }

  /** With a first match at `i`, the path is the matched group split on dots. */
  lemma ParseVariableFirstMatch(s: string, i: nat)
    requires i < |s| && ReferenceAt(s, i)
    requires forall k :: 0 <= k < i ==> !ReferenceAt(s, k)
    ensures ParseVariable(s) == Split(s[i + 3..RunEnd(s, i + 3)], '.')
  {
    var f := FindReference(s, 0);
    assert f.Some? && f.value == i;
  }

  /** Without any match, the path is the whole string. */
  lemma ParseVariableNoMatch(s: string)
    requires forall k :: 0 <= k < |s| ==> !ReferenceAt(s, k)
    ensures ParseVariable(s) == [s]
  {
  }

  /** A reference to a plainly named node and variable parses back to `[node id, variable]`. */
  lemma ParseReference(nodeId: string, variable: string)
    requires IsPlainName(nodeId) && IsPlainName(variable)
    ensures ParseVariable(Reference(nodeId, variable)) == [nodeId, variable]
  {
    var s := Reference(nodeId, variable);
    var path := nodeId + "." + variable;
    assert s == "{{#" + path + "#}}";
    assert forall m :: 3 <= m < 3 + |path| ==> s[m] == path[m - 3];
    assert RunEnd(s, 3) == 3 + |path| by {
      RunEndOver(s, 3, 3 + |path|);
    }
    assert s[3 + |path|..3 + |path| + 3] == "#}}";
    assert ReferenceAt(s, 0);
    assert s[3..3 + |path|] == path;
    assert Join([nodeId, variable], '.') == path;
    SplitJoin([nodeId, variable], '.');
    ParseVariableFirstMatch(s, 0);
  }

  /** The run of selector characters from `k` stops at `e` when it covers `k..e` and `s[e]` is no selector character. */
  lemma {:induction false} RunEndOver(s: string, k: nat, e: nat)
    requires k <= e <= |s|
    requires forall m :: k <= m < e ==> IsSelectorChar(s[m])
    requires e < |s| ==> !IsSelectorChar(s[e])
    ensures RunEnd(s, k) == e
    decreases e - k
  {
    if k < e {
      RunEndOver(s, k + 1, e);
    }
  }

  /** References of plainly named outputs all parse back to the node id and the variable. */
  lemma OutputReferencesParseBack(n: Node)
    requires IsPlainName(n.id)
    requires forall i :: 0 <= i < |n.data.outputVariables| ==> IsPlainName(n.data.outputVariables[i].variable)
    ensures forall i :: 0 <= i < |OutputReferences(n)| ==>
              ParseVariable(OutputReferences(n)[i]) == [n.id, n.data.outputVariables[i].variable]
  {
    forall i | 0 <= i < |OutputReferences(n)|
      ensures ParseVariable(OutputReferences(n)[i]) == [n.id, n.data.outputVariables[i].variable]
    {
      ParseReference(n.id, n.data.outputVariables[i].variable);
    }
  }

  // Bindings from tool arguments.

  /**
   * A variable binding as the agent passes it to the code, end, template-transform and
   * variable-aggregator tools: a name, a reference string and a value type; `None` is a key
   * the dictionary does not have.
   */
  datatype BindingArg = BindingArg(variable: Option<string>, reference: Option<string>, valueType: Option<string>)

  /** The binding built from one argument: the reference parsed into a selector, "" and "string" by default. */
  function BindingOf(a: BindingArg): (b: Binding)
    ensures b.variable == a.variable.GetOr("") && b.valueType == a.valueType.GetOr("string")
    ensures b.valueSelector == ParseVariable(a.reference.GetOr(""))
  {
    Binding(a.variable.GetOr(""), ParseVariable(a.reference.GetOr("")), a.valueType.GetOr("string"))
  }

  /** The bindings built from the arguments, one for one. */
  function BindingsOf(args: seq<BindingArg>): (bs: seq<Binding>)
  {
    seq(|args|, i requires 0 <= i < |args| => BindingOf(args[i]))
  }

  /** The loop that turns each argument dictionary into a binding. */
  method ConvertBindings(args: seq<BindingArg>) returns (bs: seq<Binding>)
    ensures bs == BindingsOf(args)
  {
    bs := [];
    var i := 0;
    while i < |args|
      invariant 0 <= i <= |args|
      invariant |bs| == i
      invariant forall j :: 0 <= j < i ==> bs[j] == BindingOf(args[j])
    {
      bs := bs + [BindingOf(args[i])];
      i := i + 1;
    }
  }

  /** A binding given as the reference to a plainly named output selects that node and variable. */
  lemma BindingOfReference(name: string, nodeId: string, variable: string, valueType: Option<string>)
    requires IsPlainName(nodeId) && IsPlainName(variable)
    ensures BindingOf(BindingArg(Some(name), Some(Reference(nodeId, variable)), valueType)).valueSelector ==
            [nodeId, variable]
  {
    ParseReference(nodeId, variable);
  }
}
