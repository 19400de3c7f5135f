/** The code node, which runs a Python or JavaScript `main` function (`dify_nodes/code`). */
module CodeNode {
  import opened Wrappers
  import opened Json
  import opened NodeTypes
  import opened NodeBase

  /** One output declaration as the agent passes it; `None` is a key the dictionary does not have. */
  datatype CodeOutputArg = CodeOutputArg(typ: Option<string>, children: Option<Json>)

  /** The outputs used when the agent declares none: one string `result`. */
  const DefaultOutputArgs: seq<(string, CodeOutputArg)> := [("result", CodeOutputArg(Some("string"), Some(JNull)))]

  /** One declared output: type "string" and no children unless given. */
  function CodeOutputOf(a: CodeOutputArg): (o: CodeOutput)
    ensures o.typ == a.typ.GetOr("string") && o.children == a.children.GetOr(JNull)
  {
    CodeOutput(a.typ.GetOr("string"), a.children.GetOr(JNull))
  }

  /** The loop over the declared outputs: same names, same order, each declaration completed. */
  method ConvertOutputs(outputs: seq<(string, CodeOutputArg)>) returns (r: seq<(string, CodeOutput)>)
    ensures |r| == |outputs|
    ensures forall i :: 0 <= i < |r| ==> r[i] == (outputs[i].0, CodeOutputOf(outputs[i].1))
  {
    r := [];
    var i := 0;
    while i < |outputs|
      invariant 0 <= i <= |outputs|
      invariant |r| == i
      invariant forall j :: 0 <= j < i ==> r[j] == (outputs[j].0, CodeOutputOf(outputs[j].1))
    {
      r := r + [(outputs[i].0, CodeOutputOf(outputs[i].1))];
      i := i + 1;
    }
  }

  /** The output variable that stands for one declared output. */
  function OutputVariableFor(key: string, output: CodeOutput): (v: OutputVariable)
    ensures v.variable == key && v.typ == output.typ
  {
    OutputVariable(key, key + "输出", output.typ, "代码执行的" + key + "结果")
  }

  /** The output variables that stand for the declared outputs, one for one. */
  function OutputVariablesOf(outputs: seq<(string, CodeOutput)>): (ovs: seq<OutputVariable>)
  {
    seq(|outputs|, i requires 0 <= i < |outputs| => OutputVariableFor(outputs[i].0, outputs[i].1))
  }

  /**
   * `update_output_variables_from_outputs`: the output variables are rebuilt from scratch,
   * one per declared output, in order.
   */
  method UpdateOutputVariables(outputs: seq<(string, CodeOutput)>) returns (ovs: seq<OutputVariable>)
    ensures ovs == OutputVariablesOf(outputs)
  {
    ovs := [];
    var i := 0;
    while i < |outputs|
      invariant 0 <= i <= |outputs|
      invariant |ovs| == i
      invariant forall j :: 0 <= j < i ==> ovs[j] == OutputVariableFor(outputs[j].0, outputs[j].1)
    {
      ovs := ovs + [OutputVariableFor(outputs[i].0, outputs[i].1)];
      i := i + 1;
    }
  }

  /** `CodeNodeData(...)` after its output variables were rebuilt from the outputs. */
  function CodeData(title: string, desc: string, vars: seq<Binding>, language: string, code: string,
                    outputs: seq<(string, CodeOutput)>): (d: NodeData)
    ensures d.typ == "code" && d.title == title && d.desc == desc
    ensures d.kind == CodeKind(vars, language, code, outputs)
    ensures d.outputVariables == OutputVariablesOf(outputs) && d.variables == []
  {
    NodeData("code", title, desc, [], OutputVariablesOf(outputs), false, CodeKind(vars, language, code, outputs))
  }

  function CodeNodeOf(nodeId: string, x: int, y: int, code: string, language: string, vars: seq<Binding>,
                      outputs: seq<(string, CodeOutput)>, title: string, desc: string): (n: Node)
    ensures n.id == nodeId && n.position == Position(x, y) && n.width == 244 && n.height == 54
    ensures n.data == CodeData(title, desc, vars, language, code, outputs)
  {
    NewNode(CodeData(title, desc, vars, language, code, outputs), Position(x, y), nodeId, DefaultNodeType, 244, 54)
  }

  /** The outputs the tool builds: the declared ones, or one string `result`. */
  function CodeOutputsOf(outputs: Option<seq<(string, CodeOutputArg)>>): (r: seq<(string, CodeOutput)>)
    ensures |r| == |outputs.GetOr(DefaultOutputArgs)|
    ensures forall i :: 0 <= i < |r| ==> r[i].0 == outputs.GetOr(DefaultOutputArgs)[i].0
  {
    var args := outputs.GetOr(DefaultOutputArgs);
    seq(|args|, i requires 0 <= i < |args| => (args[i].0, CodeOutputOf(args[i].1)))
  }

  /**
   * `create_code_node`: bindings for the input variables, the declared outputs (one string
   * `result` when none), one output variable and one reference per output.
   */
  method CreateCodeNode(nodeId: string, x: int, y: int, code: string, language: string,
                        variables: Option<seq<BindingArg>>, outputs: Option<seq<(string, CodeOutputArg)>>,
                        title: string, desc: string) returns (r: ToolReply)
    ensures r == Reply(CodeNodeOf(nodeId, x, y, code, language, BindingsOf(variables.GetOr([])), CodeOutputsOf(outputs),
                                  title, desc),
                       "已经创建了一个名为" + title + "的代码执行节点。节点的描述为：" + desc + "，代码语言为：" + language)
  {
    var vars := ConvertBindings(variables.GetOr([]));
    var codeOutputs := ConvertOutputs(outputs.GetOr(DefaultOutputArgs));
    assert codeOutputs == CodeOutputsOf(outputs);
    var ovs := UpdateOutputVariables(codeOutputs);
    var n := NewNode(NodeData("code", title, desc, [], ovs, false, CodeKind(vars, language, code, codeOutputs)),
                     Position(x, y), nodeId, DefaultNodeType, 244, 54);
    r := Reply(n, "已经创建了一个名为" + title + "的代码执行节点。节点的描述为：" + desc + "，代码语言为：" + language);
  }

  /** The code node publishes one reference per declared output, named after it, in order. */
  lemma CodeReferences(nodeId: string, x: int, y: int, code: string, language: string, vars: seq<Binding>,
                       outputs: seq<(string, CodeOutput)>, title: string, desc: string)
    ensures var n := CodeNodeOf(nodeId, x, y, code, language, vars, outputs, title, desc);
      |OutputReferences(n)| == |outputs| &&
      forall i :: 0 <= i < |outputs| ==> OutputReferences(n)[i] == Reference(nodeId, outputs[i].0)
  {
    var n := CodeNodeOf(nodeId, x, y, code, language, vars, outputs, title, desc);
    assert forall i :: 0 <= i < |outputs| ==> OutputVariableNames(n)[i] == outputs[i].0;
  }

  /** Without declared outputs the node publishes exactly `{{#<id>.result#}}`. */
  lemma DefaultCodeReference(nodeId: string, x: int, y: int, code: string, language: string, vars: seq<Binding>,
                             title: string, desc: string)
    ensures OutputReferences(CodeNodeOf(nodeId, x, y, code, language, vars, CodeOutputsOf(None), title, desc)) ==
            [Reference(nodeId, "result")]
  {
    CodeReferences(nodeId, x, y, code, language, vars, CodeOutputsOf(None), title, desc);
  }

  /**
   * The code node's `to_dict`: the input bindings appear as `variables`, `code_variables` is
   * gone, and `outputs` names exactly the declared outputs, which are also the output
   * variables' names.
   */
  lemma CodeDictFacts(title: string, desc: string, vars: seq<Binding>, language: string, code: string,
                      outputs: seq<(string, CodeOutput)>)
    ensures var d := CodeData(title, desc, vars, language, code, outputs);
      var dd := DataToDict(d, None);
      "code_variables" !in dd && "output_variables" !in dd &&
      "variables" in dd && dd["variables"] == BindingsJson(vars) &&
      "outputs" in dd && dd["outputs"].JObj? &&
      (forall k :: k in dd["outputs"].fields <==> k in VariableNames(d.outputVariables))
  {
    var d := CodeData(title, desc, vars, language, code, outputs);
    var dd := DataToDict(d, None);
    DataToDictExcludes(d, None, "output_variables");
    assert dd == BaseDict(d, None)["variables" := BindingsJson(vars)]["outputs" := JObj(CodeOutputsJson(outputs))]
                 - {"code_variables"};
    OutputNamesMatch(outputs);
  }

  /** The keys of the `outputs` dictionary are the names of the output variables built from the same outputs. */
  lemma OutputNamesMatch(outputs: seq<(string, CodeOutput)>)
    ensures forall k :: k in CodeOutputsJson(outputs) <==> k in VariableNames(OutputVariablesOf(outputs))
  {
    var names := VariableNames(OutputVariablesOf(outputs));
    forall k
      ensures k in CodeOutputsJson(outputs) <==> k in names
    {
      if k in CodeOutputsJson(outputs) {
        var i :| 0 <= i < |outputs| && outputs[i].0 == k;
        assert names[i] == k;
      }
      if k in names {
        var i :| 0 <= i < |names| && names[i] == k;
        assert outputs[i].0 == k;
      }
    }
  }
}
