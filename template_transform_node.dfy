/** The template-transform node, which renders a Jinja2 template over its inputs (`dify_nodes/template_transform`). */
module TemplateTransformNode {
  import opened Wrappers
  import opened Json
  import opened NodeTypes
  import opened NodeBase

  /** The one output of every template-transform node: the rendered text. */
  const TemplateOutput := OutputVariable("output", "模板输出", "text", "Jinja2模板渲染的结果")

  /** `TemplateTransformNodeData(title, desc, template_variables, template)`. */
  function TemplateData(title: string, desc: string, vars: seq<Binding>, template: string): (d: NodeData)
    ensures d.typ == "template-transform" && d.title == title && d.desc == desc
    ensures d.kind == TemplateTransformKind(vars, template)
    ensures d.outputVariables == [TemplateOutput] && d.variables == []
  {
    NodeData("template-transform", title, desc, [], [TemplateOutput], false, TemplateTransformKind(vars, template))
  }

  function TemplateNodeOf(nodeId: string, x: int, y: int, vars: seq<Binding>, template: string, title: string,
                          desc: string): (n: Node)
    ensures n.id == nodeId && n.position == Position(x, y) && n.width == 244 && n.height == 54
    ensures n.data == TemplateData(title, desc, vars, template)
  {
    NewNode(TemplateData(title, desc, vars, template), Position(x, y), nodeId, DefaultNodeType, 244, 54)
  }

  /**
   * `create_template_transform_node`: one binding per input variable (none when none are
   * given) and the single reference `{{#<id>.output#}}`.
   */
  method CreateTemplateTransformNode(nodeId: string, x: int, y: int, template: string,
                                     variables: Option<seq<BindingArg>>, title: string, desc: string)
    returns (r: ToolReply)
    ensures r == Reply(TemplateNodeOf(nodeId, x, y, BindingsOf(variables.GetOr([])), template, title, desc),
                       "已经创建了一个名为" + title + "的模板转换节点。节点的描述为：" + desc)
    ensures r.output == Some([Reference(nodeId, "output")])
  {
    var vars := ConvertBindings(variables.GetOr([]));
    var n := TemplateNodeOf(nodeId, x, y, vars, template, title, desc);
    assert OutputReferences(n) == [Reference(nodeId, "output")] by {
      assert |OutputReferences(n)| == 1;
    }
    r := Reply(n, "已经创建了一个名为" + title + "的模板转换节点。节点的描述为：" + desc);
  }

  /** The `to_dict` of the node publishes the bindings as `variables` and drops `template_variables`. */
  lemma TemplateDictFacts(title: string, desc: string, vars: seq<Binding>, template: string)
    ensures var dd := DataToDict(TemplateData(title, desc, vars, template), None);
      "template_variables" !in dd && "output_variables" !in dd &&
      "variables" in dd && dd["variables"] == BindingsJson(vars) &&
      "template" in dd && dd["template"] == JStr(template)
  {
    var d := TemplateData(title, desc, vars, template);
    AsDictKindField(d, "template");
    KeptKeys();
    DataToDictKeeps(d, None, "template");
    DataToDictExcludes(d, None, "output_variables");
  }
}
