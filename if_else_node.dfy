/** The if-else node, which routes the workflow along the first case that holds (`dify_nodes/if_else`). */
module IfElseNode {
  import opened Wrappers
  import opened Json
  import opened Text
  import opened NodeTypes
  import opened NodeBase

  /** One condition as the agent passes it; `None` is a key the dictionary does not have. */
  datatype ConditionArg = ConditionArg(variable: Option<string>, comparisonOperator: Option<string>,
                                       value: Option<Json>, varType: Option<string>)

  /** One case as the agent passes it. */
  datatype CaseArg = CaseArg(id: Option<string>, logicalOperator: Option<string>,
                             conditions: Option<seq<ConditionArg>>)

  /**
   * The condition built from the `i`-th condition of a case: id `cond_<i>`, the parsed
   * variable, and "is", "" and "string" where the agent gave nothing.
   */
  function ConditionOf(c: ConditionArg, i: nat): (r: IfElseCondition)
    ensures r.id == "cond_" + NatToString(i)
    ensures r.variableSelector == ParseVariable(c.variable.GetOr(""))
    ensures r.comparisonOperator == c.comparisonOperator.GetOr("is")
    ensures r.value == c.value.GetOr(JStr("")) && r.varType == c.varType.GetOr("string")
  {
    IfElseCondition("cond_" + NatToString(i), ParseVariable(c.variable.GetOr("")),
                    c.comparisonOperator.GetOr("is"), c.value.GetOr(JStr("")), c.varType.GetOr("string"))
  }

  /** The conditions of a case, numbered from 0 within the case. */
  function ConditionsOf(cs: seq<ConditionArg>): (r: seq<IfElseCondition>)
  {
    seq(|cs|, i requires 0 <= i < |cs| => ConditionOf(cs[i], i))
  }

  /**
   * The case built from the `index`-th case: its id (or `case_<index>`) as both id and case
   * id, "and" as the default operator, and its conditions.
   */
  function CaseOf(c: CaseArg, index: nat): (r: IfElseCase)
    ensures r.id == r.caseId == c.id.GetOr("case_" + NatToString(index))
    ensures r.logicalOperator == c.logicalOperator.GetOr("and")
    ensures r.conditions == ConditionsOf(c.conditions.GetOr([]))
  {
    var caseId := c.id.GetOr("case_" + NatToString(index));
    IfElseCase(caseId, caseId, c.logicalOperator.GetOr("and"), ConditionsOf(c.conditions.GetOr([])))
  }

  /** The cases the tool builds, one per case given, in order. */
  function CasesOf(cases: seq<CaseArg>): (r: seq<IfElseCase>)
  {
    seq(|cases|, k requires 0 <= k < |cases| => CaseOf(cases[k], k))
  }

  /** The loops of `create_if_else_node` over the cases and, within each, over its conditions. */
  method BuildCases(cases: seq<CaseArg>) returns (r: seq<IfElseCase>)
    ensures r == CasesOf(cases)
  {
    r := [];
    var k := 0;
    while k < |cases|
      invariant 0 <= k <= |cases|
      invariant |r| == k
      invariant forall j :: 0 <= j < k ==> r[j] == CaseOf(cases[j], j)
    {
      var cs := cases[k].conditions.GetOr([]);
      var conditions := [];
      var i := 0;
      while i < |cs|
        invariant 0 <= i <= |cs|
        invariant |conditions| == i
        invariant forall j :: 0 <= j < i ==> conditions[j] == ConditionOf(cs[j], j)
      {
        conditions := conditions + [ConditionOf(cs[i], i)];
        i := i + 1;
      }
      assert conditions == ConditionsOf(cs);
      var caseId := cases[k].id.GetOr("case_" + NatToString(|r|));
      r := r + [IfElseCase(caseId, caseId, cases[k].logicalOperator.GetOr("and"), conditions)];
      k := k + 1;
    }
  }

  /** `IfElseNodeData(title, desc, cases)`: kind "if-else", no output variables. */
  function IfElseData(title: string, desc: string, cases: seq<IfElseCase>): (d: NodeData)
    ensures d.typ == "if-else" && d.title == title && d.desc == desc && d.kind == IfElseKind(cases)
    ensures d.outputVariables == [] && d.variables == []
  {
    NodeData("if-else", title, desc, [], [], false, IfElseKind(cases))
  }

  /** The node `create_if_else_node` builds: 244 by 150 at the given position. */
  function IfElseNodeOf(nodeId: string, x: int, y: int, cases: seq<IfElseCase>, title: string, desc: string): (n: Node)
    ensures n.id == nodeId && n.position == Position(x, y) && n.width == 244 && n.height == 150
    ensures n.data == IfElseData(title, desc, cases)
  {
    NewNode(IfElseData(title, desc, cases), Position(x, y), nodeId, DefaultNodeType, 244, 150)
  }

  /** `create_if_else_node`: the node dictionary, an observation naming the title, and no references. */
  method CreateIfElseNode(nodeId: string, x: int, y: int, cases: seq<CaseArg>, title: string, desc: string)
    returns (r: ToolReply)
    ensures r.NodeReply? && r.node == NodeToDict(IfElseNodeOf(nodeId, x, y, CasesOf(cases), title, desc))
    ensures r.observation == "已经创建了一个名为'" + title + "'的条件分支节点。"
    ensures r.output == Some([])
  {
    var built := BuildCases(cases);
    var n := IfElseNodeOf(nodeId, x, y, built, title, desc);
    r := NodeReply(NodeToDict(n), "已经创建了一个名为'" + title + "'的条件分支节点。", Some([]));
  }

  /**
   * Cases the agent leaves unnamed get the ids `case_0`, `case_1`, ... by position, so two
   * unnamed cases never share an id; likewise the conditions of a case are `cond_0`, `cond_1`, ...
   */
  lemma DefaultCaseIdsDistinct(cases: seq<CaseArg>, j: nat, k: nat)
    requires j < k < |cases| && cases[j].id.None? && cases[k].id.None?
    ensures CasesOf(cases)[j].id != CasesOf(cases)[k].id
  {
    NumberedNamesDistinct("case_", j, k);
  }

  lemma ConditionIdsDistinct(cases: seq<CaseArg>, k: nat, i: nat, j: nat)
    requires k < |cases| && cases[k].conditions.Some? && i < j < |cases[k].conditions.value|
    ensures CasesOf(cases)[k].conditions[i].id != CasesOf(cases)[k].conditions[j].id
  {
    NumberedNamesDistinct("cond_", i, j);
  }

  /** The data dictionary of an if-else node lists the cases and, like its `to_dict`, drops `variables`. */
  lemma IfElseDictFacts(title: string, desc: string, cases: seq<IfElseCase>)
    ensures var dd := DataToDict(IfElseData(title, desc, cases), None);
      "variables" !in dd && "output_variables" !in dd &&
      "cases" in dd && dd["cases"] == ListJson(cases, (c: IfElseCase) => c.ToJson())
  {
    var d := IfElseData(title, desc, cases);
    KeptKeys();
    DataToDictKeeps(d, None, "cases");
    DataToDictExcludes(d, None, "output_variables");
  }
}
