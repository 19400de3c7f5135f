/**
 * The builder catalog (`dify_nodes/__init__.py`): the list of builders offered to the agent
 * and the name-to-builder table the executor dispatches through.
 */
module Catalog {
  import opened Wrappers

  /** Every node builder the repository defines, including the disabled loop builder. */
  datatype Builder =
    | LlmBuilder | StartBuilder | AnswerBuilder | EndBuilder | CodeBuilder | TemplateTransformBuilder
    | QuestionClassifierBuilder | IfElseBuilder | HttpRequestBuilder | VariableAggregatorBuilder
    | DocumentExtractorBuilder | ArxivBuilder | SpiderBuilder | TavilyBuilder | LoopBuilder

  /** A builder's tool name: the name of the decorated function. */
  function Name(b: Builder): string
  {
    match b
    case LlmBuilder => "create_llm_node"
    case StartBuilder => "create_start_node"
    case AnswerBuilder => "create_answer_node"
    case EndBuilder => "create_end_node"
    case CodeBuilder => "create_code_node"
    case TemplateTransformBuilder => "create_template_transform_node"
    case QuestionClassifierBuilder => "create_question_classifier_node"
    case IfElseBuilder => "create_if_else_node"
    case HttpRequestBuilder => "create_http_request_node"
    case VariableAggregatorBuilder => "create_variable_aggregator_node"
    case DocumentExtractorBuilder => "create_document_extractor_node"
    case ArxivBuilder => "create_arxiv_search_tool"
    case SpiderBuilder => "create_spider_tool"
    case TavilyBuilder => "create_tavily_search_tool"
    case LoopBuilder => "create_loop_node"
  }

  /** `tools_list`: fourteen builders in this order; the loop builder is commented out. */
  const ToolsList: seq<Builder> :=
    [LlmBuilder, StartBuilder, AnswerBuilder, EndBuilder, CodeBuilder, TemplateTransformBuilder,
     QuestionClassifierBuilder, IfElseBuilder, HttpRequestBuilder, VariableAggregatorBuilder,
     DocumentExtractorBuilder, ArxivBuilder, SpiderBuilder, TavilyBuilder]

  /** Different builders have different names. */
  lemma NamesDistinct(b: Builder, c: Builder)
    requires b != c
    ensures Name(b) != Name(c)
  {
    NameKey(b);
    NameKey(c);
  }

  /** A pair that tells the builders apart: the first two letters of the name after `create_`. */
  function Key(b: Builder): (char, char)
  {
    match b
    case LlmBuilder => ('l', 'l')
    case StartBuilder => ('s', 't')
    case AnswerBuilder => ('a', 'n')
    case EndBuilder => ('e', 'n')
    case CodeBuilder => ('c', 'o')
    case TemplateTransformBuilder => ('t', 'e')
    case QuestionClassifierBuilder => ('q', 'u')
    case IfElseBuilder => ('i', 'f')
    case HttpRequestBuilder => ('h', 't')
    case VariableAggregatorBuilder => ('v', 'a')
    case DocumentExtractorBuilder => ('d', 'o')
    case ArxivBuilder => ('a', 'r')
    case SpiderBuilder => ('s', 'p')
    case TavilyBuilder => ('t', 'a')
    case LoopBuilder => ('l', 'o')
  }

  lemma NameKey(b: Builder)
    ensures |Name(b)| > 8 && Key(b) == (Name(b)[7], Name(b)[8])
  {
    match b
    case LlmBuilder => NameKeyA(b);
    case StartBuilder => NameKeyA(b);
    case AnswerBuilder => NameKeyA(b);
    case EndBuilder => NameKeyB(b);
    case CodeBuilder => NameKeyB(b);
    case TemplateTransformBuilder => NameKeyB(b);
    case QuestionClassifierBuilder => NameKeyC(b);
    case IfElseBuilder => NameKeyC(b);
    case HttpRequestBuilder => NameKeyC(b);
    case VariableAggregatorBuilder => NameKeyD(b);
    case DocumentExtractorBuilder => NameKeyD(b);
    case ArxivBuilder => NameKeyD(b);
    case SpiderBuilder => NameKeyE(b);
    case TavilyBuilder => NameKeyE(b);
    case LoopBuilder => NameKeyE(b);
  }

  lemma NameKeyA(b: Builder)
    requires b == LlmBuilder || b == StartBuilder || b == AnswerBuilder
    ensures |Name(b)| > 8 && Key(b) == (Name(b)[7], Name(b)[8])
  {
  }

  lemma NameKeyB(b: Builder)
    requires b == EndBuilder || b == CodeBuilder || b == TemplateTransformBuilder
    ensures |Name(b)| > 8 && Key(b) == (Name(b)[7], Name(b)[8])
  {
  }

  lemma NameKeyC(b: Builder)
    requires b == QuestionClassifierBuilder || b == IfElseBuilder || b == HttpRequestBuilder
    ensures |Name(b)| > 8 && Key(b) == (Name(b)[7], Name(b)[8])
  {
  }

  lemma NameKeyD(b: Builder)
    requires b == VariableAggregatorBuilder || b == DocumentExtractorBuilder || b == ArxivBuilder
    ensures |Name(b)| > 8 && Key(b) == (Name(b)[7], Name(b)[8])
  {
  }

  lemma NameKeyE(b: Builder)
    requires b == SpiderBuilder || b == TavilyBuilder || b == LoopBuilder
    ensures |Name(b)| > 8 && Key(b) == (Name(b)[7], Name(b)[8])
  {
  }

  /** `tool_map`: each listed builder under its name. */
  function ToolMap(): (m: map<string, Builder>)
    ensures m.Keys == set b | b in ToolsList :: Name(b)
  {
    forall b, c | b != c
      ensures Name(b) != Name(c)
    {
      NamesDistinct(b, c);
    }
    map b | b in ToolsList :: Name(b) := b
  }

  /** The dispatch: the builder registered under `name`, if any. */
  function Lookup(name: string): (r: Option<Builder>)
    ensures r.Some? <==> name in ToolMap()
  {
    if name in ToolMap() then Some(ToolMap()[name]) else None
  }

  /** The catalog has fourteen entries, no builder twice, and not the loop builder. */
  lemma ToolsListShape()
    ensures |ToolsList| == 14
    ensures forall i, j :: 0 <= i < j < |ToolsList| ==> ToolsList[i] != ToolsList[j]
    ensures LoopBuilder !in ToolsList
  {
  }

  /** Every listed builder is found under its own name. */
  lemma LookupListed(b: Builder)
    requires b in ToolsList
    ensures Lookup(Name(b)) == Some(b)
  {
    var m := ToolMap();
    assert Name(b) in m;
    var c := m[Name(b)];
    assert c in ToolsList && Name(c) == Name(b);
    if c != b {
      NamesDistinct(b, c);
    }
  }

  /** A name is found only if it is the name of a listed builder, and then it gives that builder. */
  lemma LookupSound(name: string)
    ensures Lookup(name).Some? ==> Lookup(name).value in ToolsList && Name(Lookup(name).value) == name
  {
  }

  /** The loop builder cannot be reached through the dispatch table. */
  lemma LoopNotDispatched()
    ensures Lookup(Name(LoopBuilder)).None?
  {
    if Name(LoopBuilder) in ToolMap() {
      var b :| b in ToolsList && Name(b) == Name(LoopBuilder);
      NamesDistinct(b, LoopBuilder);
    }
  }
}
