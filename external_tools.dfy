/**
 * The three external-tool builders (`dify_nodes/tools/tavily`, `arxiv` and `spider`): each
 * fills its tool's template with the node's id, title and position and merges in an overlay
 * holding the tool's parameters. Templates are passed in as values.
 */
module ExternalTools {
  import opened Wrappers
  import opened Json
  import opened NodeBase
  import opened ToolsBase

  /** A tool parameter entry: `{"type": kind, "value": value}`. */
  function Param(kind: string, value: Json): (p: Json)
    ensures Get(p, "type") == Some(JStr(kind)) && Get(p, "value") == Some(value)
  {
    JObj(map["type" := JStr(kind), "value" := value])
  }

  /** An overlay that sets entries under `data`. */
  function DataOverlay(data: map<string, Json>): map<string, Json>
  {
    map["data" := JObj(data)]
  }

  /** The configured node, or the error of loading or filling the template, as a tool reply. */
  function WithReply(config: Result<Json>, observation: string, nodeId: string): (r: Result<ToolReply>)
    ensures config.Failure? ==> r == Failure(config.error)
    ensures config.Success? ==> r == Success(NodeReply(config.value, observation, Some(ToolOutputReferences(nodeId))))
  {
    match config
    case Failure(e) => Failure(e)
    case Success(node) => Success(NodeReply(node, observation, Some(ToolOutputReferences(nodeId))))
  }

  // Tavily search.

  const TavilyDefaultDays := 3

  /** The Tavily tool parameters: the query as mixed text, the other four as constants, `days` 3 when absent. */
  function TavilyParameters(query: string, searchDepth: string, topic: string, days: Option<int>,
                            timeRange: string): map<string, Json>
  {
    map["query" := Param("mixed", JStr(query)), "search_depth" := Param("constant", JStr(searchDepth)),
        "topic" := Param("constant", JStr(topic)), "days" := Param("constant", JInt(days.GetOr(TavilyDefaultDays))),
        "time_range" := Param("constant", JStr(timeRange))]
  }

  function TavilyOverlay(query: string, searchDepth: string, topic: string, days: Option<int>,
                         timeRange: string): map<string, Json>
  {
    DataOverlay(map["tool_parameters" := JObj(TavilyParameters(query, searchDepth, topic, days, timeRange))])
  }

  /**
   * `create_tavily_search_tool`. It takes `max_results`, the three `include_*` flags and the
   * domain filters, and uses none of them.
   */
  function CreateTavilySearchTool(nodeId: string, x: int, y: int, query: string, title: string, searchDepth: string,
                                  topic: string, days: Option<int>, timeRange: string, maxResults: int,
                                  includeImages: bool, includeAnswer: bool, includeRawContent: bool,
                                  includeDomains: Option<string>, excludeDomains: Option<string>, desc: string,
                                  template: Option<Json>, templatePath: string): (r: Result<ToolReply>)
    ensures template.None? ==> r == Failure("工具模板文件不存在: " + templatePath)
    ensures r.Success? ==> r.value.NodeReply? && r.value.output == Some(ToolOutputReferences(nodeId)) &&
                           r.value.observation == "已经创建了一个名为'" + title + "'的Tavily搜索节点。搜索查询：" + query
  {
    var config := ToolConfig(title, x, y, desc, nodeId, TavilyOverlay(query, searchDepth, topic, days, timeRange));
    WithReply(GenerateConfig(template, templatePath, config),
              "已经创建了一个名为'" + title + "'的Tavily搜索节点。搜索查询：" + query, nodeId)
  }

  /** The overlay carries exactly the five parameters, with `days` 3 when none is given, and leaves the fixed fields alone. */
  lemma TavilyOverlayFacts(query: string, searchDepth: string, topic: string, days: Option<int>, timeRange: string)
    ensures TavilyParameters(query, searchDepth, topic, days, timeRange).Keys ==
            {"query", "search_depth", "topic", "days", "time_range"}
    ensures TavilyParameters(query, searchDepth, topic, days, timeRange)["query"] == Param("mixed", JStr(query))
    ensures TavilyParameters(query, searchDepth, topic, days, timeRange)["days"] ==
            Param("constant", JInt(if days.None? then 3 else days.value))
    ensures KeepsFixedFields(TavilyOverlay(query, searchDepth, topic, days, timeRange))
  {
    TavilyParameterKeys(query, searchDepth, topic, days, timeRange);
    TavilyDays(query, searchDepth, topic, days, timeRange);
    TavilyKeepsFixed(query, searchDepth, topic, days, timeRange);
  }

  lemma TavilyParameterKeys(query: string, searchDepth: string, topic: string, days: Option<int>, timeRange: string)
    ensures TavilyParameters(query, searchDepth, topic, days, timeRange).Keys ==
            {"query", "search_depth", "topic", "days", "time_range"}
  {
  }

  lemma TavilyDays(query: string, searchDepth: string, topic: string, days: Option<int>, timeRange: string)
    ensures TavilyParameters(query, searchDepth, topic, days, timeRange)["days"] ==
            Param("constant", JInt(if days.None? then 3 else days.value))
  {
  }

  lemma TavilyKeepsFixed(query: string, searchDepth: string, topic: string, days: Option<int>, timeRange: string)
    ensures KeepsFixedFields(TavilyOverlay(query, searchDepth, topic, days, timeRange))
  {
    var data := map["tool_parameters" := JObj(TavilyParameters(query, searchDepth, topic, days, timeRange))];
    assert data.Keys == {"tool_parameters"};
  }

  /** The `value` of the tool parameter `name` of a node dictionary, when it has one. */
  function ParameterValue(node: Json, group: string, name: string): Option<Json>
  {
    match DataField(node, group)
    case Some(JObj(ps)) => if name in ps then Get(ps[name], "value") else None
    case _ => None
  }

  /** A node that covers an overlay holds each scalar parameter the overlay sets. */
  lemma ParameterFromCover(node: Json, data: map<string, Json>, group: string, name: string, kind: string, value: Json)
    requires node.JObj? && Covers(node.fields, DataOverlay(data))
    requires group in data && data[group].JObj? && name in data[group].fields
    requires data[group].fields[name] == Param(kind, value) && !value.JObj?
    ensures ParameterValue(node, group, name) == Some(value)
  {
    assert "data" in DataOverlay(data);
    var d := node.fields["data"].fields;
    assert Covers(d, data);
    var ps := d[group].fields;
    assert DataField(node, group) == Some(JObj(ps));
    assert Covers(ps, data[group].fields);
    assert Covers(ps[name].fields, Param(kind, value).fields);
    assert "value" in Param(kind, value).fields;
  }

  /** A parameter the overlay sets is read back from the configured template. */
  lemma ConfiguredParameter(template: Json, c: ToolConfig, data: map<string, Json>, group: string, name: string,
                            kind: string, value: Json)
    requires TemplateShaped(template) && c.extraParams == DataOverlay(data)
    requires group in data && data[group].JObj? && name in data[group].fields
    requires data[group].fields[name] == Param(kind, value) && !value.JObj?
    ensures ParameterValue(Configured(template, c).value, group, name) == Some(value)
  {
    ConfiguredCoversOverlay(template, c);
    ParameterFromCover(Configured(template, c).value, data, group, name, kind, value);
  }

  /** The Tavily node carries the query and the `days` value (3 when none is given) as its parameters. */
  lemma TavilyParametersSet(nodeId: string, x: int, y: int, query: string, title: string, searchDepth: string,
                            topic: string, days: Option<int>, timeRange: string, desc: string, template: Json)
    requires TemplateShaped(template)
    ensures var r := CreateTavilySearchTool(nodeId, x, y, query, title, searchDepth, topic, days, timeRange, 5,
                                            false, false, false, None, None, desc, Some(template), "");
      r.Success? &&
      ParameterValue(r.value.node, "tool_parameters", "query") == Some(JStr(query)) &&
      ParameterValue(r.value.node, "tool_parameters", "days") == Some(JInt(if days.None? then 3 else days.value)) &&
      ParameterValue(r.value.node, "tool_parameters", "topic") == Some(JStr(topic))
  {
    var params := TavilyParameters(query, searchDepth, topic, days, timeRange);
    var data := map["tool_parameters" := JObj(params)];
    var config := ToolConfig(title, x, y, desc, nodeId, DataOverlay(data));
    TavilyNode(nodeId, x, y, query, title, searchDepth, topic, days, timeRange, desc, template);
    TavilyDays(query, searchDepth, topic, days, timeRange);
    TavilyQueryAndTopic(query, searchDepth, topic, days, timeRange);
    ConfiguredParameter(template, config, data, "tool_parameters", "query", "mixed", JStr(query));
    ConfiguredParameter(template, config, data, "tool_parameters", "days", "constant", JInt(if days.None? then 3 else days.value));
    ConfiguredParameter(template, config, data, "tool_parameters", "topic", "constant", JStr(topic));
  }

  lemma TavilyQueryAndTopic(query: string, searchDepth: string, topic: string, days: Option<int>, timeRange: string)
    ensures TavilyParameters(query, searchDepth, topic, days, timeRange)["query"] == Param("mixed", JStr(query))
    ensures TavilyParameters(query, searchDepth, topic, days, timeRange)["topic"] == Param("constant", JStr(topic))
  {
  }

  /** On a well-shaped template the Tavily builder succeeds with the configured template as its node. */
  lemma TavilyNode(nodeId: string, x: int, y: int, query: string, title: string, searchDepth: string,
                   topic: string, days: Option<int>, timeRange: string, desc: string, template: Json)
    requires TemplateShaped(template)
    ensures var r := CreateTavilySearchTool(nodeId, x, y, query, title, searchDepth, topic, days, timeRange, 5,
                                            false, false, false, None, None, desc, Some(template), "");
      var config := ToolConfig(title, x, y, desc, nodeId, TavilyOverlay(query, searchDepth, topic, days, timeRange));
      r.Success? && r.value.node == Configured(template, config).value
  {
  }

  /** The arguments the builder ignores do not change its result. */
  lemma TavilyIgnoresExtras(nodeId: string, x: int, y: int, query: string, title: string, searchDepth: string,
                            topic: string, days: Option<int>, timeRange: string, desc: string,
                            template: Option<Json>, templatePath: string,
                            maxResults: int, includeImages: bool, includeAnswer: bool, includeRawContent: bool,
                            includeDomains: Option<string>, excludeDomains: Option<string>)
    ensures CreateTavilySearchTool(nodeId, x, y, query, title, searchDepth, topic, days, timeRange, maxResults,
                                   includeImages, includeAnswer, includeRawContent, includeDomains, excludeDomains,
                                   desc, template, templatePath) ==
            CreateTavilySearchTool(nodeId, x, y, query, title, searchDepth, topic, days, timeRange, 5,
                                   false, false, false, None, None, desc, template, templatePath)
  {
  }

  /** On a well-shaped template the Tavily node has the given id, title, description and position. */
  lemma TavilyReadBack(nodeId: string, x: int, y: int, query: string, title: string, searchDepth: string,
                       topic: string, days: Option<int>, timeRange: string, desc: string, template: Json)
    requires TemplateShaped(template)
    ensures var r := CreateTavilySearchTool(nodeId, x, y, query, title, searchDepth, topic, days, timeRange, 5,
                                            false, false, false, None, None, desc, Some(template), "");
      r.Success? && Get(r.value.node, "id") == Some(JStr(nodeId)) &&
      DataField(r.value.node, "title") == Some(JStr(title)) && DataField(r.value.node, "desc") == Some(JStr(desc))
  {
    var config := ToolConfig(title, x, y, desc, nodeId, TavilyOverlay(query, searchDepth, topic, days, timeRange));
    TavilyOverlayFacts(query, searchDepth, topic, days, timeRange);
    ConfiguredReadBack(template, config);
  }

  // Arxiv search.

  function ArxivOverlay(query: string): map<string, Json>
  {
    DataOverlay(map["tool_parameters" := JObj(map["query" := Param("mixed", JStr(query))])])
  }

  /** `create_arxiv_search_tool`: only the query enters the overlay; `max_results` is taken and unused. */
  function CreateArxivSearchTool(nodeId: string, x: int, y: int, query: string, title: string, maxResults: int,
                                 desc: string, template: Option<Json>, templatePath: string): (r: Result<ToolReply>)
    ensures template.None? ==> r == Failure("工具模板文件不存在: " + templatePath)
    ensures r.Success? ==> r.value.NodeReply? && r.value.output == Some(ToolOutputReferences(nodeId)) &&
                           r.value.observation == "已经创建了一个名为'" + title + "'的Arxiv搜索节点。搜索查询：" + query
  {
    var config := ToolConfig(title, x, y, desc, nodeId, ArxivOverlay(query));
    WithReply(GenerateConfig(template, templatePath, config),
              "已经创建了一个名为'" + title + "'的Arxiv搜索节点。搜索查询：" + query, nodeId)
  }

  /** The Arxiv node carries the query as its one parameter. */
  lemma ArxivQuerySet(nodeId: string, x: int, y: int, query: string, title: string, desc: string, template: Json)
    requires TemplateShaped(template)
    ensures var r := CreateArxivSearchTool(nodeId, x, y, query, title, 5, desc, Some(template), "");
      r.Success? && ParameterValue(r.value.node, "tool_parameters", "query") == Some(JStr(query))
  {
    var data := map["tool_parameters" := JObj(map["query" := Param("mixed", JStr(query))])];
    var config := ToolConfig(title, x, y, desc, nodeId, DataOverlay(data));
    ConfiguredCoversOverlay(template, config);
    ParameterFromCover(Configured(template, config).value, data, "tool_parameters", "query", "mixed", JStr(query));
  }

  lemma ArxivIgnoresMaxResults(nodeId: string, x: int, y: int, query: string, title: string, maxResults: int,
                               desc: string, template: Option<Json>, templatePath: string)
    ensures CreateArxivSearchTool(nodeId, x, y, query, title, maxResults, desc, template, templatePath) ==
            CreateArxivSearchTool(nodeId, x, y, query, title, 5, desc, template, templatePath)
  {
  }

  /** On a well-shaped template the Arxiv node has the given id, title and description. */
  lemma ArxivReadBack(nodeId: string, x: int, y: int, query: string, title: string, desc: string, template: Json)
    requires TemplateShaped(template)
    ensures var r := CreateArxivSearchTool(nodeId, x, y, query, title, 5, desc, Some(template), "");
      r.Success? && Get(r.value.node, "id") == Some(JStr(nodeId)) &&
      DataField(r.value.node, "title") == Some(JStr(title)) && DataField(r.value.node, "desc") == Some(JStr(desc))
  {
    ConfiguredReadBack(template, ToolConfig(title, x, y, desc, nodeId, ArxivOverlay(query)));
  }

  // Web spider.

  /** The URL as a mixed tool parameter; the user agent (mixed) and the summary flag (constant) as configurations. */
  function SpiderOverlay(url: string, userAgent: string, generateSummary: bool): map<string, Json>
  {
    DataOverlay(map["tool_parameters" := JObj(map["url" := Param("mixed", JStr(url))]),
                    "tool_configurations" := JObj(map["user_agent" := Param("mixed", JStr(userAgent)),
                                                      "generate_summary" := Param("constant", JBool(generateSummary))])])
  }

  function SpiderConfig(nodeId: string, x: int, y: int, url: string, title: string, userAgent: string,
                        generateSummary: bool, desc: string): ToolConfig
  {
    ToolConfig(title, x, y, desc, nodeId, SpiderOverlay(url, userAgent, generateSummary))
  }

  /**
   * `create_spider_tool` as written: it returns the filled template itself, without the
   * node, observation and output entries every other builder returns.
   */
  function CreateSpiderToolAsWritten(nodeId: string, x: int, y: int, url: string, title: string, userAgent: string,
                                     generateSummary: bool, desc: string, template: Option<Json>,
                                     templatePath: string): (r: Result<ToolReply>)
    ensures r.Success? ==> r.value.ConfigReply?
  {
    match GenerateConfig(template, templatePath, SpiderConfig(nodeId, x, y, url, title, userAgent, generateSummary, desc))
    case Failure(e) => Failure(e)
    case Success(node) => Success(ConfigReply(node))
  }

  /**
   * `create_spider_tool` with the reply shape of its siblings: the node, an observation
   * naming the title and URL, and the tool's output references.
   */
  function CreateSpiderTool(nodeId: string, x: int, y: int, url: string, title: string, userAgent: string,
                            generateSummary: bool, desc: string, template: Option<Json>,
                            templatePath: string): (r: Result<ToolReply>)
    ensures template.None? ==> r == Failure("工具模板文件不存在: " + templatePath)
    ensures r.Success? ==> r.value.NodeReply? && r.value.output == Some(ToolOutputReferences(nodeId))
  {
    WithReply(GenerateConfig(template, templatePath, SpiderConfig(nodeId, x, y, url, title, userAgent, generateSummary, desc)),
              "已经创建了一个名为'" + title + "'的网页爬虫节点。目标URL：" + url, nodeId)
  }

  /** Both versions build the same node; only the reply around it differs. */
  lemma SpiderVersionsAgree(nodeId: string, x: int, y: int, url: string, title: string, userAgent: string,
                            generateSummary: bool, desc: string, template: Option<Json>, templatePath: string)
    ensures var w := CreateSpiderToolAsWritten(nodeId, x, y, url, title, userAgent, generateSummary, desc, template,
                                               templatePath);
      var c := CreateSpiderTool(nodeId, x, y, url, title, userAgent, generateSummary, desc, template, templatePath);
      (w.Success? <==> c.Success?) &&
      (w.Success? ==> w.value.config == c.value.node)
  {
  }

  /** The spider node carries the URL, the user agent and the summary flag. */
  lemma SpiderParametersSet(nodeId: string, x: int, y: int, url: string, title: string, userAgent: string,
                            generateSummary: bool, desc: string, template: Json)
    requires TemplateShaped(template)
    ensures var r := CreateSpiderTool(nodeId, x, y, url, title, userAgent, generateSummary, desc, Some(template), "");
      r.Success? && ParameterValue(r.value.node, "tool_parameters", "url") == Some(JStr(url)) &&
      ParameterValue(r.value.node, "tool_configurations", "user_agent") == Some(JStr(userAgent)) &&
      ParameterValue(r.value.node, "tool_configurations", "generate_summary") == Some(JBool(generateSummary))
  {
    var config := SpiderConfig(nodeId, x, y, url, title, userAgent, generateSummary, desc);
    var data := SpiderOverlay(url, userAgent, generateSummary)["data"].fields;
    ConfiguredCoversOverlay(template, config);
    var node := Configured(template, config).value;
    ParameterFromCover(node, data, "tool_parameters", "url", "mixed", JStr(url));
    ParameterFromCover(node, data, "tool_configurations", "user_agent", "mixed", JStr(userAgent));
    ParameterFromCover(node, data, "tool_configurations", "generate_summary", "constant", JBool(generateSummary));
  }

  /** On a well-shaped template the spider node has the given id, title and description. */
  lemma SpiderReadBack(nodeId: string, x: int, y: int, url: string, title: string, userAgent: string,
                       generateSummary: bool, desc: string, template: Json)
    requires TemplateShaped(template)
    ensures var r := CreateSpiderTool(nodeId, x, y, url, title, userAgent, generateSummary, desc, Some(template), "");
      r.Success? && Get(r.value.node, "id") == Some(JStr(nodeId)) &&
      DataField(r.value.node, "title") == Some(JStr(title)) && DataField(r.value.node, "desc") == Some(JStr(desc))
  {
    ConfiguredReadBack(template, SpiderConfig(nodeId, x, y, url, title, userAgent, generateSummary, desc));
  }
}
