/** The HTTP-request node, which calls an external API (`dify_nodes/http_request`). */
module HttpRequestNode {
  import opened Wrappers
  import opened Json
  import opened Text
  import opened NodeTypes
  import opened NodeBase

  /** The four outputs `__post_init__` supplies when none are given. */
  const HttpOutputs := [
    OutputVariable("body", "响应内容", "string", "HTTP响应的内容主体"),
    OutputVariable("status_code", "响应状态码", "number", "HTTP响应的状态码"),
    OutputVariable("headers", "响应头列表", "object", "HTTP响应头的JSON对象"),
    OutputVariable("files", "文件列表", "Array[File]", "文件列表")
  ]

  /** `__post_init__`: an empty output list is replaced by the four response outputs. */
  function PostInitOutputs(given: seq<OutputVariable>): (r: seq<OutputVariable>)
    ensures given == [] ==> r == HttpOutputs
    ensures given != [] ==> r == given
  {
    if given == [] then HttpOutputs else given
  }

  /** The arguments of `create_http_request_node`; `None` stands for an argument left at `None`. */
  datatype HttpArgs = HttpArgs(nodeId: string, x: int, y: int, url: string, httpMethod: string, title: string,
                               desc: string, headers: string, params: string, authorizationType: string,
                               authorizationConfig: Option<map<string, Json>>, bodyType: string,
                               bodyData: Option<seq<Json>>, sslVerify: bool, maxConnectTimeout: int,
                               maxReadTimeout: int, maxWriteTimeout: int, retryEnabled: bool, maxRetries: int,
                               retryInterval: int)

  /** The authorization config: the given dictionary when non-empty, `None` (`JNull`) otherwise. */
  function AuthOf(a: HttpArgs): (auth: AuthConfig)
    ensures auth.typ == a.authorizationType
    ensures auth.config == JNull <==> a.authorizationConfig.None? || a.authorizationConfig.value == map[]
  {
    var config := a.authorizationConfig.GetOr(map[]);
    AuthConfig(a.authorizationType, if config != map[] then JObj(config) else JNull)
  }

  /** The node `create_http_request_node` builds: 244 by 83, method upper-cased, body data `[]` when none. */
  function HttpNodeOf(a: HttpArgs): (n: Node)
    ensures n.id == a.nodeId && n.width == 244 && n.height == 83 && n.position == Position(a.x, a.y)
    ensures n.data.typ == "http-request" && n.data.title == a.title && n.data.outputVariables == HttpOutputs
    ensures n.data.kind.HttpRequestKind? && n.data.kind.httpMethod == Upper(a.httpMethod)
    ensures n.data.kind.body == HttpBody(a.bodyType, a.bodyData.GetOr([]))
    ensures n.data.kind.timeout == HttpTimeout(a.maxConnectTimeout, a.maxReadTimeout, a.maxWriteTimeout)
    ensures n.data.kind.retryConfig == HttpRetryConfig(a.retryEnabled, a.maxRetries, a.retryInterval)
  {
    var kind := HttpRequestKind(Upper(a.httpMethod), a.url, AuthOf(a), a.headers, a.params,
                                HttpBody(a.bodyType, a.bodyData.GetOr([])), a.sslVerify,
                                HttpTimeout(a.maxConnectTimeout, a.maxReadTimeout, a.maxWriteTimeout),
                                HttpRetryConfig(a.retryEnabled, a.maxRetries, a.retryInterval));
    var data := NodeData("http-request", a.title, a.desc, [], PostInitOutputs([]), false, kind);
    NewNode(data, Position(a.x, a.y), a.nodeId, DefaultNodeType, 244, 83)
  }

  /** `create_http_request_node`. */
  function CreateHttpRequestNode(a: HttpArgs): (r: ToolReply)
    ensures r.NodeReply? && r.output.Some?
    ensures r.observation == "已经创建了一个名为'" + a.title + "'的HTTP请求节点。请求方法为" + Upper(a.httpMethod) +
                             "，目标URL为：" + a.url
  {
    Reply(HttpNodeOf(a), "已经创建了一个名为'" + a.title + "'的HTTP请求节点。请求方法为" + Upper(a.httpMethod) +
                         "，目标URL为：" + a.url)
  }

  /** The HTTP node publishes four references, body first and files last, each parsing back. */
  lemma HttpReferences(a: HttpArgs)
    requires IsPlainName(a.nodeId)
    ensures var refs := CreateHttpRequestNode(a).output.value;
      |refs| == 4 &&
      ParseVariable(refs[0]) == [a.nodeId, "body"] &&
      ParseVariable(refs[1]) == [a.nodeId, "status_code"] &&
      ParseVariable(refs[2]) == [a.nodeId, "headers"] &&
      ParseVariable(refs[3]) == [a.nodeId, "files"]
  {
    var n := HttpNodeOf(a);
    HttpOutputNamesPlain();
    OutputReferencesParseBack(n);
    assert CreateHttpRequestNode(a).output.value == OutputReferences(n);
    assert |OutputReferences(n)| == 4;
  }

  /** The four output names are plain selector names. */
  lemma HttpOutputNamesPlain()
    ensures forall i :: 0 <= i < |HttpOutputs| ==> IsPlainName(HttpOutputs[i].variable)
  {
    assert IsPlainName("body") && IsPlainName("status_code") && IsPlainName("headers") && IsPlainName("files");
  }
}
