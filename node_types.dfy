/**
 * The value records that node data is built from (the `type.py` file of each node kind),
 * together with the dictionary `dataclasses.asdict` makes of each.
 */
module NodeTypes {
  import opened Json

  /**
   * A named input or output bound to a selector path: `CodeVariable`, `EndOutput`,
   * `TemplateVariable` and `VariableReference` all have this shape.
   */
  datatype Binding = Binding(variable: string, valueSelector: seq<string>, valueType: string)
  {
    function ToJson(): Json
    {
      JObj(map["variable" := JStr(variable), "value_selector" := StrList(valueSelector),
               "value_type" := JStr(valueType)])
    }
  }

  /** Output declaration of a code node; `children` is `None` (`JNull`) unless given. */
  datatype CodeOutput = CodeOutput(typ: string, children: Json)

  datatype AuthConfig = AuthConfig(typ: string, config: Json)
  {
    function ToJson(): Json
    {
      JObj(map["type" := JStr(typ), "config" := config])
    }
  }

  datatype HttpBody = HttpBody(typ: string, data: seq<Json>)
  {
    function ToJson(): Json
    {
      JObj(map["type" := JStr(typ), "data" := JArr(data)])
    }
  }

  datatype HttpTimeout = HttpTimeout(maxConnectTimeout: int, maxReadTimeout: int, maxWriteTimeout: int)
  {
    function ToJson(): Json
    {
      JObj(map["max_connect_timeout" := JInt(maxConnectTimeout), "max_read_timeout" := JInt(maxReadTimeout),
               "max_write_timeout" := JInt(maxWriteTimeout)])
    }
  }

  datatype HttpRetryConfig = HttpRetryConfig(retryEnabled: bool, maxRetries: int, retryInterval: int)
  {
    function ToJson(): Json
    {
      JObj(map["retry_enabled" := JBool(retryEnabled), "max_retries" := JInt(maxRetries),
               "retry_interval" := JInt(retryInterval)])
    }
  }

  datatype IfElseCondition = IfElseCondition(id: string, variableSelector: seq<string>,
                                             comparisonOperator: string, value: Json, varType: string)
  {
    function ToJson(): Json
    {
      JObj(map["id" := JStr(id), "variable_selector" := StrList(variableSelector),
               "comparison_operator" := JStr(comparisonOperator), "value" := value, "varType" := JStr(varType)])
    }
  }

  datatype IfElseCase = IfElseCase(id: string, caseId: string, logicalOperator: string,
                                   conditions: seq<IfElseCondition>)
  {
    function ToJson(): Json
    {
      JObj(map["id" := JStr(id), "case_id" := JStr(caseId), "logical_operator" := JStr(logicalOperator),
               "conditions" := JArr(seq(|conditions|, i requires 0 <= i < |conditions| => conditions[i].ToJson()))])
    }
  }

  /** `LLMModel` with its `LLMCompletionParams` folded in as `temperature`. */
  datatype LlmModel = LlmModel(provider: string, name: string, mode: string, temperature: real)
  {
    function ToJson(): Json
    {
      JObj(map["provider" := JStr(provider), "name" := JStr(name), "mode" := JStr(mode),
               "completion_params" := JObj(map["temperature" := JReal(temperature)])])
    }
  }

  /** `LLMCompletionParams()` defaults to a temperature of 0.7. */
  const DefaultTemperature: real := 0.7

  datatype PromptTemplateItem = PromptTemplateItem(role: string, text: string)
  {
    function ToJson(): Json
    {
      JObj(map["role" := JStr(role), "text" := JStr(text)])
    }
  }

  datatype LlmContext = LlmContext(enabled: bool, variableSelector: seq<Json>)
  {
    function ToJson(): Json
    {
      JObj(map["enabled" := JBool(enabled), "variable_selector" := JArr(variableSelector)])
    }
  }

  datatype LlmVision = LlmVision(enabled: bool)
  {
    function ToJson(): Json
    {
      JObj(map["enabled" := JBool(enabled)])
    }
  }

  datatype LlmMemoryWindow = LlmMemoryWindow(enabled: bool, size: int)

  datatype LlmMemory = LlmMemory(window: LlmMemoryWindow, queryPromptTemplate: string, rolePrefix: map<string, string>)
  {
    function ToJson(): Json
    {
      JObj(map["window" := JObj(map["enabled" := JBool(window.enabled), "size" := JInt(window.size)]),
               "query_prompt_template" := JStr(queryPromptTemplate),
               "role_prefix" := JObj(map k | k in rolePrefix :: JStr(rolePrefix[k]))])
    }
  }

  /** `LLMContext()`, `LLMVision()` and `LLMMemory()` defaults. */
  const DefaultLlmContext := LlmContext(false, [])
  const DefaultLlmVision := LlmVision(false)
  const DefaultLlmMemory := LlmMemory(LlmMemoryWindow(false, 10), "{{#sys.query#}}\n\n{{#sys.files#}}",
                                      map["user" := "", "assistant" := ""])

  datatype LoopCondition = LoopCondition(id: string, varType: string, variableSelector: seq<string>,
                                         comparisonOperator: string, value: Json)
  {
    function ToJson(): Json
    {
      JObj(map["id" := JStr(id), "varType" := JStr(varType), "variable_selector" := StrList(variableSelector),
               "comparison_operator" := JStr(comparisonOperator), "value" := value])
    }
  }

  /** A loop variable; `value` is a constant, or a selector path when `valueType` is "variable". */
  datatype LoopVariable = LoopVariable(id: string, labelText: string, varType: string, valueType: string, value: Json)
  {
    function ToJson(): Json
    {
      JObj(map["id" := JStr(id), "label" := JStr(labelText), "var_type" := JStr(varType),
               "value_type" := JStr(valueType), "value" := value])
    }
  }

  /** One class of a question-classifier node. */
  datatype QuestionClass = QuestionClass(id: string, name: string)
  {
    function ToJson(): Json
    {
      JObj(map["id" := JStr(id), "name" := JStr(name)])
    }
  }

  /** A list of records, each turned into its dictionary. */
  function BindingsJson(bs: seq<Binding>): (r: Json)
    ensures r.JArr? && |r.items| == |bs|
    ensures forall i :: 0 <= i < |bs| ==> r.items[i] == bs[i].ToJson()
  {
    JArr(seq(|bs|, i requires 0 <= i < |bs| => bs[i].ToJson()))
  }
}
