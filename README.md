# Agentify core, modelled in Dafny

Agentify turns a user's plain-language requirement into a Dify workflow. The pipeline has three stages:

1. **Requirement.** The requirement pipeline asks the model for a clarifying questionnaire. It suspends until the user answers, then drafts a requirement document.
2. **Blueprint.** The blueprint pipeline turns the requirement document into a workflow description and a Mermaid diagram. A chat pipeline lets the user refine it.
3. **Workflow.** The workflow agent plans a to-do list, then calls node-building tools one at a time. Each tool returns a Dify node (start, LLM, code, HTTP request, if-else, loop, question classifier, template transform, variable aggregator, document extractor, answer, end, and the Tavily, Arxiv and spider tool nodes). The agent then joins the nodes with edges.

The web client follows the agent's progress. It has a questionnaire page that gathers answers and submits them. It also has a workflow chat page that:
- builds the API URL;
- reads the server-sent event stream;
- reconstructs the ordered step list from the workflow graph.

This project models that core as Dafny modules, one per component:

- **Json, Text, Wrappers.** The value, string and option layer shared by everything else.
- **NodeBase and NodeTypes.** Node data, its dictionary projection and the type-name table.
- **One module per node builder.** Each module gives the node's fixed fields, its dictionary form and the reply the agent reads back. The reply holds the node, an observation and the variable references it publishes.
- **ToolsBase, ExternalTools and Catalog.** The tool-node template filling (a deep update of nested dictionaries) and the tool list.
- **Edges.** Edge assembly from the SOP definition (the to-do plan). Every edge keeps the source handle `"source"`, as the code does.
- **LlmReply.** Extraction of text and fenced JSON from model replies.
- **RequirementPipeline, BlueprintPipeline and Executor.** The graph nodes and routing of the three agents. The LangGraph interrupt is a `Suspend` outcome.
- **Graphs, Errors, RequirementService and BlueprintService.** The id-to-record DAOs, the error codes and HTTP errors, and the services' status lifecycle: created, processing, then waiting for answers, completed or failed.
- **Questionnaire, WorkflowChat and WorkflowSteps.** The web client's questionnaire state, its chat stream handling and its step ordering.

Two behaviours of the web client follow from the code as written, and the model keeps both:
- `[^}]*` in the event pattern stops at the first `}`. A delta in the nested OpenAI format is therefore truncated and never parses from the stream (`WorkflowChat.MatchStopsAtFirstClose`).
- The pattern never captures `[DONE]`, so the `[DONE]` branch cannot be reached (`WorkflowChat.ProcessChunk`). The message is still marked complete when the stream ends.

## Model

| member | source | states |
|---|---|---|
| AnswerNode.AnswerData | api/biz/agent/workflow/dify_nodes/answer/node.py:7-21 | the data has type "answer", the given title, description and answer, and one text output `answer` |
| AnswerNode.AnswerNodeOf | api/biz/agent/workflow/dify_nodes/answer/tool.py:33-40 | the node has the given id and position, is 244 by 105, and carries the answer data |
| AnswerNode.CreateAnswerNode | api/biz/agent/workflow/dify_nodes/answer/tool.py:9-45 | the reply holds the node's dictionary, the observation naming the title and the content, and the one reference `[node id, "answer"]` |
| AnswerNode.AnswerNodeFacts | api/biz/agent/workflow/dify_nodes/answer/tool.py:33-45 | the data dictionary carries the answer, and the published reference parses back to `[node id, "answer"]` |
| StartNode.StartData | api/biz/agent/workflow/dify_nodes/start/node.py:7-15 | the data has type "start", the given title, description and variables, and no output variables |
| StartNode.CreateStartNode | api/biz/agent/workflow/dify_nodes/start/tool.py:9-34 | the reply holds a 244 by 140 node, the observation naming the title, and no references |
| StartNode.CreateStartNodeFacts | api/biz/agent/workflow/dify_nodes/start/tool.py:22-31 | the node dictionary keeps the given variables, in order |
| EndNode.EndData | api/biz/agent/workflow/dify_nodes/end/node.py:8-13 | the data has type "end", the given outputs, and no variables or output variables |
| EndNode.EndNodeOf | api/biz/agent/workflow/dify_nodes/end/tool.py:64-70 | the node has the given id and position, is 244 by 90, and carries the end data |
| EndNode.CreateEndNode | api/biz/agent/workflow/dify_nodes/end/tool.py:10-76 | one output per argument, with its selector string parsed into a path; the observation counts the outputs; no references are published |
| EndNode.EndDictFacts | api/biz/agent/workflow/dify_nodes/end/node.py:15-25 | `to_dict` writes the outputs back as plain dictionaries, one per output, in order |
| VariableAggregatorNode.AggregatorData | api/biz/agent/workflow/dify_nodes/variable_aggregator/node.py:8-23 | the data has type "variable-aggregator", the given references and output type, and the one string output `output` |
| VariableAggregatorNode.AggregatorNodeOf | api/biz/agent/workflow/dify_nodes/variable_aggregator/tool.py:62-68 | the node has the given id and position, is 244 by 131, and carries the aggregator data |
| VariableAggregatorNode.CreateVariableAggregatorNode | api/biz/agent/workflow/dify_nodes/variable_aggregator/tool.py:10-74 | one reference per given variable (none when the argument is absent); the observation counts them and names the output type; the one reference is `[node id, "output"]` |
| VariableAggregatorNode.AggregatorDictFacts | api/biz/agent/workflow/dify_nodes/variable_aggregator/node.py:25-36 | `to_dict` publishes the references as `variables`, in order, and drops `variable_references` |
| TemplateTransformNode.TemplateData | api/biz/agent/workflow/dify_nodes/template_transform/node.py:8-23 | the data has type "template-transform", the given bindings and template, and the one text output `output` |
| TemplateTransformNode.TemplateNodeOf | api/biz/agent/workflow/dify_nodes/template_transform/tool.py:64-70 | the node has the given id and position, is 244 by 54, and carries the template data |
| TemplateTransformNode.CreateTemplateTransformNode | api/biz/agent/workflow/dify_nodes/template_transform/tool.py:10-78 | one binding per given variable (none when absent); the observation names the title and description; the one reference is `[node id, "output"]` |
| TemplateTransformNode.TemplateDictFacts | api/biz/agent/workflow/dify_nodes/template_transform/node.py:25-36 | `to_dict` publishes the bindings as `variables`, in order, and drops `template_variables` |
| DocumentExtractorNode.ExtractorOutputs | api/biz/agent/workflow/dify_nodes/document_extractor/node.py:24-43 | the one `text` output is `array[string]` exactly for a file array and `string` otherwise |
| DocumentExtractorNode.ExtractorData | api/biz/agent/workflow/dify_nodes/document_extractor/node.py:7-43 | the data has type "document-extractor", the given selector and flag, and the outputs set after construction |
| DocumentExtractorNode.ExtractorNodeOf | api/biz/agent/workflow/dify_nodes/document_extractor/tool.py:42-65 | a 244 by 54 node; the selector is the parsed string; the output is an array exactly when the selector mentions "files" in any case |
| DocumentExtractorNode.CreateDocumentExtractorNode | api/biz/agent/workflow/dify_nodes/document_extractor/tool.py:67-76 | the reply's observation depends on the array flag; the one reference is `[node id, "text"]` |
| DocumentExtractorNode.FilesSelectorIsArray | api/biz/agent/workflow/dify_nodes/document_extractor/tool.py:43-55 | a selector that refers to a `files` variable gives an array output and the parsed path |
| DocumentExtractorNode.FileSelectorIsString | api/biz/agent/workflow/dify_nodes/document_extractor/tool.py:46-48 | a selector without "files" in it gives a string output |
| LlmNode.PromptTemplate | api/biz/agent/workflow/dify_nodes/llm/tool.py:51-54 | one prompt item per message, in order; the role defaults to "user" and the text to "" |
| LlmNode.LlmNodeOf | api/biz/agent/workflow/dify_nodes/llm/tool.py:56-75 | a 320 by 180 node of type "llm" in chat mode, with the given provider, model and temperature, and the outputs `text` and `usage` |
| LlmNode.CreateLlmNode | api/biz/agent/workflow/dify_nodes/llm/tool.py:14-85 | the reply's observation names the title and description |
| LlmNode.StopSequencesIgnored | api/biz/agent/workflow/dify_nodes/llm/tool.py:48-67 | the stop sequences never reach the node: any two choices give the same reply |
| LlmNode.LlmReferences | api/biz/agent/workflow/dify_nodes/llm/node.py:34-47 | the node publishes `text` then `usage`, and both references parse back |
| HttpRequestNode.PostInitOutputs | api/biz/agent/workflow/dify_nodes/http_request/node.py:21-48 | an empty output list becomes the four response outputs; a non-empty one is kept |
| HttpRequestNode.AuthOf | api/biz/agent/workflow/dify_nodes/http_request/tool.py:75-84 | the authorization keeps its type; its config is the given dictionary when that is non-empty, and null otherwise |
| HttpRequestNode.HttpNodeOf | api/biz/agent/workflow/dify_nodes/http_request/tool.py:77-125 | a 244 by 83 node of type "http-request"; the method is upper-cased; body data is `[]` when absent; timeouts and retries pass through unchanged |
| HttpRequestNode.CreateHttpRequestNode | api/biz/agent/workflow/dify_nodes/http_request/tool.py:11-133 | the reply's observation names the title, the upper-cased method and the URL |
| HttpRequestNode.HttpReferences | api/biz/agent/workflow/dify_nodes/http_request/node.py:21-48 | the node publishes four references, `body` first and `files` last, and each parses back |
| QuestionClassifierNode.ClassesOf | api/biz/agent/workflow/dify_nodes/question_classifier/tool.py:29-32 | one class per name, in order, with the id `str(i + 1)` |
| QuestionClassifierNode.ClassIdsNumbered | api/biz/agent/workflow/dify_nodes/question_classifier/tool.py:29-32 | each class id is all digits and reads back as its position counted from one |
| QuestionClassifierNode.ClassIdsDistinct | api/biz/agent/workflow/dify_nodes/question_classifier/tool.py:29-32 | no two classes share an id |
| QuestionClassifierNode.ClassifierData | api/biz/agent/workflow/dify_nodes/question_classifier/node.py:12-43 | the data has type "question-classifier", no instructions or topics, vision off, and the outputs `class_name` and `usage` |
| QuestionClassifierNode.ClassifierNodeOf | api/biz/agent/workflow/dify_nodes/question_classifier/tool.py:27-48 | a 320 by 240 node; the query is parsed into a selector; the model takes the given provider and name |
| QuestionClassifierNode.CreateQuestionClassifierNode | api/biz/agent/workflow/dify_nodes/question_classifier/tool.py:11-54 | the reply publishes `class_name` then `usage`, with the observation naming the title; an empty class list gives no classes, not the two defaults |
| QuestionClassifierNode.ClassifierDictFacts | api/biz/agent/workflow/dify_nodes/question_classifier/node.py:45-48 | the data dictionary lists the classes and the model, and drops `variables` |
| CodeNode.CodeOutputOf | api/biz/agent/workflow/dify_nodes/code/tool.py:69-72 | a declared output keeps its type and children, defaulting to "string" and null |
| CodeNode.ConvertOutputs | api/biz/agent/workflow/dify_nodes/code/tool.py:67-72 | the converted outputs have the declared names, in order, each completed with its defaults |
| CodeNode.OutputVariableFor | api/biz/agent/workflow/dify_nodes/code/node.py:51-58 | the output variable for an output is named after its key and carries its type |
| CodeNode.UpdateOutputVariables | api/biz/agent/workflow/dify_nodes/code/node.py:47-58 | the output variables are rebuilt from nothing, one per declared output, in the outputs' order |
| CodeNode.CodeData | api/biz/agent/workflow/dify_nodes/code/node.py:8-25 | the data has type "code", the given title and description, and the output variables rebuilt from the outputs |
| CodeNode.CodeNodeOf | api/biz/agent/workflow/dify_nodes/code/tool.py:86-92 | a 244 by 54 node at the given position holding that data |
| CodeNode.CodeOutputsOf | api/biz/agent/workflow/dify_nodes/code/tool.py:48-49 | the declared outputs are used, with their names, or else one string output `result` |
| CodeNode.CreateCodeNode | api/biz/agent/workflow/dify_nodes/code/tool.py:11-100 | the reply holds the node built from the parsed input bindings and completed outputs, and its references |
| CodeNode.CodeReferences | api/biz/agent/workflow/dify_nodes/code/tool.py:96-100 | the node publishes one reference per declared output, named after it, in order |
| CodeNode.DefaultCodeReference | api/biz/agent/workflow/dify_nodes/code/tool.py:48-49 | without declared outputs the node publishes exactly `{{#<id>.result#}}` |
| CodeNode.CodeDictFacts | api/biz/agent/workflow/dify_nodes/code/node.py:27-45 | the dictionary lists the input bindings under `variables`, drops `code_variables`, and its `outputs` keys are exactly the declared names, which are also the output variables' names |
| CodeNode.OutputNamesMatch | api/biz/agent/workflow/dify_nodes/code/node.py:27-45 | the keys of the `outputs` dictionary are exactly the names of the output variables rebuilt from the same outputs |
| IfElseNode.ConditionOf | api/biz/agent/workflow/dify_nodes/if_else/tool.py:55-67 | the `i`-th condition gets the id `cond_<i>`, the parsed variable, and "is", "" and "string" where nothing was given |
| IfElseNode.CaseOf | api/biz/agent/workflow/dify_nodes/if_else/tool.py:69-77 | a case uses its id, or `case_<index>`, as both id and case id, "and" as the default operator, and its converted conditions |
| IfElseNode.BuildCases | api/biz/agent/workflow/dify_nodes/if_else/tool.py:52-77 | the nested loops build exactly the cases that the case-by-case definition gives |
| IfElseNode.IfElseData | api/biz/agent/workflow/dify_nodes/if_else/node.py:8-16 | the data has type "if-else", the given title, description and cases, and no output variables |
| IfElseNode.IfElseNodeOf | api/biz/agent/workflow/dify_nodes/if_else/tool.py:85-91 | a 244 by 150 node at the given position |
| IfElseNode.CreateIfElseNode | api/biz/agent/workflow/dify_nodes/if_else/tool.py:11-97 | the reply holds the node dictionary, an observation naming the title, and an empty reference list |
| IfElseNode.DefaultCaseIdsDistinct | api/biz/agent/workflow/dify_nodes/if_else/tool.py:69 | two cases that were given no id never share the default one |
| IfElseNode.ConditionIdsDistinct | api/biz/agent/workflow/dify_nodes/if_else/tool.py:55-61 | no two conditions of one case share an id |
| IfElseNode.IfElseDictFacts | api/biz/agent/workflow/dify_nodes/if_else/node.py:18-21 | the data dictionary lists the cases and drops `variables` |
| LoopNode.LoopValueOf | api/biz/agent/workflow/dify_nodes/loop/tool.py:84-88 | a string value of a variable-valued loop variable is parsed into a selector path; any other value is kept, "" when absent |
| LoopNode.LoopVariableOf | api/biz/agent/workflow/dify_nodes/loop/tool.py:90-98 | a loop variable keeps its id, label and types, defaulting to "", "", "string" and "constant" |
| LoopNode.ConvertLoopVariables | api/biz/agent/workflow/dify_nodes/loop/tool.py:82-98 | the loop converts the loop variables one by one, in order |
| LoopNode.LoopConditionOf | api/biz/agent/workflow/dify_nodes/loop/tool.py:105-115 | the `i`-th break condition gets its id or `cond_<i>`, the parsed variable, and "string", "is" and "" by default |
| LoopNode.LoopConditionsOf | api/biz/agent/workflow/dify_nodes/loop/tool.py:101-115 | there is one condition per given break condition, and none when the argument is missing |
| LoopNode.ConvertBreakConditions | api/biz/agent/workflow/dify_nodes/loop/tool.py:101-115 | the loop, entered only for a non-empty list, builds exactly those conditions |
| LoopNode.DefaultConditionIdsDistinct | api/biz/agent/workflow/dify_nodes/loop/tool.py:109 | two unnamed break conditions never share an id |
| LoopNode.LoopOutputFor | api/biz/agent/workflow/dify_nodes/loop/node.py:27-32 | a loop variable's output variable is named after its label and keeps its type |
| LoopNode.LoopOutputCandidates | api/biz/agent/workflow/dify_nodes/loop/node.py:26-32 | one candidate output variable per loop variable, in order |
| LoopNode.DedupSameElements | api/biz/agent/workflow/dify_nodes/loop/node.py:33-34 | appending only what is not there yet keeps exactly the input's elements |
| LoopNode.DedupNoDuplicates | api/biz/agent/workflow/dify_nodes/loop/node.py:33-34 | and keeps each of them once |
| LoopNode.DedupOfDistinct | api/biz/agent/workflow/dify_nodes/loop/node.py:33-34 | and changes nothing in a list without repetitions |
| LoopNode.LoopOutputVariables | api/biz/agent/workflow/dify_nodes/loop/node.py:20-34 | `__post_init__` appends each loop variable's output variable unless an equal one is already there |
| LoopNode.LoopOutputsCover | api/biz/agent/workflow/dify_nodes/loop/node.py:20-34 | every loop variable has its output variable, every output variable comes from a loop variable, and none appears twice |
| LoopNode.DistinctLoopOutputsKept | api/biz/agent/workflow/dify_nodes/loop/node.py:20-34 | loop variables with different output variables each keep theirs, in order |
| LoopNode.LoopData | api/biz/agent/workflow/dify_nodes/loop/node.py:9-34 | the data has type "loop", the given settings, and the deduplicated output variables |
| LoopNode.LoopNodeOf | api/biz/agent/workflow/dify_nodes/loop/tool.py:117-137 | a 388 by 178 node whose start node's id is the loop id followed by "start" |
| LoopNode.LoopStartNodeOf | api/biz/agent/workflow/dify_nodes/loop/tool.py:139-155 | the loop-start node is 44 by 48 at (24, 68), of type "custom-loop-start", not selected |
| LoopNode.CreateLoopNode | api/biz/agent/workflow/dify_nodes/loop/tool.py:11-170 | the reply holds both node dictionaries, an observation counting the loop variables and break conditions, and no references |
| LoopNode.LoopStartPlacement | api/biz/agent/workflow/dify_nodes/loop/tool.py:157-164 | the start dictionary names its parent loop, sits at the loop's position plus (24, 68), and cannot be dragged |
| LoopNode.LoopStartIdentity | api/biz/agent/workflow/dify_nodes/loop/tool.py:147-159 | the start dictionary keeps the start node's own id and type |
| LoopNode.VariableValueParsed | api/biz/agent/workflow/dify_nodes/loop/tool.py:86-88 | a variable-valued loop variable given as `{{#a.b#}}` stores the path `[a, b]` |
| NodeBase.DefaultNodeVariable | api/biz/agent/workflow/dify_nodes/base.py:11-17 | a node variable defaults to a 48-character optional text input |
| NodeBase.CodeOutputsJson | api/biz/agent/workflow/dify_nodes/code/node.py:39-42 | the `outputs` dictionary has an entry for exactly the declared output names |
| NodeBase.AsDictKeys | api/biz/agent/workflow/dify_nodes/base.py:34-41 | `asdict` has one entry per common field and per field of the kind |
| NodeBase.KindFieldsKeys | api/biz/agent/workflow/dify_nodes/base.py:47 | `asdict` of the kind-specific fields has one entry per field of the kind |
| NodeBase.AsDictKindField | api/biz/agent/workflow/dify_nodes/base.py:47 | a kind's own field keeps its `asdict` value |
| NodeBase.AsDictCommon | api/biz/agent/workflow/dify_nodes/base.py:34-41 | `asdict` records the type, title and description as given |
| NodeBase.ExcludedKeys | api/biz/agent/workflow/dify_nodes/base.py:6-8 | the names to drop are the caller's, or only `output_variables` when none are given |
| NodeBase.BaseToDict | api/biz/agent/workflow/dify_nodes/base.py:43-50 | popping the excluded names one at a time leaves `asdict` minus exactly those names, values unchanged |
| NodeBase.OverrideKeeps | api/biz/agent/workflow/dify_nodes/base.py:43-50 | no kind's own `to_dict` touches a field outside the few it rewrites |
| NodeBase.DataToDictKeeps | api/biz/agent/workflow/dify_nodes/base.py:43-50 | any other field is in the dictionary exactly when it is in `asdict` and not excluded, with its `asdict` value |
| NodeBase.DataToDictExcludes | api/biz/agent/workflow/dify_nodes/base.py:43-50 | an excluded field is absent, except `variables` and `outputs`, which some kinds write back afterwards |
| NodeBase.DataToDictPlain | api/biz/agent/workflow/dify_nodes/base.py:43-50 | for a kind without its own `to_dict`, the dictionary is `asdict` minus the excluded names |
| NodeBase.NewNode | api/biz/agent/workflow/dify_nodes/base.py:56-74 | a node keeps its arguments, defaults to `left` and `right` handles, and starts with its absolute position equal to its position |
| NodeBase.NodeToDictReadBack | api/biz/agent/workflow/dify_nodes/base.py:76-81 | the node dictionary records the node id and its data's type and title |
| NodeBase.NodeDictId | api/biz/agent/workflow/dify_nodes/base.py:76-81 | the dictionary's `id` is the node id |
| NodeBase.NodeToDictIdentity | api/biz/agent/workflow/dify_nodes/base.py:76-81 | the node dictionary is an object whose `id` and `type` are the node's id and canvas type |
| NodeBase.NodeDictType | api/biz/agent/workflow/dify_nodes/base.py:76-81 | the dictionary's `type` is the node's canvas type |
| NodeBase.NodeDictData | api/biz/agent/workflow/dify_nodes/base.py:78-79 | an entry of the dictionary's data is the entry of the data's own dictionary |
| NodeBase.ReplyFacts | api/biz/agent/workflow/dify_nodes/base.py:76-99 | a node tool's reply carries the node dictionary, with the node's id and title, and the node's references |
| NodeBase.NodeDictKeys | api/biz/agent/workflow/dify_nodes/base.py:56-81 | the node dictionary has exactly the fields of `Node`, with the data dictionary under `data` |
| NodeBase.FullAndDefaultDicts | api/biz/agent/workflow/dify_nodes/base.py:76-88 | the full dictionary keeps the output variables; the default one drops them |
| NodeBase.VariableNames | api/biz/agent/workflow/dify_nodes/base.py:93-94 | the output names, one per output variable, in order |
| NodeBase.References | api/biz/agent/workflow/dify_nodes/base.py:96-99 | one `{{#<id>.<name>#}}` per output variable, in order |
| NodeBase.OutputReferences | api/biz/agent/workflow/dify_nodes/base.py:96-99 | the references follow the output names one for one |
| NodeBase.RunEnd | api/biz/agent/workflow/dify_nodes/base.py:103 | the end of the longest run of `[\w.-]` characters from a position |
| NodeBase.ReferenceAtIsRegexMatch | api/biz/agent/workflow/dify_nodes/base.py:103 | the pattern matches at a position exactly when a reference starts there, with its group ending at that run's end |
| NodeBase.FindReference | api/biz/agent/workflow/dify_nodes/base.py:103 | the search returns the first position where a reference starts, or none when there is none |
| NodeBase.ParseVariable | api/biz/agent/workflow/dify_nodes/base.py:102-107 | the path is never empty |
| NodeBase.ParseVariableFirstMatch | api/biz/agent/workflow/dify_nodes/base.py:102-106 | with a first match, the path is its group split on dots |
| NodeBase.ParseVariableNoMatch | api/biz/agent/workflow/dify_nodes/base.py:107 | without a match, the path is the whole string |
| NodeBase.ParseReference | api/biz/agent/workflow/dify_nodes/base.py:96-107 | a reference to a plainly named node and variable parses back to `[id, variable]` |
| NodeBase.RunEndOver | api/biz/agent/workflow/dify_nodes/base.py:103 | the run stops at the first character outside `[\w.-]` |
| NodeBase.OutputReferencesParseBack | api/biz/agent/workflow/dify_nodes/base.py:96-107 | every reference of plainly named outputs parses back to the node id and the variable |
| NodeBase.BindingOf | api/biz/agent/workflow/dify_nodes/code/tool.py:53-64 | an input binding parses its reference into a selector and defaults to "" and "string" |
| NodeBase.ConvertBindings | api/biz/agent/workflow/dify_nodes/code/tool.py:52-64 | the loop converts each argument, in order |
| NodeBase.BindingOfReference | api/biz/agent/workflow/dify_nodes/code/tool.py:53-64 | a binding given as a reference to a plainly named output selects that node and variable |
| ToolsBase.ToolOutputReferences | api/biz/agent/workflow/dify_nodes/tools/base.py:36-41 | a tool node publishes exactly three references, for `text`, `files` and `json`, in that order |
| ToolsBase.ToolReferenceUnparsed | api/biz/agent/workflow/dify_nodes/tools/base.py:36-41 | those references lack the `{{#...#}}` shape, so they parse to themselves and never to a node and a variable |
| ToolsBase.Merge | api/biz/agent/workflow/dify_nodes/tools/base.py:64-73 | the merged dictionary has the keys of both sides |
| ToolsBase.DeepUpdate | api/biz/agent/workflow/dify_nodes/tools/base.py:64-73 | the loop over the source's keys, recursing into nested dictionaries, produces the merge |
| ToolsBase.MergeStep | api/biz/agent/workflow/dify_nodes/tools/base.py:66-73 | writing one more source key's merged value keeps the loop state: done keys merged, the rest as in the target |
| ToolsBase.MergeUntouched | api/biz/agent/workflow/dify_nodes/tools/base.py:64-73 | keys the source does not mention keep the target's value |
| ToolsBase.MergeOverwrites | api/biz/agent/workflow/dify_nodes/tools/base.py:72-73 | a source value that is not a dictionary replaces the target's |
| ToolsBase.MergeEmpty | api/biz/agent/workflow/dify_nodes/tools/base.py:64-73 | an empty overlay changes nothing |
| ToolsBase.MergeSelf | api/biz/agent/workflow/dify_nodes/tools/base.py:64-73 | merging a dictionary into itself gives it back |
| ToolsBase.MergeIdempotent | api/biz/agent/workflow/dify_nodes/tools/base.py:64-73 | merging the same overlay twice equals merging it once |
| ToolsBase.CoversSelf | api/biz/agent/workflow/dify_nodes/tools/base.py:64-73 | every dictionary contains its own values at every depth |
| ToolsBase.MergeCovers | api/biz/agent/workflow/dify_nodes/tools/base.py:64-73 | after the merge every value of the overlay is found at every depth |
| ToolsBase.WithFixedFields | api/biz/agent/workflow/dify_nodes/tools/base.py:51-57 | writing the fixed fields adds at most the key `id` to the template |
| ToolsBase.Configured | api/biz/agent/workflow/dify_nodes/tools/base.py:50-62 | configuring succeeds exactly when the template has a `data`, `position` and `positionAbsolute` dictionary, and raises otherwise |
| ToolsBase.UpdateTemplateFields | api/biz/agent/workflow/dify_nodes/tools/base.py:50-62 | the seven writes followed by the merge of a non-empty overlay give the configured node |
| ToolsBase.GenerateConfig | api/biz/agent/workflow/dify_nodes/tools/base.py:43-77 | a missing template raises with its path; a loaded one is configured |
| ToolsBase.ConfiguredReadBack | api/biz/agent/workflow/dify_nodes/tools/base.py:50-62 | when the overlay leaves the fixed fields alone, the node has the configured id, title, description and position |
| ToolsBase.ConfiguredWithoutOverlay | api/biz/agent/workflow/dify_nodes/tools/base.py:50-62 | without an overlay, every other field is the template's |
| ToolsBase.ConfiguredCoversOverlay | api/biz/agent/workflow/dify_nodes/tools/base.py:59-60 | every value the overlay sets is found in the configured node, at every depth |
| ExternalTools.Param | api/biz/agent/workflow/dify_nodes/tools/tavily/tool.py:64-71 | a tool parameter is the dictionary of its type and its value |
| ExternalTools.WithReply | api/biz/agent/workflow/dify_nodes/tools/tavily/tool.py:76-83 | a configured node becomes a reply with the tool's three references; a loading or filling error is passed on |
| ExternalTools.CreateTavilySearchTool | api/biz/agent/workflow/dify_nodes/tools/tavily/tool.py:10-83 | a missing template raises with its path; otherwise the reply holds the node, an observation naming the title and query, and the tool references |
| ExternalTools.TavilyOverlayFacts | api/biz/agent/workflow/dify_nodes/tools/tavily/tool.py:61-74 | the overlay sets exactly the five parameters, with `days` 3 when none is given, and leaves the fixed fields alone |
| ExternalTools.ParameterFromCover | api/biz/agent/workflow/dify_nodes/tools/base.py:59-60 | a node that contains an overlay holds each parameter the overlay sets |
| ExternalTools.TavilyParametersSet | api/biz/agent/workflow/dify_nodes/tools/tavily/tool.py:63-72 | the Tavily node holds the query and the `days` value, 3 when none is given |
| ExternalTools.TavilyIgnoresExtras | api/biz/agent/workflow/dify_nodes/tools/tavily/tool.py:20-25 | `max_results`, the `include_*` flags and the domain filters do not change the result |
| ExternalTools.TavilyReadBack | api/biz/agent/workflow/dify_nodes/tools/tavily/tool.py:55-60 | on a well-shaped template the node has the given id, title, description and position |
| ExternalTools.CreateArxivSearchTool | api/biz/agent/workflow/dify_nodes/tools/arxiv/tool.py:10-62 | a missing template raises; otherwise the reply holds the node, an observation naming the title and query, and the tool references |
| ExternalTools.ArxivQuerySet | api/biz/agent/workflow/dify_nodes/tools/arxiv/tool.py:43-49 | the Arxiv node holds the query as its parameter |
| ExternalTools.ArxivIgnoresMaxResults | api/biz/agent/workflow/dify_nodes/tools/arxiv/tool.py:16 | `max_results` does not change the result |
| ExternalTools.ArxivReadBack | api/biz/agent/workflow/dify_nodes/tools/arxiv/tool.py:37-42 | on a well-shaped template the node has the given id, title and description |
| ExternalTools.CreateSpiderToolAsWritten | api/biz/agent/workflow/dify_nodes/tools/spider/tool.py:58-60 | as written, the builder returns the filled template itself, not a reply |
| ExternalTools.CreateSpiderTool | api/biz/agent/workflow/dify_nodes/tools/spider/tool.py:10-60 | with its siblings' reply shape: the node, an observation and the tool references |
| ExternalTools.SpiderVersionsAgree | api/biz/agent/workflow/dify_nodes/tools/spider/tool.py:58-60 | both versions build the same node |
| ExternalTools.SpiderParametersSet | api/biz/agent/workflow/dify_nodes/tools/spider/tool.py:45-55 | the spider node holds the URL, the user agent and the summary flag |
| ExternalTools.SpiderReadBack | api/biz/agent/workflow/dify_nodes/tools/spider/tool.py:39-44 | on a well-shaped template the node has the given id, title and description |
| Catalog.NamesDistinct | api/biz/agent/workflow/dify_nodes/__init__.py:17-35 | different builders are registered under different names |
| Catalog.ToolMap | api/biz/agent/workflow/dify_nodes/__init__.py:35 | the map's names are exactly the listed builders' names |
| Catalog.Lookup | api/biz/agent/workflow/dify_nodes/__init__.py:35 | a name is found exactly when it is in the map |
| Catalog.ToolsListShape | api/biz/agent/workflow/dify_nodes/__init__.py:17-34 | the catalog has fourteen builders, none twice, and not the loop builder |
| Catalog.LookupListed | api/biz/agent/workflow/dify_nodes/__init__.py:17-35 | each listed builder is found under its own name |
| Catalog.LookupSound | api/biz/agent/workflow/dify_nodes/__init__.py:35 | a name is found only for a listed builder, and then gives that builder |
| Catalog.LoopNotDispatched | api/biz/agent/workflow/dify_nodes/__init__.py:32-33 | the loop builder cannot be reached by name |
| Edges.NodeTypes | api/biz/agent/workflow/utils.py:35 | the type map has exactly the ids of the given nodes |
| Edges.NodeTypesLoop | api/biz/agent/workflow/utils.py:35 | the comprehension, one node at a time, builds that map |
| Edges.NodeTypesLast | api/biz/agent/workflow/utils.py:35 | an id's type is that of the last node with the id |
| Edges.CreateWorkflowEdges | api/biz/agent/workflow/utils.py:19-80 | the nested loops produce exactly the edges of the edge-by-edge definition |
| Edges.SourceEdges | api/biz/agent/workflow/utils.py:48-78 | the inner loop over one node's edges produces exactly that node's edges of the edge-by-edge definition |
| Edges.NodeEdgesSound | api/biz/agent/workflow/utils.py:48-78 | each edge joins an existing source to one of its listed targets that exists |
| Edges.NodeEdgesComplete | api/biz/agent/workflow/utils.py:48-78 | every listed edge from an existing source to an existing target is emitted |
| Edges.EdgeEmittedIff | api/biz/agent/workflow/utils.py:40-78 | an edge is emitted exactly when the SOP lists it and both its ends are generated nodes |
| Edges.EdgeShape | api/biz/agent/workflow/utils.py:57-76 | every edge has handles `source` and `target`, type `custom`, z-index 0, no loop flag, the endpoint types, and the id `<source>-source-<target>-target` |
| Edges.NodeEdgesCount | api/biz/agent/workflow/utils.py:48-78 | a node yields at most one edge per listed edge, and exactly one each when all targets exist |
| Edges.EdgeCount | api/biz/agent/workflow/utils.py:40-78 | at most one edge per listed edge, and exactly one each when every endpoint exists |
| Edges.NoEdgesWithoutNodes | api/biz/agent/workflow/utils.py:38 | an SOP without `nodes`, or an empty node list, gives no edges |
| Executor.LastToolCalls | api/biz/agent/workflow/node.py:13-14 | reading the last message's tool calls succeeds exactly when the history is non-empty and ends with a model message |
| Executor.FirstPending | api/biz/agent/workflow/node.py:33-36 | the position of the first task that is pending for the title, or none when no task is |
| Executor.MarkFirstChangesOne | api/biz/agent/workflow/node.py:33-36 | marking changes at most one task, the first pending one for the title, and only its status |
| Executor.CompletedCountUpdate | api/biz/agent/workflow/node.py:34-35 | completing one pending task raises the completed count by one |
| Executor.MarkFirstProgress | api/biz/agent/workflow/node.py:33-36 | a step completes exactly one task when one is pending for the title, and changes nothing otherwise |
| Executor.AgentState.constructor | api/biz/agent/workflow/node.py:12 | the agent state holds the given messages, nodes, variables and to-do list |
| Executor.AgentState.MarkCompleted | api/biz/agent/workflow/node.py:32-36 | the in-place loop over the to-do list marks the first pending task for the title and stops |
| Executor.FirstPendingAt | api/biz/agent/workflow/node.py:33-36 | the first pending task is the one pending task before which none is pending |
| Executor.ReadReply | api/biz/agent/workflow/node.py:25-31 | reading the reply succeeds exactly when it has an observation, an output list and a node title |
| Executor.RunTool | api/biz/agent/workflow/node.py:13-24 | no tool call gives no update; otherwise the first call's name is looked up, an unknown name raising |
| Executor.ToolExecutorNode | api/biz/agent/workflow/node.py:12-43 | with a tool call: one tool message, the node appended, its references appended to the variables, and the first pending task for its title completed; without one, nothing changes; an error changes nothing |
| Executor.SpiderReplyRejected | api/biz/agent/workflow/node.py:25 | the spider builder's reply as written cannot be read by the executor |
| Executor.SpiderReplyAccepted | api/biz/agent/workflow/node.py:25-31 | the corrected spider reply is read: its observation, references and title |
| Executor.ShouldContinue | api/biz/agent/workflow/node.py:94-101 | a tool call routes to the tool; otherwise the run ends exactly when every task is completed, and continues otherwise |
| Executor.Successor | api/biz/agent/workflow/graph.py:12-28 | every graph step except the end has a successor |
| Executor.SuccessorTable | api/biz/agent/workflow/graph.py:17-28 | planner and tool executor go to the agent; the tool executor is entered only on a tool call and the end only on the end route |
| Executor.FinishOnlyWhenDone | api/biz/agent/workflow/node.py:94-101 | the run ends only when the model asks for no tool and every task is completed |
| Executor.WorkflowAgentCache | api/biz/agent/workflow/graph.py:31-40 | the workflow agent's cache starts empty and compiles without a checkpointer |
| Executor.SummaryLines | api/biz/agent/workflow/node.py:47-49 | one summary line per catalog builder |
| Executor.NameOneLine | api/biz/agent/workflow/node.py:47-49 | no tool name spans two lines |
| Executor.ToolsSummaryLines | api/biz/agent/workflow/node.py:47-49 | with one-line descriptions, the summary has fourteen lines, line `i` describing the `i`-th builder |
| Graphs.CompiledApp.constructor | api/biz/agent/requirement/graph.py:30-32 | a compiled app records its graph and whether it has a checkpointer |
| Graphs.Compile | api/biz/agent/requirement/graph.py:30-32 | the requirement graph is compiled afresh, with a checkpointer, on every call |
| Graphs.AppCache.constructor | api/biz/agent/blueprint/graph.py:21 | a module-level app cache starts empty |
| Graphs.AppCache.Get | api/biz/agent/blueprint/graph.py:24-29 | the first call compiles a new app; every later call returns that same app |
| Graphs.GetTwice | api/biz/agent/blueprint/graph.py:24-29 | two calls on the same cache give the same app |
| BlueprintPipeline.Apply | api/biz/agent/blueprint/node.py:15-31 | a stage's returned keys replace the old ones and every other key is kept |
| BlueprintPipeline.GenerateWorkflowNode | api/biz/agent/blueprint/node.py:15-24 | the stage fails with `KeyError: 'final_document'` when the state has no document; otherwise it succeeds exactly when the reply parses, and then stores only `workflow`, the parsed reply |
| BlueprintPipeline.GenerateMermaidNode | api/biz/agent/blueprint/node.py:27-31 | the stage needs `workflow` and stores only `mermaid_code`, the reply drawn from it |
| BlueprintPipeline.MermaidNotStripped | api/biz/agent/blueprint/node.py:31 | a fenced Mermaid reply is stored with its fence |
| BlueprintPipeline.Next | api/biz/agent/blueprint/graph.py:16-19 | the workflow generator is followed by the Mermaid generator, and only it |
| BlueprintPipeline.GenerationNeedsDocument | api/biz/agent/blueprint/node.py:17 | a state without `final_document` ends the run at the first stage with `KeyError: 'final_document'`, whatever the replies |
| BlueprintPipeline.GenerationRunUpdates | api/biz/agent/blueprint/graph.py:13-19 | a run with a document and a parsing reply applies the workflow update, then the Mermaid update |
| BlueprintPipeline.GenerationRunResult | api/biz/agent/blueprint/graph.py:13-19 | given a document, a successful run stores the parsed workflow and the Mermaid code drawn from that same workflow |
| BlueprintPipeline.BlueprintWorkflowCache | api/biz/agent/blueprint/graph.py:21-29 | the blueprint app is compiled once, with a checkpointer |
| BlueprintPipeline.ContinueNode | api/biz/agent/blueprint/chat_graph.py:48-53 | the decision must be exactly "update" or "end", and is then stored |
| BlueprintPipeline.UpdateWorkflowNode | api/biz/agent/blueprint/chat_graph.py:37-43 | the stage succeeds exactly when its inputs exist and the reply parses, and then stores only `refined_workflow` |
| BlueprintPipeline.RefinementKeepsWorkflow | api/biz/agent/blueprint/chat_graph.py:37-43 | refinement leaves `workflow` as it was |
| BlueprintPipeline.MermaidIgnoresRefinement | api/biz/agent/blueprint/chat_graph.py:55-82 | the chat's Mermaid stage draws the unrefined `workflow`; the refined one does not change it |
| BlueprintPipeline.DecisionRouted | api/biz/agent/blueprint/chat_graph.py:45-78 | the chat enters at `chat`, which leads to `continue`; an accepted decision always has an edge: "update" leads to the refinement and "end" to the end |
| BlueprintPipeline.ChatWorkflowCache | api/biz/agent/blueprint/chat_graph.py:86-95 | the chat app is compiled once, with a checkpointer |
| LlmReply.FenceCharsAre | api/biz/agent/blueprint/node.py:21 | the characters of "```json" are the backtick and `j`, `s`, `o`, `n` |
| LlmReply.FenceStripIsOneStrip | api/biz/agent/blueprint/node.py:21 | the second strip does nothing, so the two strips are one strip of those five characters |
| LlmReply.FenceStripUnwraps | api/biz/agent/blueprint/node.py:21 | a fenced body comes back unchanged when it neither starts nor ends with one of the five characters |
| LlmReply.FenceStripKeepsNewlines | api/biz/agent/blueprint/node.py:21 | whitespace is not stripped, so a fence on its own lines leaves the line breaks around the body |
| LlmReply.ParseReply | api/biz/agent/blueprint/node.py:20-22 | content that is not text fails the assertion; text that does not parse raises; otherwise the parsed stripped text |
| RequirementPipeline.GenerateQuestionsNode | api/biz/agent/requirement/node.py:23-29 | the stage succeeds exactly when the reply parses, and then stores only `questionnaire`, the parsed reply |
| RequirementPipeline.UserAnswersNode | api/biz/agent/requirement/node.py:133-165 | answers already in the state are passed on with the additional requirements; otherwise the first run suspends with the questionnaire |
| RequirementPipeline.AnsweredNeverSuspends | api/biz/agent/requirement/node.py:143-148 | once answers are in the state the stage never suspends, whatever the resume value |
| RequirementPipeline.ResumeOutcome | api/biz/agent/requirement/node.py:152-165 | the stage suspends first; on resume a truthy value becomes the answers and a falsy one the error "未收到用户答案" |
| RequirementPipeline.CollectAnswers | api/biz/agent/requirement/node.py:53-74 | the loop builds one triple per dictionary entry, skipping entries of other types |
| RequirementPipeline.AnswerTriplesShape | api/biz/agent/requirement/node.py:53-74 | at most one triple per entry, and exactly one each, in order, when every entry is a dictionary |
| RequirementPipeline.UnwrapAnswers | api/biz/agent/requirement/node.py:43-47 | a resume dictionary with a `user_answers` key is unwrapped to that value; anything else is kept |
| RequirementPipeline.AdditionalRequirementsValue | api/biz/agent/requirement/node.py:94-119 | a non-empty string is passed as it is; an empty or missing value becomes "无额外要求" |
| RequirementPipeline.WrapperRequirementsWin | api/biz/agent/requirement/node.py:98-104 | when the resume dictionary carries the key, the state's own value plays no part |
| RequirementPipeline.FinalizeDocumentNode | api/biz/agent/requirement/node.py:32-130 | once corrected (answers read without the `UserAnswer` import), the stage's update is the model's reply to the collected inputs, or the type error for answers that are not a list |
| RequirementPipeline.FinalizeUpdateAsWritten | api/biz/agent/requirement/node.py:49-50 | as written, truthy answers (bare or wrapped) fail with the import error for `UserAnswer`, which the state module does not define; only a state without answers reaches the corrected stage's behaviour |
| RequirementPipeline.AnswersLostAsWritten | api/biz/agent/requirement/node.py:43-77 | a non-empty answer list fails as written, while once corrected it yields a final document |
| RequirementPipeline.OneAnswerLostAsWritten | api/biz/agent/requirement/node.py:49-77 | the one-answer list `[{"question_id": "q1", "selected_option": "A"}]` fails as written, and once corrected reaches the model as one triple with a null custom input and "无额外要求" |
| RequirementPipeline.WrongAnswerTypeSkipsModel | api/biz/agent/requirement/node.py:49-77 | once corrected, answers of the wrong type stop the stage with an error update, without consulting the model; as written the import raises first, so the error update is never returned |
| RequirementPipeline.WrappedAnswersUnwrapped | api/biz/agent/requirement/node.py:43-50 | `{"user_answers": [...]}` and the bare list give the same update: the same answers reach the model once corrected, and both fail alike as written |
| RequirementPipeline.LinearRun | api/biz/agent/requirement/graph.py:14-27 | from the entry the run visits the four stages once each, in order, and ends after four steps |
| RequirementPipeline.GetWorkflowApp | api/biz/agent/requirement/graph.py:30-32 | every call compiles a new app with a checkpointer |
| RequirementService.Field | api/biz/service/requirement.py:122-136 | `result.get(key)` is the stored value, or `None` for a missing key |
| RequirementService.Apply | api/dal/dao/requirement.py:31-57 | the status is always written; progress, questionnaire, final document, error message and answers only when truthy; the owner and the request never change |
| RequirementService.ApplyIdempotent | api/dal/dao/requirement.py:31-57 | the same update twice is the update once |
| RequirementService.ApplyAllStatus | api/dal/dao/requirement.py:31-57 | after several updates the status is the last one's and the owner is unchanged |
| RequirementService.ImportGraph | api/biz/service/requirement.py:106-108 | importing a name succeeds exactly when the requirement graph module defines it, and otherwise fails with an import error naming it |
| RequirementService.FirstRunUpdate | api/biz/service/requirement.py:120-153 | the first run ends waiting for answers exactly when it produced a questionnaire and no error, storing that questionnaire; otherwise it ends failed |
| RequirementService.ProcessUpdates | api/biz/service/requirement.py:95-153 | the task first marks the record processing, then writes the outcome of the run, or of the failed import |
| RequirementService.ProcessAlwaysFails | api/biz/service/requirement.py:106 | as written, every first run ends failed with the import error |
| RequirementService.QuestionnaireLostAsWritten | api/biz/service/requirement.py:106-137 | a run that produced a questionnaire is waiting for answers once corrected, failed as written |
| RequirementService.LastEvent | api/biz/service/requirement.py:231-234 | the kept event is the last non-empty one, and none exactly when all are empty |
| RequirementService.StreamResult | api/biz/service/requirement.py:231-234 | the loop keeps exactly that event |
| RequirementService.DropFenceOpen | api/biz/service/requirement.py:286-287 | one leading "```json" is removed, if present |
| RequirementService.DropFenceClose | api/biz/service/requirement.py:288-289 | one trailing "```" is removed, if present |
| RequirementService.TrimUnchanged | api/biz/service/requirement.py:285 | a string whose ends are not whitespace is its own strip |
| RequirementService.UnfenceWrapped | api/biz/service/requirement.py:285-290 | a fenced document gives back its body, stripped, whatever it starts or ends with |
| RequirementService.UnfenceKeepsLeadingLetters | api/biz/service/requirement.py:286-287 | only the exact prefix goes, so a body starting with a letter of "json" keeps it here, unlike the pipelines' strip |
| RequirementService.ParseFinalDocument | api/biz/service/requirement.py:276-299 | nothing for a falsy value; a message's content parsed after unfencing, or kept under `content` when it does not parse; a model's fields; a dictionary as it is |
| RequirementService.ContinueUpdate | api/biz/service/requirement.py:236-272 | the continuation completes exactly when there is no error and a final document, storing that document; otherwise it fails |
| RequirementService.ContinueUpdates | api/biz/service/requirement.py:215-225 | the import comes before the first status update, so a failed import writes only the failure |
| RequirementService.ContinueAlwaysFails | api/biz/service/requirement.py:216 | as written, no continuation completes: one update, to failed |
| RequirementService.FencedDocumentCompletes | api/biz/service/requirement.py:231-256 | once corrected, a stream whose last event holds a fenced final document and no error completes with the parsed document |
| RequirementService.StageKeyedEventFails | api/biz/service/requirement.py:231-260 | a last stream event keyed only by stage names, as the default updates-mode stream yields, ends even the corrected continuation failed with "最终文档生成失败" |
| RequirementService.SubmitRejection | api/biz/service/requirement.py:167-180 | a submission is accepted exactly for the owner of a record waiting for answers; a missing record is 404, another owner 403 |
| RequirementService.WrongStatusIsServerError | api/biz/service/requirement.py:175-203 | as written, a submission in the wrong state gets a 500 error |
| RequirementService.WrongStatusIsClientError | api/biz/service/requirement.py:176-180 | corrected, it gets a 400 error |
| RequirementService.RequirementStore.constructor | api/dal/dao/requirement.py:11 | the store starts empty |
| RequirementService.RequirementStore.Find | api/dal/dao/requirement.py:27-29 | a record is found exactly when it is stored |
| RequirementService.RequirementStore.CreateRequirement | api/biz/service/requirement.py:23-42 | a new pending record "等待处理中..." under a fresh id, and the first run scheduled for it |
| RequirementService.RequirementStore.UpdateStatus | api/dal/dao/requirement.py:31-57 | the record is updated, and an id without a record changes nothing |
| RequirementService.RequirementStore.UpdateAll | api/dal/dao/requirement.py:31-57 | a task's updates are applied one after another |
| RequirementService.RequirementStore.ProcessRequirementTask | api/biz/service/requirement.py:94-155 | the record ends as the corrected first run's updates leave it |
| RequirementService.RequirementStore.SubmitAnswers | api/biz/service/requirement.py:157-203 | a rejected submission changes nothing; an accepted one stores the answers, marks the record processing and schedules the continuation |
| RequirementService.RequirementStore.ContinueRequirementTask | api/biz/service/requirement.py:205-274 | the record ends as the corrected continuation's updates leave it |
| RequirementService.Lifecycle | api/biz/service/requirement.py:94-274 | the first run leaves a record waiting for answers or failed; the continuation leaves it completed or failed |
| BlueprintService.Apply | api/dal/dao/blueprint.py:28-50 | the status is always written; progress, workflow, Mermaid code and error message only when truthy; thread, name and owner never change |
| BlueprintService.ApplyAllStatus | api/dal/dao/blueprint.py:28-50 | after several updates the status is the last one's and thread, name and owner are unchanged |
| BlueprintService.CreateGuard | api/biz/service/blueprint.py:31-42 | creation passes exactly for the owner of a requirement with a final document; a missing one is "需求不存在", another owner "无权限访问此需求", no document "文档尚未生成" |
| BlueprintService.CreateRejectionAsWritten | api/biz/service/blueprint.py:29-56 | as written, creation is rejected exactly when a guard fails, but the catch-all re-wraps the guard's exception |
| BlueprintService.CreateRejection | api/biz/service/blueprint.py:31-42 | corrected, the guard's exception propagates as raised |
| BlueprintService.GuardsBecomeServerErrors | api/biz/service/blueprint.py:55-56 | as written, every guard answers 500, with its own text inside the detail |
| BlueprintService.MissingRequirementStatus | api/biz/service/blueprint.py:31-56 | a missing requirement is 404 once corrected, 500 as written |
| BlueprintService.InitialState | api/biz/service/blueprint.py:176-181 | the pipeline starts from the JSON-encoded final document, with `workflow`, `mermaid_code` and `error` all null |
| BlueprintService.CallDao | api/biz/service/blueprint.py:206 | calling a DAO method succeeds exactly when the blueprint DAO defines it, and otherwise raises an attribute error naming it |
| BlueprintService.OutcomeUpdate | api/biz/service/blueprint.py:186-227 | the task completes exactly when the run has no error and both a workflow and Mermaid code, storing both; otherwise it fails |
| BlueprintService.TaskUpdates | api/biz/service/blueprint.py:167-227 | the task first marks the blueprint processing, then writes the outcome |
| BlueprintService.IncompleteResult | api/biz/service/blueprint.py:205-227 | a run without error but without both results ends failed through the exception path as written, and with "蓝图生成失败！" once corrected |
| BlueprintService.GeneratedBlueprintCompletes | api/biz/service/blueprint.py:174-204 | run against the generation pipeline, a reply giving a truthy workflow and Mermaid code completes the blueprint with those two values |
| BlueprintService.Project | api/biz/service/blueprint.py:75-79 | a blueprint row keeps exactly its `status`, `id` and `created_at` entries |
| BlueprintService.ProjectIdempotent | api/biz/service/blueprint.py:75-79 | projecting twice is projecting once |
| BlueprintService.BlueprintList | api/biz/service/blueprint.py:58-85 | the requirement's guards propagate; otherwise each row, in order, projected |
| BlueprintService.BlueprintStore.constructor | api/dal/dao/blueprint.py:11 | the store starts empty |
| BlueprintService.BlueprintStore.UpdateStatus | api/dal/dao/blueprint.py:28-50 | the blueprint is updated, and an id without one changes nothing |
| BlueprintService.BlueprintStore.UpdateAll | api/dal/dao/blueprint.py:28-50 | a task's updates are applied one after another |
| BlueprintService.BlueprintStore.CreateBlueprint | api/biz/service/blueprint.py:22-52 | a rejected creation changes nothing; otherwise a new pending blueprint "我的流程" under a fresh id, with its generation scheduled on the final document |
| BlueprintService.BlueprintStore.ProcessBlueprintTask | api/biz/service/blueprint.py:166-229 | the blueprint ends as the corrected task's updates leave it, completed or failed |
| BlueprintService.AppIdByThreadAsWritten | api/biz/service/blueprint.py:231-250 | as written the call always raises: a missing requirement row on reading `requirement_name`, and otherwise on the undefined DAO method `get_lastest_blueprint`, so the agent is never built or run |
| BlueprintService.GetAppIdByThread | api/biz/service/blueprint.py:231-267 | once the DAO provides the latest blueprint: a missing requirement row raises and leaves the agent untouched; otherwise the agent is obtained, compiled at most once, and run, and the result is `None` or the run's exception |
| Errors.Lookup | api/common/enums/error_code.py:4-43 | `ErrorCode.<name>` gives the member with that name, and raises an attribute error for a name the enum does not declare |
| Errors.LookupByName | api/common/enums/error_code.py:19-43 | every member is found under its own name |
| Errors.NamesDistinct | api/common/enums/error_code.py:19-43 | no two members share a name |
| Errors.LookupUndeclared | api/common/enums/error_code.py:4-43 | a name no member carries fails the lookup |
| Errors.BadRequestUndeclared | api/common/enums/error_code.py:19-43 | `BAD_REQUEST` is not a member |
| Errors.CodesDistinct | api/common/enums/error_code.py:19-43 | every code is a distinct seven-digit number |
| Errors.ServiceLevels | api/common/enums/error_code.py:7-43 | the first digit is 2 exactly for the two Dify errors, and 1 for the rest |
| Errors.PositionalStatus | api/common/exceptions/general_exception.py:24 | `int(str(code)[1:4])` fails exactly for a code below 10, whose slice is empty |
| Errors.SevenDigitStatus | api/common/exceptions/general_exception.py:24 | for a seven-digit code the status is digits 2 to 4, that is `code / 1000 % 1000` |
| Errors.StatusDefined | api/common/exceptions/general_exception.py:24 | every member's status is defined |
| Errors.Detail | api/common/exceptions/general_exception.py:22 | the text starts with the message, and is only the message exactly when the detail is absent or empty |
| Errors.DetailReadBack | api/common/exceptions/general_exception.py:22 | a non-empty detail can be read back after the message and ": " |
| Errors.EmptyDetailIsNoDetail | api/common/exceptions/general_exception.py:22 | an absent detail and an empty one give the same text |
| Errors.GeneralException | api/common/exceptions/general_exception.py:13-26 | the exception exists exactly when the status is defined, and then carries the code, the composed text and that status |
| Errors.GeneralStatus | api/common/exceptions/general_exception.py:24 | for every member the status is digits 2 to 4 of its code |
| Errors.GenericStatuses | api/common/enums/error_code.py:9-38 | for every generic member the status is 400, 401, 403, 404, 500 or 999, as the table's rule says |
| Errors.CommonStatuses | api/common/enums/error_code.py:26-32 | `NOT_FOUND` gives 404, `FORBIDDEN` 403 and `INTERNAL_SERVER_ERROR` 500 |
| Errors.DifyCodeAsGeneral | api/common/enums/error_code.py:41-43 | a Dify code raised as a general exception gets status 1, because the rule is positional |
| Errors.DifyException | api/common/exceptions/dify_exception.py:13-26 | the Dify exception has the same code and text, always with status 400 |
| Errors.ExceptionsAgree | api/common/exceptions/dify_exception.py:13-26 | the two exceptions differ only in their status |
| Errors.Raise | api/common/exceptions/general_exception.py:13-26 | raising a member with a detail gives its code, its positional status and the composed text |
| NodeTypes.BindingsJson | api/biz/agent/workflow/dify_nodes/code/node.py:30-37 | the bindings become a list of dictionaries, one per binding, in order |
| Text.Strip | api/biz/agent/blueprint/node.py:21 | `str.strip(chars)` removes a set of characters from both ends: the result's ends lie outside the set, and it is empty exactly when every character is in the set |
| Text.StripIdempotent | api/biz/agent/blueprint/node.py:21 | stripping twice with the same set strips nothing more |
| Text.StripSubsetAbsorbed | api/biz/agent/blueprint/node.py:21 | a second strip with a subset of the first set changes nothing |
| Text.StripFrame | api/biz/agent/blueprint/node.py:21 | stripping a body framed by set characters, whose own ends lie outside the set, gives the body |
| Text.Split | api/biz/agent/workflow/dify_nodes/base.py:106 | `str.split(sep)` gives at least one part, none holding the separator, and joining them gives the string back |
| Text.SplitJoin | api/biz/agent/workflow/dify_nodes/base.py:106 | splitting the join of separator-free parts gives the parts back |
| Text.NatToString | api/biz/agent/workflow/dify_nodes/question_classifier/tool.py:31 | `str(n)` is decimal digits without a leading zero |
| Text.ParseNatToString | api/biz/agent/workflow/dify_nodes/question_classifier/tool.py:31 | `int(str(n)) == n` |
| Text.Upper | api/biz/agent/workflow/dify_nodes/http_request/tool.py:107 | `str.upper()` on ASCII letters, the length unchanged |
| Text.Lower | api/biz/agent/workflow/dify_nodes/document_extractor/tool.py:47 | `str.lower()` on ASCII letters, the length unchanged |
| WorkflowSteps.StepKindLabels | web/src/pages/WorkflowChat.jsx:375-407 | two known node types with the same label are the same type; an unknown type gets "ai_processing" and "处理", a label no known type has |
| WorkflowSteps.Description | web/src/pages/WorkflowChat.jsx:414 | a non-empty node description is kept; an empty one becomes `执行<title>操作` |
| WorkflowSteps.StepOf | web/src/pages/WorkflowChat.jsx:410-419 | a step carries the node's id, title, type, edges, kind and description |
| WorkflowSteps.Targets | web/src/pages/WorkflowChat.jsx:426-435 | the non-empty targets of a node's edges |
| WorkflowSteps.NewTargets | web/src/pages/WorkflowChat.jsx:427-434 | the targets queued are exactly the non-empty ones not yet visited |
| WorkflowSteps.Enqueue | web/src/pages/WorkflowChat.jsx:426-435 | the loop over a node's edges appends those targets to the queue, in edge order |
| WorkflowSteps.Traverse | web/src/pages/WorkflowChat.jsx:358-437 | the breadth-first loop makes one step per node reachable from the start, each once, the start first, each built from its node; the step ids are exactly the breadth-first order `BfsOrder`, targets queued in edge order |
| WorkflowSteps.BfsLeaves | web/src/pages/WorkflowChat.jsx:358-437 | a queue of distinct unvisited nodes without edges is visited exactly in queue order |
| WorkflowSteps.BfsChildrenInEdgeOrder | web/src/pages/WorkflowChat.jsx:358-437 | a start node whose targets have no edges of their own is followed by those targets in edge order |
| WorkflowSteps.BfsLeaf | web/src/pages/WorkflowChat.jsx:366-381 | an unvisited node without edges at the head of the queue is visited and adds nothing to the queue |
| WorkflowSteps.BfsBegin | web/src/pages/WorkflowChat.jsx:359-362 | before the loop, the queue holding the start alone still yields the whole breadth-first order |
| WorkflowSteps.BfsVisit | web/src/pages/WorkflowChat.jsx:366-435 | visiting the queue's head appends the next id of the breadth-first order |
| WorkflowSteps.BfsSkip | web/src/pages/WorkflowChat.jsx:366-370 | skipping a visited, empty or missing id leaves the remaining order unchanged |
| WorkflowSteps.BfsDone | web/src/pages/WorkflowChat.jsx:437 | an empty queue means the steps are the whole breadth-first order |
| WorkflowSteps.FindHandle | web/src/pages/WorkflowChat.jsx:461-476 | `edges.find` gives the first edge with the handle, or none when no edge has it |
| WorkflowSteps.NextEdge | web/src/pages/WorkflowChat.jsx:457-476 | a node with edges has a next edge: the first with the preferred handle when there is one, else the first edge |
| WorkflowSteps.Followed | web/src/pages/WorkflowChat.jsx:478-480 | the target the trace follows is one of the node's targets |
| WorkflowSteps.Trace | web/src/pages/WorkflowChat.jsx:448-482 | the trace is empty exactly when the start is missing, visited or no node; otherwise it starts there and holds only unvisited nodes |
| WorkflowSteps.TraceDistinct | web/src/pages/WorkflowChat.jsx:449-454 | the trace has no repeated node |
| WorkflowSteps.TraceFollowsEdges | web/src/pages/WorkflowChat.jsx:478-480 | each node of the trace is followed by the target of its next edge |
| WorkflowSteps.TraceStops | web/src/pages/WorkflowChat.jsx:449-480 | the trace ends where the next edge is missing or empty, or leads to a node already on the trace or to no node |
| WorkflowSteps.MainPathReachable | web/src/pages/WorkflowChat.jsx:484 | the main path is distinct and every node on it is reachable, so the traversal has a step for it |
| WorkflowSteps.SideCount | web/src/pages/WorkflowChat.jsx:495-497 | the side steps are at most all the steps |
| WorkflowSteps.Renumbered | web/src/pages/WorkflowChat.jsx:487-499 | renumbering keeps the steps, in order, adding a number and a main-path flag to each |
| WorkflowSteps.Renumber | web/src/pages/WorkflowChat.jsx:487-499 | the loop with its side counter produces exactly that renumbering |
| WorkflowSteps.SideNumbersFollowTraversal | web/src/pages/WorkflowChat.jsx:496 | side steps are numbered in traversal order |
| WorkflowSteps.MainCount | web/src/pages/WorkflowChat.jsx:491-494 | the main-path steps are as many as the path's nodes that have a step |
| WorkflowSteps.RenumberedMainPositions | web/src/pages/WorkflowChat.jsx:493 | a main-path step is numbered by its position on the path |
| WorkflowSteps.RenumberedDistinct | web/src/pages/WorkflowChat.jsx:487-499 | with distinct step ids no two steps get the same number |
| WorkflowSteps.RenumberedWithin | web/src/pages/WorkflowChat.jsx:487-499 | when the main path's nodes all have steps, the numbers lie within 1..n |
| WorkflowSteps.Insert | web/src/pages/WorkflowChat.jsx:506 | inserting adds exactly the one element, and the result starts with it or with the old first element |
| WorkflowSteps.InsertSorted | web/src/pages/WorkflowChat.jsx:506 | inserting into a sequence sorted by step number keeps it sorted |
| WorkflowSteps.InsertStrict | web/src/pages/WorkflowChat.jsx:506 | inserting a new number keeps the sequence strictly increasing |
| WorkflowSteps.SortSteps | web/src/pages/WorkflowChat.jsx:506 | the sort is a permutation and is sorted by step number |
| WorkflowSteps.SortStrict | web/src/pages/WorkflowChat.jsx:506 | distinct numbers come out strictly increasing |
| WorkflowSteps.ExactNumbers | web/src/pages/WorkflowChat.jsx:487-506 | strictly increasing numbers within 1..n on n steps are exactly 1, 2, ..., n |
| WorkflowSteps.RearrangedExact | web/src/pages/WorkflowChat.jsx:487-506 | a strictly sorted rearrangement with numbers within 1..n holds each step at the position its number names |
| WorkflowSteps.SortedExact | web/src/pages/WorkflowChat.jsx:506 | sorting such steps puts them where their numbers say |
| WorkflowSteps.RearrangedIds | web/src/pages/WorkflowChat.jsx:487-506 | a rearrangement of the renumbered steps holds the same step ids |
| WorkflowSteps.RearrangedIdsDistinct | web/src/pages/WorkflowChat.jsx:487-506 | and holds each of them once |
| WorkflowSteps.RearrangedMain | web/src/pages/WorkflowChat.jsx:487-506 | the main path takes the first positions, in order, and only it is flagged main |
| WorkflowSteps.RearrangedShape | web/src/pages/WorkflowChat.jsx:487-506 | the rearrangement is numbered 1..n, has the reachable ids once each, and the main path first |
| WorkflowSteps.SortedRenumbering | web/src/pages/WorkflowChat.jsx:487-506 | sorting the renumbered steps gives that shape |
| WorkflowSteps.WithoutMembers | web/src/pages/WorkflowChat.jsx:495-497 | the side ids are exactly the ids not on the main path |
| WorkflowSteps.WithoutLength | web/src/pages/WorkflowChat.jsx:495-497 | there are as many side ids as side steps |
| WorkflowSteps.WithoutAt | web/src/pages/WorkflowChat.jsx:495-497 | a side step's id is the side id at the count of side steps before it, which is the number the counter gives it |
| WorkflowSteps.SideCountOfCovered | web/src/pages/WorkflowChat.jsx:487-499 | when every main-path node has a step, the side steps number all steps less the main path |
| WorkflowSteps.NumberPastMain | web/src/pages/WorkflowChat.jsx:493-497 | a step numbered past the main path is the side id its number counts to |
| WorkflowSteps.ArrangedOrigin | web/src/pages/WorkflowChat.jsx:487-506 | each sorted position holds a traversed step numbered with that position |
| WorkflowSteps.SideSlice | web/src/pages/WorkflowChat.jsx:495-506 | the positions after the main path hold the side ids, in order |
| WorkflowSteps.SideStepsInOrder | web/src/pages/WorkflowChat.jsx:487-506 | after sorting, the steps off the main path follow it in traversal order |
| WorkflowSteps.ParseWorkflowSteps | web/src/pages/WorkflowChat.jsx:346-507 | no steps when the data, its nodes or its start are missing; otherwise one step per reachable node, numbered 1..n in order, the main path first at its own positions, then the other nodes in breadth-first order |
| WorkflowChat.ApiUrl | web/src/pages/WorkflowChat.jsx:23-34 | an unset or blank base leaves the path relative; otherwise the base without its trailing `/` run, followed by the path |
| WorkflowChat.ApiUrlTrailingSlash | web/src/pages/WorkflowChat.jsx:32-33 | one more trailing `/` on a configured base gives the same URL |
| WorkflowChat.SlashNotBlank | web/src/pages/WorkflowChat.jsx:27 | a base ending in `/` is never blank |
| WorkflowChat.SlashStripped | web/src/pages/WorkflowChat.jsx:32 | the removal treats one more trailing `/` like the others |
| WorkflowChat.SameCleanBase | web/src/pages/WorkflowChat.jsx:32-33 | two non-blank bases that lose their slashes to the same text give the same URL |
| WorkflowChat.ApiUrlSlashesOnly | web/src/pages/WorkflowChat.jsx:27-33 | a base of slashes only puts the path at the server root |
| WorkflowChat.SkipSpace | web/src/pages/WorkflowChat.jsx:255 | `\s*` ends at the first character that is not JavaScript white space |
| WorkflowChat.FindClose | web/src/pages/WorkflowChat.jsx:255 | `[^}]*` ends at the first `}` |
| WorkflowChat.SkipSpaceAt | web/src/pages/WorkflowChat.jsx:255 | that end is the only index with those two properties |
| WorkflowChat.MatchAt | web/src/pages/WorkflowChat.jsx:255 | a match of `data:\s*\{[^}]*\}` tried at an index is a well-formed data event |
| WorkflowChat.DataMatches | web/src/pages/WorkflowChat.jsx:255 | every match the global search returns is a data event |
| WorkflowChat.SingleEventMatched | web/src/pages/WorkflowChat.jsx:255 | a chunk that is one well-formed event is matched whole |
| WorkflowChat.MatchStopsAtFirstClose | web/src/pages/WorkflowChat.jsx:255 | an event whose JSON holds a `}` before its last one is matched only up to that first `}` |
| WorkflowChat.JsonPartOfEvent | web/src/pages/WorkflowChat.jsx:259-262 | a matched event's JSON text runs from `{` to its only `}`, so it is never the end marker `[DONE]` |
| WorkflowChat.Index0 | web/src/pages/WorkflowChat.jsx:288 | `value[0]` is defined for a non-empty array or string |
| WorkflowChat.Member | web/src/pages/WorkflowChat.jsx:284-292 | `value.key` is defined exactly for an object with that key |
| WorkflowChat.DeltaContent | web/src/pages/WorkflowChat.jsx:288-289 | the OpenAI-style content is truthy whenever the `&&` chain gives one |
| WorkflowChat.ContentToAdd | web/src/pages/WorkflowChat.jsx:280-294 | reading throws exactly for a null payload; otherwise a defined `chunk` wins, then the OpenAI content, then a defined `content`, else "" |
| WorkflowChat.Keys | web/src/pages/WorkflowChat.jsx:284-292 | the member names are exactly the defined keys |
| WorkflowChat.Contribution | web/src/pages/WorkflowChat.jsx:279-311 | an event adds something only when its text parses and the picked content is truthy, and then adds that content |
| WorkflowChat.NullChunkShadowsContent | web/src/pages/WorkflowChat.jsx:284-286 | a `chunk` that is `null` hides the `content` of the same payload |
| WorkflowChat.OpenAiDeltaContributes | web/src/pages/WorkflowChat.jsx:288-289 | a payload without `chunk` whose `choices[0].delta.content` is text adds that text |
| WorkflowChat.EmptyChunkContributesNothing | web/src/pages/WorkflowChat.jsx:284-296 | an empty `chunk` adds nothing, whatever else the payload holds |
| WorkflowChat.AppendTo | web/src/pages/WorkflowChat.jsx:297-306 | only the message with the id grows by the text and becomes incomplete |
| WorkflowChat.MarkComplete | web/src/pages/WorkflowChat.jsx:263-267 | only the message with the id becomes complete |
| WorkflowChat.FeedEvents | web/src/pages/WorkflowChat.jsx:257-312 | matched events never stop the stream, and the message with the id receives exactly the streamed text |
| WorkflowChat.AbsorbEvent | web/src/pages/WorkflowChat.jsx:279-311 | one event extends what the message has received by its contribution |
| WorkflowChat.ProcessMatches | web/src/pages/WorkflowChat.jsx:257-312 | the loop over the matches does exactly what feeding them one by one does, stopping at the end marker |
| WorkflowChat.FeedStops | web/src/pages/WorkflowChat.jsx:276 | once the end marker has stopped the stream, later events change nothing |
| WorkflowChat.ProcessChunk | web/src/pages/WorkflowChat.jsx:252-312 | a chunk never stops the stream, and the message receives the text of the chunk's events, in order |
| Questionnaire.Entry | web/src/pages/Questionnaire.jsx:193-206 | a question contributes an entry exactly when it has a chosen option; a custom entry only for `CUSTOM` with a non-empty custom text |
| Questionnaire.CustomWithoutTextIsSelected | web/src/pages/Questionnaire.jsx:195-205 | `CUSTOM` without a custom text is sent as the chosen option `"CUSTOM"` |
| Questionnaire.BlankCustomTextIsSentEmpty | web/src/pages/Questionnaire.jsx:195-199 | a custom text of spaces only is sent, trimmed to nothing |
| Questionnaire.AnswerList | web/src/pages/Questionnaire.jsx:191-206 | the list has at most one entry per question |
| Questionnaire.AnswerListEntries | web/src/pages/Questionnaire.jsx:191-206 | the list holds exactly the questions' entries |
| Questionnaire.AnswerListInOrder | web/src/pages/Questionnaire.jsx:193 | the list's ids are the question ids, in order, with the unanswered ones left out |
| Questionnaire.AllAnsweredListIsFull | web/src/pages/Questionnaire.jsx:191-206 | when every question is answered, each gives exactly its entry, at its own position |
| Questionnaire.AnsweredEntry | web/src/pages/Questionnaire.jsx:77-199 | an answered question gives an entry, and one that allows custom answers never sends a blank custom text |
| Questionnaire.AdditionalRequirements | web/src/pages/Questionnaire.jsx:210 | the text is sent as `null` exactly when it is blank, and otherwise trimmed |
| Questionnaire.AnswerKeepsOthers | web/src/pages/Questionnaire.jsx:88-99 | answering one question leaves every other question's entry as it was |
| Questionnaire.OptionChosen | web/src/pages/Questionnaire.jsx:88-99 | choosing an ordinary option makes it the question's entry and the question answered |
| Questionnaire.Page.constructor | web/src/pages/Questionnaire.jsx:29-35 | the page starts at the first question with nothing answered and no additional text |
| Questionnaire.Page.IsCurrentAnswered | web/src/pages/Questionnaire.jsx:77-86 | reading the current question fails exactly when it is out of range; otherwise the answer is whether it is answered |
| Questionnaire.Page.HandleAnswer | web/src/pages/Questionnaire.jsx:88-99 | the choice is recorded, and any choice but `CUSTOM` drops that question's custom text; nothing else changes |
| Questionnaire.Page.HandleCustomAnswer | web/src/pages/Questionnaire.jsx:101-106 | the custom text is recorded; nothing else changes |
| Questionnaire.Page.HandleNext | web/src/pages/Questionnaire.jsx:108-114 | the next question, or after the last one the additional-requirements view |
| Questionnaire.Page.HandlePrevious | web/src/pages/Questionnaire.jsx:240-246 | the additional-requirements view is left, or else the page goes back one question, never below the first |
| Questionnaire.Page.EditAdditional | web/src/pages/Questionnaire.jsx:484-487 | the text box sets the additional text and nothing else |
| Questionnaire.Page.SubmitAnswers | web/src/pages/Questionnaire.jsx:185-211 | the submission is the answer list of the questions in order, with the additional text |
| Questionnaire.Page.SkipAdditionalAsWritten | web/src/pages/Questionnaire.jsx:248-251 | as written, the text is cleared but the submission carries the text typed before |
| Questionnaire.Page.SkipAdditional | web/src/pages/Questionnaire.jsx:248-251 | as intended, the text is cleared and the submission carries none |
| Questionnaire.SkipSendsClearedText | web/src/pages/Questionnaire.jsx:248-251 | the skip as written still sends a non-blank text typed before skipping, unlike the intended one |

## Left out

- Model calls (the planner, agent, chat, requirement and blueprint prompts). Each model's reply is an input or a function-typed parameter, because the model is outside the program.
- `json.loads`, `json.dumps` and `JSON.parse` are parameters (`Parser`) or the `Json` value itself. Textual JSON syntax and its escapes are not modelled.
- Python `str()` and JavaScript `String()` of a non-string value go through a `show` parameter. Their exact formatting is not modelled.
- Dictionary key order is not modelled, because `Json` objects are maps. Anything that depends on insertion order of dictionaries (the order of keys in an emitted node) is outside the model.
- The LangGraph runtime is not modelled: checkpointers, threads, the `add_messages` reducer and streaming. The graphs are modelled by their nodes and routing functions. The `interrupt` is a `Suspend` outcome.
- Database sessions and SQL are not modelled: the DAOs are maps from id to record. Timestamps and uuid generation are parameters.
- The FastAPI controllers, authentication, the network and server-sent event transport are not modelled: the services are called directly.
- Template file loading is not modelled: the tool-node templates are passed in as values.
- Log and print output is not modelled.
- planner_node is modelled only for the tools summary it builds. Its prompt, its model call and its to-do parsing are model I/O.
- agent_node, chat_node and generate_draft_node are not modelled. Each only calls the model and stores the reply unchanged.
- get_requirement_status, get_latest_blueprint, get_blueprint_status and update_blueprint_by_thread are not modelled. They are read-backs and updates through the DAO, outside the modelled pipelines.
- Floating point and the progress percentages the services report are not modelled. Only the status and progress message are kept.
- The per-tool `node.py` files of the Tavily, Arxiv and spider tools and their `get_tool_name` helpers are not part of this model. Only the tool builders and the shared template filling are.
- Text.Upper: only ASCII letters are upper-cased; Unicode case mapping is not modelled.
- Text.Lower: only ASCII letters are lower-cased; Unicode case mapping is not modelled.
- Omitted tool arguments: every builder takes the arguments the agent may leave out (titles, descriptions, the code language, the HTTP options, the spider's user agent, the model provider, name and temperature) as given. The tool framework fills an omitted one with the default in the tool's signature before the body runs, and the model starts at the body. Defaults the bodies apply themselves are modelled: Tavily's `days`, the code node's `outputs` and `variables`, the template node's `variables`.
- The node data classes' own field defaults (for example `StartNodeData`'s single unnamed variable) are not modelled. Every tool passes those fields explicitly, so no modelled path reaches them.
- NodeBase.RunEnd: the regex class `\w` is taken as ASCII letters, digits and underscore. Unicode word characters are left out.
- WorkflowChat.ProcessChunk: each chunk is matched on its own, as the client does. An event split across two chunks is therefore lost, in the model as in the code.
- WorkflowSteps.ParseWorkflowSteps: the breadth-first pass assigns provisional step numbers that a later pass overwrites. Only the final numbering is modelled.
- WorkflowSteps.ParseWorkflowSteps: steps are renumbered in a returned sequence, not by mutating the step objects in place. Aliasing of those objects is not modelled.
- RequirementService.ContinueUpdate: each stream event is read as the full graph state, so `result.get("final_document")` can find the document. A compiled graph streams in the "updates" mode by default, with events of the form `{stage name: update}`. Under that reading no continuation completes, even once corrected (RequirementService.StageKeyedEventFails). The stream mode is library behaviour outside the modelled files.
- FencedDocumentCompletes: its requirement that the last event holds `final_document` at the top level holds only under the full-state reading of the line above. With the default updates-mode stream no event meets it.
- Errors.Lookup: the detail text of a missing enum member is approximated as "AttributeError: " and the name. Python gives the bare name up to 3.11 and "type object 'ErrorCode' has no attribute ..." from 3.12 on.
- RequirementService.ImportGraph: the import error text omits the " (<path of the module file>)" suffix Python appends, because the path depends on the installation. RequirementPipeline.FinalizeUpdateAsWritten omits it in the same way.
- CodeNode.CreateCodeNode: declared outputs are a sequence of name and argument pairs, so duplicate names can be written down. The source's `outputs` is a dictionary with unique keys, so an input with repeated names matches no call of the source.
- BlueprintService.GetAppIdByThread: the run's final state is printed and discarded, so only whether the run raises is modelled.
- Questionnaire.Page: it keeps the answers and the current position only. Question options, the text-area length limit, spinners, loading flags and status polling are display state and are not modelled.

## Findings

| source | as written | input that shows it | evidently intended | confidence | as-written member | corrected member |
|---|---|---|---|---|---|---|
| api/biz/service/requirement.py:106 | the background task imports `get_requirement_workflow`, which api/biz/agent/requirement/graph.py:30 does not define, so every run ends failed with an import error | any newly created requirement | build the requirement workflow (`get_workflow_app`) and run it | not executed | RequirementService.ProcessAlwaysFails | RequirementService.RequirementStore.ProcessRequirementTask |
| api/biz/service/requirement.py:216 | the continuation task imports the same missing name, so no submitted answers ever complete the document | answers submitted for a requirement waiting for them | resume the workflow and store the final document | not executed | RequirementService.ContinueAlwaysFails | RequirementService.RequirementStore.ContinueRequirementTask |
| api/biz/service/requirement.py:176-180 | a wrong status raises with `ErrorCode.BAD_REQUEST`, which api/common/enums/error_code.py:19-43 does not define, so the attribute error is re-wrapped as a 500 | answers submitted while the status is "processing" | a 400 client error | not executed | RequirementService.WrongStatusIsServerError | RequirementService.WrongStatusIsClientError |
| api/biz/service/blueprint.py:53-56 | the catch-all handler wraps the guards' own exceptions, so not-found and forbidden become 500 | an unknown thread id | the guard's 404 or 403 reaches the caller | not executed | BlueprintService.GuardsBecomeServerErrors | BlueprintService.CreateRejection |
| api/biz/service/blueprint.py:206 | the incomplete-result branch calls `BlueprintDAO.update_requirement_status`, which api/dal/dao/blueprint.py does not define, so the catch-all records an attribute error instead of the generation-failed message | a run that returns a workflow but an empty Mermaid diagram | mark the blueprint failed with "蓝图生成失败！" | not executed | BlueprintService.IncompleteResult | BlueprintService.BlueprintStore.ProcessBlueprintTask |
| api/biz/agent/workflow/dify_nodes/tools/spider/tool.py:58-60 | the spider builder returns the filled template rather than a reply, so api/biz/agent/workflow/node.py:25 fails on the missing `observation` key | any spider tool call | return the node, observation, outputs and title like the sibling tools | not executed | ExternalTools.CreateSpiderToolAsWritten | ExternalTools.CreateSpiderTool (the source gives no observation text for the spider, so the corrected one follows the sibling tools' pattern and is this model's own) |
| web/src/pages/Questionnaire.jsx:248-251 | the skip handler clears the additional-requirements text and then submits the value from before the clear | any typed text, then skip | submit with no additional requirements | not executed; the handler is not wired to a button | Questionnaire.Page.SkipAdditionalAsWritten | Questionnaire.Page.SkipAdditional |
| api/biz/agent/requirement/node.py:49-50 | truthy answers import `UserAnswer` from api/biz/agent/requirement/state.py, which defines no such name, so the stage raises before the answers are read and no answer ever reaches the finalizing model | the answer list `[{"question_id": "q1", "selected_option": "A"}]` | read the dictionary answers and pass them to the model | not executed | RequirementPipeline.FinalizeUpdateAsWritten | RequirementPipeline.FinalizeDocumentNode |
| api/biz/service/blueprint.py:248 | the latest blueprint is read with `BlueprintDAO.get_lastest_blueprint`, which api/dal/dao/blueprint.py:11-59 does not define, so the call raises before the workflow agent is built | any thread id whose requirement exists | fetch the thread's latest blueprint and run the workflow agent on it | not executed | BlueprintService.AppIdByThreadAsWritten | BlueprintService.GetAppIdByThread |
