/**
 * The workflow-building agent (`workflow/node.py`, `workflow/graph.py`): the tool-executor
 * step, the routing decision, the planner's tool summary, the stage graph and the cached
 * compiled agent. The language model's replies and the builders' argument validation are
 * inputs.
 */
module Executor {
  import opened Wrappers
  import opened Json
  import opened Text
  import opened NodeBase
  import opened Catalog
  import ExternalTools
  import ToolsBase
  import opened Graphs

  /** One entry of the to-do list: `{nodeId, nodeTitle, status}`. */
  datatype Task = Task(nodeId: string, nodeTitle: string, status: string)

  /** A tool call the model asked for. */
  datatype ToolCall = ToolCall(name: string, args: Json, id: string)

  /** The conversation messages; only the model's messages carry tool calls. */
  datatype Message =
    | HumanMessage(content: string)
    | AiMessage(content: string, toolCalls: seq<ToolCall>)
    | ToolMessage(content: string, toolCallId: string)

  /** `state["messages"][-1].tool_calls`: an empty history, or a last message that is not the model's, raises. */
  function LastToolCalls(messages: seq<Message>): (r: Result<seq<ToolCall>>)
    ensures r.Success? <==> |messages| > 0 && messages[|messages| - 1].AiMessage?
    ensures r.Success? ==> r.value == messages[|messages| - 1].toolCalls
  {
    if |messages| == 0 then Failure("IndexError: list index out of range")
    else if !messages[|messages| - 1].AiMessage? then Failure("AttributeError: message has no tool_calls")
    else Success(messages[|messages| - 1].toolCalls)
  }

  // The to-do list.

  /** Whether a task is the pending task of the node with this title. */
  predicate PendingFor(t: Task, title: Json)
  {
    JStr(t.nodeTitle) == title && t.status == "pending"
  }

  /** The position of the first pending task for `title`, if there is one. */
  function FirstPending(tasks: seq<Task>, title: Json): (r: Option<nat>)
    ensures r.Some? ==> r.value < |tasks| && PendingFor(tasks[r.value], title) &&
                        forall j :: 0 <= j < r.value ==> !PendingFor(tasks[j], title)
    ensures r.None? ==> forall j :: 0 <= j < |tasks| ==> !PendingFor(tasks[j], title)
  {
    if |tasks| == 0 then None
    else if PendingFor(tasks[0], title) then Some(0)
    else match FirstPending(tasks[1..], title)
      case None => None
      case Some(k) => Some(k + 1)
  }

  /** The to-do list after the new node: its first pending task becomes completed. */
  function MarkFirst(tasks: seq<Task>, title: Json): seq<Task>
  {
    match FirstPending(tasks, title)
    case None => tasks
    case Some(k) => tasks[k := tasks[k].(status := "completed")]
  }

  /** Marking changes at most one task, the first pending one for the title, and only its status. */
  lemma MarkFirstChangesOne(tasks: seq<Task>, title: Json, i: nat)
    requires i < |tasks|
    ensures |MarkFirst(tasks, title)| == |tasks|
    ensures MarkFirst(tasks, title)[i] != tasks[i] <==> FirstPending(tasks, title) == Some(i)
    ensures MarkFirst(tasks, title)[i] == tasks[i] || MarkFirst(tasks, title)[i] == tasks[i].(status := "completed")
  {
  }

  /** The number of completed tasks. */
  function CompletedCount(tasks: seq<Task>): nat
  {
    if |tasks| == 0 then 0
    else CompletedCount(tasks[..|tasks| - 1]) + (if tasks[|tasks| - 1].status == "completed" then 1 else 0)
  }

  lemma {:induction false} CompletedCountUpdate(tasks: seq<Task>, k: nat, t: Task)
    requires k < |tasks| && tasks[k].status != "completed" && t.status == "completed"
    ensures CompletedCount(tasks[k := t]) == CompletedCount(tasks) + 1
  {
    var n := |tasks| - 1;
    if k < n {
      assert tasks[k := t][..n] == tasks[..n][k := t];
      CompletedCountUpdate(tasks[..n], k, t);
    } else {
      assert tasks[k := t][..n] == tasks[..n];
    }
  }

  /** One step completes exactly one task when a pending task has the title, and none otherwise. */
  lemma MarkFirstProgress(tasks: seq<Task>, title: Json)
    ensures FirstPending(tasks, title).Some? ==> CompletedCount(MarkFirst(tasks, title)) == CompletedCount(tasks) + 1
    ensures FirstPending(tasks, title).None? ==> MarkFirst(tasks, title) == tasks
  {
    match FirstPending(tasks, title)
    case None =>
    case Some(k) => CompletedCountUpdate(tasks, k, tasks[k].(status := "completed"));
  }

  /** The executor's state (`AgentState`); the to-do entries are updated in place. */
  class AgentState {
    var messages: seq<Message>
    var nodesCreated: seq<Json>
    var availableVariables: seq<string>
    var todo: array<Task>

    constructor(messages: seq<Message>, nodesCreated: seq<Json>, availableVariables: seq<string>, todo: seq<Task>)
      ensures this.messages == messages && this.nodesCreated == nodesCreated
      ensures this.availableVariables == availableVariables && this.todo[..] == todo && fresh(this.todo)
    {
      this.messages := messages;
      this.nodesCreated := nodesCreated;
      this.availableVariables := availableVariables;
      this.todo := new Task[|todo|](i requires 0 <= i < |todo| => todo[i]);
    }

    /** The loop that marks the first pending task for `title` completed and stops. */
    method MarkCompleted(title: Json)
      modifies todo
      ensures todo[..] == MarkFirst(old(todo[..]), title)
    {
      var i := 0;
      while i < todo.Length
        invariant 0 <= i <= todo.Length
        invariant todo[..] == old(todo[..])
        invariant forall j :: 0 <= j < i ==> !PendingFor(todo[j], title)
      {
        if PendingFor(todo[i], title) {
          todo[i] := todo[i].(status := "completed");
          assert FirstPending(old(todo[..]), title) == Some(i) by {
            FirstPendingAt(old(todo[..]), title, i);
          }
          return;
        }
        i := i + 1;
      }
    }
  }

  lemma FirstPendingAt(tasks: seq<Task>, title: Json, i: nat)
    requires i < |tasks| && PendingFor(tasks[i], title)
    requires forall j :: 0 <= j < i ==> !PendingFor(tasks[j], title)
    ensures FirstPending(tasks, title) == Some(i)
  {
  }

  // The tool-executor step.

  /** What the executor reads from a builder's reply: node, observation, output list and the node's title. */
  datatype ToolOutput = ToolOutput(node: Json, observation: string, output: seq<string>, title: Json)

  /**
   * The reads of `tool_output["observation"]`, `tool_output["output"]` (concatenated to a
   * list) and `tool_output["node"]["data"]["title"]`, in that order.
   */
  function ReadReply(reply: ToolReply): (r: Result<ToolOutput>)
    ensures r.Success? <==> reply.NodeReply? && reply.output.Some? && DataField(reply.node, "title").Some?
    ensures r.Success? ==> r.value == ToolOutput(reply.node, reply.observation, reply.output.value,
                                                 DataField(reply.node, "title").value)
  {
    match reply
    case ConfigReply(_) => Failure("KeyError: 'observation'")
    case NodeReply(node, observation, output) =>
      if output.None? then Failure("TypeError: can only concatenate list (not \"NoneType\") to list")
      else match DataField(node, "title")
        case None => Failure("KeyError: 'title'")
        case Some(title) => Success(ToolOutput(node, observation, output.value, title))
  }

  /** The builders as invoked with the model's arguments; a raised exception is a `Failure`. */
  type Invoker = (Builder, Json) -> Result<ToolReply>

  /**
   * The part of `tool_executor_node` before the to-do update: `None` when the last message
   * asks for no tool; otherwise the first call is dispatched through `tool_map`, an unknown
   * name raising `ValueError`.
   */
  function RunTool(messages: seq<Message>, invoke: Invoker): (r: Result<Option<(ToolCall, ToolOutput)>>)
    ensures LastToolCalls(messages).Success? && |LastToolCalls(messages).value| == 0 ==> r == Success(None)
    ensures r.Success? && r.value.Some? ==>
              LastToolCalls(messages).Success? && |LastToolCalls(messages).value| > 0 &&
              r.value.value.0 == LastToolCalls(messages).value[0] && Lookup(r.value.value.0.name).Some?
    ensures LastToolCalls(messages).Success? && |LastToolCalls(messages).value| > 0 &&
            Lookup(LastToolCalls(messages).value[0].name).None? ==>
              r == Failure("ValueError: Tool '" + LastToolCalls(messages).value[0].name +
                           "' not found in the provided tool map.")
  {
    match LastToolCalls(messages)
    case Failure(e) => Failure(e)
    case Success(calls) =>
      if |calls| == 0 then Success(None)
      else
        var call := calls[0];
        match Lookup(call.name)
        case None => Failure("ValueError: Tool '" + call.name + "' not found in the provided tool map.")
        case Some(b) =>
          match invoke(b, call.args)
          case Failure(e) => Failure(e)
          case Success(reply) =>
            match ReadReply(reply)
            case Failure(e) => Failure(e)
            case Success(out) => Success(Some((call, out)))
  }

  /** The update dictionary the step returns; the to-do list is the state's own list, updated in place. */
  datatype StepUpdate = StepUpdate(messages: seq<Message>, nodesCreated: seq<Json>, availableVariables: seq<string>)

  /**
   * `tool_executor_node`: no update without a tool call; otherwise one tool message, the new
   * node appended, its outputs appended to the available variables, and the first pending
   * task for its title completed. A raised exception changes nothing.
   */
  method ToolExecutorNode(state: AgentState, invoke: Invoker) returns (r: Result<Option<StepUpdate>>)
    modifies state.todo
    ensures RunTool(state.messages, invoke).Failure? ==>
              r == Failure(RunTool(state.messages, invoke).error) && state.todo[..] == old(state.todo[..])
    ensures RunTool(state.messages, invoke) == Success(None) ==> r == Success(None) && state.todo[..] == old(state.todo[..])
    ensures RunTool(state.messages, invoke).Success? && RunTool(state.messages, invoke).value.Some? ==>
              var (call, out) := RunTool(state.messages, invoke).value.value;
              r == Success(Some(StepUpdate([ToolMessage(out.observation, call.id)], state.nodesCreated + [out.node],
                                           state.availableVariables + out.output))) &&
              state.todo[..] == MarkFirst(old(state.todo[..]), out.title)
  {
    match RunTool(state.messages, invoke)
    case Failure(e) =>
      r := Failure(e);
    case Success(None) =>
      r := Success(None);
    case Success(Some((call, out))) =>
      var message := ToolMessage(out.observation, call.id);
      var nodes := state.nodesCreated + [out.node];
      var variables := state.availableVariables + out.output;
      state.MarkCompleted(out.title);
      r := Success(Some(StepUpdate([message], nodes, variables)));
  }

  /** The reply of the spider builder as written cannot be read by the executor step. */
  lemma SpiderReplyRejected(nodeId: string, x: int, y: int, url: string, title: string, userAgent: string,
                            generateSummary: bool, desc: string, template: Option<Json>, templatePath: string)
    ensures var w := ExternalTools.CreateSpiderToolAsWritten(nodeId, x, y, url, title, userAgent, generateSummary, desc,
                                                             template, templatePath);
      w.Success? ==> ReadReply(w.value) == Failure("KeyError: 'observation'")
  {
  }

  /** The corrected spider builder's reply is read: its observation, output references and title. */
  lemma SpiderReplyAccepted(nodeId: string, x: int, y: int, url: string, title: string, userAgent: string,
                            generateSummary: bool, desc: string, template: Json)
    requires ToolsBase.TemplateShaped(template)
    ensures var c := ExternalTools.CreateSpiderTool(nodeId, x, y, url, title, userAgent, generateSummary, desc,
                                                    Some(template), "");
      c.Success? && ReadReply(c.value).Success? &&
      ReadReply(c.value).value.output == ToolsBase.ToolOutputReferences(nodeId) &&
      ReadReply(c.value).value.title == JStr(title)
  {
    ExternalTools.SpiderReadBack(nodeId, x, y, url, title, userAgent, generateSummary, desc, template);
  }

  // Routing and the stage graph.

  datatype Route = CallTool | EndRoute | ContinueRoute

  /** `should_continue`: a tool call first; otherwise the end once every task is completed (so for an empty list). */
  function ShouldContinue(messages: seq<Message>, todo: seq<Task>): (r: Result<Route>)
    ensures r.Success? <==> LastToolCalls(messages).Success?
    ensures r == Success(CallTool) <==> LastToolCalls(messages).Success? && |LastToolCalls(messages).value| > 0
    ensures r == Success(EndRoute) <==>
            LastToolCalls(messages).Success? && |LastToolCalls(messages).value| == 0 &&
            forall i :: 0 <= i < |todo| ==> todo[i].status == "completed"
  {
    match LastToolCalls(messages)
    case Failure(e) => Failure(e)
    case Success(calls) =>
      if |calls| > 0 then Success(CallTool)
      else if forall i :: 0 <= i < |todo| ==> todo[i].status == "completed" then Success(EndRoute)
      else Success(ContinueRoute)
  }

  datatype Stage = Planner | Agent | ToolExecutor | Finish

  /** The entry stage. */
  const EntryStage := Planner

  /** The transition table: planner and tool executor go to the agent; the agent follows the route. */
  function Successor(s: Stage, route: Route): (r: Option<Stage>)
    ensures r.None? <==> s == Finish
  {
    match s
    case Planner => Some(Agent)
    case ToolExecutor => Some(Agent)
    case Agent =>
      (match route
       case CallTool => Some(ToolExecutor)
       case EndRoute => Some(Finish)
       case ContinueRoute => Some(Agent))
    case Finish => None
  }

  /** Only the agent chooses; the tool executor is entered only on a tool call and the end only on the end route. */
  lemma SuccessorTable(s: Stage, route: Route)
    ensures s in {Planner, ToolExecutor} ==> Successor(s, route) == Some(Agent)
    ensures Successor(s, route) == Some(ToolExecutor) <==> s == Agent && route == CallTool
    ensures Successor(s, route) == Some(Finish) <==> s == Agent && route == EndRoute
    ensures Successor(s, route) != Some(Planner)
  {
  }

  /** The agent run ends only when the model asks for no tool and every task is completed. */
  lemma FinishOnlyWhenDone(messages: seq<Message>, todo: seq<Task>)
    requires ShouldContinue(messages, todo).Success?
    requires Successor(Agent, ShouldContinue(messages, todo).value) == Some(Finish)
    ensures messages[|messages| - 1].AiMessage? && |messages[|messages| - 1].toolCalls| == 0
    ensures forall i :: 0 <= i < |todo| ==> todo[i].status == "completed"
  {
  }

  /** The `_app` of `get_workflow_agent`: empty at start, compiled without a checkpointer. */
  method WorkflowAgentCache() returns (c: AppCache)
    ensures fresh(c) && c.Valid() && c.app == null
    ensures c.graph == "workflow agent" && !c.checkpointed
  {
    c := new AppCache("workflow agent", false);
  }

  // The planner's tool summary.

  /** One summary line: `- name: description`. */
  function SummaryLine(b: Builder, describe: Builder -> string): string
  {
    "- " + Name(b) + ": " + describe(b)
  }

  function SummaryLines(describe: Builder -> string): (lines: seq<string>)
    ensures |lines| == |ToolsList|
  {
    seq(|ToolsList|, i requires 0 <= i < |ToolsList| => SummaryLine(ToolsList[i], describe))
  }

  /** The tools summary of `planner_node`: the lines joined by newlines, in catalog order. */
  function ToolsSummary(describe: Builder -> string): string
  {
    Join(SummaryLines(describe), '\n')
  }

  /** No tool name spans two lines (checked three names at a time). */
  lemma NameOneLine(b: Builder)
    ensures '\n' !in Name(b)
  {
    match b
    case LlmBuilder => NamesOneLineA(b);
    case StartBuilder => NamesOneLineA(b);
    case AnswerBuilder => NamesOneLineA(b);
    case EndBuilder => NamesOneLineB(b);
    case CodeBuilder => NamesOneLineB(b);
    case TemplateTransformBuilder => NamesOneLineB(b);
    case QuestionClassifierBuilder => NamesOneLineC(b);
    case IfElseBuilder => NamesOneLineC(b);
    case HttpRequestBuilder => NamesOneLineC(b);
    case VariableAggregatorBuilder => NamesOneLineF(b);
    case DocumentExtractorBuilder => NamesOneLineD(b);
    case ArxivBuilder => NamesOneLineD(b);
    case SpiderBuilder => NamesOneLineE(b);
    case TavilyBuilder => NamesOneLineE(b);
    case LoopBuilder => NamesOneLineE(b);
  }

  lemma NamesOneLineA(b: Builder)
    requires b == LlmBuilder || b == StartBuilder || b == AnswerBuilder
    ensures '\n' !in Name(b)
  {
  }

  lemma NamesOneLineB(b: Builder)
    requires b == EndBuilder || b == CodeBuilder || b == TemplateTransformBuilder
    ensures '\n' !in Name(b)
  {
  }

  lemma NamesOneLineC(b: Builder)
    requires b == QuestionClassifierBuilder || b == IfElseBuilder || b == HttpRequestBuilder
    ensures '\n' !in Name(b)
  {
  }

  lemma NamesOneLineD(b: Builder)
    requires b == DocumentExtractorBuilder || b == ArxivBuilder
    ensures '\n' !in Name(b)
  {
  }

  lemma NamesOneLineF(b: Builder)
    requires b == VariableAggregatorBuilder
    ensures '\n' !in Name(b)
  {
  }

  lemma NamesOneLineE(b: Builder)
    requires b == SpiderBuilder || b == TavilyBuilder || b == LoopBuilder
    ensures '\n' !in Name(b)
  {
  }

  /** With one-line descriptions, line `i` of the summary describes the `i`-th builder of the catalog. */
  lemma ToolsSummaryLines(describe: Builder -> string)
    requires forall b :: '\n' !in describe(b)
    ensures |Split(ToolsSummary(describe), '\n')| == 14
    ensures forall i :: 0 <= i < 14 ==> Split(ToolsSummary(describe), '\n')[i] == SummaryLine(ToolsList[i], describe)
  {
    var lines := SummaryLines(describe);
    forall i | 0 <= i < |lines|
      ensures '\n' !in lines[i]
    {
      NameOneLine(ToolsList[i]);
      assert lines[i] == "- " + Name(ToolsList[i]) + ": " + describe(ToolsList[i]);
    }
    SplitJoin(lines, '\n');
  }
}
