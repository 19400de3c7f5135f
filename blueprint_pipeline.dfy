/**
 * The blueprint pipelines (`agent/blueprint`): generation (workflow, then Mermaid code) and
 * the chat refinement graph with its `update`/`end` decision. States are dictionaries; the
 * language model's replies and the JSON parser are inputs.
 */
module BlueprintPipeline {
  import opened Wrappers
  import opened Json
  import opened LlmReply
  import opened Graphs

  type GraphState = map<string, Json>

  /** How the graph library applies a stage's update: the returned keys replace the old ones. */
  function Apply(state: GraphState, update: map<string, Json>): (r: GraphState)
    ensures forall k :: k in r <==> k in state || k in update
    ensures forall k :: k in update ==> r[k] == update[k]
    ensures forall k :: k in state && k !in update ==> r[k] == state[k]
  {
    state + update
  }

  // Generation: `graph.py` and `node.py`.

  /**
   * `generate_workflow_node`: the prompt needs the state's `final_document`; the workflow is
   * the reply's JSON after the fence strip.
   */
  function GenerateWorkflowNode(state: GraphState, content: Content, parse: Parser): (r: Result<map<string, Json>>)
    ensures r.Success? <==> "final_document" in state && ParseReply(content, parse).Success?
    ensures "final_document" !in state ==> r == Failure("KeyError: 'final_document'")
    ensures r.Success? ==> r.value.Keys == {"workflow"} && r.value["workflow"] == ParseReply(content, parse).value
  {
    if "final_document" !in state then Failure("KeyError: 'final_document'")
    else
      match ParseReply(content, parse)
      case Failure(e) => Failure(e)
      case Success(w) => Success(map["workflow" := w])
  }

  /** The Mermaid model: the reply content for a workflow. */
  type MermaidModel = Json -> Json

  /** `generate_mermaid_node`: the reply for the state's `workflow`, stored as it came. */
  function GenerateMermaidNode(state: GraphState, mermaid: MermaidModel): (r: Result<map<string, Json>>)
    ensures r.Success? <==> "workflow" in state
    ensures r.Success? ==> r.value == map["mermaid_code" := mermaid(state["workflow"])]
  {
    if "workflow" !in state then Failure("KeyError: 'workflow'")
    else Success(map["mermaid_code" := mermaid(state["workflow"])])
  }

  /** A fenced Mermaid reply is stored with its fence: this stage strips nothing. */
  lemma MermaidNotStripped(state: GraphState, body: string)
    requires "workflow" in state
    ensures var reply := JStr("```mermaid\n" + body + "\n```");
      GenerateMermaidNode(state, (w: Json) => reply) == Success(map["mermaid_code" := reply])
  {
  }

  datatype Stage = WorkflowGenerator | MermaidGenerator | Done

  const EntryStage := WorkflowGenerator

  function Next(s: Stage): (r: Stage)
    ensures s == WorkflowGenerator <==> r == MermaidGenerator
  {
    match s
    case WorkflowGenerator => MermaidGenerator
    case MermaidGenerator => Done
    case Done => Done
  }

  /**
   * One run of the generation graph: the workflow stage, then the Mermaid stage on the
   * updated state; the first failure ends the run.
   */
  function GenerationRun(state: GraphState, content: Content, parse: Parser, mermaid: MermaidModel): Result<GraphState>
  {
    match GenerateWorkflowNode(state, content, parse)
    case Failure(e) => Failure(e)
    case Success(u1) =>
      var s1 := Apply(state, u1);
      match GenerateMermaidNode(s1, mermaid)
      case Failure(e) => Failure(e)
      case Success(u2) => Success(Apply(s1, u2))
  }

  /** A run whose reply parses applies the two stages' updates in turn. */
  lemma GenerationRunUpdates(state: GraphState, content: Content, parse: Parser, mermaid: MermaidModel)
    requires "final_document" in state && ParseReply(content, parse).Success?
    ensures var w := ParseReply(content, parse).value;
      GenerationRun(state, content, parse, mermaid) ==
      Success(Apply(Apply(state, map["workflow" := w]), map["mermaid_code" := mermaid(w)]))
  {
    var w := ParseReply(content, parse).value;
    var s1 := Apply(state, map["workflow" := w]);
    assert s1["workflow"] == w;
  }

  /** A successful run stores the parsed workflow and the Mermaid code drawn from that very workflow. */
  lemma GenerationRunResult(state: GraphState, content: Content, parse: Parser, mermaid: MermaidModel)
    requires "final_document" in state && ParseReply(content, parse).Success?
    ensures var r := GenerationRun(state, content, parse, mermaid);
      var w := ParseReply(content, parse).value;
      r.Success? && r.value["workflow"] == w && r.value["mermaid_code"] == mermaid(w) &&
      forall k :: k in state && k !in {"workflow", "mermaid_code"} ==> k in r.value && r.value[k] == state[k]
  {
    var w := ParseReply(content, parse).value;
    GenerationRunUpdates(state, content, parse, mermaid);
    var u1 := map["workflow" := w];
    var u2 := map["mermaid_code" := mermaid(w)];
    var out := Apply(Apply(state, u1), u2);
    assert out["workflow"] == w;
    forall k | k in state && k !in {"workflow", "mermaid_code"}
      ensures k in out && out[k] == state[k]
    {
      assert k !in u1 && k !in u2;
    }
  }

  /** A state without `final_document` ends the run at the first stage, whatever the replies. */
  lemma GenerationNeedsDocument(state: GraphState, content: Content, parse: Parser, mermaid: MermaidModel)
    requires "final_document" !in state
    ensures GenerationRun(state, content, parse, mermaid) == Failure("KeyError: 'final_document'")
  {
  }

  /** `get_blueprint_workflow`: one app, with a checkpointer, compiled on first use. */
  method BlueprintWorkflowCache() returns (c: AppCache)
    ensures fresh(c) && c.Valid() && c.app == null
    ensures c.graph == "blueprint" && c.checkpointed
  {
    c := new AppCache("blueprint", true);
  }

  // Refinement chat: `chat_graph.py`.

  /** `continue_node`: the decision reply must be exactly "update" or "end". */
  function ContinueNode(decision: Json): (r: Result<map<string, Json>>)
    ensures r.Success? <==> decision == JStr("update") || decision == JStr("end")
    ensures r.Success? ==> r.value == map["decision" := decision]
  {
    if decision == JStr("update") || decision == JStr("end") then Success(map["decision" := decision])
    else Failure("AssertionError")
  }

  /** `update_workflow_node`: the refined workflow is the reply's JSON after the fence strip. */
  function UpdateWorkflowNode(state: GraphState, content: Content, parse: Parser): (r: Result<map<string, Json>>)
    ensures r.Success? <==> "workflow" in state && "initial_messages" in state && ParseReply(content, parse).Success?
    ensures r.Success? ==> r.value.Keys == {"refined_workflow"} && r.value["refined_workflow"] == ParseReply(content, parse).value
  {
    if "workflow" !in state then Failure("KeyError: 'workflow'")
    else if "initial_messages" !in state then Failure("KeyError: 'initial_messages'")
    else
      match ParseReply(content, parse)
      case Failure(e) => Failure(e)
      case Success(w) => Success(map["refined_workflow" := w])
  }

  /** Refinement leaves `workflow` as it was. */
  lemma RefinementKeepsWorkflow(state: GraphState, content: Content, parse: Parser)
    requires "workflow" in state && UpdateWorkflowNode(state, content, parse).Success?
    ensures Apply(state, UpdateWorkflowNode(state, content, parse).value)["workflow"] == state["workflow"]
  {
  }

  /** The chat's Mermaid stage draws the unrefined `workflow`: the refined one has no effect on it. */
  lemma MermaidIgnoresRefinement(state: GraphState, refined: Json, mermaid: MermaidModel)
    ensures GenerateMermaidNode(state["refined_workflow" := refined], mermaid) == GenerateMermaidNode(state, mermaid)
  {
    if "workflow" in state {
      assert state["refined_workflow" := refined]["workflow"] == state["workflow"];
    }
  }

  datatype ChatStage = Chat | Continue | UpdateWorkflow | Mermaid | ChatEnd

  const ChatEntry := Chat

  /**
   * The chat graph's edges. Out of `continue` the route is the stored decision: "update" or
   * "end"; any other value has no edge.
   */
  function ChatNext(s: ChatStage, decision: Json): (r: Option<ChatStage>)
  {
    match s
    case Chat => Some(Continue)
    case Continue =>
      if decision == JStr("update") then Some(UpdateWorkflow)
      else if decision == JStr("end") then Some(ChatEnd)
      else None
    case UpdateWorkflow => Some(Mermaid)
    case Mermaid => Some(ChatEnd)
    case ChatEnd => None
  }

  /**
   * The chat starts at `chat`, then `continue`; a decision that passed `continue_node` always
   * has an edge, and the two decisions lead to the two ends.
   */
  lemma DecisionRouted(decision: Json)
    requires ContinueNode(decision).Success?
    ensures ChatNext(ChatEntry, decision) == Some(Continue)
    ensures ChatNext(Continue, ContinueNode(decision).value["decision"]).Some?
    ensures decision == JStr("update") ==>
              ChatNext(Continue, decision) == Some(UpdateWorkflow) && ChatNext(UpdateWorkflow, decision) == Some(Mermaid) &&
              ChatNext(Mermaid, decision) == Some(ChatEnd)
    ensures decision == JStr("end") ==> ChatNext(Continue, decision) == Some(ChatEnd)
  {
  }

  /** `get_chat_workflow`: one app, with a checkpointer, compiled on first use. */
  method ChatWorkflowCache() returns (c: AppCache)
    ensures fresh(c) && c.Valid() && c.app == null
    ensures c.graph == "blueprint chat" && c.checkpointed
  {
    c := new AppCache("blueprint chat", true);
  }
}
