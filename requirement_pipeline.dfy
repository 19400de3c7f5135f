/**
 * The requirement-clarification pipeline (`agent/requirement`): draft, questionnaire, a
 * suspension that waits for the user's answers, and the final document. The graph state is
 * a dictionary; the language model and the JSON parser are inputs.
 */
module RequirementPipeline {
  import opened Wrappers
  import opened Json
  import opened Text
  import opened LlmReply
  import opened Graphs

  /** The graph state (`GraphState`): a dictionary in which a key may be missing. */
  type GraphState = map<string, Json>

  /** `state.get(key)`, with a missing key read as `None`. */
  function StateGet(state: GraphState, key: string): Json
  {
    if key in state then state[key] else JNull
  }

  /** What a stage does: return an update, or suspend the run with a payload (`interrupt`). */
  datatype Outcome = Update(update: map<string, Json>) | Suspend(payload: Json)

  /** `generate_questions_node`: the questionnaire is the reply's JSON after the fence strip. */
  function GenerateQuestionsNode(content: Content, parse: Parser): (r: Result<map<string, Json>>)
    ensures r.Success? <==> ParseReply(content, parse).Success?
    ensures r.Success? ==> r.value == map["questionnaire" := ParseReply(content, parse).value]
  {
    match ParseReply(content, parse)
    case Failure(e) => Failure(e)
    case Success(q) => Success(map["questionnaire" := q])
  }

  // The suspension point.

  const WaitingMessage := "等待用户回答问卷"
  const NoAnswersError := "未收到用户答案"

  /** The payload the run suspends with. */
  function SuspendPayload(state: GraphState): Json
  {
    JObj(map["message" := JStr(WaitingMessage), "questionnaire" := StateGet(state, "questionnaire"),
             "required" := JBool(true)])
  }

  /**
   * `user_answers_node`. `resume` is what `interrupt` returns: `None` on the first run, the
   * value supplied with the resume command afterwards.
   */
  function UserAnswersNode(state: GraphState, resume: Option<Json>): (r: Outcome)
    ensures StateGet(state, "user_answers") != JNull ==>
              r == Update(map["user_answers" := state["user_answers"],
                              "additional_requirements" := StateGet(state, "additional_requirements")])
    ensures StateGet(state, "user_answers") == JNull && resume.None? ==> r == Suspend(SuspendPayload(state))
  {
    if StateGet(state, "user_answers") != JNull then
      Update(map["user_answers" := state["user_answers"],
                 "additional_requirements" := StateGet(state, "additional_requirements")])
    else
      match resume
      case None => Suspend(SuspendPayload(state))
      case Some(v) => if Truthy(v) then Update(map["user_answers" := v]) else Update(map["error" := JStr(NoAnswersError)])
  }

  /** Once answers are in the state the stage never suspends, whatever the resume value. */
  lemma AnsweredNeverSuspends(state: GraphState, resume: Option<Json>, other: Option<Json>)
    requires StateGet(state, "user_answers") != JNull
    ensures UserAnswersNode(state, resume).Update?
    ensures UserAnswersNode(state, resume) == UserAnswersNode(state, other)
  {
  }

  /** On resume a truthy value becomes the answers and a falsy one the error; the stage suspends only before that. */
  lemma ResumeOutcome(state: GraphState, v: Json)
    requires StateGet(state, "user_answers") == JNull
    ensures UserAnswersNode(state, None).Suspend? && UserAnswersNode(state, None).payload == SuspendPayload(state)
    ensures Truthy(v) ==> UserAnswersNode(state, Some(v)) == Update(map["user_answers" := v])
    ensures !Truthy(v) ==> UserAnswersNode(state, Some(v)) == Update(map["error" := JStr(NoAnswersError)])
  {
  }

  // The final document.

  /** One formatted answer: `{question_id, selected_option, custom_input}`. */
  datatype AnswerTriple = AnswerTriple(questionId: Json, selectedOption: Json, customInput: Json)

  function GetOrNull(j: Json, key: string): Json
  {
    match Get(j, key)
    case Some(v) => v
    case None => JNull
  }

  /** The triple of one dictionary entry; an entry of another type is skipped. */
  function AnswerOf(a: Json): Option<AnswerTriple>
  {
    if a.JObj? then Some(AnswerTriple(GetOrNull(a, "question_id"), GetOrNull(a, "selected_option"),
                                      GetOrNull(a, "custom_input")))
    else None
  }

  /** The triples of the entries that are dictionaries, in order. */
  function AnswerTriples(items: seq<Json>): seq<AnswerTriple>
  {
    if |items| == 0 then []
    else
      var last := items[|items| - 1];
      AnswerTriples(items[..|items| - 1]) + (if last.JObj? then [AnswerOf(last).value] else [])
  }

  /** The loop that formats the answers, skipping entries of unknown type. */
  method CollectAnswers(items: seq<Json>) returns (data: seq<AnswerTriple>)
    ensures data == AnswerTriples(items)
  {
    data := [];
    var i := 0;
    while i < |items|
      invariant 0 <= i <= |items|
      invariant data == AnswerTriples(items[..i])
    {
      assert items[..i + 1][..i] == items[..i];
      var answer := items[i];
      if !answer.JObj? {
        i := i + 1;
        continue;
      }
      data := data + [AnswerTriple(GetOrNull(answer, "question_id"), GetOrNull(answer, "selected_option"),
                                   GetOrNull(answer, "custom_input"))];
      i := i + 1;
    }
    assert items[..|items|] == items;
  }

  /** At most one triple per entry, and exactly the entries' triples, in order, when all are dictionaries. */
  lemma {:induction false} AnswerTriplesShape(items: seq<Json>)
    ensures |AnswerTriples(items)| <= |items|
    ensures (forall i :: 0 <= i < |items| ==> items[i].JObj?) ==>
              |AnswerTriples(items)| == |items| &&
              forall i :: 0 <= i < |items| ==> AnswerTriples(items)[i] == AnswerOf(items[i]).value
  {
    if |items| > 0 {
      var init := items[..|items| - 1];
      AnswerTriplesShape(init);
      assert forall i :: 0 <= i < |init| ==> init[i] == items[i];
    }
  }

  /** A resume dictionary with a `user_answers` key is unwrapped to that key's value. */
  function UnwrapAnswers(raw: Json): (ua: Json)
    ensures raw.JObj? && "user_answers" in raw.fields ==> ua == raw.fields["user_answers"]
    ensures !(raw.JObj? && "user_answers" in raw.fields) ==> ua == raw
  {
    if raw.JObj? && "user_answers" in raw.fields then raw.fields["user_answers"] else raw
  }

  const NoExtraRequirements := "无额外要求"

  /** `x or "无额外要求"`. */
  function OrDefault(x: Json): Json
  {
    if Truthy(x) then x else JStr(NoExtraRequirements)
  }

  /**
   * The additional requirements passed to the model: from the resume dictionary when it has
   * the key, otherwise from the state; a falsy value becomes "无额外要求" and a value that is
   * not a string goes through `str` (`show`).
   */
  function AdditionalRequirements(state: GraphState, show: Json -> string): string
  {
    var raw := StateGet(state, "user_answers");
    var chosen :=
      if raw.JObj? && "additional_requirements" in raw.fields then OrDefault(raw.fields["additional_requirements"])
      else OrDefault(if "additional_requirements" in state then state["additional_requirements"] else JStr(""));
    if chosen.JStr? then chosen.s else if Truthy(chosen) then show(chosen) else NoExtraRequirements
  }

  /** A non-empty string is passed as it is; an empty or missing value becomes "无额外要求". */
  lemma AdditionalRequirementsValue(state: GraphState, show: Json -> string)
    ensures var raw := StateGet(state, "user_answers");
      var v := if raw.JObj? && "additional_requirements" in raw.fields then raw.fields["additional_requirements"]
               else StateGet(state, "additional_requirements");
      (v.JStr? && v.s != "" ==> AdditionalRequirements(state, show) == v.s) &&
      (!Truthy(v) ==> AdditionalRequirements(state, show) == NoExtraRequirements) &&
      (Truthy(v) && !v.JStr? ==> AdditionalRequirements(state, show) == show(v))
  {
  }

  /** When the resume dictionary carries the key, the state's own value plays no part. */
  lemma WrapperRequirementsWin(state: GraphState, other: Json, show: Json -> string)
    requires var raw := StateGet(state, "user_answers"); raw.JObj? && "additional_requirements" in raw.fields
    ensures AdditionalRequirements(state["additional_requirements" := other], show) == AdditionalRequirements(state, show)
  {
    assert StateGet(state["additional_requirements" := other], "user_answers") == StateGet(state, "user_answers");
  }

  /** What the finalizing model call receives. */
  datatype FinalizeInputs = FinalizeInputs(productDraft: Json, questionnaire: Option<Json>, answers: seq<AnswerTriple>,
                                           additionalRequirements: string)

  /** The finalizing model: its reply becomes `final_document`. */
  type Finalizer = FinalizeInputs -> Json

  /** The names `biz/agent/requirement/state.py` defines; `UserAnswer` is not one of them. */
  const StateExports: set<string> := {"RequirementDefinition", "Option", "Question", "Questionnaire", "GraphState"}

  /** The text of importing a name the state module does not define. */
  function StateImportText(name: string): string
  {
    "cannot import name '" + name + "' from 'biz.agent.requirement.state'"
  }

  /**
   * `finalize_document_node` once the answers are read without the `UserAnswer` import:
   * answers that are truthy but not a list end the stage with an error before the model is
   * called; otherwise the model receives the draft, the questionnaire (when truthy), the
   * formatted answers and the additional requirements.
   */
  function FinalizeUpdate(state: GraphState, respond: Finalizer, show: Json -> string): Result<map<string, Json>>
  {
    var ua := UnwrapAnswers(StateGet(state, "user_answers"));
    if Truthy(ua) && !ua.JArr? then Success(map["error" := JStr("user_answers 数据类型错误: " + TypeName(ua))])
    else if "questionnaire" !in state then Failure("KeyError: 'questionnaire'")
    else if "product_draft" !in state then Failure("KeyError: 'product_draft'")
    else
      var answers := if Truthy(ua) then AnswerTriples(ua.items) else [];
      var questionnaire := if Truthy(state["questionnaire"]) then Some(state["questionnaire"]) else None;
      Success(map["final_document" := respond(FinalizeInputs(state["product_draft"], questionnaire, answers,
                                                             AdditionalRequirements(state, show)))])
  }

  /**
   * `finalize_document_node` as written: truthy answers first import `UserAnswer` from the
   * state module, which raises, so the type check, the loop and the model call are reached
   * only when there are no answers.
   */
  function FinalizeUpdateAsWritten(state: GraphState, respond: Finalizer, show: Json -> string): (r: Result<map<string, Json>>)
    ensures Truthy(UnwrapAnswers(StateGet(state, "user_answers"))) ==> r == Failure(StateImportText("UserAnswer"))
    ensures !Truthy(UnwrapAnswers(StateGet(state, "user_answers"))) ==> r == FinalizeUpdate(state, respond, show)
  {
    var ua := UnwrapAnswers(StateGet(state, "user_answers"));
    if Truthy(ua) && "UserAnswer" !in StateExports then Failure(StateImportText("UserAnswer"))
    else FinalizeUpdate(state, respond, show)
  }

  /**
   * As written, answers never reach the model: a state holding a non-empty answer list, bare
   * or wrapped, fails with the import error, while once corrected it yields a final document.
   */
  lemma AnswersLostAsWritten(state: GraphState, respond: Finalizer, show: Json -> string)
    requires var ua := UnwrapAnswers(StateGet(state, "user_answers")); ua.JArr? && ua.items != []
    requires "questionnaire" in state && "product_draft" in state
    ensures FinalizeUpdateAsWritten(state, respond, show) == Failure(StateImportText("UserAnswer"))
    ensures FinalizeUpdate(state, respond, show).Success? && "final_document" in FinalizeUpdate(state, respond, show).value
  {
  }

  /** The stage as written, on the answer list the questionnaire page sends for one chosen option. */
  lemma OneAnswerLostAsWritten(draft: Json, questionnaire: Json, respond: Finalizer, show: Json -> string)
    ensures var answer := JObj(map["question_id" := JStr("q1"), "selected_option" := JStr("A")]);
      var state := map["user_answers" := JArr([answer]), "questionnaire" := questionnaire, "product_draft" := draft];
      FinalizeUpdateAsWritten(state, respond, show).Failure? &&
      FinalizeUpdate(state, respond, show) ==
        Success(map["final_document" := respond(FinalizeInputs(draft, if Truthy(questionnaire) then Some(questionnaire) else None,
                                                               [AnswerTriple(JStr("q1"), JStr("A"), JNull)],
                                                               NoExtraRequirements))])
  {
    var answer := JObj(map["question_id" := JStr("q1"), "selected_option" := JStr("A")]);
    var state := map["user_answers" := JArr([answer]), "questionnaire" := questionnaire, "product_draft" := draft];
    assert StateGet(state, "user_answers") == JArr([answer]);
    assert AnswerTriples([answer]) == [AnswerTriple(JStr("q1"), JStr("A"), JNull)];
    assert AdditionalRequirements(state, show) == NoExtraRequirements;
  }

  /** The corrected stage, in the source's order of steps. */
  method FinalizeDocumentNode(state: GraphState, respond: Finalizer, show: Json -> string)
    returns (r: Result<map<string, Json>>)
    ensures r == FinalizeUpdate(state, respond, show)
  {
    var userAnswers := UnwrapAnswers(StateGet(state, "user_answers"));
    var data: seq<AnswerTriple> := [];
    if Truthy(userAnswers) {
      if userAnswers.JArr? {
        data := CollectAnswers(userAnswers.items);
      } else {
        return Success(map["error" := JStr("user_answers 数据类型错误: " + TypeName(userAnswers))]);
      }
    }
    if "questionnaire" !in state {
      return Failure("KeyError: 'questionnaire'");
    }
    var questionnaire := if Truthy(state["questionnaire"]) then Some(state["questionnaire"]) else None;
    var additional := AdditionalRequirements(state, show);
    if "product_draft" !in state {
      return Failure("KeyError: 'product_draft'");
    }
    r := Success(map["final_document" := respond(FinalizeInputs(state["product_draft"], questionnaire, data, additional))]);
  }

  /**
   * Once corrected, answers of the wrong type stop the stage with an error update without
   * consulting the model; as written the import raises first and no error update is returned.
   */
  lemma WrongAnswerTypeSkipsModel(state: GraphState, respond: Finalizer, other: Finalizer, show: Json -> string)
    requires var ua := UnwrapAnswers(StateGet(state, "user_answers")); Truthy(ua) && !ua.JArr?
    ensures FinalizeUpdate(state, respond, show) == FinalizeUpdate(state, other, show)
    ensures FinalizeUpdate(state, respond, show).Success? && "error" in FinalizeUpdate(state, respond, show).value
    ensures FinalizeUpdateAsWritten(state, respond, show) == Failure(StateImportText("UserAnswer"))
  {
  }

  /**
   * A resume dictionary `{"user_answers": [...]}` and the bare list give the same update: once
   * corrected the model receives the same answers, and as written both fail alike.
   */
  lemma WrappedAnswersUnwrapped(state: GraphState, items: seq<Json>, respond: Finalizer, show: Json -> string)
    requires "additional_requirements" in state && "questionnaire" in state && "product_draft" in state
    ensures var wrapped := state["user_answers" := JObj(map["user_answers" := JArr(items)])];
      var bare := state["user_answers" := JArr(items)];
      FinalizeUpdate(wrapped, respond, show) == FinalizeUpdate(bare, respond, show) &&
      FinalizeUpdateAsWritten(wrapped, respond, show) == FinalizeUpdateAsWritten(bare, respond, show)
  {
    var wrapped := state["user_answers" := JObj(map["user_answers" := JArr(items)])];
    var bare := state["user_answers" := JArr(items)];
    assert AdditionalRequirements(wrapped, show) == AdditionalRequirements(bare, show);
  }

  // The stage graph.

  datatype Stage = DraftGenerator | QuestionGenerator | UserAnswersHandler | DocumentFinalizer | Done

  const EntryStage := DraftGenerator

  /** The four registered stages. */
  const Stages: set<Stage> := {DraftGenerator, QuestionGenerator, UserAnswersHandler, DocumentFinalizer}

  /** The fixed edges; none depends on the state, so an `error` written by a stage does not change the route. */
  function Next(s: Stage): Stage
  {
    match s
    case DraftGenerator => QuestionGenerator
    case QuestionGenerator => UserAnswersHandler
    case UserAnswersHandler => DocumentFinalizer
    case DocumentFinalizer => Done
    case Done => Done
  }

  /** The stage reached after `n` steps from `s`. */
  function After(s: Stage, n: nat): Stage
    decreases n
  {
    if n == 0 then s else After(Next(s), n - 1)
  }

  /** From the entry the run visits every registered stage once, in order, and ends after four steps. */
  lemma LinearRun()
    ensures After(EntryStage, 1) == QuestionGenerator && After(EntryStage, 2) == UserAnswersHandler
    ensures After(EntryStage, 3) == DocumentFinalizer && After(EntryStage, 4) == Done
    ensures forall n :: 0 <= n < 4 ==> After(EntryStage, n) in Stages
    ensures |Stages| == 4
  {
    assert After(EntryStage, 0) == DraftGenerator;
  }

  /** `get_workflow_app`: a new app, with a checkpointer, on every call. */
  method GetWorkflowApp() returns (a: CompiledApp)
    ensures fresh(a) && a.graph == "requirement" && a.checkpointed
  {
    a := Compile("requirement", true);
  }
}
