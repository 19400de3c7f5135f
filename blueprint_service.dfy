/**
 * The blueprint service (`biz/service/blueprint.py`): a blueprint is created for a
 * requirement whose final document exists, then the generation pipeline fills in its
 * workflow and Mermaid code, or marks it failed. Blueprints are kept in a map from id to
 * record; the pipeline's result and the database's row order are inputs.
 */
module BlueprintService {
  import opened Wrappers
  import opened Json
  import opened Errors
  import opened LlmReply
  import opened Graphs
  import BlueprintPipeline
  import Req = RequirementService

  /** The columns of a stored blueprint that the service reads or writes. */
  datatype Blueprint = Blueprint(
    threadId: string,
    name: string,
    userId: string,
    status: Req.TaskStatus,
    progress: string,
    workflow: Json,
    mermaidCode: Json,
    errorMessage: Json)

  /** The arguments of one `update_blueprint_status` call; `JNull` for one not passed. */
  datatype BlueprintUpdate = BlueprintUpdate(
    status: Req.TaskStatus,
    progress: string,
    workflow: Json,
    mermaidCode: Json,
    errorMessage: Json)

  function Progress(status: Req.TaskStatus, progress: string): BlueprintUpdate
  {
    BlueprintUpdate(status, progress, JNull, JNull, JNull)
  }

  /** The status is always written; every other column only when its argument is truthy. */
  function Apply(b: Blueprint, u: BlueprintUpdate): (b': Blueprint)
    ensures b'.status == u.status
    ensures b'.threadId == b.threadId && b'.name == b.name && b'.userId == b.userId
    ensures b'.progress == (if u.progress != "" then u.progress else b.progress)
    ensures b'.workflow == (if Truthy(u.workflow) then u.workflow else b.workflow)
    ensures b'.mermaidCode == (if Truthy(u.mermaidCode) then u.mermaidCode else b.mermaidCode)
    ensures b'.errorMessage == (if Truthy(u.errorMessage) then u.errorMessage else b.errorMessage)
  {
    Blueprint(
      b.threadId, b.name, b.userId, u.status,
      if u.progress != "" then u.progress else b.progress,
      if Truthy(u.workflow) then u.workflow else b.workflow,
      if Truthy(u.mermaidCode) then u.mermaidCode else b.mermaidCode,
      if Truthy(u.errorMessage) then u.errorMessage else b.errorMessage)
  }

  function ApplyAll(b: Blueprint, us: seq<BlueprintUpdate>): Blueprint
    decreases |us|
  {
    if us == [] then b else Apply(ApplyAll(b, us[..|us| - 1]), us[|us| - 1])
  }

  /** The status after a sequence of updates is the last one's; thread, name and owner never change. */
  lemma {:induction false} ApplyAllStatus(b: Blueprint, us: seq<BlueprintUpdate>)
    ensures us != [] ==> ApplyAll(b, us).status == us[|us| - 1].status
    ensures var b' := ApplyAll(b, us); b'.threadId == b.threadId && b'.name == b.name && b'.userId == b.userId
    decreases |us|
  {
    if us != [] {
      ApplyAllStatus(b, us[..|us| - 1]);
    }
  }

  datatype Task = ProcessBlueprint(blueprintId: string, finalDocument: Req.StateValue)

  // Creating a blueprint.

  /** The exception a guard of `create_blueprint` raises, if any. */
  function CreateGuard(rec: Option<Req.Requirement>, userId: string): (r: Option<HttpError>)
    ensures r.None? <==> rec.Some? && rec.value.userId == userId && rec.value.finalDocument != Req.None_
    ensures rec.None? ==> r == Some(Raise(NotFound, "需求不存在"))
    ensures rec.Some? && rec.value.userId != userId ==> r == Some(Raise(Forbidden, "无权限访问此需求"))
    ensures rec.Some? && rec.value.userId == userId && rec.value.finalDocument == Req.None_ ==>
              r == Some(Raise(NotFound, "文档尚未生成"))
  {
    match rec
    case None => Some(Raise(NotFound, "需求不存在"))
    case Some(req) =>
      if req.userId != userId then Some(Raise(Forbidden, "无权限访问此需求"))
      else if req.finalDocument == Req.None_ then Some(Raise(NotFound, "文档尚未生成"))
      else None
  }

  /**
   * As written: with no clause re-raising the service's own exceptions, the catch-all
   * wraps a guard's exception into an internal server error carrying its text.
   */
  function CreateRejectionAsWritten(rec: Option<Req.Requirement>, userId: string): (r: Option<HttpError>)
    ensures r.None? <==> CreateGuard(rec, userId).None?
  {
    match CreateGuard(rec, userId)
    case None => None
    case Some(x) => Some(Raise(InternalServerError, ExceptionText(x)))
  }

  /** Corrected: the guard's exception propagates as it was raised. */
  function CreateRejection(rec: Option<Req.Requirement>, userId: string): (r: Option<HttpError>)
    ensures r == CreateGuard(rec, userId)
  {
    CreateGuard(rec, userId)
  }

  /** As written, every guard answers 500, and its own status survives only inside the text. */
  lemma GuardsBecomeServerErrors(rec: Option<Req.Requirement>, userId: string)
    requires CreateGuard(rec, userId).Some?
    ensures CreateRejectionAsWritten(rec, userId).value.statusCode == 500
    ensures CreateRejectionAsWritten(rec, userId).value.detail ==
            Detail(InternalServerError, Some(ExceptionText(CreateGuard(rec, userId).value)))
  {
    MiddleDigits(InternalServerError);
  }

  /** A missing requirement: 404 once corrected, 500 as written. */
  lemma MissingRequirementStatus(userId: string)
    ensures CreateRejection(None, userId).value.statusCode == 404
    ensures CreateRejectionAsWritten(None, userId).value.statusCode == 500
  {
    MiddleDigits(NotFound);
    GuardsBecomeServerErrors(None, userId);
  }

  // The generation task.

  /** The state the generation pipeline starts from: the final document as JSON text, nothing generated yet. */
  function InitialState(finalDocument: Req.StateValue, dumps: Req.StateValue -> string): (s: BlueprintPipeline.GraphState)
    ensures s.Keys == {"final_document", "workflow", "mermaid_code", "error"}
    ensures s["final_document"] == JStr(dumps(finalDocument))
    ensures s["workflow"] == JNull && s["mermaid_code"] == JNull && s["error"] == JNull
  {
    map["final_document" := JStr(dumps(finalDocument)), "workflow" := JNull, "mermaid_code" := JNull, "error" := JNull]
  }

  /** The DAO methods `BlueprintDAO` defines. */
  const DaoMethods: set<string> := {"create_blueprint", "update_blueprint_status", "get_blueprint_list", "get_blueprint_by_id"}

  /** Calling a DAO method by name: an undefined one raises. */
  function CallDao(name: string): (r: Result<()>)
    ensures r.Success? <==> name in DaoMethods
    ensures r.Failure? ==> r.error == MissingAttributeText(name)
  {
    if name in DaoMethods then Success(()) else Failure(MissingAttributeText(name))
  }

  function MissingAttributeText(name: string): string
  {
    "type object 'BlueprintDAO' has no attribute '" + name + "'"
  }

  /** `result.get(key)`. */
  function Field(state: BlueprintPipeline.GraphState, key: string): Json
  {
    if key in state then state[key] else JNull
  }

  /** How `_process_blueprint_task` reads the run's result; `fallback` is the DAO method its last branch calls. */
  function OutcomeUpdate(fallback: string, run: Result<BlueprintPipeline.GraphState>): (u: BlueprintUpdate)
    ensures u.status == Req.Completed || u.status == Req.Failed
    ensures u.status == Req.Completed <==>
              run.Success? && !Truthy(Field(run.value, "error")) &&
              Truthy(Field(run.value, "workflow")) && Truthy(Field(run.value, "mermaid_code"))
    ensures u.status == Req.Completed ==>
              u.workflow == Field(run.value, "workflow") && u.mermaidCode == Field(run.value, "mermaid_code")
  {
    match run
    case Failure(e) => BlueprintUpdate(Req.Failed, "处理过程中发生错误", JNull, JNull, JStr(e))
    case Success(result) =>
      if Truthy(Field(result, "error")) then
        BlueprintUpdate(Req.Failed, "处理过程中发生错误", JNull, JNull, Field(result, "error"))
      else if Truthy(Field(result, "workflow")) && Truthy(Field(result, "mermaid_code")) then
        BlueprintUpdate(Req.Completed, "工作流和流程图均已生成", Field(result, "workflow"), Field(result, "mermaid_code"), JNull)
      else
        match CallDao(fallback)
        case Failure(e) => BlueprintUpdate(Req.Failed, "处理过程中发生错误", JNull, JNull, JStr(e))
        case Success(_) => Progress(Req.Failed, "蓝图生成失败！")
  }

  /** The calls `_process_blueprint_task` makes. */
  function TaskUpdates(fallback: string, run: Result<BlueprintPipeline.GraphState>): (us: seq<BlueprintUpdate>)
    ensures |us| == 2 && us[0] == Progress(Req.Processing, "开始处理需求...") && us[1] == OutcomeUpdate(fallback, run)
  {
    [Progress(Req.Processing, "开始处理需求..."), OutcomeUpdate(fallback, run)]
  }

  /** As written: the incomplete-result branch calls `update_requirement_status`, which `BlueprintDAO` lacks. */
  function TaskUpdatesAsWritten(run: Result<BlueprintPipeline.GraphState>): seq<BlueprintUpdate>
  {
    TaskUpdates("update_requirement_status", run)
  }

  /** Corrected: that branch records the failure through `update_blueprint_status`. */
  function BlueprintTaskUpdates(run: Result<BlueprintPipeline.GraphState>): seq<BlueprintUpdate>
  {
    TaskUpdates("update_blueprint_status", run)
  }

  /**
   * A run that finished without error but without both results: as written the blueprint
   * ends failed through the exception path, with the attribute error as its message;
   * corrected it ends failed with "蓝图生成失败！" and no error message.
   */
  lemma IncompleteResult(result: BlueprintPipeline.GraphState)
    requires !Truthy(Field(result, "error"))
    requires !(Truthy(Field(result, "workflow")) && Truthy(Field(result, "mermaid_code")))
    ensures TaskUpdatesAsWritten(Success(result))[1] ==
            BlueprintUpdate(Req.Failed, "处理过程中发生错误", JNull, JNull, JStr(MissingAttributeText("update_requirement_status")))
    ensures BlueprintTaskUpdates(Success(result))[1] == Progress(Req.Failed, "蓝图生成失败！")
  {
    assert "update_requirement_status" !in DaoMethods;
    assert "update_blueprint_status" in DaoMethods;
  }

  /**
   * Run against the generation pipeline: a reply that parses to a truthy workflow whose
   * Mermaid reply is truthy completes the blueprint with exactly those two values.
   */
  lemma GeneratedBlueprintCompletes(finalDocument: Req.StateValue, dumps: Req.StateValue -> string,
                                    content: Content, parse: Parser, mermaid: BlueprintPipeline.MermaidModel)
    requires ParseReply(content, parse).Success?
    requires Truthy(ParseReply(content, parse).value) && Truthy(mermaid(ParseReply(content, parse).value))
    ensures var run := BlueprintPipeline.GenerationRun(InitialState(finalDocument, dumps), content, parse, mermaid);
      var w := ParseReply(content, parse).value;
      BlueprintTaskUpdates(run)[1] == BlueprintUpdate(Req.Completed, "工作流和流程图均已生成", w, mermaid(w), JNull)
  {
    var s0 := InitialState(finalDocument, dumps);
    BlueprintPipeline.GenerationRunResult(s0, content, parse, mermaid);
    var run := BlueprintPipeline.GenerationRun(s0, content, parse, mermaid);
    assert "error" in s0 && "error" !in {"workflow", "mermaid_code"};
    assert Field(run.value, "error") == JNull;
  }

  // Listing blueprints.

  /** The attributes the list keeps. */
  const RequiredFields: set<string> := {"status", "id", "created_at"}

  /** One blueprint's attribute dictionary, cut down to the kept attributes. */
  function Project(item: map<string, Json>): (r: map<string, Json>)
    ensures r.Keys == item.Keys * RequiredFields
    ensures forall k :: k in r ==> r[k] == item[k]
  {
    map k | k in item && k in RequiredFields :: item[k]
  }

  /** The projection of a projection is the projection. */
  lemma ProjectIdempotent(item: map<string, Json>)
    ensures Project(Project(item)) == Project(item)
  {
    assert Project(Project(item)).Keys == Project(item).Keys;
  }

  /**
   * `get_blueprint_list`: the requirement's guards, propagated, then each of the rows the
   * database returned, in its order, projected.
   */
  function BlueprintList(rec: Option<Req.Requirement>, userId: string, rows: seq<map<string, Json>>): (r: Response<seq<map<string, Json>>>)
    ensures rec.None? ==> r == Raised(Raise(NotFound, "需求不存在"))
    ensures rec.Some? && rec.value.userId != userId ==> r == Raised(Raise(Forbidden, "无权限访问此需求"))
    ensures rec.Some? && rec.value.userId == userId ==>
              r.Returned? && |r.value| == |rows| && forall i :: 0 <= i < |rows| ==> r.value[i] == Project(rows[i])
  {
    if rec.None? then Raised(Raise(NotFound, "需求不存在"))
    else if rec.value.userId != userId then Raised(Raise(Forbidden, "无权限访问此需求"))
    else Returned(seq(|rows|, i requires 0 <= i < |rows| => Project(rows[i])))
  }

  /** The store of blueprints, keyed by blueprint id. */
  class BlueprintStore {
    var blueprints: map<string, Blueprint>

    constructor()
      ensures blueprints == map[]
    {
      blueprints := map[];
    }

    /** `update_blueprint_status`: nothing happens to an id with no record. */
    method UpdateStatus(id: string, u: BlueprintUpdate)
      modifies this
      ensures blueprints == if id in old(blueprints) then old(blueprints)[id := Apply(old(blueprints)[id], u)] else old(blueprints)
    {
      if id in blueprints {
        blueprints := blueprints[id := Apply(blueprints[id], u)];
      }
    }

    method UpdateAll(id: string, us: seq<BlueprintUpdate>)
      modifies this
      ensures blueprints == if id in old(blueprints) then old(blueprints)[id := ApplyAll(old(blueprints)[id], us)] else old(blueprints)
    {
      for i := 0 to |us|
        invariant blueprints == if id in old(blueprints) then old(blueprints)[id := ApplyAll(old(blueprints)[id], us[..i])]
                                else old(blueprints)
      {
        assert us[..i + 1][..i] == us[..i];
        UpdateStatus(id, us[i]);
      }
      assert us[..|us|] == us;
    }

    /**
     * `create_blueprint`, with the guards' exceptions propagated: a new pending blueprint
     * under a fresh id, and its generation scheduled with the requirement's final document.
     */
    method CreateBlueprint(requirements: Req.RequirementStore, threadId: string, userId: string, id: string)
      returns (r: Response<string>, task: Option<Task>)
      requires id !in blueprints
      modifies this
      ensures var rejection := CreateRejection(requirements.Find(threadId), userId);
        (rejection.Some? ==> r == Raised(rejection.value) && task.None? && blueprints == old(blueprints)) &&
        (rejection.None? ==>
           r == Returned(id) && task == Some(ProcessBlueprint(id, requirements.records[threadId].finalDocument)) &&
           blueprints == old(blueprints)[id := Blueprint(threadId, "我的流程", userId, Req.Pending, "等待处理中...", JNull, JNull, JNull)])
    {
      var rec := requirements.Find(threadId);
      var rejection := CreateRejection(rec, userId);
      if rejection.Some? {
        r, task := Raised(rejection.value), None;
      } else {
        blueprints := blueprints[id := Blueprint(threadId, "我的流程", userId, Req.Pending, "等待处理中...", JNull, JNull, JNull)];
        r, task := Returned(id), Some(ProcessBlueprint(id, rec.value.finalDocument));
      }
    }

    /** `_process_blueprint_task`, with the incomplete-result branch corrected. */
    method ProcessBlueprintTask(id: string, run: Result<BlueprintPipeline.GraphState>)
      modifies this
      ensures blueprints == if id in old(blueprints) then old(blueprints)[id := ApplyAll(old(blueprints)[id], BlueprintTaskUpdates(run))]
                            else old(blueprints)
      ensures id in blueprints ==> blueprints[id].status in {Req.Completed, Req.Failed}
    {
      UpdateAll(id, BlueprintTaskUpdates(run));
      if id in blueprints {
        ApplyAllStatus(old(blueprints)[id], BlueprintTaskUpdates(run));
      }
    }
  }

  /** The blueprint DAO method `get_appid_by_thread` calls to find the thread's latest blueprint. */
  const LatestBlueprintMethod := "get_lastest_blueprint"

  /** The text of reading an attribute of the `None` that a missing requirement row gives. */
  function NoneAttributeText(name: string): string
  {
    "'NoneType' object has no attribute '" + name + "'"
  }

  /**
   * `get_appid_by_thread` as written: reading the requirement document from a missing row
   * raises, and otherwise the call of the undefined DAO method raises, so the workflow agent
   * is never built or run.
   */
  function AppIdByThreadAsWritten(requirementFound: bool): (r: Result<Option<string>>)
    ensures r.Failure?
    ensures !requirementFound ==> r.error == NoneAttributeText("requirement_name")
    ensures requirementFound ==> r.error == MissingAttributeText(LatestBlueprintMethod)
  {
    if !requirementFound then Failure(NoneAttributeText("requirement_name"))
    else
      match CallDao(LatestBlueprintMethod)
      case Failure(e) => Failure(e)
      case Success(_) => Success(None)
  }

  /**
   * `get_appid_by_thread` once the DAO provides the latest blueprint: a missing requirement
   * row still raises before anything else; otherwise the workflow agent is obtained (compiled
   * on first use) and run, and the call returns nothing, or the run's exception.
   */
  method GetAppIdByThread(agent: AppCache, requirementFound: bool, run: Result<()>) returns (r: Result<Option<string>>)
    requires agent.Valid()
    modifies agent
    ensures !requirementFound ==> r == Failure(NoneAttributeText("requirement_name")) && agent.app == old(agent.app)
    ensures requirementFound ==> r == (if run.Success? then Success(None) else Failure(run.error))
    ensures requirementFound ==> agent.Valid() && agent.app != null && (old(agent.app) != null ==> agent.app == old(agent.app))
  {
    if !requirementFound {
      return Failure(NoneAttributeText("requirement_name"));
    }
    var app := agent.Get();
    if run.Failure? {
      return Failure(run.error);
    }
    r := Success(None);
  }
}
