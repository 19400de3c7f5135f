/**
 * The requirement service (`biz/service/requirement.py`): a stored requirement moves from
 * pending through processing to waiting for answers, and after the answers to completed,
 * or to failed at any step. The store is a map from thread id to record; the pipeline's
 * results and the JSON parser are inputs.
 */
module RequirementService {
  import opened Wrappers
  import opened Json
  import opened Text
  import opened Errors
  import opened LlmReply

  datatype TaskStatus = Pending | Processing | Completed | Failed | WaitingForAnswers

  /** The string each status is stored as. */
  function StatusValue(s: TaskStatus): string
  {
    match s
    case Pending => "pending"
    case Processing => "processing"
    case Completed => "completed"
    case Failed => "failed"
    case WaitingForAnswers => "waiting_for_answers"
  }

  /**
   * A value in a pipeline state: plain JSON data, a chat-model message with its text
   * content, or a structured model object with its field dump.
   */
  datatype StateValue = Plain(json: Json) | Message(content: string) | Model(fields: map<string, Json>)

  /** Python truthiness: objects are always true, plain data as JSON. */
  predicate ValueTruthy(v: StateValue)
  {
    match v
    case Plain(j) => Truthy(j)
    case Message(_) => true
    case Model(_) => true
  }

  const None_: StateValue := Plain(JNull)

  type State = map<string, StateValue>

  /** `result.get(key)`. */
  function Field(state: State, key: string): (v: StateValue)
    ensures key !in state ==> v == None_
    ensures key in state ==> v == state[key]
  {
    if key in state then state[key] else None_
  }

  /** The columns of a stored requirement that the service reads or writes. */
  datatype Requirement = Requirement(
    userId: string,
    initialRequirement: string,
    status: TaskStatus,
    progress: string,
    questionnaire: StateValue,
    userAnswers: StateValue,
    finalDocument: StateValue,
    errorMessage: StateValue)

  /** The arguments of one `update_requirement_status` call; `None_` for one not passed. */
  datatype StatusUpdate = StatusUpdate(
    status: TaskStatus,
    progress: string,
    questionnaire: StateValue,
    finalDocument: StateValue,
    errorMessage: StateValue,
    userAnswers: StateValue)

  function Progress(status: TaskStatus, progress: string): StatusUpdate
  {
    StatusUpdate(status, progress, None_, None_, None_, None_)
  }

  /** The status is always written; every other column only when its argument is truthy. */
  function Apply(r: Requirement, u: StatusUpdate): (r': Requirement)
    ensures r'.status == u.status
    ensures r'.userId == r.userId && r'.initialRequirement == r.initialRequirement
    ensures r'.progress == (if u.progress != "" then u.progress else r.progress)
    ensures r'.questionnaire == (if ValueTruthy(u.questionnaire) then u.questionnaire else r.questionnaire)
    ensures r'.finalDocument == (if ValueTruthy(u.finalDocument) then u.finalDocument else r.finalDocument)
    ensures r'.errorMessage == (if ValueTruthy(u.errorMessage) then u.errorMessage else r.errorMessage)
    ensures r'.userAnswers == (if ValueTruthy(u.userAnswers) then u.userAnswers else r.userAnswers)
  {
    Requirement(
      r.userId, r.initialRequirement, u.status,
      if u.progress != "" then u.progress else r.progress,
      if ValueTruthy(u.questionnaire) then u.questionnaire else r.questionnaire,
      if ValueTruthy(u.userAnswers) then u.userAnswers else r.userAnswers,
      if ValueTruthy(u.finalDocument) then u.finalDocument else r.finalDocument,
      if ValueTruthy(u.errorMessage) then u.errorMessage else r.errorMessage)
  }

  /** Updating twice with the same arguments is updating once. */
  lemma ApplyIdempotent(r: Requirement, u: StatusUpdate)
    ensures Apply(Apply(r, u), u) == Apply(r, u)
  {
  }

  /** A sequence of updates, applied in order. */
  function ApplyAll(r: Requirement, us: seq<StatusUpdate>): Requirement
    decreases |us|
  {
    if us == [] then r else Apply(ApplyAll(r, us[..|us| - 1]), us[|us| - 1])
  }

  /** The status after a sequence of updates is the last one's, and the owner never changes. */
  lemma {:induction false} ApplyAllStatus(r: Requirement, us: seq<StatusUpdate>)
    ensures us != [] ==> ApplyAll(r, us).status == us[|us| - 1].status
    ensures ApplyAll(r, us).userId == r.userId
    decreases |us|
  {
    if us != [] {
      ApplyAllStatus(r, us[..|us| - 1]);
    }
  }

  // Background tasks and what they do to the store.

  datatype Task =
    | ProcessRequirement(threadId: string, initialRequirement: string)
    | ContinueRequirement(threadId: string, answers: Json)

  /** The names `biz/agent/requirement/graph.py` defines for import. */
  const GraphExports: set<string> := {"get_workflow_app"}

  /** The import that both background tasks perform. */
  function ImportGraph(name: string): (r: Result<()>)
    ensures r.Success? <==> name in GraphExports
    ensures r.Failure? ==> r.error == ImportErrorText(name)
  {
    if name in GraphExports then Success(()) else Failure(ImportErrorText(name))
  }

  function ImportErrorText(name: string): string
  {
    "cannot import name '" + name + "' from 'biz.agent.requirement.graph'"
  }

  /** What the first run of the pipeline handed back: its final state, or the exception's text. */
  type Run = Result<State>

  /** How `_process_requirement_task` reads the first run's result. */
  function FirstRunUpdate(run: Run): (u: StatusUpdate)
    ensures u.status == WaitingForAnswers || u.status == Failed
    ensures u.status == WaitingForAnswers <==>
              run.Success? && !ValueTruthy(Field(run.value, "error")) && ValueTruthy(Field(run.value, "questionnaire"))
    ensures u.status == WaitingForAnswers ==> u.questionnaire == Field(run.value, "questionnaire")
    ensures run.Failure? ==> u.errorMessage == Plain(JStr(run.error))
    ensures run.Success? && ValueTruthy(Field(run.value, "error")) ==> u.errorMessage == Field(run.value, "error")
  {
    match run
    case Failure(e) => StatusUpdate(Failed, "处理过程中发生错误", None_, None_, Plain(JStr(e)), None_)
    case Success(result) =>
      if ValueTruthy(Field(result, "error")) then
        StatusUpdate(Failed, "处理过程中发生错误", None_, None_, Field(result, "error"), None_)
      else if ValueTruthy(Field(result, "questionnaire")) then
        StatusUpdate(WaitingForAnswers, "问卷已生成，等待用户回答", Field(result, "questionnaire"), None_, None_, None_)
      else Progress(Failed, "问卷生成失败")
  }

  /** The calls `_process_requirement_task` makes, when the graph's entry point is imported under `name`. */
  function ProcessUpdates(name: string, run: Run): (us: seq<StatusUpdate>)
    ensures |us| == 2 && us[0] == Progress(Processing, "开始处理需求...")
    ensures us[1] == FirstRunUpdate(if name in GraphExports then run else Failure(ImportGraph(name).error))
  {
    [Progress(Processing, "开始处理需求..."),
     match ImportGraph(name)
     case Failure(e) => FirstRunUpdate(Failure(e))
     case Success(_) => FirstRunUpdate(run)]
  }

  /** As written: the task imports `get_requirement_workflow`, which the graph module does not define. */
  function ProcessUpdatesAsWritten(run: Run): seq<StatusUpdate>
  {
    ProcessUpdates("get_requirement_workflow", run)
  }

  /** Corrected: the task imports the entry point the graph module defines. */
  function ProcessTaskUpdates(run: Run): seq<StatusUpdate>
  {
    ProcessUpdates("get_workflow_app", run)
  }

  /** As written, every first run ends failed with the import error, whatever the pipeline would have produced. */
  lemma ProcessAlwaysFails(run: Run)
    ensures ProcessUpdatesAsWritten(run)[1].status == Failed
    ensures ProcessUpdatesAsWritten(run)[1].errorMessage == Plain(JStr(ImportErrorText("get_requirement_workflow")))
  {
    assert "get_requirement_workflow" != "get_workflow_app";
  }

  /** A run that produced a questionnaire: waiting for answers once corrected, failed as written. */
  lemma QuestionnaireLostAsWritten(q: StateValue)
    requires ValueTruthy(q)
    ensures var run: Run := Success(map["questionnaire" := q]);
      ProcessTaskUpdates(run)[1].status == WaitingForAnswers && ProcessTaskUpdates(run)[1].questionnaire == q &&
      ProcessUpdatesAsWritten(run)[1].status == Failed
  {
    ProcessAlwaysFails(Success(map["questionnaire" := q]));
  }

  /** The last non-empty event of a stream, as the continuation keeps it. */
  function LastEvent(events: seq<State>): (r: Option<State>)
    ensures r.Some? ==> r.value != map[] && r.value in events
    ensures r.None? <==> forall i :: 0 <= i < |events| ==> events[i] == map[]
    decreases |events|
  {
    if events == [] then None
    else if events[|events| - 1] != map[] then Some(events[|events| - 1])
    else LastEvent(events[..|events| - 1])
  }

  /** `for event in app.stream(...): if event: result = event`. */
  method StreamResult(events: seq<State>) returns (result: Option<State>)
    ensures result == LastEvent(events)
  {
    result := None;
    for i := 0 to |events|
      invariant result == LastEvent(events[..i])
    {
      if events[i] != map[] {
        result := Some(events[i]);
      }
      assert events[..i + 1][..i] == events[..i];
    }
    assert events[..|events|] == events;
  }

  /** One leading `"```json"` removed, if there is one. */
  function DropFenceOpen(t: string): (r: string)
    ensures |t| >= 7 && t[..7] == "```json" ==> r == t[7..]
    ensures !(|t| >= 7 && t[..7] == "```json") ==> r == t
  {
    if |t| >= 7 && t[..7] == "```json" then t[7..] else t
  }

  /** One trailing `"```"` removed, if there is one. */
  function DropFenceClose(t: string): (r: string)
    ensures |t| >= 3 && t[|t| - 3..] == "```" ==> r == t[..|t| - 3]
    ensures !(|t| >= 3 && t[|t| - 3..] == "```") ==> r == t
  {
    if |t| >= 3 && t[|t| - 3..] == "```" then t[..|t| - 3] else t
  }

  /** `_parse_final_document`'s text handling: whitespace strip, one `"```json"` prefix and one `"```"` suffix removed, strip again. */
  function UnfenceDocument(s: string): string
  {
    Trim(DropFenceClose(DropFenceOpen(Trim(s))))
  }

  /** A string whose ends are not whitespace is its own strip. */
  lemma TrimUnchanged(s: string)
    requires s != [] ==> s[0] !in Whitespace && s[|s| - 1] !in Whitespace
    ensures Trim(s) == s
  {
    StripFrame([], s, [], Whitespace);
    assert [] + s + [] == s;
  }

  /** A fenced document gives back its body, whitespace-stripped, whatever characters the body starts or ends with. */
  lemma UnfenceWrapped(body: string)
    ensures UnfenceDocument("```json" + body + "```") == Trim(body)
  {
    var s := "```json" + body + "```";
    assert s[0] == '`' && s[|s| - 1] == '`';
    TrimUnchanged(s);
    assert s[..7] == "```json";
    assert DropFenceOpen(s) == body + "```";
    var t1 := body + "```";
    assert t1[|t1| - 3..] == "```";
    assert DropFenceClose(t1) == body;
  }

  /**
   * Unlike the pipelines' character-set strip, only the exact prefix goes: a body that starts
   * with one of the letters of "json" (a bare `null`, say) keeps it here and loses it there.
   */
  lemma UnfenceKeepsLeadingLetters(body: string)
    requires body != [] && body[0] in {'`', 'j', 's', 'o', 'n'}
    requires body[0] !in Whitespace && body[|body| - 1] !in Whitespace
    ensures UnfenceDocument("```json" + body + "```") == body
    ensures FenceStrip("```json" + body + "```") != body
  {
    UnfenceWrapped(body);
    TrimUnchanged(body);
    FenceStripIsOneStrip("```json" + body + "```");
  }

  /**
   * `_parse_final_document`: nothing for a falsy value; a message's content parsed after
   * unfencing, or kept under `"content"` when it does not parse; a model's field dump; a
   * dictionary as it is; anything else as its text under `"content"`.
   */
  function ParseFinalDocument(raw: StateValue, parse: Parser, show: Json -> string): (r: Option<Json>)
    ensures r.None? <==> !ValueTruthy(raw)
    ensures raw.Message? ==> r == Some(parse(UnfenceDocument(raw.content)).GetOr(JObj(map["content" := JStr(raw.content)])))
    ensures raw.Model? ==> r == Some(JObj(raw.fields))
    ensures raw.Plain? && raw.json.JObj? && ValueTruthy(raw) ==> r == Some(raw.json)
    ensures raw.Plain? && !raw.json.JObj? && ValueTruthy(raw) ==> r == Some(JObj(map["content" := JStr(show(raw.json))]))
  {
    if !ValueTruthy(raw) then None
    else
      match raw
      case Message(content) =>
        (match parse(UnfenceDocument(content))
         case Some(j) => Some(j)
         case None => Some(JObj(map["content" := JStr(content)])))
      case Model(fields) => Some(JObj(fields))
      case Plain(j) => if j.JObj? then Some(j) else Some(JObj(map["content" := JStr(show(j))]))
  }

  /** How `_continue_requirement_task` reads the streamed result, or the exception's text. */
  function ContinueUpdate(streamed: Result<seq<State>>, parse: Parser, show: Json -> string): (u: StatusUpdate)
    ensures u.status == Completed || u.status == Failed
    ensures u.status == Completed <==>
              streamed.Success? && LastEvent(streamed.value).Some? &&
              !ValueTruthy(Field(LastEvent(streamed.value).value, "error")) &&
              var doc := ParseFinalDocument(Field(LastEvent(streamed.value).value, "final_document"), parse, show);
              doc.Some? && Truthy(doc.value)
    ensures u.status == Completed ==>
              u.finalDocument == Plain(ParseFinalDocument(Field(LastEvent(streamed.value).value, "final_document"), parse, show).value)
  {
    match streamed
    case Failure(e) => StatusUpdate(Failed, "生成最终文档时发生错误", None_, None_, Plain(JStr(e)), None_)
    case Success(events) =>
      var result := LastEvent(events);
      var doc := ParseFinalDocument(if result.Some? then Field(result.value, "final_document") else None_, parse, show);
      if result.Some? && ValueTruthy(Field(result.value, "error")) then
        StatusUpdate(Failed, "生成最终文档时发生错误", None_, None_, Field(result.value, "error"), None_)
      else if doc.Some? && Truthy(doc.value) then
        StatusUpdate(Completed, "最终需求文档已生成完成", None_, Plain(doc.value), None_, None_)
      else Progress(Failed, "最终文档生成失败")
  }

  /** The calls `_continue_requirement_task` makes: the import comes before the first status update. */
  function ContinueUpdates(name: string, streamed: Result<seq<State>>, parse: Parser, show: Json -> string): (us: seq<StatusUpdate>)
    ensures name !in GraphExports ==> us == [ContinueUpdate(Failure(ImportGraph(name).error), parse, show)]
    ensures name in GraphExports ==> us == [Progress(Processing, "正在生成最终需求文档..."), ContinueUpdate(streamed, parse, show)]
  {
    match ImportGraph(name)
    case Failure(e) => [ContinueUpdate(Failure(e), parse, show)]
    case Success(_) => [Progress(Processing, "正在生成最终需求文档..."), ContinueUpdate(streamed, parse, show)]
  }

  function ContinueUpdatesAsWritten(streamed: Result<seq<State>>, parse: Parser, show: Json -> string): seq<StatusUpdate>
  {
    ContinueUpdates("get_requirement_workflow", streamed, parse, show)
  }

  function ContinueTaskUpdates(streamed: Result<seq<State>>, parse: Parser, show: Json -> string): seq<StatusUpdate>
  {
    ContinueUpdates("get_workflow_app", streamed, parse, show)
  }

  /** As written, no continuation completes: one update, to failed, with the import error. */
  lemma ContinueAlwaysFails(streamed: Result<seq<State>>, parse: Parser, show: Json -> string)
    ensures |ContinueUpdatesAsWritten(streamed, parse, show)| == 1
    ensures ContinueUpdatesAsWritten(streamed, parse, show)[0].status == Failed
  {
    assert "get_requirement_workflow" != "get_workflow_app";
  }

  /** A stream whose last event holds a fenced final document and no error completes, once corrected. */
  lemma FencedDocumentCompletes(events: seq<State>, body: string, doc: Json, parse: Parser, show: Json -> string)
    requires LastEvent(events).Some?
    requires Field(LastEvent(events).value, "final_document") == Message("```json" + body + "```")
    requires !ValueTruthy(Field(LastEvent(events).value, "error"))
    requires parse(Trim(body)) == Some(doc) && Truthy(doc)
    ensures ContinueTaskUpdates(Success(events), parse, show)[1].status == Completed
    ensures ContinueTaskUpdates(Success(events), parse, show)[1].finalDocument == Plain(doc)
  {
    UnfenceWrapped(body);
    assert ParseFinalDocument(Message("```json" + body + "```"), parse, show) == Some(doc);
  }

  /**
   * A compiled graph streams in the "updates" mode by default, one `{stage name: update}`
   * event per stage; a last event keyed by stage names has neither top-level key, so even the
   * corrected continuation ends failed with "最终文档生成失败".
   */
  lemma StageKeyedEventFails(events: seq<State>, parse: Parser, show: Json -> string)
    requires LastEvent(events).Some?
    requires "final_document" !in LastEvent(events).value && "error" !in LastEvent(events).value
    ensures ContinueTaskUpdates(Success(events), parse, show)[1] == Progress(Failed, "最终文档生成失败")
  {
    assert Field(LastEvent(events).value, "final_document") == None_;
  }

  // Submitting answers.

  /** The exception `submit_answers` raises for the stored record, if any; `reject` is the member named for a wrong status. */
  function SubmitRejection(rec: Option<Requirement>, userId: string, reject: Result<ErrorCode>): (r: Option<HttpError>)
    ensures r.None? <==> rec.Some? && rec.value.userId == userId && rec.value.status == WaitingForAnswers
    ensures rec.None? ==> r == Some(Raise(NotFound, "需求不存在"))
    ensures rec.Some? && rec.value.userId != userId ==> r == Some(Raise(Forbidden, "无权限访问此需求"))
  {
    match rec
    case None => Some(Raise(NotFound, "需求不存在"))
    case Some(req) =>
      if req.userId != userId then Some(Raise(Forbidden, "无权限访问此需求"))
      else if req.status != WaitingForAnswers then
        match reject
        case Success(code) => Some(Raise(code, "当前状态不允许提交答案，当前状态: " + StatusValue(req.status)))
        case Failure(err) => Some(Raise(InternalServerError, err))
      else None
  }

  /** As written: the wrong-status rejection names `ErrorCode.BAD_REQUEST`. */
  function SubmitRejectionAsWritten(rec: Option<Requirement>, userId: string): Option<HttpError>
  {
    SubmitRejection(rec, userId, Lookup("BAD_REQUEST"))
  }

  /** Corrected: the rejection uses the table's request error, whose status is 400. */
  function SubmitRejectionFixed(rec: Option<Requirement>, userId: string): Option<HttpError>
  {
    SubmitRejection(rec, userId, Success(ValidationError))
  }

  /** As written, a submission in the wrong state is answered with an internal server error. */
  lemma WrongStatusIsServerError(req: Requirement, userId: string)
    requires req.userId == userId && req.status != WaitingForAnswers
    ensures SubmitRejectionAsWritten(Some(req), userId).Some?
    ensures SubmitRejectionAsWritten(Some(req), userId).value.statusCode == 500
    ensures SubmitRejectionAsWritten(Some(req), userId).value.errorCode == 1500001
  {
    BadRequestUndeclared();
    LookupUndeclared("BAD_REQUEST");
    var err := "AttributeError: " + "BAD_REQUEST";
    UnknownCodeRejection(req, userId, Failure(err));
    ServerErrorRaised(err);
  }

  lemma ServerErrorRaised(err: string)
    ensures Raise(InternalServerError, err).statusCode == 500
    ensures Raise(InternalServerError, err).errorCode == 1500001
  {
    assert Code(InternalServerError) == 1500001;
  }

  /** A rejection whose error code cannot be looked up raises the lookup's error as a server error. */
  lemma UnknownCodeRejection(req: Requirement, userId: string, reject: Result<ErrorCode>)
    requires req.userId == userId && req.status != WaitingForAnswers && reject.Failure?
    ensures SubmitRejection(Some(req), userId, reject) == Some(Raise(InternalServerError, reject.error))
  {
  }

  /** Corrected, the same submission is a 400 client error. */
  lemma WrongStatusIsClientError(req: Requirement, userId: string)
    requires req.userId == userId && req.status != WaitingForAnswers
    ensures SubmitRejectionFixed(Some(req), userId).Some?
    ensures SubmitRejectionFixed(Some(req), userId).value.statusCode == 400
  {
    MiddleDigits(ValidationError);
  }

  /** The store of requirement records, keyed by thread id. */
  class RequirementStore {
    var records: map<string, Requirement>

    constructor()
      ensures records == map[]
    {
      records := map[];
    }

    function Find(id: string): (r: Option<Requirement>)
      reads this
      ensures r.Some? <==> id in records
      ensures r.Some? ==> r.value == records[id]
    {
      if id in records then Some(records[id]) else None
    }

    /** `create_requirement`: a new pending record under a fresh id, and the first run scheduled. */
    method CreateRequirement(id: string, initialRequirement: string, userId: string) returns (threadId: string, task: Task)
      requires id !in records
      modifies this
      ensures threadId == id && task == ProcessRequirement(id, initialRequirement)
      ensures records == old(records)[id := Requirement(userId, initialRequirement, Pending, "等待处理中...",
                                                         None_, None_, None_, None_)]
    {
      records := records[id := Requirement(userId, initialRequirement, Pending, "等待处理中...", None_, None_, None_, None_)];
      threadId := id;
      task := ProcessRequirement(id, initialRequirement);
    }

    /** `update_requirement_status`: nothing happens to an id with no record. */
    method UpdateStatus(id: string, u: StatusUpdate)
      modifies this
      ensures records == if id in old(records) then old(records)[id := Apply(old(records)[id], u)] else old(records)
    {
      if id in records {
        records := records[id := Apply(records[id], u)];
      }
    }

    /** A background task's status updates, one call after another. */
    method UpdateAll(id: string, us: seq<StatusUpdate>)
      modifies this
      ensures records == if id in old(records) then old(records)[id := ApplyAll(old(records)[id], us)] else old(records)
    {
      for i := 0 to |us|
        invariant records == if id in old(records) then old(records)[id := ApplyAll(old(records)[id], us[..i])] else old(records)
      {
        assert us[..i + 1][..i] == us[..i];
        UpdateStatus(id, us[i]);
      }
      assert us[..|us|] == us;
    }

    /** `_process_requirement_task`, with the import corrected. */
    method ProcessRequirementTask(id: string, run: Run)
      modifies this
      ensures records == if id in old(records) then old(records)[id := ApplyAll(old(records)[id], ProcessTaskUpdates(run))]
                         else old(records)
    {
      UpdateAll(id, ProcessTaskUpdates(run));
    }

    /** `submit_answers`, with the corrected rejection: the guards, then the answers stored and the continuation scheduled. */
    method SubmitAnswers(id: string, answers: Json, userId: string) returns (r: Response<string>, task: Option<Task>)
      modifies this
      ensures var rejection := SubmitRejectionFixed(old(Find(id)), userId);
        (rejection.Some? ==> r == Raised(rejection.value) && task.None? && records == old(records)) &&
        (rejection.None? ==>
           r == Returned("答案已提交，正在生成最终文档...") && task == Some(ContinueRequirement(id, answers)) &&
           records == old(records)[id := Apply(old(records)[id],
                                                 StatusUpdate(Processing, "已收到用户答案，正在生成最终文档...", None_, None_, None_, Plain(answers)))])
    {
      var rejection := SubmitRejectionFixed(Find(id), userId);
      if rejection.Some? {
        r, task := Raised(rejection.value), None;
      } else {
        UpdateStatus(id, StatusUpdate(Processing, "已收到用户答案，正在生成最终文档...", None_, None_, None_, Plain(answers)));
        r, task := Returned("答案已提交，正在生成最终文档..."), Some(ContinueRequirement(id, answers));
      }
    }

    /** `_continue_requirement_task`, with the import corrected. */
    method ContinueRequirementTask(id: string, streamed: Result<seq<State>>, parse: Parser, show: Json -> string)
      modifies this
      ensures records == if id in old(records) then old(records)[id := ApplyAll(old(records)[id], ContinueTaskUpdates(streamed, parse, show))]
                         else old(records)
    {
      UpdateAll(id, ContinueTaskUpdates(streamed, parse, show));
    }
  }

  /** Over a whole lifecycle the record's status moves along pending, waiting for answers, processing, and completed or failed. */
  lemma Lifecycle(r: Requirement, run: Run, streamed: Result<seq<State>>, parse: Parser, show: Json -> string)
    ensures ApplyAll(r, ProcessTaskUpdates(run)).status in {WaitingForAnswers, Failed}
    ensures ApplyAll(r, ContinueTaskUpdates(streamed, parse, show)).status in {Completed, Failed}
  {
    ApplyAllStatus(r, ProcessTaskUpdates(run));
    ApplyAllStatus(r, ContinueTaskUpdates(streamed, parse, show));
  }
}
