/**
 * The two JSON endpoints, /createTask and /getTaskResult, over the task
 * registry, and the record a finished login flow leaves in it.
 */
module Service {
  import opened Wrappers
  import opened Registry
  import Session
  import Flow

  /** The configured shared secret. */
  const AccessKey := "senvas"

  const StatusOK := 200
  const StatusBadRequest := 400
  const StatusUnauthorized := 401

  /** A request body: unreadable, not valid JSON for the request type, or decoded. */
  datatype Body<T> = Unreadable | Malformed | Decoded(value: T)

  datatype TaskRequest = TaskRequest(
    accessKey: string, appleData: string, cookies: seq<string>, mail: string, mobile: bool,
    pass: string, proxy: Session.Proxy, recovery: string, secret: string, url: string)

  datatype TaskResultRequest = TaskResultRequest(accessKey: string, id: string)

  /** The /createTask reply; None stands for a field left out by `omitempty`. */
  datatype TaskResponse = TaskResponse(success: bool, token: Option<string>, error: Option<string>, id: Option<string>)

  /** The /getTaskResult reply; None stands for a field left out by `omitempty`. */
  datatype TaskStatusResponse =
    TaskStatusResponse(statusCode: int, status: string, id: string, token: Option<string>, error: Option<string>)

  /** How an `omitempty` string field is encoded. */
  function OmitEmpty(s: string): Option<string> {
    if s == "" then None else Some(s)
  }

  /** The reply of /getTaskResult for id `id`, from the registry read of that id. */
  function ShapeStatus(id: string, status: TaskStatus, found: bool): (r: TaskStatusResponse)
    ensures r.id == id
    ensures !found ==> r.statusCode == StatusProcessing
    ensures r.token.Some? ==> found && r.token.value == status.token && r.token.value != ""
    ensures r.error.Some? ==> found && r.error.value == status.error && r.error.value != ""
  {
    if !found then TaskStatusResponse(StatusProcessing, "processing", id, None, None)
    else TaskStatusResponse(status.statusCode, status.status, id, OmitEmpty(status.token), OmitEmpty(status.error))
  }

  /** The reply of /getTaskResult for a rejected request. */
  function StatusError(text: string): TaskStatusResponse {
    TaskStatusResponse(StatusFailed, "failed", "", None, Some(text))
  }

  /** The reply of /createTask for a rejected request. */
  function CreateError(text: string): TaskResponse {
    TaskResponse(false, None, Some(text), None)
  }

  /**
   * An unknown id reads as processing and echoes the id; a known one copies
   * code and status and carries the token and the error only when they are
   * not empty. An unknown id is never reported as failed.
   */
  lemma ShapeStatusCases(id: string, status: TaskStatus, found: bool)
    ensures var r := ShapeStatus(id, status, found);
      && r.id == id
      && (!found ==> r == TaskStatusResponse(1, "processing", id, None, None) && r.statusCode != StatusFailed)
      && (found ==> r.statusCode == status.statusCode && r.status == status.status)
      && (found ==> (r.token.Some? <==> status.token != "") && (r.token.Some? ==> r.token.value == status.token))
      && (found ==> (r.error.Some? <==> status.error != "") && (r.error.Some? ==> r.error.value == status.error))
  {
  }

  /** A well-formed entry never carries both a token and an error, and its code names its status. */
  lemma ShapeStatusWellFormed(id: string, status: TaskStatus)
    requires WellFormed(status)
    ensures var r := ShapeStatus(id, status, true);
      && (r.token.None? || r.error.None?)
      && (r.statusCode == 1 <==> r.status == "processing")
      && (r.statusCode == 2 <==> r.status == "completed")
      && (r.statusCode == 3 <==> r.status == "failed")
  {
  }

  /**
   * handleCreateTaskRequest: reject an unreadable or malformed body (400) or a
   * wrong access key (401) without touching the registry; otherwise register
   * the task under its mail and reply with that id.
   */
  method HandleCreateTask(registry: TaskRegistry, body: Body<TaskRequest>, now: Instant)
    returns (code: int, response: TaskResponse)
    requires registry.Valid()
    modifies registry
    ensures registry.Valid()
    ensures body.Unreadable? ==>
              code == StatusBadRequest && response == CreateError("Failed to read request body")
              && registry.tasks == old(registry.tasks)
    ensures body.Malformed? ==>
              code == StatusBadRequest && response == CreateError("Invalid JSON format")
              && registry.tasks == old(registry.tasks)
    ensures body.Decoded? && body.value.accessKey != AccessKey ==>
              code == StatusUnauthorized && response == CreateError("Invalid access key")
              && registry.tasks == old(registry.tasks)
    ensures body.Decoded? && body.value.accessKey == AccessKey ==>
              code == StatusOK && response == TaskResponse(true, None, None, OmitEmpty(body.value.mail))
              && registry.tasks == Registered(old(registry.tasks), body.value.mail, now)
  {
    if body.Unreadable? {
      return StatusBadRequest, CreateError("Failed to read request body");
    }
    if body.Malformed? {
      return StatusBadRequest, CreateError("Invalid JSON format");
    }
    var task := body.value;
    if task.accessKey != AccessKey {
      return StatusUnauthorized, CreateError("Invalid access key");
    }
    registry.Register(task.mail, now);
    return StatusOK, TaskResponse(true, None, None, OmitEmpty(task.mail));
  }

  /**
   * handleGetTaskResult: reject an unreadable or malformed body (400) or a
   * wrong access key (401); otherwise read the entry for the id and shape it.
   */
  method HandleGetTaskResult(registry: TaskRegistry, body: Body<TaskResultRequest>)
    returns (code: int, response: TaskStatusResponse)
    requires registry.Valid()
    ensures body.Unreadable? ==>
              code == StatusBadRequest && response == StatusError("Failed to read request body")
    ensures body.Malformed? ==>
              code == StatusBadRequest && response == StatusError("Invalid JSON format")
    ensures body.Decoded? && body.value.accessKey != AccessKey ==>
              code == StatusUnauthorized && response == StatusError("Invalid access key")
    ensures body.Decoded? && body.value.accessKey == AccessKey ==>
              var id := body.value.id;
              && code == StatusOK
              && (id !in registry.tasks ==> response == TaskStatusResponse(1, "processing", id, None, None))
              && (id in registry.tasks ==>
                    response == ShapeStatus(id, registry.tasks[id], true)
                    && response.statusCode == registry.tasks[id].statusCode
                    && response.status == registry.tasks[id].status
                    && (response.token.None? || response.error.None?)
                    && (response.statusCode == StatusProcessing <==> response.status == "processing")
                    && (response.statusCode == StatusCompleted <==> response.status == "completed")
                    && (response.statusCode == StatusFailed <==> response.status == "failed"))
  {
    if body.Unreadable? {
      return StatusBadRequest, StatusError("Failed to read request body");
    }
    if body.Malformed? {
      return StatusBadRequest, StatusError("Invalid JSON format");
    }
    var request := body.value;
    if request.accessKey != AccessKey {
      return StatusUnauthorized, StatusError("Invalid access key");
    }
    var status, found := registry.Lookup(request.id);
    if !found {
      return StatusOK, TaskStatusResponse(StatusProcessing, "processing", request.id, None, None);
    }
    response := TaskStatusResponse(status.statusCode, status.status, request.id, None, None);
    if status.token != "" {
      response := response.(token := Some(status.token));
    }
    if status.error != "" {
      response := response.(error := Some(status.error));
    }
    ShapeStatusWellFormed(request.id, status);
    code := StatusOK;
  }

  /**
   * What the worker records for a login run: the token, or the error's text.
   * A run still polling never reaches its write, and the task stays processing.
   */
  function WorkerOutcome(run: Flow.Run): (o: Option<Result<string, string>>)
    ensures o.None? <==> run.StillPolling?
    ensures run.Finished? ==> (o.value.Ok? <==> run.result.Ok?)
    ensures o.Some? && o.value.Err? ==> o.value.error != ""
  {
    match run
    case StillPolling => None
    case Finished(Ok(token)) => Some(Ok(token))
    case Finished(Err(e)) => Some(Err(Flow.ErrorText(e)))
  }

  /** A submitted task whose login returns a token is then reported completed, with that token. */
  lemma CompletedScenario(tasks: Tasks, mail: string, now: Instant, token: string)
    requires token != ""
    ensures var after := Completed(Registered(tasks, mail, now), mail, WorkerOutcome(Flow.Finished(Ok(token))).value);
      var (status, found) := Get(after, mail);
      ShapeStatus(mail, status, found) == TaskStatusResponse(2, "completed", mail, Some(token), None)
  {
  }

  /** A submitted task whose login fails is then reported failed, with the failure's text. */
  lemma FailedScenario(tasks: Tasks, mail: string, now: Instant, e: Flow.FlowError)
    ensures var after := Completed(Registered(tasks, mail, now), mail, WorkerOutcome(Flow.Finished(Err(e))).value);
      var (status, found) := Get(after, mail);
      ShapeStatus(mail, status, found) == TaskStatusResponse(3, "failed", mail, None, Some(Flow.ErrorText(e)))
  {
  }

  /** Right after a submission is accepted, polling its id reads processing. */
  lemma PollAfterSubmit(tasks: Tasks, mail: string, now: Instant)
    ensures var (status, found) := Get(Registered(tasks, mail, now), mail);
      ShapeStatus(mail, status, found) == TaskStatusResponse(1, "processing", mail, None, None)
  {
  }
}
