/** The gateway's HTTP client for the backing tier. Each call builds one
    request, sends it, and classifies what came back by an ordered series of
    checks: transport failure, Content-Type (where a JSON body is expected),
    status code, then decoding. */
module GatewayClient {
  import opened Shared
  import opened Strconv
  import opened Errors
  import opened Http

  /** The `*http.Client` together with the base URL: sending a request and
      getting back a transport failure or a response. */
  datatype Client = Client(send: Request -> HttpOutcome)

  const UnexpectedStatusText: string := "unexpected status"
  const AlreadyExistsText: string := "task already exists"

  /** The text of the `NotFoundError` for an id. */
  function NotFoundText(id: Int64): string {
    "task " + Itoa(id) + " not found"
  }

  /** `NotFoundError.Error()` names exactly one id: two ids give the same
      text only when they are equal. */
  lemma NotFoundMessageNamesId(a: Int64, b: Int64)
    ensures Message(NotFoundError(NotFoundText(a))) == Message(NotFoundError(NotFoundText(b))) <==> a == b
  {
    var x, y := NotFoundText(a), NotFoundText(b);
    if x == y {
      var n := |Itoa(a)|;
      assert |Itoa(b)| == n;
      assert x[5..5 + n] == Itoa(a);
      assert y[5..5 + n] == Itoa(b);
      ItoaInjective(a, b);
    }
  }

  function GetTaskRequest(id: Int64): Request {
    Request(GET, Item(Itoa(id)), "", Empty)
  }

  /** `json.Marshal` of a task cannot fail, so the body is always the task. */
  function PostTaskRequest(task: Task): Request {
    Request(POST, Collection, JsonType, TaskJson(task))
  }

  function GetAllTasksRequest(): Request {
    Request(GET, Collection, "", Empty)
  }

  function DeleteRequest(id: Int64): Request {
    Request(DELETE, Item(Itoa(id)), "", Empty)
  }

  function UpdateRequest(id: Int64): Request {
    Request(PATCH, Item(Itoa(id)), "", Empty)
  }

  /** GET /tasks/{id}. A transport failure comes back as it is; a reply that
      is not JSON is a `ContentTypeError` whatever its status; then 404 is a
      `NotFoundError`, any other status but 200 a `StatusError`; a 200 gives
      the decoded task. */
  function GetTask(c: Client, id: Int64): (r: Result<Task, Error>)
    ensures c.send(GetTaskRequest(id)).Failed? ==> r == Err(Other(c.send(GetTaskRequest(id)).cause))
    ensures c.send(GetTaskRequest(id)).Delivered? ==>
      var resp := c.send(GetTaskRequest(id)).response;
      && (!IsJsonContent(resp.contentType) ==> r == Err(ContentTypeError(resp.contentType)))
      && (r.Err? && r.error.NotFoundError? <==> IsJsonContent(resp.contentType) && resp.status == StatusNotFound)
      && (r.Err? && r.error.NotFoundError? ==> r.error.msg == NotFoundText(id))
      && (r.Err? && r.error.StatusError? <==>
            IsJsonContent(resp.contentType) && resp.status != StatusNotFound && resp.status != StatusOK)
      && (r.Err? && r.error.StatusError? ==> r.error == StatusError(resp.status, UnexpectedStatusText))
      && (r.Ok? <==> IsJsonContent(resp.contentType) && resp.status == StatusOK && DecodeTask(resp.body).Some?)
      && (r.Ok? ==> DecodeTask(resp.body) == Some(r.value))
      && (r.Err? && r.error.ContentTypeError? <==> !IsJsonContent(resp.contentType))
      && (IsJsonContent(resp.contentType) && resp.status == StatusOK && DecodeTask(resp.body).None? ==>
            r == Err(Other(DecodeFailureText)))
  {
    match c.send(GetTaskRequest(id))
    case Failed(cause) => Err(Other(cause))
    case Delivered(resp) =>
      if !IsJsonContent(resp.contentType) then Err(ContentTypeError(resp.contentType))
      else if resp.status == StatusNotFound then Err(NotFoundError(NotFoundText(id)))
      else if resp.status != StatusOK then Err(StatusError(resp.status, UnexpectedStatusText))
      else match DecodeTask(resp.body)
        case None => Err(Other(DecodeFailureText))
        case Some(task) => Ok(task)
  }

  /** POST /tasks. A transport failure comes back as it is; a reply that is
      not JSON is a `ContentTypeError` whatever its status; 409 is a
      `StatusError` saying the task exists, any other status but 201 an
      unexpected-status `StatusError`; a 201 gives the decoded id. */
  function PostTask(c: Client, task: Task): (r: Result<Int64, Error>)
    ensures c.send(PostTaskRequest(task)).Failed? ==> r == Err(Other(c.send(PostTaskRequest(task)).cause))
    ensures c.send(PostTaskRequest(task)).Delivered? ==>
      var resp := c.send(PostTaskRequest(task)).response;
      && (!IsJsonContent(resp.contentType) ==> r == Err(ContentTypeError(resp.contentType)))
      && (IsJsonContent(resp.contentType) && resp.status == StatusConflict ==>
            r == Err(StatusError(StatusConflict, AlreadyExistsText)))
      && (r.Err? && r.error.StatusError? <==> IsJsonContent(resp.contentType) && resp.status != StatusCreated)
      && (r.Err? && r.error.StatusError? ==> r.error.code == resp.status)
      && (IsJsonContent(resp.contentType) && resp.status != StatusConflict && resp.status != StatusCreated ==>
            r == Err(StatusError(resp.status, UnexpectedStatusText)))
      && (r.Ok? <==> IsJsonContent(resp.contentType) && resp.status == StatusCreated && DecodeId(resp.body).Some?)
      && (r.Ok? ==> DecodeId(resp.body) == Some(r.value))
      && (r.Err? && r.error.ContentTypeError? <==> !IsJsonContent(resp.contentType))
      && (IsJsonContent(resp.contentType) && resp.status == StatusCreated && DecodeId(resp.body).None? ==>
            r == Err(Other(DecodeFailureText)))
    ensures r.Err? ==> !r.error.NotFoundError?
  {
    match c.send(PostTaskRequest(task))
    case Failed(cause) => Err(Other(cause))
    case Delivered(resp) =>
      if !IsJsonContent(resp.contentType) then Err(ContentTypeError(resp.contentType))
      else if resp.status == StatusConflict then Err(StatusError(resp.status, AlreadyExistsText))
      else if resp.status != StatusCreated then Err(StatusError(resp.status, UnexpectedStatusText))
      else match DecodeId(resp.body)
        case None => Err(Other(DecodeFailureText))
        case Some(id) => Ok(id)
  }

  /** GET /tasks. No Content-Type check: any status but 200 is a
      `StatusError`; a 200 gives the decoded list. */
  function GetAllTasks(c: Client): (r: Result<seq<Task>, Error>)
    ensures c.send(GetAllTasksRequest()).Failed? ==> r == Err(Other(c.send(GetAllTasksRequest()).cause))
    ensures c.send(GetAllTasksRequest()).Delivered? ==>
      var resp := c.send(GetAllTasksRequest()).response;
      && (r.Err? && r.error.StatusError? <==> resp.status != StatusOK)
      && (r.Err? && r.error.StatusError? ==> r.error == StatusError(resp.status, UnexpectedStatusText))
      && (r.Ok? <==> resp.status == StatusOK && DecodeTaskList(resp.body).Some?)
      && (r.Ok? ==> DecodeTaskList(resp.body) == Some(r.value))
    ensures r.Err? ==> !r.error.ContentTypeError? && !r.error.NotFoundError?
  {
    match c.send(GetAllTasksRequest())
    case Failed(cause) => Err(Other(cause))
    case Delivered(resp) =>
      if resp.status != StatusOK then Err(StatusError(resp.status, UnexpectedStatusText))
      else match DecodeTaskList(resp.body)
        case None => Err(Other(DecodeFailureText))
        case Some(tasks) => Ok(tasks)
  }

  /** The shared classification of DELETE and PATCH replies: no Content-Type
      check and no body; 404 is a `NotFoundError`, `success` is nil, any
      other status a `StatusError`. */
  function Mutate(c: Client, req: Request, id: Int64, success: int): (r: Outcome<Error>)
    requires success != StatusNotFound
    ensures c.send(req).Failed? ==> r == Fail(Other(c.send(req).cause))
    ensures c.send(req).Delivered? ==>
      var resp := c.send(req).response;
      && (r == Pass <==> resp.status == success)
      && (r == Fail(NotFoundError(NotFoundText(id))) <==> resp.status == StatusNotFound)
      && (r.Fail? && r.error.StatusError? <==> resp.status != StatusNotFound && resp.status != success)
      && (r.Fail? && r.error.StatusError? ==> r.error == StatusError(resp.status, UnexpectedStatusText))
    ensures r.Fail? ==> !r.error.ContentTypeError?
  {
    match c.send(req)
    case Failed(cause) => Fail(Other(cause))
    case Delivered(resp) =>
      if resp.status == StatusNotFound then Fail(NotFoundError(NotFoundText(id)))
      else if resp.status != success then Fail(StatusError(resp.status, UnexpectedStatusText))
      else Pass
  }

  /** DELETE /tasks/{id}: succeeds exactly on 200. */
  function Delete(c: Client, id: Int64): (r: Outcome<Error>)
    ensures c.send(DeleteRequest(id)).Delivered? ==>
      (r == Pass <==> c.send(DeleteRequest(id)).response.status == StatusOK)
    ensures c.send(DeleteRequest(id)).Delivered? ==>
      (r.Fail? && r.error.NotFoundError? <==> c.send(DeleteRequest(id)).response.status == StatusNotFound)
    ensures c.send(DeleteRequest(id)).Failed? ==> r == Fail(Other(c.send(DeleteRequest(id)).cause))
  {
    Mutate(c, DeleteRequest(id), id, StatusOK)
  }

  /** PATCH /tasks/{id}: succeeds exactly on 204. */
  function Update(c: Client, id: Int64): (r: Outcome<Error>)
    ensures c.send(UpdateRequest(id)).Delivered? ==>
      (r == Pass <==> c.send(UpdateRequest(id)).response.status == StatusNoContent)
    ensures c.send(UpdateRequest(id)).Delivered? ==>
      (r.Fail? && r.error.NotFoundError? <==> c.send(UpdateRequest(id)).response.status == StatusNotFound)
    ensures c.send(UpdateRequest(id)).Failed? ==> r == Fail(Other(c.send(UpdateRequest(id)).cause))
  {
    Mutate(c, UpdateRequest(id), id, StatusNoContent)
  }
}
