/** The backing tier's HTTP handlers: each parses the request, calls the
    service once, and turns its outcome into one response. */
module BackingHandlers {
  import opened Shared
  import opened Strconv
  import opened Errors
  import opened Http
  import BackingService

  datatype Handler = Handler(s: BackingService.Service)

  const InvalidIdText: string := "invalid id"
  const TaskNotFoundText: string := "task not found"
  const InternalErrorText: string := "internal server error"
  const NeedJsonText: string := "Content-Type должен быть application/json"
  const BadJsonText: string := "неверный формат JSON"

  /** The reply to an id that `strconv.Atoi` rejects. */
  function InvalidIdReply(): Response {
    ErrorReply(InvalidIdText, StatusBadRequest)
  }

  /** GET /tasks/{id}. A bad id is answered 400 before the service is
      called; `ErrTaskNotFound` (possibly wrapped) is 404, any other error
      500, both in plain text; a task is 200 with its JSON. */
  function GetTask(h: Handler, idStr: string): (r: Response)
    ensures Atoi(idStr).None? ==> r == InvalidIdReply()
    ensures r.status == StatusOK <==>
      Atoi(idStr).Some? && BackingService.GetTask(h.s, Atoi(idStr).value).Ok?
    ensures r.status == StatusOK ==>
      r.contentType == JsonType && r.body == TaskJson(BackingService.GetTask(h.s, Atoi(idStr).value).value)
    ensures r.status == StatusNotFound <==>
      Atoi(idStr).Some? && var out := BackingService.GetTask(h.s, Atoi(idStr).value);
      out.Err? && Is(out.error, ErrTaskNotFound)
    ensures r.status == StatusInternalServerError <==>
      Atoi(idStr).Some? && var out := BackingService.GetTask(h.s, Atoi(idStr).value);
      out.Err? && !Is(out.error, ErrTaskNotFound)
    ensures r.status == StatusNotFound ==> r == ErrorReply(TaskNotFoundText, StatusNotFound)
    ensures r.status == StatusInternalServerError ==> r == ErrorReply(InternalErrorText, StatusInternalServerError)
    ensures r.status != StatusOK ==> r.contentType == PlainTextType
  {
    match Atoi(idStr)
    case None => InvalidIdReply()
    case Some(id) =>
      match BackingService.GetTask(h.s, id)
      case Err(e) =>
        if Is(e, ErrTaskNotFound) then ErrorReply(TaskNotFoundText, StatusNotFound)
        else ErrorReply(InternalErrorText, StatusInternalServerError)
      case Ok(task) => Response(StatusOK, JsonType, TaskJson(task))
  }

  /** POST /tasks. The Content-Type must be exactly the JSON media type (415
      otherwise, before decoding); an undecodable body is 400; a service
      error wrapping `ErrInvalidInput` is 400 with its text, any other 500; a
      created task is 201 with its id. */
  function Post(h: Handler, contentType: string, body: Body): (r: Response)
    ensures contentType != JsonType ==> r == ErrorReply(NeedJsonText, StatusUnsupportedMediaType)
    ensures contentType == JsonType && DecodeTask(body).None? ==> r == ErrorReply(BadJsonText, StatusBadRequest)
    ensures contentType == JsonType && DecodeTask(body).Some? ==>
      var out := BackingService.CreateTask(h.s, DecodeTask(body).value);
      && (out.Ok? <==> r.status == StatusCreated)
      && (out.Ok? ==> r == Response(StatusCreated, JsonType, IdJson(out.value)))
      && (out.Err? && Is(out.error, ErrInvalidInput) ==> r == ErrorReply(Message(out.error), StatusBadRequest))
      && (out.Err? && !Is(out.error, ErrInvalidInput) ==> r == ErrorReply(InternalErrorText, StatusInternalServerError))
  {
    if contentType != JsonType then ErrorReply(NeedJsonText, StatusUnsupportedMediaType)
    else match DecodeTask(body)
      case None => ErrorReply(BadJsonText, StatusBadRequest)
      case Some(task) =>
        match BackingService.CreateTask(h.s, task)
        case Err(e) =>
          if Is(e, ErrInvalidInput) then ErrorReply(Message(e), StatusBadRequest)
          else ErrorReply(InternalErrorText, StatusInternalServerError)
        case Ok(id) => Response(StatusCreated, JsonType, IdJson(id))
  }

  /** GET /tasks. `ErrEmptySlice` and `ErrTooFewTasks` are turned into a
      successful empty list; any other error is a plain-text 500 (`http.Error`
      replaces the JSON Content-Type set before it); a list is 200. */
  function AllTasks(h: Handler): (r: Response)
    ensures r.status == StatusOK || r == ErrorReply(InternalErrorText, StatusInternalServerError)
    ensures r.status == StatusOK <==>
      var out := BackingService.GetAllTasks(h.s);
      out.Ok? || Is(out.error, ErrEmptySlice) || Is(out.error, ErrTooFewTasks)
    ensures r.status == StatusOK ==>
      var out := BackingService.GetAllTasks(h.s);
      r == Response(StatusOK, JsonType, TaskListJson(if out.Ok? then out.value else []))
  {
    match BackingService.GetAllTasks(h.s)
    case Err(e) =>
      if Is(e, ErrEmptySlice) || Is(e, ErrTooFewTasks) then Response(StatusOK, JsonType, TaskListJson([]))
      else ErrorReply(InternalErrorText, StatusInternalServerError)
    case Ok(tasks) => Response(StatusOK, JsonType, TaskListJson(tasks))
  }

  /** The shared shape of DELETE and PATCH: a bad id is 400 before the
      service is called, `ErrTaskNotFound` is 404, any other error 500, and
      success is `success` with no body and no Content-Type. */
  function Modify(h: Handler, idStr: string, action: string, success: int): (r: Response)
    requires success == StatusOK || success == StatusNoContent
    ensures Atoi(idStr).None? ==> r == InvalidIdReply()
    ensures Atoi(idStr).Some? ==>
      var out := BackingService.ModifyTask(h.s, Atoi(idStr).value, action);
      && (out == Pass <==> r == Response(success, "", Empty))
      && (out.Fail? && Is(out.error, ErrTaskNotFound) <==> r == ErrorReply(TaskNotFoundText, StatusNotFound))
      && (out.Fail? && !Is(out.error, ErrTaskNotFound) <==> r == ErrorReply(InternalErrorText, StatusInternalServerError))
  {
    match Atoi(idStr)
    case None => InvalidIdReply()
    case Some(id) =>
      match BackingService.ModifyTask(h.s, id, action)
      case Fail(e) =>
        if Is(e, ErrTaskNotFound) then ErrorReply(TaskNotFoundText, StatusNotFound)
        else ErrorReply(InternalErrorText, StatusInternalServerError)
      case Pass => Response(success, "", Empty)
  }

  /** DELETE /tasks/{id}: success is 200. */
  function Delete(h: Handler, idStr: string): (r: Response)
    ensures Atoi(idStr).None? ==> r == InvalidIdReply()
    ensures r.status == StatusOK <==>
      Atoi(idStr).Some? && var rows := h.s.repo.deleteTask(Atoi(idStr).value); rows.Ok? && rows.value != 0
    ensures r.status == StatusNotFound <==>
      Atoi(idStr).Some? && var rows := h.s.repo.deleteTask(Atoi(idStr).value);
      rows == Ok(0) || (rows.Err? && Is(rows.error, ErrTaskNotFound))
  {
    Modify(h, idStr, BackingService.DeleteAction, StatusOK)
  }

  /** PATCH /tasks/{id}: marks the task completed; success is 204. */
  function Patch(h: Handler, idStr: string): (r: Response)
    ensures Atoi(idStr).None? ==> r == InvalidIdReply()
    ensures r.status == StatusNoContent <==>
      Atoi(idStr).Some? && var rows := h.s.repo.updateTaskStatus(Atoi(idStr).value); rows.Ok? && rows.value != 0
    ensures r.status == StatusNotFound <==>
      Atoi(idStr).Some? && var rows := h.s.repo.updateTaskStatus(Atoi(idStr).value);
      rows == Ok(0) || (rows.Err? && Is(rows.error, ErrTaskNotFound))
  {
    Modify(h, idStr, BackingService.UpdateStatusAction, StatusNoContent)
  }

  /** Listing zero or one stored task answers 200 with an empty list: the
      service's refusal of short lists is downgraded, not surfaced. */
  lemma ShortListIsEmptyOk(h: Handler)
    requires h.s.repo.getAllTasks.Ok? && |h.s.repo.getAllTasks.value| <= 1
    ensures AllTasks(h) == Response(StatusOK, JsonType, TaskListJson([]))
  {
  }

  /** A missing row on GET is a 500, not a 404, when the repository reports
      it as the PostgreSQL adapter does: as an error that is no sentinel. */
  lemma MissingRowIsInternalError(h: Handler, id: Int64, text: string)
    requires h.s.repo.getTask(id) == Err(Other(text))
    ensures GetTask(h, Itoa(id)) == ErrorReply(InternalErrorText, StatusInternalServerError)
  {
    AtoiItoa(id);
  }

  /** A task with a blank title or a completed status is refused with 400
      and the validation message, and nothing is stored. */
  lemma InvalidTaskIsBadRequest(h: Handler, task: Task)
    requires Strings.AllSpace(task.title) || task.status
    ensures Post(h, JsonType, TaskJson(task)).status == StatusBadRequest
    ensures Post(h, JsonType, TaskJson(task)).body.Text?
    ensures Strings.HasPrefix(Post(h, JsonType, TaskJson(task)).body.line, "invalid input: ")
  {
    var detail := if Strings.AllSpace(task.title) then BackingService.TitleEmptyDetail
                  else BackingService.StatusTrueDetail;
    var e := Wrapped(SentinelErr(ErrInvalidInput), detail);
    assert BackingService.CreateTask(h.s, task) == Err(e);
    WrappedInvalidInputText(detail);
    assert Post(h, JsonType, TaskJson(task)) == ErrorReply(Message(e), StatusBadRequest);
  }
}
