/** The gateway's public HTTP handlers: each parses the request, calls the
    service once and maps the type of its error to a public status, with a
    mapping of its own per operation. */
module GatewayHandlers {
  import opened Shared
  import opened Strconv
  import opened Errors
  import opened Http
  import GatewayService

  datatype Handlers = Handlers(service: GatewayService.Service)

  const InvalidIdText: string := "invalid id"
  const NeedJsonText: string := "должен быть JSON"
  const BadJsonText: string := "неверный формат JSON"
  const CreatedText: string := "Задача добавлена"
  const DeletedText: string := "Задача успешно удалена"
  const UpdatedText: string := "Задача успешно выполнена"

  function InvalidIdReply(): Response {
    ErrorReply(InvalidIdText, StatusBadRequest)
  }

  /** GET /tasks/{id}. A bad id is 400 before the service is called; a
      `NotFoundError` is 404 and every other error (`StatusError`,
      `ContentTypeError`, transport, decoding) 500, each with the error's
      text; a task is 200 with its JSON. */
  function Get(h: Handlers, idStr: string): (r: Response)
    ensures Atoi(idStr).None? ==> r == InvalidIdReply()
    ensures Atoi(idStr).Some? ==>
      var out := GatewayService.Get(h.service, Atoi(idStr).value);
      && (out.Ok? <==> r.status == StatusOK)
      && (out.Ok? ==> r == Response(StatusOK, JsonType, TaskJson(out.value)))
      && (out.Err? ==> r.body == Text(Message(out.error)) && r.contentType == PlainTextType)
      && (out.Err? && out.error.NotFoundError? <==> r.status == StatusNotFound)
      && (out.Err? && !out.error.NotFoundError? <==> r.status == StatusInternalServerError)
  {
    match Atoi(idStr)
    case None => InvalidIdReply()
    case Some(id) =>
      match GatewayService.Get(h.service, id)
      case Err(e) =>
        (match e
         case NotFoundError(_) => ErrorReply(Message(e), StatusNotFound)
         case StatusError(_, _) => ErrorReply(Message(e), StatusInternalServerError)
         case _ => ErrorReply(Message(e), StatusInternalServerError))
      case Ok(task) => Response(StatusOK, JsonType, TaskJson(task))
  }

  /** POST /tasks. A Content-Type not starting with the JSON media type is
      415 and an undecodable body 400, both before the service is called; a
      `ContentTypeError` is 415, any `StatusError` 409 whatever its code,
      anything else 500; a created task is 201 with a message and its id. */
  function Post(h: Handlers, contentType: string, body: Body): (r: Response)
    ensures !IsJsonContent(contentType) ==> r == ErrorReply(NeedJsonText, StatusUnsupportedMediaType)
    ensures IsJsonContent(contentType) && DecodeTask(body).None? ==> r == ErrorReply(BadJsonText, StatusBadRequest)
    ensures IsJsonContent(contentType) && DecodeTask(body).Some? ==>
      var out := GatewayService.Post(h.service, DecodeTask(body).value);
      && (out.Ok? <==> r.status == StatusCreated)
      && (out.Ok? ==> r == Response(StatusCreated, JsonType, PostJson(CreatedText, out.value)))
      && (out.Err? ==> r.body == Text(Message(out.error)) && r.contentType == PlainTextType)
      && (out.Err? && out.error.ContentTypeError? <==> r.status == StatusUnsupportedMediaType)
      && (out.Err? && out.error.StatusError? <==> r.status == StatusConflict)
      && (out.Err? && !out.error.ContentTypeError? && !out.error.StatusError? <==>
            r.status == StatusInternalServerError)
  {
    if !IsJsonContent(contentType) then ErrorReply(NeedJsonText, StatusUnsupportedMediaType)
    else match DecodeTask(body)
      case None => ErrorReply(BadJsonText, StatusBadRequest)
      case Some(task) =>
        match GatewayService.Post(h.service, task)
        case Err(e) =>
          (match e
           case ContentTypeError(_) => ErrorReply(Message(e), StatusUnsupportedMediaType)
           case StatusError(_, _) => ErrorReply(Message(e), StatusConflict)
           case _ => ErrorReply(Message(e), StatusInternalServerError))
        case Ok(id) => Response(StatusCreated, JsonType, PostJson(CreatedText, id))
  }

  /** GET /tasks. A `StatusError` is 500 with its text, any other error 400
      with the bad-JSON text; a list is 200 (the default status) with it. */
  function GetAll(h: Handlers): (r: Response)
    ensures var out := GatewayService.GetAll(h.service);
      && (out.Ok? <==> r.status == StatusOK)
      && (out.Ok? ==> r == Response(StatusOK, JsonType, TaskListJson(out.value)))
      && (out.Err? && out.error.StatusError? <==> r.status == StatusInternalServerError)
      && (out.Err? && out.error.StatusError? ==> r == ErrorReply(Message(out.error), StatusInternalServerError))
      && (out.Err? && !out.error.StatusError? <==> r.status == StatusBadRequest)
      && (out.Err? && !out.error.StatusError? ==> r == ErrorReply(BadJsonText, StatusBadRequest))
  {
    match GatewayService.GetAll(h.service)
    case Err(e) =>
      (match e
       case StatusError(_, _) => ErrorReply(Message(e), StatusInternalServerError)
       case _ => ErrorReply(BadJsonText, StatusBadRequest))
    case Ok(tasks) => Response(StatusOK, JsonType, TaskListJson(tasks))
  }

  /** The shared mapping of DELETE and PATCH outcomes: a `NotFoundError` is
      404, a `StatusError` 409, anything else 500, each with the error's
      text; success is 200 with a `DeleteOrUpdateResponse` carrying 200. */
  function MutationReply(out: Outcome<Error>, done: string): (r: Response)
    ensures out == Pass <==> r == Response(StatusOK, JsonType, DeleteOrUpdateJson(done, StatusOK))
    ensures out.Fail? ==> r.body == Text(Message(out.error)) && r.contentType == PlainTextType
    ensures out.Fail? && out.error.NotFoundError? <==> r.status == StatusNotFound
    ensures out.Fail? && out.error.StatusError? <==> r.status == StatusConflict
    ensures out.Fail? && !out.error.NotFoundError? && !out.error.StatusError? <==>
      r.status == StatusInternalServerError
  {
    match out
    case Fail(e) =>
      (match e
       case NotFoundError(_) => ErrorReply(Message(e), StatusNotFound)
       case StatusError(_, _) => ErrorReply(Message(e), StatusConflict)
       case _ => ErrorReply(Message(e), StatusInternalServerError))
    case Pass => Response(StatusOK, JsonType, DeleteOrUpdateJson(done, StatusOK))
  }

  /** DELETE /tasks/{id}. A bad id is 400 before the service is called. */
  function Delete(h: Handlers, idStr: string): (r: Response)
    ensures Atoi(idStr).None? ==> r == InvalidIdReply()
    ensures Atoi(idStr).Some? ==>
      r == MutationReply(GatewayService.Delete(h.service, Atoi(idStr).value), DeletedText)
  {
    match Atoi(idStr)
    case None => InvalidIdReply()
    case Some(id) => MutationReply(GatewayService.Delete(h.service, id), DeletedText)
  }

  /** PATCH /tasks/{id}. A bad id is 400 before the service is called. */
  function Update(h: Handlers, idStr: string): (r: Response)
    ensures Atoi(idStr).None? ==> r == InvalidIdReply()
    ensures Atoi(idStr).Some? ==>
      r == MutationReply(GatewayService.Update(h.service, Atoi(idStr).value), UpdatedText)
  {
    match Atoi(idStr)
    case None => InvalidIdReply()
    case Some(id) => MutationReply(GatewayService.Update(h.service, id), UpdatedText)
  }
}
