/** Both tiers put together: the gateway's client talks to the backing
    tier's handlers through the backing route table, over a network that
    delivers every request. The lemmas state what a public caller sees for
    each operation as a function of what the repository answers. */
module Pipeline {
  import opened Shared
  import opened Strings
  import opened Strconv
  import opened Errors
  import opened Http
  import BackingService
  import BackingHandlers
  import GatewayClient
  import GatewayService
  import GatewayHandlers

  /** What the router's default handler (`http.NotFound`) writes. */
  const NotFoundPageText: string := "404 page not found"

  /** The backing tier's routes: `/tasks` takes POST and GET, `/tasks/{id}`
      takes GET, PATCH and DELETE; a known route asked with another method is
      405 with no body. `{id}` matches only a non-empty segment, so `/tasks/`
      matches no route and is the router's plain-text 404. */
  function Dispatch(h: BackingHandlers.Handler, req: Request): (r: Response)
    ensures req.target == Item("") ==> r == ErrorReply(NotFoundPageText, StatusNotFound)
    ensures req.target.Collection? && (req.verb == PATCH || req.verb == DELETE) ==>
      r == Response(StatusMethodNotAllowed, "", Empty)
    ensures req.target.Item? && req.target.idSegment != "" && req.verb == POST ==>
      r == Response(StatusMethodNotAllowed, "", Empty)
  {
    if req.target == Item("") then ErrorReply(NotFoundPageText, StatusNotFound)
    else match (req.verb, req.target)
    case (POST, Collection) => BackingHandlers.Post(h, req.contentType, req.body)
    case (GET, Collection) => BackingHandlers.AllTasks(h)
    case (GET, Item(idSegment)) => BackingHandlers.GetTask(h, idSegment)
    case (PATCH, Item(idSegment)) => BackingHandlers.Patch(h, idSegment)
    case (DELETE, Item(idSegment)) => BackingHandlers.Delete(h, idSegment)
    case _ => Response(StatusMethodNotAllowed, "", Empty)
  }

  function Backing(repo: BackingService.Repository): BackingHandlers.Handler {
    BackingHandlers.Handler(BackingService.Service(repo))
  }

  /** The public gateway in front of a backing tier over `repo`. */
  function Deployed(repo: BackingService.Repository): GatewayHandlers.Handlers {
    var backing := Backing(repo);
    var send := (req: Request) => Delivered(Dispatch(backing, req));
    GatewayHandlers.Handlers(GatewayService.Service(GatewayClient.Client(send)))
  }

  /** A gateway whose backing tier answers every request with `resp`. */
  function AnsweringWith(resp: Response): GatewayHandlers.Handlers {
    var send := (req: Request) => Delivered(resp);
    GatewayHandlers.Handlers(GatewayService.Service(GatewayClient.Client(send)))
  }

  /** The text every public failure carries once a plain-text backing error
      has been classified by the client. */
  function NotJsonText(): string {
    Message(ContentTypeError(PlainTextType))
  }

  /** Because the client checks Content-Type before the status code, a
      non-JSON 404 reaches the gateway's GET as a `ContentTypeError` and is
      answered 500, not 404. */
  lemma NonJsonNotFoundIsInternalError(contentType: string, body: Body, idStr: string)
    requires !IsJsonContent(contentType)
    requires Atoi(idStr).Some?
    ensures GatewayHandlers.Get(AnsweringWith(Response(StatusNotFound, contentType, body)), idStr)
      == ErrorReply(Message(ContentTypeError(contentType)), StatusInternalServerError)
  {
  }

  /** Every error reply of the backing tier's GET is plain text, so the
      public GET is never 404, whatever the repository answers. */
  lemma PublicGetNeverNotFound(repo: BackingService.Repository, idStr: string)
    ensures GatewayHandlers.Get(Deployed(repo), idStr).status != StatusNotFound
  {
    PlainTextIsNotJson();
    match Atoi(idStr)
    case None =>
    case Some(id) =>
      var resp := BackingHandlers.GetTask(Backing(repo), Itoa(id));
      assert Deployed(repo).service.client.send(GatewayClient.GetTaskRequest(id)) == Delivered(resp);
  }

  /** Public GET /tasks/{id}: a stored task with a non-blank title is
      returned as it was stored; anything else (a missing row, a database
      failure, a blank stored title) is 500 with the content-type text. */
  lemma PublicGet(repo: BackingService.Repository, idStr: string, id: Int64)
    requires Atoi(idStr) == Some(id)
    ensures var row := repo.getTask(id);
      var r := GatewayHandlers.Get(Deployed(repo), idStr);
      && (row.Ok? && !AllSpace(row.value.title) ==> r == Response(StatusOK, JsonType, TaskJson(row.value)))
      && (row.Err? || AllSpace(row.value.title) ==> r == ErrorReply(NotJsonText(), StatusInternalServerError))
  {
    AtoiItoa(id);
    PlainTextIsNotJson();
    var resp := BackingHandlers.GetTask(Backing(repo), Itoa(id));
    assert Deployed(repo).service.client.send(GatewayClient.GetTaskRequest(id)) == Delivered(resp);
  }

  /** Public POST /tasks with a JSON body: a valid task the repository
      stores is 201 with its new id; a blank title, a completed status or a
      repository failure (a duplicate key among them) all reach the client
      as plain text and are answered 415. */
  lemma PublicPost(repo: BackingService.Repository, contentType: string, task: Task)
    requires IsJsonContent(contentType)
    ensures var r := GatewayHandlers.Post(Deployed(repo), contentType, TaskJson(task));
      var valid := !AllSpace(task.title) && !task.status;
      && (valid && repo.addTask(task).Ok? ==>
            r == Response(StatusCreated, JsonType, PostJson(GatewayHandlers.CreatedText, repo.addTask(task).value)))
      && (!valid || repo.addTask(task).Err? ==> r == ErrorReply(NotJsonText(), StatusUnsupportedMediaType))
  {
    PlainTextIsNotJson();
    var resp := BackingHandlers.Post(Backing(repo), JsonType, TaskJson(task));
    assert Deployed(repo).service.client.send(GatewayClient.PostTaskRequest(task)) == Delivered(resp);
  }

  /** Over a network that delivers every request, the public POST answers
      only 201, 400 or 415: the 409 branch of the gateway handler is never
      reached, and its 500 branch only on a transport failure
      (`PostWithoutBackingIsInternalError`). */
  lemma PublicPostStatuses(repo: BackingService.Repository, contentType: string, body: Body)
    ensures GatewayHandlers.Post(Deployed(repo), contentType, body).status
      in {StatusCreated, StatusBadRequest, StatusUnsupportedMediaType}
  {
    if IsJsonContent(contentType) && DecodeTask(body).Some? {
      PublicPost(repo, contentType, DecodeTask(body).value);
    }
  }

  /** A gateway whose requests all fail in transport (the backing tier is
      down, or the client's timeout expires). */
  function Unreachable(cause: string): GatewayHandlers.Handlers {
    var send := (req: Request) => Failed(cause);
    GatewayHandlers.Handlers(GatewayService.Service(GatewayClient.Client(send)))
  }

  /** A transport failure reaches the gateway's POST unchanged and falls to
      the default branch of its type switch: 500 with the failure's text. This
      is the only way the public POST answers 500. */
  lemma PostWithoutBackingIsInternalError(cause: string, contentType: string, task: Task)
    requires IsJsonContent(contentType)
    ensures GatewayHandlers.Post(Unreachable(cause), contentType, TaskJson(task))
      == ErrorReply(cause, StatusInternalServerError)
  {
    assert Unreachable(cause).service.client.send(GatewayClient.PostTaskRequest(task)) == Failed(cause);
  }

  /** Public GET /tasks: zero or one stored task is an empty 200 list, two
      or more are returned in the repository's order, and a repository
      failure is 500 with the client's status text. */
  lemma PublicList(repo: BackingService.Repository)
    ensures var rows := repo.getAllTasks;
      var r := GatewayHandlers.GetAll(Deployed(repo));
      && (rows.Ok? && |rows.value| <= 1 ==> r == Response(StatusOK, JsonType, TaskListJson([])))
      && (rows.Ok? && |rows.value| >= 2 ==> r == Response(StatusOK, JsonType, TaskListJson(rows.value)))
      && (rows.Err? && !Is(rows.error, ErrEmptySlice) && !Is(rows.error, ErrTooFewTasks) ==>
            r == ErrorReply(Message(StatusError(StatusInternalServerError, GatewayClient.UnexpectedStatusText)),
                            StatusInternalServerError))
  {
    var resp := BackingHandlers.AllTasks(Backing(repo));
    assert Deployed(repo).service.client.send(GatewayClient.GetAllTasksRequest()) == Delivered(resp);
  }

  /** Public DELETE /tasks/{id}: no affected row is 404 naming the id, an
      affected row is 200, and a repository failure reaches the client as a
      500 status and is answered 409. */
  lemma PublicDelete(repo: BackingService.Repository, idStr: string, id: Int64)
    requires Atoi(idStr) == Some(id)
    ensures var rows := repo.deleteTask(id);
      var r := GatewayHandlers.Delete(Deployed(repo), idStr);
      && (rows == Ok(0) ==> r == ErrorReply(GatewayClient.NotFoundText(id), StatusNotFound))
      && (rows.Ok? && rows.value != 0 ==>
            r == Response(StatusOK, JsonType, DeleteOrUpdateJson(GatewayHandlers.DeletedText, StatusOK)))
      && (rows.Err? && !Is(rows.error, ErrTaskNotFound) ==>
            r == ErrorReply(Message(StatusError(StatusInternalServerError, GatewayClient.UnexpectedStatusText)),
                            StatusConflict))
  {
    AtoiItoa(id);
    var resp := BackingHandlers.Delete(Backing(repo), Itoa(id));
    assert Deployed(repo).service.client.send(GatewayClient.DeleteRequest(id)) == Delivered(resp);
  }

  /** Public PATCH /tasks/{id}: no affected row is 404 naming the id, an
      affected row (the backing tier's 204) is 200, and a repository failure
      is answered 409. */
  lemma PublicUpdate(repo: BackingService.Repository, idStr: string, id: Int64)
    requires Atoi(idStr) == Some(id)
    ensures var rows := repo.updateTaskStatus(id);
      var r := GatewayHandlers.Update(Deployed(repo), idStr);
      && (rows == Ok(0) ==> r == ErrorReply(GatewayClient.NotFoundText(id), StatusNotFound))
      && (rows.Ok? && rows.value != 0 ==>
            r == Response(StatusOK, JsonType, DeleteOrUpdateJson(GatewayHandlers.UpdatedText, StatusOK)))
      && (rows.Err? && !Is(rows.error, ErrTaskNotFound) ==>
            r == ErrorReply(Message(StatusError(StatusInternalServerError, GatewayClient.UnexpectedStatusText)),
                            StatusConflict))
  {
    AtoiItoa(id);
    var resp := BackingHandlers.Patch(Backing(repo), Itoa(id));
    assert Deployed(repo).service.client.send(GatewayClient.UpdateRequest(id)) == Delivered(resp);
  }
}
