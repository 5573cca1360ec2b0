/** What one HTTP exchange looks like to the handlers and the client: a
    request, a response reduced to status, Content-Type and the kind of body,
    and the outcome of sending a request over the network. */
module Http {
  import opened Shared
  import opened Strings

  const StatusOK := 200
  const StatusCreated := 201
  const StatusNoContent := 204
  const StatusBadRequest := 400
  const StatusNotFound := 404
  const StatusMethodNotAllowed := 405
  const StatusConflict := 409
  const StatusUnsupportedMediaType := 415
  const StatusInternalServerError := 500

  const JsonType: string := "application/json"
  /** The Content-Type `http.Error` always sets. */
  const PlainTextType: string := "text/plain; charset=utf-8"

  /** A message body, by what was encoded into it. */
  datatype Body =
    | Empty
      /** one line of plain text, as `http.Error` writes it */
    | Text(line: string)
    | TaskJson(task: Task)
    | TaskListJson(tasks: seq<Task>)
      /** `shared.IDResponse` */
    | IdJson(id: Int64)
      /** the gateway's `{"message", "id"}` reply to a creation */
    | PostJson(message: string, id: Int64)
      /** `shared.DeleteOrUpdateResponse` */
    | DeleteOrUpdateJson(message: string, statusCode: int)

  /** `contentType` is the first Content-Type header value, "" when absent. */
  datatype Response = Response(status: int, contentType: string, body: Body)

  datatype Method = GET | POST | PATCH | DELETE

  /** The two routes, `/tasks` and `/tasks/{id}`, the latter with its raw
      path segment. The base URL in front of them is configuration. */
  datatype Target = Collection | Item(idSegment: string)

  datatype Request = Request(verb: Method, target: Target, contentType: string, body: Body)

  /** What the HTTP client gets back: a transport failure (refused
      connection, timeout, DNS) with its text, or a response. */
  datatype HttpOutcome = Failed(cause: string) | Delivered(response: Response)

  /** `http.Error(w, msg, code)`. */
  function ErrorReply(msg: string, code: int): Response {
    Response(code, PlainTextType, Text(msg))
  }

  /** The gateway client's test for a JSON reply: the header starts with the
      JSON media type, so parameters such as a charset are allowed. */
  predicate IsJsonContent(contentType: string) {
    HasPrefix(contentType, JsonType)
  }

  // Decoding a body with `json.NewDecoder(..).Decode(&v)`: a body succeeds
  // when it holds a value of the shape decoded into; an empty body (EOF) and
  // plain text (a syntax error) fail.

  function DecodeTask(b: Body): Option<Task> {
    if b.TaskJson? then Some(b.task) else None
  }

  function DecodeTaskList(b: Body): Option<seq<Task>> {
    if b.TaskListJson? then Some(b.tasks) else None
  }

  function DecodeId(b: Body): Option<Int64> {
    if b.IdJson? then Some(b.id) else None
  }

  /** The text of the error a failed decode returns. */
  const DecodeFailureText: string := "invalid JSON body"

  /** A plain-text reply is never taken for JSON by the gateway client. */
  lemma PlainTextIsNotJson()
    ensures !IsJsonContent(PlainTextType)
    ensures IsJsonContent(JsonType)
  {
    assert PlainTextType[0] != JsonType[0];
  }
}
