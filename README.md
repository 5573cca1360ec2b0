# Task-Manager request pipeline, modelled in Dafny

Task-Manager manages tasks through two Go HTTP services. The public gateway
(`api-service`) forwards each request through its HTTP client to the backing
service (`db-service`), which owns the PostgreSQL store. What the repository
decides is how errors are translated on the way back. The backing service
raises sentinel errors. The backing handler turns them into status codes. The
gateway client turns status codes and Content-Type headers back into typed
errors. The gateway handler turns those into public status codes.

This project models each of those layers as total Dafny functions over
values:

- `shared.dfy` holds the `Task` record. A `time.Time` is an opaque
  `Timestamp` and Go's 64-bit `int` is `Int64`. There are `Result` and
  `Outcome` wrappers for `(value, error)` and `error` returns.
- `strings.dfy` models `strings.TrimSpace` with the white-space table of
  `unicode.IsSpace`.
- `strconv.dfy` models `%d` formatting (`Itoa`) and `strconv.Atoi`: an
  optional sign, digits and the int64 range check.
- `errors.dfy` is the closed error taxonomy: the four sentinels, `%w`
  wrapping, any other error, and the client's `NotFoundError`, `StatusError`
  and `ContentTypeError`. It also has `errors.Is` and each error's `Error()`
  text.
- `http.dfy` holds requests and responses. A response is reduced to status,
  Content-Type and the kind of body. `http.Error` is `ErrorReply`, which always
  sets `text/plain; charset=utf-8`. This file also has JSON decoding by the
  shape of the body.
- `backing_service.dfy` is the backing service. The repository is an abstract
  value of function-typed fields that follows `repository.TaskRepository`.
- `backing_handlers.dfy` holds the backing handlers.
- `gateway_client.dfy` holds the gateway client. The network is its `send`
  function.
- `gateway_service.dfy` holds the gateway's pass-through service.
- `gateway_handlers.dfy` holds the gateway's public handlers.
- `pipeline.dfy` connects both tiers through the backing route table. It
  states what a public caller sees for each operation as a function of what
  the repository answers. Those end-to-end statements assume a network that
  delivers every request. A transport failure (the backing tier down, the
  client's timeout) is stated separately
  (`Pipeline.PostWithoutBackingIsInternalError`).

"The service is not called" is stated in one of two ways. Either the reply
is a constant that does not depend on the service, or a lemma shows the
result is the same for any two repositories.

### Where the code defeats its own error handling (the model follows the code)

- The backing `GetTask` handler answers 404 for an error matching
  `ErrTaskNotFound` (`db-service/Handlers/handlers.go:40-43`). The PostgreSQL
  adapter reports a missing row as a plain `fmt.Errorf`
  (`db-service/database_connect/data_base.go:67-69`), not as that sentinel.
  So a missing row is a backing 500, not 404
  (`BackingHandlers.MissingRowIsInternalError`).
- `http.Error` makes every backing error reply plain text. The gateway client
  checks Content-Type before the status code on GET and POST. As a result:
  - the public GET never answers 404 (`Pipeline.PublicGetNeverNotFound`),
    although the client has a 404 branch (`api-service/client/client.go:66-68`)
    and the handler maps `NotFoundError` to 404
    (`api-service/handlers/handlers.go:41-43`);
  - every public POST that reaches the service and fails answers 415. This
    covers a blank title, a completed status and a store failure such as a
    duplicate key. The client's 409 "task already exists" branch
    (`api-service/client/client.go:100-102`) and the handler's 409 mapping
    (`api-service/handlers/handlers.go:79-80`) are never reached
    (`Pipeline.PublicPost`, `Pipeline.PublicPostStatuses`). The handler's 500
    mapping (`api-service/handlers/handlers.go:81-82`) is reached only by a
    transport failure (`Pipeline.PostWithoutBackingIsInternalError`). A
    public POST still answers 400 when the gateway itself cannot decode the
    body.
- A store failure on DELETE or PATCH reaches the client as a 500
  `StatusError`, and the public answer is 409 (`Pipeline.PublicDelete`,
  `Pipeline.PublicUpdate`).
- The backing DELETE and PATCH successes carry no body and no Content-Type.

## Model

| member | source | states |
|---|---|---|
| `Strings.TrimSpace` | project/db-service/database_connect/service/service.go:30 | The trimmed title is empty exactly when every character is white space. Otherwise it neither starts nor ends with white space. |
| `Strings.TrimLeftSpace` | project/db-service/database_connect/service/service.go:30 | Result is a suffix of the input. Everything dropped was white space. What remains is empty or starts with a non-space. |
| `Strings.TrimRightSpace` | project/db-service/database_connect/service/service.go:30 | Result is a prefix of the input. Everything dropped was white space. What remains is empty or ends with a non-space. |
| `Strconv.AtoiItoa` | project/api-service/client/client.go:54 | The id the gateway client prints into the URL is parsed back to the same id by `strconv.Atoi` in the backing handler, for every 64-bit id. |
| `Strconv.ParseIntItoa` | project/db-service/Handlers/handlers.go:31 | Parsing the decimal text of any integer gives back that integer. |
| `Strconv.ItoaInjective` | project/api-service/client/client.go:67 | Two different ids never print alike, so the `NotFoundError` text names its id unambiguously. |
| `Strconv.Atoi` | project/db-service/Handlers/handlers.go:31 | An id is accepted exactly when it is an optional `+` or `-`, then at least one digit and nothing else, and its value fits in 64 bits. The result is that value. |
| `Strconv.ParseInt` | project/db-service/Handlers/handlers.go:31 | The sign-then-digit-loop parser succeeds exactly on that decimal syntax and yields the value the digits denote, negated for `-`. |
| `Strconv.ScanDigitsValue` | project/db-service/Handlers/handlers.go:31 | The left-to-right digit loop (`n = n*10 + d`) succeeds exactly on a string of digits and computes its decimal value. |
| `Errors.StatusMessageRoundTrip` | project/api-service/client/client.go:27-29 | `StatusError.Error()` renders as "status <code>: <msg>". Reading that text back recovers both the code and the message. |
| `Errors.Is` | project/db-service/Handlers/handlers.go:40 | `errors.Is` against a sentinel holds exactly when the end of the error's `%w` chain is that sentinel, so no error matches two sentinels. This is the test at db-service handlers.go:40, 79, 99, 127 and 152. |
| `Errors.Message` | project/api-service/client/client.go:18-37 | `Error()`: `NotFoundError` is its `Msg`. `StatusError` starts with "status ". `ContentTypeError` is "unexpected content type: " followed by exactly the header received. A `%w` wrap starts with its cause's text and ": " and is longer than it. |
| `Errors.MessageStartsWithRoot` | project/db-service/database_connect/service/service.go:32-36 | However deeply an error is wrapped, its text starts with the text of the error at the end of its chain. |
| `GatewayClient.NotFoundMessageNamesId` | project/api-service/client/client.go:18-20 | The text of the client's `NotFoundError` for two ids is equal exactly when the ids are equal. |
| `Errors.WrappedInvalidInputText` | project/db-service/database_connect/service/service.go:32 | A `%w`-wrapped `ErrInvalidInput` still matches `errors.Is`. Its text starts with "invalid input: ". |
| `BackingService.CreateTask` | project/db-service/database_connect/service/service.go:28-51 | A blank title is rejected first, then `Status == true`, each with an error wrapping `ErrInvalidInput`. A valid task returns exactly the repository's id or error. |
| `BackingService.CreateTaskInvalidSkipsRepository` | project/db-service/database_connect/service/service.go:30-37 | For an invalid task the result is the same whatever the repository does, so `AddTask` is never consulted. |
| `BackingService.GetTask` | project/db-service/database_connect/service/service.go:53-68 | A repository error is returned unchanged. A stored row with a blank title gives an error that matches none of the sentinels. Any other row is returned unchanged. A returned task never has a blank title. |
| `BackingService.GetAllTasks` | project/db-service/database_connect/service/service.go:69-84 | A repository error comes first. Then 0 rows give `ErrEmptySlice` and 1 row gives `ErrTooFewTasks`. The call succeeds exactly for 2 or more rows, returning the repository's slice unchanged and in order. |
| `BackingService.ModifyTask` | project/db-service/database_connect/service/service.go:86-106 | An unknown action fails with "unknown action". For "updateStatus" or "delete", a repository error wins. Otherwise 0 rows gives `ErrTaskNotFound`, and success comes exactly when rows are affected. |
| `BackingService.ModifyTaskConsultsOnlyItsCall` | project/db-service/database_connect/service/service.go:90-97 | The result depends only on the repository call the action names: `UpdateTaskStatus` or `DeleteTask`. An unknown action consults none. |
| `BackingHandlers.GetTask` | project/db-service/Handlers/handlers.go:25-57 | A bad id is 400 "invalid id" without the service. 404 "task not found" comes exactly for an error matching `ErrTaskNotFound`, and 500 "internal server error" exactly for any other error. 200 comes exactly on success and carries the JSON task. Every non-200 reply is plain text. |
| `BackingHandlers.Post` | project/db-service/Handlers/handlers.go:59-90 | A Content-Type other than exactly "application/json" is 415 before decoding. Undecodable JSON is 400. An `ErrInvalidInput` error is 400 with its text and any other error is 500. 201 comes exactly on success and carries `IDResponse`. |
| `BackingHandlers.AllTasks` | project/db-service/Handlers/handlers.go:91-112 | 200 comes exactly on success, `ErrEmptySlice` or `ErrTooFewTasks`, and carries the tasks or an empty list. Every other reply is a plain-text 500. |
| `BackingHandlers.Modify` | project/db-service/Handlers/handlers.go:124-135 | A bad id is 400 without the service. The success status comes exactly on success, with no body. 404 comes exactly for `ErrTaskNotFound` and 500 exactly for any other error. |
| `BackingHandlers.Delete` | project/db-service/Handlers/handlers.go:113-136 | 200 comes exactly when the repository deleted a row. 404 comes exactly when it deleted none. |
| `BackingHandlers.Patch` | project/db-service/Handlers/handlers.go:138-161 | 204 comes exactly when the repository updated a row. 404 comes exactly when it updated none. |
| `BackingHandlers.ShortListIsEmptyOk` | project/db-service/Handlers/handlers.go:97-103 | Composed with the service, listing 0 or 1 stored tasks answers 200 with an empty JSON list. |
| `BackingHandlers.MissingRowIsInternalError` | project/db-service/Handlers/handlers.go:39-47 | A repository error that is no sentinel gives 500 "internal server error", not 404. The adapter reports a missing row as such an error. |
| `BackingHandlers.InvalidTaskIsBadRequest` | project/db-service/Handlers/handlers.go:77-80 | Posting a task with a blank title or a completed status is 400, and the body starts with "invalid input: ". |
| `GatewayClient.GetTask` | project/api-service/client/client.go:53-80 | A transport error is returned unchanged. `ContentTypeError{Got}` comes exactly for a non-JSON reply, whatever its status. `NotFoundError` "task <id> not found" comes exactly for a JSON 404. `StatusError{code, "unexpected status"}` comes exactly for any other JSON non-200. Success comes exactly for a decodable JSON 200 and returns the decoded task. An undecodable JSON 200 is the decoder's error. |
| `GatewayClient.PostTask` | project/api-service/client/client.go:82-113 | A transport error is returned unchanged. `ContentTypeError` comes exactly for a non-JSON reply, whatever its status. A JSON 409 is `StatusError{409, "task already exists"}`. `StatusError` with the reply's code comes exactly for a JSON non-201. Every other JSON non-201 is `StatusError{code, "unexpected status"}`. Success comes exactly for a decodable JSON 201 and returns the decoded id. An undecodable JSON 201 is the decoder's error. |
| `GatewayClient.GetAllTasks` | project/api-service/client/client.go:115-133 | No Content-Type check. `StatusError{code, "unexpected status"}` comes exactly for a non-200. Success comes exactly for a decodable 200 and returns the decoded list. |
| `GatewayClient.Mutate` | project/api-service/client/client.go:142-156 | A transport error is returned unchanged. With no Content-Type check, nil comes exactly on the success status. `NotFoundError` naming the id comes exactly on 404. `StatusError{code, "unexpected status"}` comes on any other status. |
| `GatewayClient.Delete` | project/api-service/client/client.go:135-157 | Succeeds exactly on 200. 404 and only 404 gives `NotFoundError`. |
| `GatewayClient.Update` | project/api-service/client/client.go:159-181 | Succeeds exactly on 204. 404 and only 404 gives `NotFoundError`. |
| `GatewayService.Get` | project/api-service/service/service.go:19-28 | Returns exactly the client's task or error. The error value is unchanged, so its type reaches the handler's type switch. |
| `GatewayService.GetAll` | project/api-service/service/service.go:30-39 | Returns exactly the client's slice or error, unchanged. |
| `GatewayService.Post` | project/api-service/service/service.go:41-50 | Returns exactly the client's id or error, unchanged. |
| `GatewayService.Delete` | project/api-service/service/service.go:52-61 | Returns exactly the client's error value, unchanged. |
| `GatewayService.Update` | project/api-service/service/service.go:63-72 | Returns exactly the client's error value, unchanged. |
| `GatewayHandlers.Get` | project/api-service/handlers/handlers.go:26-55 | A bad id is 400 "invalid id" without the service. 404 comes exactly for `NotFoundError`. 500 comes exactly for every other error. Every error reply is plain text carrying the error's text. 200 comes exactly on success, with the task. |
| `GatewayHandlers.Post` | project/api-service/handlers/handlers.go:57-94 | A Content-Type not starting with "application/json" is 415 before decoding. Undecodable JSON is 400. After the service: 415 exactly for `ContentTypeError`, 409 exactly for any `StatusError`, 500 exactly for anything else, each in plain text carrying the error's text. 201 comes exactly on success, with `{message, id}`. |
| `GatewayHandlers.GetAll` | project/api-service/handlers/handlers.go:96-112 | 500 comes exactly for `StatusError`, with its text. 400 comes exactly for any other error. 200 comes exactly on success, with the tasks. |
| `GatewayHandlers.MutationReply` | project/api-service/handlers/handlers.go:128-145 | 404 comes exactly for `NotFoundError`, 409 exactly for `StatusError` and 500 exactly for anything else, each with the error's text. 200 with `DeleteOrUpdateResponse{StatusCode: 200}` comes exactly on success. |
| `GatewayHandlers.Delete` | project/api-service/handlers/handlers.go:114-146 | A bad id is 400 "invalid id" without the service. Otherwise the service's outcome is mapped as `MutationReply` states, with the deletion message. |
| `GatewayHandlers.Update` | project/api-service/handlers/handlers.go:148-180 | A bad id is 400 "invalid id" without the service. Otherwise the service's outcome is mapped as `MutationReply` states, with the completion message. |
| `Pipeline.Dispatch` | project/db-service/server/main.go:37-42 | The backing route table. A known route asked with a method it does not take is 405. `/tasks/` with an empty id matches no route and is the router's plain-text 404 "404 page not found". |
| `Pipeline.NonJsonNotFoundIsInternalError` | project/api-service/client/client.go:62-68 | A non-JSON 404 from the backing tier reaches the gateway GET as a `ContentTypeError` and is answered 500, not 404. |
| `Pipeline.PublicGetNeverNotFound` | project/api-service/handlers/handlers.go:41-48 | Whatever the repository answers, the public GET by id is never 404. |
| `Pipeline.PublicGet` | project/api-service/handlers/handlers.go:26-55 | End to end, a stored task with a non-blank title is returned as stored, under the id parsed from the public path. A missing row, a store failure or a blank stored title is 500 with "unexpected content type: text/plain; charset=utf-8". |
| `Pipeline.PublicPost` | project/api-service/handlers/handlers.go:57-94 | End to end, a valid task the repository stores is 201 with the repository's id. A blank title, a completed status or a repository failure is 415. |
| `Pipeline.PublicPostStatuses` | project/api-service/handlers/handlers.go:76-84 | End to end over a network that delivers every request, the public POST answers only 201, 400 or 415. |
| `Pipeline.PostWithoutBackingIsInternalError` | project/api-service/handlers/handlers.go:81-82 | When the request to the backing tier fails in transport, the public POST of a JSON task answers 500 with the failure's text. |
| `Pipeline.PublicList` | project/api-service/handlers/handlers.go:96-112 | End to end, 0 or 1 stored tasks give 200 with an empty list. 2 or more give 200 with all of them in the repository's order. A store failure gives 500 "status 500: unexpected status". |
| `Pipeline.PublicDelete` | project/api-service/handlers/handlers.go:114-146 | End to end, no deleted row is 404 "task <id> not found". A deleted row is 200. A store failure is 409. |
| `Pipeline.PublicUpdate` | project/api-service/handlers/handlers.go:148-180 | End to end, no updated row is 404 "task <id> not found". An updated row (backing 204) is 200. A store failure is 409. |

## Left out

- The PostgreSQL adapter (`data_base.go`) is left out because it is SQL over a foreign pool. The repository is an abstract value, so no store state is kept. Round trips over a real store are not modelled: create then get, mark complete then get, delete then get.
- Process bootstrap, YAML configuration, logging and the timing middleware are left out, because they have no effect on any reply. Route matching is reduced to `Pipeline.Dispatch` over two route shapes.
- The HTTP client's 10-second timeout, request contexts and cancellation are not modelled. A timeout is one of the transport failures the `send` function may return.
- JSON is decoded by the shape of the body. Go's decoder ignores unknown keys, matches keys without regard to case, and leaves missing fields at their zero values. The text of a decoder error is not modelled.
- BackingHandlers.Post, GatewayHandlers.Post: a request body of another JSON shape is answered 400 "неверный формат JSON". Go decodes such a body, for instance `{"id":5}`, into a task with a blank title. The backing tier would then answer 400 "invalid input: title cannot be empty". The gateway would forward the task and answer 415. On the client side this difference does not arise, because the backing tier only sends the shape the client expects.
- The backing `GetTask` branch for a failed encode (handlers.go:51-55) is left out. It is reached when writing to the connection fails, which is I/O. It is also reached when `time.Time.MarshalJSON` refuses a stored `Created_at` whose year is outside 0 to 9999, and `Timestamp` is opaque here.
- The `json.Marshal` failure in `PostTask` is left out because marshalling a task cannot fail. The `http.NewRequest` failure in `Delete` and `Update` occurs only for a malformed base URL. The model covers it as a transport failure, which is returned unchanged like it.
- A Go nil slice and an empty slice are not distinguished, although they encode as `null` and `[]`. Response headers other than Content-Type are not modelled, and neither is the newline `http.Error` appends.
- Strings are sequences of code points, so invalid UTF-8 bytes are not modelled.
