/** The backing tier's service layer: validation on create, re-validation on
    get, the listing policy, and the dispatch of mutations, each a chain of
    guards around one repository call. */
module BackingService {
  import opened Shared
  import opened Strings
  import opened Errors

  /** The storage contract (`repository.TaskRepository`): what each call
      returns, as a function of its argument. The SQL behind it is not
      modelled; the PostgreSQL adapter reports a missing row on `GetTask` as
      an `Other` error, never as `ErrTaskNotFound`. */
  datatype Repository = Repository(
    getTask: Int64 -> Result<Task, Error>,
    addTask: Task -> Result<Int64, Error>,
    getAllTasks: Result<seq<Task>, Error>,
    updateTaskStatus: Int64 -> Result<int, Error>,
    deleteTask: Int64 -> Result<int, Error>)

  datatype Service = Service(repo: Repository)

  const TitleEmptyDetail: string := "title cannot be empty"
  const StatusTrueDetail: string := "wrong status: task cannot be created with status = true"
  const StoredTitleEmptyText: string := "task title is empty"
  const UnknownActionText: string := "unknown action"

  const UpdateStatusAction: string := "updateStatus"
  const DeleteAction: string := "delete"

  /** A blank title is rejected first, then a completed status, each with an
      error wrapping `ErrInvalidInput`; only a valid task reaches the
      repository, whose id or error is returned unchanged. */
  function CreateTask(s: Service, task: Task): (r: Result<Int64, Error>)
    ensures AllSpace(task.title) ==>
      r == Err(Wrapped(SentinelErr(ErrInvalidInput), TitleEmptyDetail))
    ensures !AllSpace(task.title) && task.status ==>
      r == Err(Wrapped(SentinelErr(ErrInvalidInput), StatusTrueDetail))
    ensures AllSpace(task.title) || task.status ==> r.Err? && Is(r.error, ErrInvalidInput)
    ensures !AllSpace(task.title) && !task.status ==> r == s.repo.addTask(task)
  {
    if TrimSpace(task.title) == "" then
      Err(Wrapped(SentinelErr(ErrInvalidInput), TitleEmptyDetail))
    else if task.status then
      Err(Wrapped(SentinelErr(ErrInvalidInput), StatusTrueDetail))
    else
      s.repo.addTask(task)
  }

  /** A repository error comes back unchanged; a stored row with a blank
      title is refused with an error that is none of the sentinels; any
      other row comes back unchanged. */
  function GetTask(s: Service, id: Int64): (r: Result<Task, Error>)
    ensures s.repo.getTask(id).Err? ==> r == s.repo.getTask(id)
    ensures s.repo.getTask(id).Ok? && AllSpace(s.repo.getTask(id).value.title) ==>
      r.Err? && forall target :: !Is(r.error, target)
    ensures s.repo.getTask(id).Ok? && !AllSpace(s.repo.getTask(id).value.title) ==>
      r == s.repo.getTask(id)
    ensures r.Ok? ==> !AllSpace(r.value.title)
  {
    match s.repo.getTask(id)
    case Err(e) => Err(e)
    case Ok(task) =>
      if TrimSpace(task.title) == "" then Err(Other(StoredTitleEmptyText))
      else Ok(task)
  }

  /** A repository error comes back first; then zero rows give
      `ErrEmptySlice`, one row `ErrTooFewTasks`, and only two or more rows
      succeed, with the repository's rows in the repository's order. */
  function GetAllTasks(s: Service): (r: Result<seq<Task>, Error>)
    ensures s.repo.getAllTasks.Err? ==> r == s.repo.getAllTasks
    ensures s.repo.getAllTasks == Ok([]) ==> r == Err(SentinelErr(ErrEmptySlice))
    ensures s.repo.getAllTasks.Ok? && |s.repo.getAllTasks.value| == 1 ==>
      r == Err(SentinelErr(ErrTooFewTasks))
    ensures r.Ok? <==> s.repo.getAllTasks.Ok? && |s.repo.getAllTasks.value| >= 2
    ensures r.Ok? ==> r.value == s.repo.getAllTasks.value
  {
    match s.repo.getAllTasks
    case Err(e) => Err(e)
    case Ok(tasks) =>
      if |tasks| == 0 then Err(SentinelErr(ErrEmptySlice))
      else if |tasks| == 1 then Err(SentinelErr(ErrTooFewTasks))
      else Ok(tasks)
  }

  /** The repository call an action selects, if the action is known. */
  function ActionCall(repo: Repository, id: Int64, action: string): Option<Result<int, Error>> {
    if action == UpdateStatusAction then Some(repo.updateTaskStatus(id))
    else if action == DeleteAction then Some(repo.deleteTask(id))
    else None
  }

  /** An unknown action fails without touching the repository. For a known
      one, the repository's error wins; otherwise no affected row means
      `ErrTaskNotFound` and any affected row means success. */
  function ModifyTask(s: Service, id: Int64, action: string): (r: Outcome<Error>)
    ensures action != UpdateStatusAction && action != DeleteAction ==>
      r == Fail(Other(UnknownActionText))
    ensures action == UpdateStatusAction || action == DeleteAction ==>
      var rows := if action == UpdateStatusAction then s.repo.updateTaskStatus(id) else s.repo.deleteTask(id);
      && (rows.Err? ==> r == Fail(rows.error))
      && (rows == Ok(0) ==> r == Fail(SentinelErr(ErrTaskNotFound)))
      && (r == Pass <==> rows.Ok? && rows.value != 0)
  {
    match ActionCall(s.repo, id, action)
    case None => Fail(Other(UnknownActionText))
    case Some(Err(e)) => Fail(e)
    case Some(Ok(affected)) =>
      if affected == 0 then Fail(SentinelErr(ErrTaskNotFound)) else Pass
  }

  /** An invalid task is rejected whatever the repository would do: `AddTask`
      is never called for it. */
  lemma CreateTaskInvalidSkipsRepository(s: Service, other: Service, task: Task)
    requires AllSpace(task.title) || task.status
    ensures CreateTask(s, task) == CreateTask(other, task)
  {
  }

  /** `ModifyTask` consults only the repository call its action names (and
      none for an unknown action). */
  lemma ModifyTaskConsultsOnlyItsCall(s: Service, other: Service, id: Int64, action: string)
    requires ActionCall(s.repo, id, action) == ActionCall(other.repo, id, action)
    ensures ModifyTask(s, id, action) == ModifyTask(other, id, action)
  {
  }
}
