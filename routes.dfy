/**
 * The HTTP handlers of the task service. Each handler receives the request
 * body after schema validation (a body that fails it is answered with 422
 * before the handler runs) and the user the bearer token resolved to;
 * token decoding, password checking and token signing are parameters.
 */
module Routes {
  import opened Wrappers
  import opened Models
  import opened Schemas
  import opened Seqs
  import Crud

  /** The body of an HTTP error response. */
  datatype Detail = Message(text: string) | InvalidFields(fields: FieldErrors)

  /** An HTTP error response: status code and detail. */
  datatype HttpError = HttpError(status: int, detail: Detail)

  const EmailTaken: HttpError := HttpError(400, Message("Email already registered"))
  const BadCredentials: HttpError := HttpError(401, Message("Incorrect username or password"))
  const TaskNotFound: HttpError := HttpError(404, Message("Task not found"))

  /** The answer to a request body that fails schema validation, naming the offending fields. */
  function Unprocessable(fields: FieldErrors): HttpError
  {
    HttpError(422, InvalidFields(fields))
  }

  /** The body of a successful login. */
  datatype Token = Token(accessToken: string, tokenType: string)

  /**
   * POST /api/auth/register: rejects a short password with 422 and a known
   * email with 400; otherwise creates exactly one user.
   */
  method RegisterUser(db: Crud.Database, name: string, email: string, password: string,
                      hash: string -> string, now: nat) returns (r: Result<User, HttpError>)
    requires db.Valid()
    modifies db
    ensures db.Valid()
    ensures db.tasks == old(db.tasks) && db.comments == old(db.comments)
    ensures |password| < PasswordMinLength ==> r == Failure(Unprocessable({"password"})) && db.users == old(db.users)
    ensures |password| >= PasswordMinLength && Crud.GetUserByEmail(old(db.users), email).Some? ==>
      r == Failure(EmailTaken) && db.users == old(db.users)
    ensures r.Success? <==> |password| >= PasswordMinLength && Crud.GetUserByEmail(old(db.users), email).None?
    ensures r.Success? ==>
      db.users == old(db.users) + [r.value] && r.value.email == email && r.value.hashedPassword == hash(password)
  {
    var body := ParseUserCreate(name, email, password);
    if body.Failure? {
      return Failure(Unprocessable({"password"}));
    }
    if Crud.GetUserByEmail(db.users, email).Some? {
      return Failure(EmailTaken);
    }
    var created := db.CreateUser(body.value, hash(password), now);
    match created {
      case Success(u) => r := Success(u);
      case Failure(_) => assert false;
    }
  }

  /**
   * POST /api/auth/login: `authenticated` is what the credential check
   * returned; without a user the answer is 401 and no token is issued.
   * The token's subject is the user's email.
   */
  function LoginForAccessToken(authenticated: Option<User>, createAccessToken: string -> string): (r: Result<Token, HttpError>)
    ensures r.Failure? <==> authenticated.None?
    ensures r.Failure? ==> r.error.status == 401
    ensures r.Success? ==> r.value == Token(createAccessToken(authenticated.value.email), "bearer")
  {
    match authenticated
    case None => Failure(BadCredentials)
    case Some(u) => Success(Token(createAccessToken(u.email), "bearer"))
  }

  /** The dashboard summary. */
  datatype Stats = Stats(totalTasks: nat, completedTasks: nat, pendingTasks: nat)

  /** The filter `t.status == status` of the counting comprehensions. */
  function HasStatus(status: TaskStatus): Task -> bool
  {
    (t: Task) => t.status == status
  }

  /** Number of tasks in `s` with the given status. */
  function CountStatus(s: seq<Task>, status: TaskStatus): nat
  {
    |Filter(s, HasStatus(status))|
  }

  /**
   * GET /api/dashboard/stats: counts over the user's tasks as `get_tasks`
   * returns them with its default page, so over the 100 newest of them.
   */
  function DashboardStats(tasks: seq<Task>, currentUser: User): (r: Stats)
    ensures exists p ::
      && Crud.IsNewestFirstPage(p, Crud.OwnedTasks(tasks, currentUser.id), 0, Crud.DefaultLimit)
      && r == Stats(|p|, CountStatus(p, Completed), CountStatus(p, Pending))
    ensures r.totalTasks <= Crud.DefaultLimit
    ensures r.completedTasks + r.pendingTasks <= r.totalTasks
    ensures r.totalTasks == Crud.Min(|Crud.OwnedTasks(tasks, currentUser.id)|, Crud.DefaultLimit)
  {
    var page := Crud.GetTasks(tasks, currentUser.id);
    FilterDisjointCounts(page, HasStatus(Completed), HasStatus(Pending));
    var r := Stats(|page|, CountStatus(page, Completed), CountStatus(page, Pending));
    assert Crud.IsNewestFirstPage(page, Crud.OwnedTasks(tasks, currentUser.id), 0, Crud.DefaultLimit);
    r
  }

  /** A user with at most 100 tasks gets exact counts over all of them. */
  lemma DashboardStatsExact(tasks: seq<Task>, currentUser: User)
    requires |Crud.OwnedTasks(tasks, currentUser.id)| <= Crud.DefaultLimit
    ensures var owned := Crud.OwnedTasks(tasks, currentUser.id);
      && DashboardStats(tasks, currentUser).totalTasks == |owned|
      && DashboardStats(tasks, currentUser).completedTasks == CountStatus(owned, Completed)
      && DashboardStats(tasks, currentUser).pendingTasks == CountStatus(owned, Pending)
  {
    var owned := Crud.OwnedTasks(tasks, currentUser.id);
    var page := Crud.GetTasks(tasks, currentUser.id);
    Crud.GetTasksComplete(tasks, currentUser.id, Crud.DefaultLimit);
    SameMultisetSameCount(page, owned, Completed);
    SameMultisetSameCount(page, owned, Pending);
  }

  /** Counting is insensitive to order. */
  lemma SameMultisetSameCount(a: seq<Task>, b: seq<Task>, status: TaskStatus)
    requires multiset(a) == multiset(b)
    ensures CountStatus(a, status) == CountStatus(b, status)
  {
    var p := HasStatus(status);
    var fa, fb := Filter(a, p), Filter(b, p);
    assert multiset(fa) == multiset(fb) by {
      forall x ensures multiset(fa)[x] == multiset(fb)[x] {}
    }
    assert |fa| == |multiset(fa)| == |multiset(fb)| == |fb|;
  }

  /** POST /api/tasks: creates a task owned by the caller. */
  method CreateTask(db: Crud.Database, body: TaskPayload, currentUser: User, now: nat) returns (r: Result<Task, HttpError>)
    requires db.Valid()
    modifies db
    ensures db.Valid()
    ensures db.users == old(db.users) && db.comments == old(db.comments)
    ensures r.Failure? <==> ParseTaskCreate(body).Failure?
    ensures r.Failure? ==> db.tasks == old(db.tasks) && r.error == Unprocessable(ParseTaskCreate(body).error)
    ensures r.Success? ==> db.tasks == old(db.tasks) + [r.value] && r.value.ownerId == currentUser.id
  {
    var parsed := ParseTaskCreate(body);
    if parsed.Failure? {
      return Failure(Unprocessable(parsed.error));
    }
    var t := db.CreateTask(parsed.value, currentUser.id, now);
    r := Success(t);
  }

  /**
   * GET /api/tasks: one page of the caller's tasks, newest first; skip and
   * limit default to 0 and 100.
   */
  function ReadTasks(tasks: seq<Task>, currentUser: User, skip: nat := 0, limit: nat := Crud.DefaultLimit)
    : (r: seq<Task>)
    ensures Crud.IsNewestFirstPage(r, Crud.OwnedTasks(tasks, currentUser.id), skip, limit)
    ensures forall i :: 0 <= i < |r| ==> r[i].ownerId == currentUser.id
    ensures SortedDesc(r, Crud.TaskCreatedAt)
    ensures multiset(r) <= multiset(Crud.OwnedTasks(tasks, currentUser.id))
    ensures |r| <= limit
    ensures |r| == if skip >= |Crud.OwnedTasks(tasks, currentUser.id)| then 0
                   else Crud.Min(|Crud.OwnedTasks(tasks, currentUser.id)| - skip, limit)
  {
    Crud.GetTasks(tasks, currentUser.id, skip, limit)
  }

  /** GET /api/tasks/{id}: the task, or 404 when it is missing or someone else's. */
  function ReadTask(tasks: seq<Task>, taskId: int, currentUser: User): (r: Result<Task, HttpError>)
    ensures r.Failure? <==> !Crud.OwnsTask(tasks, taskId, currentUser.id)
    ensures r.Failure? ==> r.error == TaskNotFound
    ensures r.Success? ==> r.value in tasks && r.value.id == taskId && r.value.ownerId == currentUser.id
  {
    match Crud.GetTaskById(tasks, taskId, currentUser.id)
    case None => Failure(TaskNotFound)
    case Some(t) => Success(t)
  }

  /** PUT /api/tasks/{id}: updates the supplied fields, or 404 when the task is missing or someone else's. */
  method UpdateTask(db: Crud.Database, taskId: int, body: TaskPayload, currentUser: User, now: nat)
    returns (r: Result<Task, HttpError>)
    requires db.Valid()
    modifies db
    ensures db.Valid()
    ensures db.users == old(db.users) && db.comments == old(db.comments)
    ensures ParseTaskCreate(body).Failure? ==> r == Failure(Unprocessable(ParseTaskCreate(body).error))
    ensures ParseTaskCreate(body).Success? && !Crud.OwnsTask(old(db.tasks), taskId, currentUser.id) ==>
      r == Failure(TaskNotFound)
    ensures r.Failure? ==> db.tasks == old(db.tasks)
    ensures r.Success? <==> ParseTaskCreate(body).Success? && Crud.OwnsTask(old(db.tasks), taskId, currentUser.id)
    ensures r.Success? ==>
      && r.value.id == taskId && r.value.ownerId == currentUser.id
      && db.tasks == Crud.Replace(old(db.tasks), taskId, r.value)
  {
    var parsed := ParseTaskCreate(body);
    if parsed.Failure? {
      return Failure(Unprocessable(parsed.error));
    }
    var updated := db.UpdateTask(taskId, parsed.value, currentUser.id, now);
    if updated.None? {
      return Failure(TaskNotFound);
    }
    ghost var before := Crud.GetTaskById(old(db.tasks), taskId, currentUser.id).value;
    Crud.ApplyAllKeepsIdentity(before, Crud.SetFields(parsed.value));
    r := Success(updated.value);
  }

  /** DELETE /api/tasks/{id}: deletes the task and its comments, or 404. */
  method DeleteTask(db: Crud.Database, taskId: int, currentUser: User) returns (r: Result<string, HttpError>)
    requires db.Valid()
    modifies db
    ensures db.Valid()
    ensures db.users == old(db.users)
    ensures r.Failure? <==> !Crud.OwnsTask(old(db.tasks), taskId, currentUser.id)
    ensures r.Failure? ==> r.error == TaskNotFound && db.tasks == old(db.tasks) && db.comments == old(db.comments)
    ensures r.Success? ==>
      && r.value == "Task deleted successfully"
      && db.tasks == Crud.WithoutTask(old(db.tasks), taskId)
      && db.comments == Crud.WithoutCommentsOn(old(db.comments), taskId)
  {
    var deleted := db.DeleteTask(taskId, currentUser.id);
    if !deleted {
      return Failure(TaskNotFound);
    }
    r := Success("Task deleted successfully");
  }

  /**
   * POST /api/tasks/{id}/comments: adds a comment by the caller, or 404 and
   * no comment when the task is missing or someone else's.
   */
  method CreateComment(db: Crud.Database, taskId: int, content: Option<string>, currentUser: User, now: nat)
    returns (r: Result<Comment, HttpError>)
    requires db.Valid()
    modifies db
    ensures db.Valid()
    ensures db.users == old(db.users) && db.tasks == old(db.tasks)
    ensures r.Failure? ==> db.comments == old(db.comments)
    ensures ParseCommentCreate(content).Failure? ==> r == Failure(Unprocessable({"content"}))
    ensures ParseCommentCreate(content).Success? && !Crud.OwnsTask(old(db.tasks), taskId, currentUser.id) ==>
      r == Failure(TaskNotFound)
    ensures r.Success? <==> ParseCommentCreate(content).Success? && Crud.OwnsTask(old(db.tasks), taskId, currentUser.id)
    ensures r.Success? ==>
      && db.comments == old(db.comments) + [r.value]
      && r.value.taskId == taskId && r.value.userId == currentUser.id && r.value.content == content.value
  {
    var parsed := ParseCommentCreate(content);
    if parsed.Failure? {
      return Failure(Unprocessable(parsed.error));
    }
    if Crud.GetTaskById(db.tasks, taskId, currentUser.id).None? {
      return Failure(TaskNotFound);
    }
    var c := db.CreateComment(parsed.value, taskId, currentUser.id, now);
    r := Success(c);
  }

  /** GET /api/tasks/{id}/comments: the task's comments newest first, or 404. */
  function ListComments(tasks: seq<Task>, comments: seq<Comment>, taskId: int, currentUser: User)
    : (r: Result<seq<Comment>, HttpError>)
    ensures r.Failure? <==> !Crud.OwnsTask(tasks, taskId, currentUser.id)
    ensures r.Failure? ==> r.error == TaskNotFound
    ensures r.Success? ==>
      && SortedDesc(r.value, Crud.CommentCreatedAt)
      && forall c :: multiset(r.value)[c] == if c.taskId == taskId then multiset(comments)[c] else 0
  {
    if Crud.GetTaskById(tasks, taskId, currentUser.id).None? then Failure(TaskNotFound)
    else Success(Crud.GetTaskComments(tasks, comments, taskId, currentUser.id))
  }
}
