/**
 * The database records of the task service: users, tasks and comments, and
 * the task status enumeration. Timestamps are abstract natural numbers
 * (later is larger); the database's clock is not part of the model.
 */
module Models {
  import opened Wrappers

  /** The three states a task can be in. */
  datatype TaskStatus = Pending | InProgress | Completed

  /** The status a task gets when none is given. */
  const DefaultStatus: TaskStatus := Pending

  /** The string value each status is stored and transmitted as. */
  function StatusName(s: TaskStatus): string
  {
    match s
    case Pending => "PENDING"
    case InProgress => "IN_PROGRESS"
    case Completed => "COMPLETED"
  }

  /**
   * The status a string value denotes, as the enumeration's lookup by value
   * does; a string that is not one of the three values denotes none.
   */
  function ParseStatus(name: string): (r: Option<TaskStatus>)
    ensures r.Some? <==> name in {"PENDING", "IN_PROGRESS", "COMPLETED"}
    ensures r.Some? ==> StatusName(r.value) == name
  {
    if name == "PENDING" then Some(Pending)
    else if name == "IN_PROGRESS" then Some(InProgress)
    else if name == "COMPLETED" then Some(Completed)
    else None
  }

  /** Every status round-trips through its string value, so the three values are distinct. */
  lemma StatusNameRoundTrip(s: TaskStatus)
    ensures ParseStatus(StatusName(s)) == Some(s)
  {
  }

  /** A row of the `users` table; `avatar` may be null. */
  datatype User = User(
    id: int,
    name: string,
    email: string,
    hashedPassword: string,
    avatar: Option<string>,
    createdAt: nat)

  /** A row of the `tasks` table; `description` may be null, `updatedAt` is null until the first update. */
  datatype Task = Task(
    id: int,
    title: string,
    description: Option<string>,
    status: TaskStatus,
    createdAt: nat,
    updatedAt: Option<nat>,
    ownerId: int)

  /** A row of the `comments` table. */
  datatype Comment = Comment(
    id: int,
    content: string,
    createdAt: nat,
    userId: int,
    taskId: int)

  /** The primary keys of a table are distinct. */
  predicate UniqueTaskIds(tasks: seq<Task>)
  {
    forall i, j :: 0 <= i < j < |tasks| ==> tasks[i].id != tasks[j].id
  }

  predicate UniqueCommentIds(comments: seq<Comment>)
  {
    forall i, j :: 0 <= i < j < |comments| ==> comments[i].id != comments[j].id
  }

  predicate UniqueUserIds(users: seq<User>)
  {
    forall i, j :: 0 <= i < j < |users| ==> users[i].id != users[j].id
  }

  /** The `users.email` column is declared unique. */
  predicate UniqueEmails(users: seq<User>)
  {
    forall i, j :: 0 <= i < j < |users| ==> users[i].email != users[j].email
  }

  /**
   * A new task row as the ORM builds it before insertion: the given fields,
   * the status defaulting to PENDING, no update time yet.
   */
  function NewTask(id: int, title: string, description: Option<string>, status: Option<TaskStatus>,
                   ownerId: int, now: nat): (t: Task)
    ensures t.id == id && t.title == title && t.description == description && t.ownerId == ownerId
    ensures t.status == if status.Some? then status.value else Pending
    ensures t.createdAt == now && t.updatedAt == None
  {
    Task(id, title, description, match status case Some(s) => s case None => DefaultStatus, now, None, ownerId)
  }
}
