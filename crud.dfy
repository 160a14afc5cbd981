/**
 * The database operations of the task service over an in-memory store: the
 * three tables are sequences of records in insertion order. Queries are
 * functions of the tables; inserts, updates and deletes are methods of the
 * `Database` class that reassign its tables.
 */
module Crud {
  import opened Wrappers
  import opened Models
  import opened Seqs
  import opened Schemas

  /** The page size `get_tasks` uses when the caller gives none. */
  const DefaultLimit: nat := 100

  function TaskCreatedAt(t: Task): int { t.createdAt }
  function CommentCreatedAt(c: Comment): int { c.createdAt }

  /** The first user with the given email, if any. */
  function GetUserByEmail(users: seq<User>, email: string): (r: Option<User>)
    ensures r.Some? <==> exists i :: 0 <= i < |users| && users[i].email == email
    ensures r.Some? ==> r.value in users && r.value.email == email
  {
    if users == [] then None
    else if users[0].email == email then Some(users[0])
    else
      var r := GetUserByEmail(users[1..], email);
      assert forall i :: 1 <= i < |users| ==> users[i] == users[1..][i - 1];
      r
  }

  /** The tasks owned by `userId`, in table order. */
  function OwnedTasks(tasks: seq<Task>, userId: int): (r: seq<Task>)
  {
    Filter(tasks, (t: Task) => t.ownerId == userId)
  }

  /**
   * `r` is the window `OFFSET skip LIMIT limit` of some newest-first ordering
   * of `owned`. Tasks with equal `created_at` may come in any order, as the
   * database leaves their order open.
   */
  ghost predicate IsNewestFirstPage(r: seq<Task>, owned: seq<Task>, skip: nat, limit: nat)
  {
    exists s :: SortedDesc(s, TaskCreatedAt) && multiset(s) == multiset(owned) && r == Page(s, skip, limit)
  }

  /**
   * get_tasks: the user's tasks, newest first, without the first `skip` of
   * them and at most `limit` of them.
   */
  function GetTasks(tasks: seq<Task>, userId: int, skip: nat := 0, limit: nat := DefaultLimit): (r: seq<Task>)
    ensures IsNewestFirstPage(r, OwnedTasks(tasks, userId), skip, limit)
    ensures forall i :: 0 <= i < |r| ==> r[i].ownerId == userId
    ensures SortedDesc(r, TaskCreatedAt)
    ensures multiset(r) <= multiset(OwnedTasks(tasks, userId))
    ensures |r| <= limit
    ensures |r| == if skip >= |OwnedTasks(tasks, userId)| then 0
                   else Min(|OwnedTasks(tasks, userId)| - skip, limit)
  {
    var owned := OwnedTasks(tasks, userId);
    var sorted := SortDesc(owned, TaskCreatedAt);
    PageOfSorted(sorted, skip, limit, TaskCreatedAt);
    var r := Page(sorted, skip, limit);
    assert SortedDesc(sorted, TaskCreatedAt) && multiset(sorted) == multiset(owned) && r == Page(sorted, skip, limit);
    assert forall i :: 0 <= i < |r| ==> r[i] in multiset(sorted);
    r
  }

  /**
   * A first page holds the newest tasks: a task left off it (an occurrence
   * of `owned` beyond those on the page) is no newer than any task on it.
   */
  lemma FirstPageIsNewest(r: seq<Task>, owned: seq<Task>, limit: nat, t: Task, i: nat)
    requires IsNewestFirstPage(r, owned, 0, limit)
    requires multiset(r)[t] < multiset(owned)[t] && i < |r|
    ensures t.createdAt <= r[i].createdAt
  {
    var s :| SortedDesc(s, TaskCreatedAt) && multiset(s) == multiset(owned) && r == Page(s, 0, limit);
    var k := |r|;
    assert r == s[..k];
    assert s == r + s[k..];
    assert multiset(s) == multiset(r) + multiset(s[k..]);
    assert t in multiset(s[k..]);
    var j :| k <= j < |s| && s[j] == t by {
      assert t in s[k..];
      var m :| 0 <= m < |s[k..]| && s[k..][m] == t;
      assert s[k + m] == t;
    }
    assert r[i] == s[i];
  }

  function Min(a: int, b: int): int { if a <= b then a else b }

  /** With skip 0 and a limit at least the number of owned tasks, get_tasks returns all of them. */
  lemma GetTasksComplete(tasks: seq<Task>, userId: int, limit: nat)
    requires |OwnedTasks(tasks, userId)| <= limit
    ensures multiset(GetTasks(tasks, userId, 0, limit)) == multiset(OwnedTasks(tasks, userId))
  {
    var sorted := SortDesc(OwnedTasks(tasks, userId), TaskCreatedAt);
    PageAll(sorted, limit);
  }

  /** get_task_by_id: the task with this id if `userId` owns it. */
  function GetTaskById(tasks: seq<Task>, taskId: int, userId: int): (r: Option<Task>)
    ensures r.Some? <==> exists i :: 0 <= i < |tasks| && tasks[i].id == taskId && tasks[i].ownerId == userId
    ensures r.Some? ==> r.value in tasks && r.value.id == taskId && r.value.ownerId == userId
  {
    if tasks == [] then None
    else if tasks[0].id == taskId && tasks[0].ownerId == userId then Some(tasks[0])
    else
      var r := GetTaskById(tasks[1..], taskId, userId);
      assert forall i :: 1 <= i < |tasks| ==> tasks[i] == tasks[1..][i - 1];
      r
  }

  /** With distinct ids, the task found is the only one with that id. */
  lemma GetTaskByIdUnique(tasks: seq<Task>, taskId: int, userId: int, k: nat)
    requires UniqueTaskIds(tasks)
    requires k < |tasks| && tasks[k].id == taskId && tasks[k].ownerId == userId
    ensures GetTaskById(tasks, taskId, userId) == Some(tasks[k])
  {
    var r := GetTaskById(tasks, taskId, userId);
    var j :| 0 <= j < |tasks| && tasks[j] == r.value;
    assert j == k;
  }

  /** Whether `userId` owns a task with id `taskId`: the join condition of get_task_comments. */
  predicate OwnsTask(tasks: seq<Task>, taskId: int, userId: int)
  {
    exists i :: 0 <= i < |tasks| && tasks[i].id == taskId && tasks[i].ownerId == userId
  }

  /**
   * get_task_comments: the comments on `taskId`, newest first, provided
   * that task is owned by `userId`; otherwise none.
   */
  function GetTaskComments(tasks: seq<Task>, comments: seq<Comment>, taskId: int, userId: int): (r: seq<Comment>)
    ensures forall i :: 0 <= i < |r| ==> r[i].taskId == taskId
    ensures !OwnsTask(tasks, taskId, userId) ==> r == []
    ensures SortedDesc(r, CommentCreatedAt)
    ensures OwnsTask(tasks, taskId, userId) ==>
      forall c :: multiset(r)[c] == if c.taskId == taskId then multiset(comments)[c] else 0
  {
    var joined := Filter(comments, (c: Comment) => c.taskId == taskId && OwnsTask(tasks, c.taskId, userId));
    var r := SortDesc(joined, CommentCreatedAt);
    assert forall i :: 0 <= i < |r| ==> r[i] in multiset(joined);
    r
  }

  /** The fields of a task an update sets. */
  datatype Assignment = SetTitle(title: string) | SetDescription(description: Option<string>) | SetStatus(status: TaskStatus)

  /** `task_update.dict(exclude_unset=True).items()`: the title, then each optional field that was set. */
  function SetFields(u: TaskCreate): (fs: seq<Assignment>)
    ensures |fs| == 1 + (if u.description.Given? then 1 else 0) + (if u.status.Given? then 1 else 0)
    ensures fs[0] == SetTitle(u.title)
    ensures forall i :: 0 < i < |fs| ==> !fs[i].SetTitle?
    ensures forall d :: SetDescription(d) in fs <==> u.description == Given(d)
    ensures forall st :: SetStatus(st) in fs <==> u.status == Given(st)
  {
    [SetTitle(u.title)]
    + (match u.description case Unset => [] case Given(d) => [SetDescription(d)])
    + (match u.status case Unset => [] case Given(s) => [SetStatus(s)])
  }

  /** `setattr(task, key, value)` for one assignment. */
  function SetAttr(t: Task, a: Assignment): (r: Task)
    ensures r.id == t.id && r.ownerId == t.ownerId && r.createdAt == t.createdAt && r.updatedAt == t.updatedAt
  {
    match a
    case SetTitle(v) => t.(title := v)
    case SetDescription(v) => t.(description := v)
    case SetStatus(v) => t.(status := v)
  }

  /** The task after applying the assignments in order. */
  function ApplyAll(t: Task, fs: seq<Assignment>): Task
    decreases |fs|
  {
    if fs == [] then t else ApplyAll(SetAttr(t, fs[0]), fs[1..])
  }

  /** Applying assignments never changes the id, owner or timestamps. */
  lemma {:induction false} ApplyAllKeepsIdentity(t: Task, fs: seq<Assignment>)
    ensures var r := ApplyAll(t, fs);
      r.id == t.id && r.ownerId == t.ownerId && r.createdAt == t.createdAt && r.updatedAt == t.updatedAt
    decreases |fs|
  {
    if fs != [] {
      ApplyAllKeepsIdentity(SetAttr(t, fs[0]), fs[1..]);
    }
  }

  /** An update sets exactly the supplied fields and leaves the rest of the record alone. */
  lemma ApplySuppliedFields(t: Task, u: TaskCreate)
    ensures var r := ApplyAll(t, SetFields(u));
      && r.title == u.title
      && r.description == (if u.description.Given? then u.description.value else t.description)
      && r.status == (if u.status.Given? then u.status.value else t.status)
      && r.id == t.id && r.ownerId == t.ownerId && r.createdAt == t.createdAt && r.updatedAt == t.updatedAt
  {
    var t1 := t.(title := u.title);
    assert ApplyAll(t, SetFields(u)) == ApplyAll(t1, SetFields(u)[1..]);
    var t2 := if u.description.Given? then t1.(description := u.description.value) else t1;
    var rest := SetFields(u)[1..];
    if u.description.Given? {
      assert ApplyAll(t1, rest) == ApplyAll(t2, rest[1..]);
      rest := rest[1..];
    }
    if u.status.Given? {
      assert rest == [SetStatus(u.status.value)];
      assert ApplyAll(t2, rest) == ApplyAll(t2.(status := u.status.value), []);
    } else {
      assert rest == [];
    }
  }

  /** The record after a successful update: the update time moves only when a column changed. */
  function Touched(before: Task, after: Task, now: nat): Task
  {
    if after == before then after else after.(updatedAt := Some(now))
  }

  /** `tasks` with the record whose id is `id` replaced by `t`. */
  function Replace(tasks: seq<Task>, id: int, t: Task): (r: seq<Task>)
    ensures |r| == |tasks|
    ensures forall i :: 0 <= i < |tasks| ==> r[i] == if tasks[i].id == id then t else tasks[i]
  {
    seq(|tasks|, i requires 0 <= i < |tasks| => if tasks[i].id == id then t else tasks[i])
  }

  /** The tasks other than the one with this id. */
  function WithoutTask(tasks: seq<Task>, id: int): seq<Task>
  {
    Filter(tasks, (t: Task) => t.id != id)
  }

  /** The comments not on this task. */
  function WithoutCommentsOn(comments: seq<Comment>, taskId: int): seq<Comment>
  {
    Filter(comments, (c: Comment) => c.taskId != taskId)
  }

  /** Removing a present id from a table with distinct ids removes exactly one record. */
  lemma {:induction false} WithoutTaskRemovesOne(tasks: seq<Task>, id: int)
    requires UniqueTaskIds(tasks)
    requires exists i :: 0 <= i < |tasks| && tasks[i].id == id
    ensures |WithoutTask(tasks, id)| == |tasks| - 1
  {
    assert tasks == [tasks[0]] + tasks[1..];
    if tasks[0].id == id {
      forall i | 0 <= i < |tasks[1..]| ensures tasks[1..][i].id != id {
        assert tasks[1..][i] == tasks[i + 1];
      }
      FilterIdempotent(tasks[1..], (t: Task) => t.id != id);
    } else {
      var k :| 0 <= k < |tasks| && tasks[k].id == id;
      assert tasks[1..][k - 1].id == id;
      WithoutTaskRemovesOne(tasks[1..], id);
    }
  }

  /** Removing records keeps the ids distinct. */
  lemma {:induction false} FilterKeepsUniqueTaskIds(tasks: seq<Task>, keep: Task -> bool)
    requires UniqueTaskIds(tasks)
    ensures UniqueTaskIds(Filter(tasks, keep))
    decreases |tasks|
  {
    if tasks != [] {
      FilterKeepsUniqueTaskIds(tasks[1..], keep);
      assert forall t :: t in tasks[1..] ==> t.id != tasks[0].id;
    }
  }

  lemma {:induction false} FilterKeepsUniqueCommentIds(comments: seq<Comment>, keep: Comment -> bool)
    requires UniqueCommentIds(comments)
    ensures UniqueCommentIds(Filter(comments, keep))
    decreases |comments|
  {
    if comments != [] {
      FilterKeepsUniqueCommentIds(comments[1..], keep);
      assert forall c :: c in comments[1..] ==> c.id != comments[0].id;
    }
  }

  /** The error the unique index on `users.email` raises. */
  datatype IntegrityError = DuplicateEmail(email: string)

  class Database {
    var users: seq<User>
    var tasks: seq<Task>
    var comments: seq<Comment>

    /** Primary keys are distinct in every table and emails are distinct among users. */
    ghost predicate Valid()
      reads this
    {
      && UniqueUserIds(users) && UniqueEmails(users)
      && UniqueTaskIds(tasks) && UniqueCommentIds(comments)
    }

    constructor ()
      ensures Valid()
      ensures users == [] && tasks == [] && comments == []
    {
      users, tasks, comments := [], [], [];
    }

    /**
     * create_user: inserts a user with the given hashed password. The unique
     * index on `email` rejects a second user with the same email.
     */
    method CreateUser(u: UserCreate, hashedPassword: string, now: nat) returns (r: Result<User, IntegrityError>)
      requires Valid()
      modifies this
      ensures Valid()
      ensures tasks == old(tasks) && comments == old(comments)
      ensures r.Failure? <==> GetUserByEmail(old(users), u.email).Some?
      ensures r.Failure? ==> users == old(users) && r.error == DuplicateEmail(u.email)
      ensures r.Success? ==> users == old(users) + [r.value]
      ensures r.Success? ==>
        && r.value.name == u.name && r.value.email == u.email
        && r.value.hashedPassword == hashedPassword && r.value.avatar == None && r.value.createdAt == now
    {
      if GetUserByEmail(users, u.email).Some? {
        return Failure(DuplicateEmail(u.email));
      }
      var id := NextId(users, (x: User) => x.id);
      var user := User(id, u.name, u.email, hashedPassword, None, now);
      users := users + [user];
      r := Success(user);
    }

    /** create_task: inserts a task owned by `userId` with the fields of `task`. */
    method CreateTask(task: TaskCreate, userId: int, now: nat) returns (t: Task)
      requires Valid()
      modifies this
      ensures Valid()
      ensures users == old(users) && comments == old(comments)
      ensures tasks == old(tasks) + [t]
      ensures forall i :: 0 <= i < |old(tasks)| ==> old(tasks)[i].id != t.id
      ensures t.title == task.title && t.description == task.Description() && t.status == task.Status()
      ensures t.ownerId == userId && t.createdAt == now && t.updatedAt == None
    {
      var id := NextId(tasks, (x: Task) => x.id);
      t := NewTask(id, task.title, task.Description(), Some(task.Status()), userId, now);
      tasks := tasks + [t];
    }

    /**
     * update_task: when `userId` owns the task, sets the fields the update
     * supplied, one `setattr` at a time, and returns the new record;
     * otherwise returns none and changes nothing.
     */
    method UpdateTask(taskId: int, update: TaskCreate, userId: int, now: nat) returns (r: Option<Task>)
      requires Valid()
      modifies this
      ensures Valid()
      ensures users == old(users) && comments == old(comments)
      ensures r.None? <==> GetTaskById(old(tasks), taskId, userId).None?
      ensures r.None? ==> tasks == old(tasks)
      ensures r.Some? ==>
        var before := GetTaskById(old(tasks), taskId, userId).value;
        && r.value == Touched(before, ApplyAll(before, SetFields(update)), now)
        && tasks == Replace(old(tasks), taskId, r.value)
    {
      var found := GetTaskById(tasks, taskId, userId);
      if found.None? {
        return None;
      }
      var fields := SetFields(update);
      var t := found.value;
      var i := 0;
      while i < |fields|
        invariant 0 <= i <= |fields|
        invariant ApplyAll(t, fields[i..]) == ApplyAll(found.value, fields)
      {
        assert fields[i..][1..] == fields[i + 1..];
        t := SetAttr(t, fields[i]);
        i := i + 1;
      }
      assert fields[i..] == [];
      t := Touched(found.value, t, now);
      ApplyAllKeepsIdentity(found.value, fields);
      tasks := Replace(tasks, taskId, t);
      r := Some(t);
    }

    /**
     * delete_task: when `userId` owns the task, removes it together with
     * its comments and returns true; otherwise returns false and changes
     * nothing.
     */
    method DeleteTask(taskId: int, userId: int) returns (deleted: bool)
      requires Valid()
      modifies this
      ensures Valid()
      ensures users == old(users)
      ensures deleted <==> GetTaskById(old(tasks), taskId, userId).Some?
      ensures !deleted ==> tasks == old(tasks) && comments == old(comments)
      ensures deleted ==> tasks == WithoutTask(old(tasks), taskId) && |tasks| == |old(tasks)| - 1
      ensures deleted ==> comments == WithoutCommentsOn(old(comments), taskId)
    {
      var found := GetTaskById(tasks, taskId, userId);
      if found.None? {
        return false;
      }
      WithoutTaskRemovesOne(tasks, taskId);
      FilterKeepsUniqueTaskIds(tasks, (t: Task) => t.id != taskId);
      FilterKeepsUniqueCommentIds(comments, (c: Comment) => c.taskId != taskId);
      tasks := WithoutTask(tasks, taskId);
      comments := WithoutCommentsOn(comments, taskId);
      deleted := true;
    }

    /** create_comment: inserts a comment by `userId` on `taskId`; it checks neither. */
    method CreateComment(comment: CommentCreate, taskId: int, userId: int, now: nat) returns (c: Comment)
      requires Valid()
      modifies this
      ensures Valid()
      ensures users == old(users) && tasks == old(tasks)
      ensures comments == old(comments) + [c]
      ensures c.content == comment.content && c.taskId == taskId && c.userId == userId && c.createdAt == now
    {
      var id := NextId(comments, (x: Comment) => x.id);
      c := Comment(id, comment.content, now, userId, taskId);
      comments := comments + [c];
    }
  }
}
