/**
 * Request-body validation of the task service: the field constraints of
 * the task, comment and user-creation schemas and the password validator.
 * Lengths are Python `len` of a `str`, i.e. counted in code points, which
 * is `|s|` on a Dafny string.
 */
module Schemas {
  import opened Wrappers
  import opened Models

  const TitleMaxLength: nat := 100
  const DescriptionMaxLength: nat := 500
  const CommentMaxLength: nat := 1000
  const PasswordMinLength: nat := 6

  const PasswordTooShort: string := "Password must be at least 6 characters"

  /** A field of a request body that may be left out; `Unset` is different from an explicit null. */
  datatype Field<+T> = Unset | Given(value: T)

  /** The fields of a request body that failed validation, by name. */
  type FieldErrors = set<string>

  /**
   * The password validator of the user-creation schema: too short is an
   * error with a fixed message, anything else is accepted unchanged.
   */
  function ValidatePassword(v: string): (r: Result<string, string>)
    ensures r.Failure? <==> |v| < PasswordMinLength
    ensures r.Failure? ==> r.error == PasswordTooShort
    ensures r.Success? ==> r.value == v
  {
    if |v| < PasswordMinLength then Failure(PasswordTooShort) else Success(v)
  }

  /** A validated registration body. The email format check is not modelled. */
  datatype UserCreate = UserCreate(name: string, email: string, password: string)

  function ParseUserCreate(name: string, email: string, password: string): (r: Result<UserCreate, string>)
    ensures r.Success? <==> |password| >= PasswordMinLength
    ensures r.Success? ==> r.value == UserCreate(name, email, password)
    ensures r.Failure? ==> r.error == PasswordTooShort
  {
    match ValidatePassword(password)
    case Failure(e) => Failure(e)
    case Success(p) => Success(UserCreate(name, email, p))
  }

  /**
   * The body of a task create or update request as it arrives: `title` may
   * be missing (or null), `description` may be left out, given as null or
   * given as a string, and `status` may be left out or given as a string.
   */
  datatype TaskPayload = TaskPayload(title: Option<string>, description: Field<Option<string>>, status: Field<string>)

  /**
   * A validated task body. It remembers which optional fields were set, so
   * that an update can apply only those.
   */
  datatype TaskCreate = TaskCreate(title: string, description: Field<Option<string>>, status: Field<TaskStatus>)
  {
    /** The description the record gets: null when left out. */
    function Description(): (d: Option<string>)
      ensures description.Unset? ==> d == None
      ensures description.Given? ==> d == description.value
    {
      match description
      case Unset => None
      case Given(v) => v
    }

    /** The status the record gets: PENDING when left out. */
    function Status(): (s: TaskStatus)
      ensures status.Unset? ==> s == Pending
      ensures status.Given? ==> s == status.value
    {
      match status
      case Unset => DefaultStatus
      case Given(v) => v
    }
  }

  predicate TitleOk(title: Option<string>)
  {
    title.Some? && |title.value| <= TitleMaxLength
  }

  predicate DescriptionOk(description: Field<Option<string>>)
  {
    description.Given? && description.value.Some? ==> |description.value.value| <= DescriptionMaxLength
  }

  predicate StatusOk(status: Field<string>)
  {
    status.Given? ==> ParseStatus(status.value).Some?
  }

  /** The names of the fields of `p` that break the task schema. */
  function TaskFieldErrors(p: TaskPayload): (errs: FieldErrors)
    ensures errs <= {"title", "description", "status"}
    ensures "title" in errs <==> !TitleOk(p.title)
    ensures "description" in errs <==> !DescriptionOk(p.description)
    ensures "status" in errs <==> !StatusOk(p.status)
  {
    (if TitleOk(p.title) then {} else {"title"})
    + (if DescriptionOk(p.description) then {} else {"description"})
    + (if StatusOk(p.status) then {} else {"status"})
  }

  /**
   * Validates a task body: every broken field is reported; a valid body
   * keeps exactly the fields that were set.
   */
  function ParseTaskCreate(p: TaskPayload): (r: Result<TaskCreate, FieldErrors>)
    ensures r.Success? <==> TitleOk(p.title) && DescriptionOk(p.description) && StatusOk(p.status)
    ensures r.Failure? ==> r.error != {} && r.error == TaskFieldErrors(p)
    ensures r.Success? ==> r.value.title == p.title.value && r.value.description == p.description
    ensures r.Success? ==> r.value.status.Given? == p.status.Given?
    ensures r.Success? && p.status.Given? ==> StatusName(r.value.status.value) == p.status.value
  {
    var errs := TaskFieldErrors(p);
    if errs != {} then Failure(errs)
    else
      assert "title" !in errs && "status" !in errs;
      Success(TaskCreate(
        p.title.value,
        p.description,
        match p.status
        case Unset => Unset
        case Given(name) => Given(ParseStatus(name).value)))
  }

  /** A task body that leaves the status out yields a PENDING task. */
  lemma StatusDefaultsToPending(p: TaskPayload)
    requires ParseTaskCreate(p).Success? && p.status.Unset?
    ensures ParseTaskCreate(p).value.Status() == Pending
  {
  }

  /** A validated comment body. */
  datatype CommentCreate = CommentCreate(content: string)

  /** Validates a comment body: `content` is required and at most 1000 code points long. */
  function ParseCommentCreate(content: Option<string>): (r: Result<CommentCreate, FieldErrors>)
    ensures r.Success? <==> content.Some? && |content.value| <= CommentMaxLength
    ensures r.Success? ==> r.value.content == content.value
    ensures r.Failure? ==> r.error == {"content"}
  {
    if content.Some? && |content.value| <= CommentMaxLength then Success(CommentCreate(content.value))
    else Failure({"content"})
  }
}
