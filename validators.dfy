/**
 * The client's form validators for tasks and comments. Each returns whether
 * the input is valid and a map from field name to the message to show.
 */
module Validators {
  import opened Wrappers
  import opened JsValues

  const TitleRequired: string := "Title is required"
  const TitleTooLong: string := "Title must be less than 100 characters"
  const DescriptionTooLong: string := "Description must be less than 500 characters"
  const CommentEmpty: string := "Comment cannot be empty"
  const CommentTooLong: string := "Comment must be less than 1000 characters"

  const TitleLimit: nat := 100
  const DescriptionLimit: nat := 500
  const CommentLimit: nat := 1000

  /** The result object `{isValid, errors}`. */
  datatype ValidationResult = ValidationResult(isValid: bool, errors: map<string, string>)

  /** The form object passed to validateTask; a property may be missing. */
  datatype TaskForm = TaskForm(title: Option<string>, description: Option<string>)

  /** The title entry of the errors map, if any: required wins over too long. */
  function TitleErrors(title: Option<string>): map<string, string>
  {
    if title.None? || title.value == "" || IsBlank(title.value) then map["title" := TitleRequired]
    else if JsLength(title.value) > TitleLimit then map["title" := TitleTooLong]
    else map[]
  }

  /** The description entry of the errors map, if any. */
  function DescriptionErrors(description: Option<string>): map<string, string>
  {
    if Truthy(description) && JsLength(description.value) > DescriptionLimit then
      map["description" := DescriptionTooLong]
    else map[]
  }

  /** A title the client accepts: present, not blank, at most 100 code units. */
  predicate TitleAccepted(title: Option<string>)
  {
    title.Some? && !IsBlank(title.value) && JsLength(title.value) <= TitleLimit
  }

  /** A description the client accepts: missing, empty or at most 500 code units. */
  predicate DescriptionAccepted(description: Option<string>)
  {
    description.Some? ==> JsLength(description.value) <= DescriptionLimit
  }

  /** validateTask */
  function ValidateTask(task: TaskForm): (r: ValidationResult)
    ensures r.isValid <==> TitleAccepted(task.title) && DescriptionAccepted(task.description)
    ensures r.isValid <==> r.errors == map[]
    ensures r.errors.Keys <= {"title", "description"}
    // the title and description checks are independent of each other
    ensures "title" in r.errors <==> !TitleAccepted(task.title)
    ensures "description" in r.errors <==> !DescriptionAccepted(task.description)
    ensures "title" in r.errors ==>
      r.errors["title"] == if task.title.None? || IsBlank(task.title.value) then TitleRequired else TitleTooLong
    ensures "description" in r.errors ==> r.errors["description"] == DescriptionTooLong
  {
    var errors := TitleErrors(task.title) + DescriptionErrors(task.description);
    assert "title" in errors <==> "title" in TitleErrors(task.title);
    ValidationResult(|errors| == 0, errors)
  }

  /** validateComment */
  function ValidateComment(comment: Option<string>): (r: ValidationResult)
    ensures r.isValid <==> comment.Some? && !IsBlank(comment.value) && JsLength(comment.value) <= CommentLimit
    ensures r.isValid <==> r.errors == map[]
    ensures r.errors.Keys <= {"content"}
    ensures comment.None? || IsBlank(comment.value) ==> r.errors == map["content" := CommentEmpty]
    ensures comment.Some? && !IsBlank(comment.value) && JsLength(comment.value) > CommentLimit ==>
      r.errors == map["content" := CommentTooLong]
  {
    var errors :=
      if comment.None? || comment.value == "" || IsBlank(comment.value) then map["content" := CommentEmpty]
      else if JsLength(comment.value) > CommentLimit then map["content" := CommentTooLong]
      else map[];
    ValidationResult(|errors| == 0, errors)
  }

  /**
   * A blank or missing title is reported as required, never as too long,
   * whatever its length.
   */
  lemma BlankTitleIsRequired(task: TaskForm)
    requires task.title.None? || IsBlank(task.title.value)
    ensures !ValidateTask(task).isValid
    ensures ValidateTask(task).errors["title"] == TitleRequired
  {
  }

  /** The length boundary of the title: 100 code units pass, 101 do not. */
  lemma TitleLengthBoundary(title: string, description: Option<string>)
    requires !IsBlank(title)
    ensures JsLength(title) == TitleLimit ==> "title" !in ValidateTask(TaskForm(Some(title), description)).errors
    ensures JsLength(title) > TitleLimit ==> ValidateTask(TaskForm(Some(title), description)).errors["title"] == TitleTooLong
  {
  }

  /** A missing or empty description is never an error. */
  lemma EmptyDescriptionIsValid(title: Option<string>, description: Option<string>)
    requires description.None? || description.value == ""
    ensures "description" !in ValidateTask(TaskForm(title, description)).errors
  {
  }
}
