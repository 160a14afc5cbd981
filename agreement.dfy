/**
 * How the client's form validators relate to the server's request schemas.
 * The client measures JavaScript lengths (UTF-16 code units), the server
 * Python lengths (code points), and a JavaScript length is never the
 * smaller of the two, so the client's limits are at least as strict.
 */
module Agreement {
  import opened Wrappers
  import opened JsValues
  import opened Validators
  import opened Schemas

  /** A title the client accepts meets the server's title limit. */
  lemma AcceptedTitleFitsSchema(task: TaskForm)
    requires task.title.Some? && "title" !in ValidateTask(task).errors
    ensures |task.title.value| <= TitleMaxLength
  {
    JsLengthBounds(task.title.value);
  }

  /**
   * The create-task form sends `{title, description}` as strings; whenever
   * the client lets that body through, the server's schema accepts it too.
   */
  lemma AcceptedTaskFormPassesSchema(title: string, description: string)
    requires ValidateTask(TaskForm(Some(title), Some(description))).isValid
    ensures ParseTaskCreate(TaskPayload(Some(title), Given(Some(description)), Unset)).Success?
  {
    JsLengthBounds(title);
    JsLengthBounds(description);
  }

  /** A comment the client accepts passes the server's comment schema. */
  lemma AcceptedCommentPassesSchema(content: string)
    requires ValidateComment(Some(content)).isValid
    ensures ParseCommentCreate(Some(content)).Success?
    ensures |content| <= CommentMaxLength
  {
    JsLengthBounds(content);
  }

  /**
   * The converse fails: the server takes a blank title, which the client
   * refuses.
   */
  lemma BlankTitleOnlyServerAccepts()
    ensures ParseTaskCreate(TaskPayload(Some(" "), Unset, Unset)).Success?
    ensures !ValidateTask(TaskForm(Some(" "), None)).isValid
  {
  }
}
