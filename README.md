# Task manager: validation, session and store model

A Dafny model of the logic of a small task-management application: a React
client and a FastAPI/SQLAlchemy server. Three pieces are modelled:

- **Input validation.** The client's form validators `validateTask` and
  `validateComment` are in `validators.dfy`. The server's request schemas are in
  `schemas.dfy`: field length limits, the password validator and the status
  default. `agreement.dfy` proves that anything the client accepts also passes
  the server's limits. JavaScript measures strings in UTF-16 code units and
  Python in code points. The model writes out both lengths (`JsLength` in
  `js_values.dfy`, and `|s|`) and proves the JavaScript length is never the smaller one.
  `trim() === ''` is modelled exactly as "every character is ECMAScript white
  space or a line terminator".
- **The client session** (`AuthProvider`, in `auth_context.dfy`). It is a class
  with the fields `user`, `loading` and the token slot of local storage. There
  is one method per operation: the mount-time check, `validateToken`, `login`,
  `logout`, `register` and the render gate. Each network call is a parameter
  that is either resolved with a response body or rejected with an error. Each
  method's new state is tied to a pure transition function (`AfterMount`,
  `AfterLogin`, ...), and the properties are proved about those functions.
- **The server's store and routes.** `models.dfy` holds the records. `crud.py`
  becomes `crud.dfy`: pure queries over the tables, plus a `Database` class
  whose methods insert, update and delete. `main.py` becomes `routes.dfy`.
  Each table is a sequence in insertion order. Timestamps are caller-supplied
  naturals. The dashboard counts use the default page of `get_tasks`, so they
  cover the 100 newest tasks. `DashboardStats` proves the counts are taken
  over that page, `FirstPageIsNewest` that no task left off it is newer, and
  `DashboardStatsExact` that the counts are exact below 100 tasks.

The client and server do not agree on payload shapes, and each side is
modelled as written:

- The client reads `response.data.token` and `response.data.user`. The
  server's login answers `{access_token, token_type}`, and its validate route
  answers the user object itself.
- A successful check whose body has no `user` property therefore sets `user`
  to undefined and keeps the token (`TokenWithoutUser`).
- A resolved login whose body has no `token` property stores the string
  "undefined", because `localStorage.setItem` stringifies a missing value
  (`Stored`, `AfterLogin`).
- The login route reads OAuth2 form fields `username` and `password`, while
  the client posts JSON `{email, password}`. The model takes the login call's
  outcome as a parameter and does not decide which of the two branches the
  real server's answer leads to.

`main.py` uses `List` and `JSONResponse` without importing them. The model
assumes the evident imports.

Two consequences of the code are worth stating on their own:

- The title check in `validateTask` is an `else if`, so a title gets exactly
  one message: a blank title is reported as required and never as too long,
  whatever its length (`BlankTitleIsRequired`).
- A signed-in user always comes with a stored token
  (`TransitionsKeepUserHasToken`), but a stored token does not imply a
  signed-in user (`TokenWithoutUser`).

## Model

| member | source | states |
|---|---|---|
| Validators.ValidateTask | frontend/src/utils/validators.js:2-21 | valid iff the title is present, non-blank and at most 100 UTF-16 units and the description is missing or at most 500; valid iff the errors map is empty; only the keys `title` and `description` occur, each exactly when its own field fails; the title message is "required" for a missing or blank title and "too long" otherwise |
| Validators.ValidateComment | frontend/src/utils/validators.js:23-36 | valid iff present, non-blank and at most 1000 UTF-16 units; valid iff no errors; a missing or blank comment gives exactly the "cannot be empty" message, a long non-blank one exactly the length message |
| Validators.BlankTitleIsRequired | frontend/src/utils/validators.js:6-7 | a missing or blank title, of any length, makes the form invalid with `errors.title` = "Title is required" |
| Validators.TitleLengthBoundary | frontend/src/utils/validators.js:8-9 | a non-blank title of exactly 100 units has no title error; one longer than 100 gets the length message |
| Validators.EmptyDescriptionIsValid | frontend/src/utils/validators.js:13-15 | a missing or empty description never produces a description error |
| JsValues.JsLengthBounds | frontend/src/utils/validators.js:8 | a string's JavaScript length lies between its number of characters and twice that |
| Schemas.ValidatePassword | backend/app/schemas.py:13-17 | fails iff the password is shorter than 6, with "Password must be at least 6 characters"; otherwise returns the password unchanged |
| Schemas.ParseUserCreate | backend/app/schemas.py:9-17 | a registration body is accepted iff its password has at least 6 characters, and is then kept as given |
| Schemas.TaskCreate.Description | backend/app/schemas.py:45 | a description left out becomes null, a given one is kept |
| Schemas.TaskCreate.Status | backend/app/schemas.py:46 | a status left out becomes PENDING, a given one is kept |
| Schemas.TaskFieldErrors | backend/app/schemas.py:43-46 | names exactly the fields that break the task schema: missing or over-long title, over-long present description, unknown status |
| Schemas.ParseTaskCreate | backend/app/schemas.py:43-49 | a task body is accepted iff title present and at most 100, description null, absent or at most 500, status absent or a valid value; a failure reports every bad field; a success keeps the title, keeps which optional fields were set and parses the status by value |
| Schemas.StatusDefaultsToPending | backend/app/schemas.py:46 | a valid body without a status yields status PENDING |
| Schemas.ParseCommentCreate | backend/app/schemas.py:27-31 | a comment body is accepted iff content is present and at most 1000 characters, and is then kept as given |
| Models.ParseStatus | backend/app/models.py:7-10 | exactly the three strings PENDING, IN_PROGRESS and COMPLETED denote a status, and each denotes the status of that name |
| Models.StatusNameRoundTrip | backend/app/models.py:7-10 | every status round-trips through its stored string, so the three values are distinct |
| Models.NewTask | backend/app/models.py:25-35 | a new task row has the given fields, status PENDING when none is given, and no update time |
| Seqs.SortDesc | backend/app/crud.py:34 | `ORDER BY created_at DESC`: the result is ordered newest first and is a permutation of the input |
| Seqs.Page | backend/app/crud.py:35-36 | `OFFSET skip LIMIT limit`: at most `limit` elements, the ones from position `skip` on, and exactly as many as remain up to `limit` |
| Crud.GetUserByEmail | backend/app/crud.py:19-20 | returns a user iff one with that email exists, and then one of the stored users with that email |
| Crud.GetTasks | backend/app/crud.py:30-38 | the result is the window `OFFSET skip LIMIT limit` (defaults 0 and 100) of a newest-first ordering of exactly the user's tasks (`IsNewestFirstPage`); hence only the user's tasks, newest first, at most `limit`, and as many as remain after skipping `skip` |
| Crud.FirstPageIsNewest | backend/app/crud.py:34-36 | on a first page (skip 0), every task the limit left off is no newer than any task on the page |
| Crud.GetTasksComplete | backend/app/crud.py:30-38 | with skip 0 and a limit no smaller than the user's task count, the result holds every task of the user exactly once |
| Crud.GetTaskById | backend/app/crud.py:40-46 | returns a task iff one exists with both the given id and owner, and then that stored task |
| Crud.GetTaskByIdUnique | backend/app/crud.py:43 | with distinct primary keys, the task found is the one with that id |
| Crud.GetTaskComments | backend/app/crud.py:81-88 | comments only on the given task, newest first; none unless the user owns that task; otherwise every comment on the task, each exactly as often as stored |
| Crud.SetFields | backend/app/crud.py:53 | the assignments are the title first, then one for the description exactly when it was set and one for the status exactly when it was set, with those values and nothing else |
| Crud.SetAttr | backend/app/crud.py:54 | one assignment never changes id, owner or timestamps |
| Crud.ApplyAllKeepsIdentity | backend/app/crud.py:53-54 | any sequence of assignments keeps id, owner and timestamps |
| Crud.ApplySuppliedFields | backend/app/crud.py:53-54 | an update sets the title, sets description and status only if supplied, and keeps everything else |
| Crud.WithoutTaskRemovesOne | backend/app/crud.py:65 | deleting a present id from a table with distinct ids removes exactly one row |
| Crud.Database.constructor | backend/app/main.py:17 | the store starts with empty tables, which satisfy the key and email uniqueness invariant |
| Crud.Database.CreateUser | backend/app/crud.py:7-17 | appends one user with the hashed password and no avatar, unless the email is taken, in which case the unique index rejects it and nothing changes |
| Crud.Database.CreateTask | backend/app/crud.py:23-28 | appends one task with a fresh id, the body's fields with their defaults and `owner_id = user_id`; other tables and existing tasks are unchanged |
| Crud.Database.UpdateTask | backend/app/crud.py:48-58 | none and no change when the task is missing or not owned; otherwise the loop applies exactly the supplied fields, `updated_at` moves when a column changed, and only that row is replaced |
| Crud.Database.DeleteTask | backend/app/crud.py:60-67 | false and no change when the task is missing or not owned; otherwise true, exactly that task removed and its comments removed with it (cascade, models.py:38) |
| Crud.Database.CreateComment | backend/app/crud.py:70-79 | appends one comment with the given content, task and author; nothing else changes |
| Routes.RegisterUser | backend/app/main.py:32-37 | a short password gives 422, a known email gives 400 "Email already registered"; in both cases no user is created; otherwise exactly one user is appended |
| Routes.LoginForAccessToken | backend/app/main.py:39-55 | rejected credentials give 401 and no token; otherwise a bearer token whose subject is the user's email |
| Routes.DashboardStats | backend/app/main.py:62-72 | the three numbers are the length and the COMPLETED and PENDING counts of a newest-first first page of 100 of the user's tasks; `totalTasks` is the smaller of the user's task count and 100; completed + pending never exceed the total |
| Routes.DashboardStatsExact | backend/app/main.py:67-72 | a user with at most 100 tasks gets the exact total and the exact numbers of COMPLETED and PENDING tasks |
| Routes.CreateTask | backend/app/main.py:75-81 | an invalid body gives 422 and no task; otherwise one task owned by the caller is appended |
| Routes.ReadTasks | backend/app/main.py:83-91 | the window `OFFSET skip LIMIT limit` (defaults 0 and 100) of a newest-first ordering of the caller's tasks: only the caller's tasks, newest first, at most `limit`, as many as remain after `skip` |
| Routes.ReadTask | backend/app/main.py:93-102 | 404 "Task not found" iff the caller owns no task with that id; otherwise that task |
| Routes.UpdateTask | backend/app/main.py:104-119 | 422 on an invalid body, 404 when the task is missing or not owned, and then no change; otherwise the updated task keeps its id and owner and replaces the old row |
| Routes.DeleteTask | backend/app/main.py:121-130 | 404 and no change when the task is missing or not owned; otherwise the task and its comments are gone |
| Routes.CreateComment | backend/app/main.py:133-150 | 422 on an invalid body and 404 on a missing or unowned task, creating no comment; otherwise one comment by the caller on that task is appended |
| Routes.ListComments | backend/app/main.py:152-163 | 404 iff the caller owns no such task; otherwise all of the task's comments, newest first |
| AuthContext.Stored | frontend/src/context/AuthContext.jsx:36 | storing a missing token stores the string "undefined" |
| AuthContext.AfterValidate | frontend/src/context/AuthContext.jsx:20-31 | after the check, `loading` is false; success takes `response.data.user` and keeps the token; failure removes the token and leaves `user` alone |
| AuthContext.AfterMount | frontend/src/context/AuthContext.jsx:10-18 | `loading` always ends false; without a truthy token nothing else changes; with one, the check decides as above |
| AuthContext.AfterLogin | frontend/src/context/AuthContext.jsx:33-42 | a rejected login changes nothing; a resolved one stores the returned token and takes the returned user; `loading` is untouched |
| AuthContext.AfterLogout | frontend/src/context/AuthContext.jsx:44-47 | no user and no stored token afterwards, `loading` untouched |
| AuthContext.LogoutIdempotent | frontend/src/context/AuthContext.jsx:44-47 | logging out twice gives the same state as once |
| AuthContext.TransitionsKeepUserHasToken | frontend/src/context/AuthContext.jsx:10-47 | mount (from the initial no-user state), login and logout keep a signed-in user paired with a stored token |
| AuthContext.TokenWithoutUser | frontend/src/context/AuthContext.jsx:25 | a successful check whose body lacks `user` leaves a stored token with a null user |
| AuthContext.AuthProvider.constructor | frontend/src/context/AuthContext.jsx:7-8 | the first render has no user and `loading` true |
| AuthContext.AuthProvider.Mount | frontend/src/context/AuthContext.jsx:10-18 | the new state is `AfterMount` of the old; a validate request is made, carrying the stored token, iff that token is truthy |
| AuthContext.AuthProvider.ValidateToken | frontend/src/context/AuthContext.jsx:20-31 | the new state is `AfterValidate` of the old |
| AuthContext.AuthProvider.Login | frontend/src/context/AuthContext.jsx:33-42 | the new state is `AfterLogin` of the old; returns the response body on success and rethrows the same error on failure |
| AuthContext.AuthProvider.Logout | frontend/src/context/AuthContext.jsx:44-47 | the new state is `AfterLogout` of the old |
| AuthContext.AuthProvider.Register | frontend/src/context/AuthContext.jsx:49-60 | returns the response body or the same error, and modifies nothing, so it never signs anyone in |
| AuthContext.AuthProvider.Rendered | frontend/src/context/AuthContext.jsx:70 | the children are rendered iff `loading` is false |
| Agreement.AcceptedTitleFitsSchema | backend/app/schemas.py:44 | a title without a client error is within the server's 100-character limit |
| Agreement.AcceptedTaskFormPassesSchema | backend/app/schemas.py:43-46 | a create-task body the client validates is accepted by the server's schema |
| Agreement.AcceptedCommentPassesSchema | backend/app/schemas.py:28 | a comment the client validates is accepted by the server's schema |
| Agreement.BlankTitleOnlyServerAccepts | frontend/src/utils/validators.js:6-7 | the converse fails: a blank title passes the server's schema but not the client |

## Left out

- Password hashing, token signing and expiry, `authenticate_user` and `get_current_user` are not part of this model. They become parameters: a hash function, a token-creating function, the outcome of the credential check, and the already-resolved current user. The 401 for a bad bearer token is therefore not modelled.
- `validate_token` (main.py:57-59) only returns the resolved current user, so there is nothing to model beyond that parameter.
- SQLAlchemy sessions, commit/refresh, `joinedload` and table creation are not modelled. Each table is a sequence in insertion order.
- `func.now()` is not modelled: timestamps are caller-supplied naturals.
- Primary keys are allocated as one more than the largest id present. The real database's allocation scheme is not modelled.
- Rows with equal `created_at` are kept in table order. The database leaves their order unspecified.
- Crud.GetTasks: `skip` and `limit` are naturals. What the database does with negative values is not modelled.
- Crud.Database.UpdateTask: `updated_at` moves only when some column changes value. This follows SQLAlchemy issuing no UPDATE for an unchanged row; engine-level triggers are not modelled.
- Crud.Database.CreateComment: like the source, it checks neither the task nor the user. Foreign keys are not enforced in the model.
- Pydantic's `EmailStr` format check, type coercion, and the exact text of its 422 messages are not modelled. A 422 carries only the names of the offending fields.
- CORS, the exception handler, the uvicorn runner, `localStorage` and axios are library plumbing. Storage is a single token slot. A call is resolved or rejected.
- Routes.LoginForAccessToken: the OAuth2 form parsing and the request's username/password are not modelled. Only the result of the credential check is.
- AuthContext.AuthProvider.Login and AuthContext.AuthProvider.Register: the email, name and password they send are not modelled. Only the response is.
- The JSX views and `PrivateRoute` are not part of this model; the only gate modelled is `{!loading && children}`.
- Concurrency between requests is not modelled. `Mount` runs once on the first render, before any child can call `login`.
- The client-to-server round trip (a login followed by a reload) is not modelled, because the payload shapes of the two sides differ.
