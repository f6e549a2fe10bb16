# TaskFlow task tracker — a Dafny model

TaskFlow is a small task tracker. It has a Flask backend that keeps a table of tasks and a
React client that logs a user in, lists tasks, filters them, and creates, toggles and deletes
them. This project models the logic of both halves and proves the rules they promise:

- **Task table** (`backend.dfy`, `models.dfy`). The table is a map from id to row, plus a
  counter for fresh ids. Create always starts a task in `todo`. Update is a partial update
  that recomputes `is_finished` and `finished_at` from the status. Delete and update answer
  404 for a missing id. List returns every row, newest first. Every row keeps two
  invariants: it is finished exactly when its status is `done`, and it has a finish time
  exactly when it is finished. The current time is a parameter `now`.
- **Browser storage** (`storage.dfy`). `localStorage` is a map. The session store and the
  API client share one instance of it.
- **API client** (`api.dfy`). Each call appends the request it would send to a log and
  takes the server's response as an input. The model states the headers each call sends,
  the error message each failure produces, and the token write on login.
- **Session store** (`auth_context.dfy`). It holds an in-memory token and a `loading` flag,
  mirrored into the storage key `"token"`. Its transitions are the mount-time restore,
  `login` and `logout`. `isAuthenticated` follows JavaScript truthiness.
- **Task synchronizer** (`app.dfy`). It keeps a cached list that a full refetch replaces
  wholesale. Create, update and delete each run before the refetch. A failed create is
  rethrown; a failed update or delete is swallowed. The filtered view and the counts are
  derived from the list.
- **Per-task rules** (`task_item.dfy`): the status cycle, the expiry test and the status
  label.
- **Forms** (`task_form.dfy`, `register_form.dfy`). The task form guards the title, builds
  the payload and resets its fields. The registration form runs its checks in order, then
  registers, then logs in, then stores the token.

`wrappers.dfy` holds `Option` and `Result`. `js_strings.dfy` holds the JavaScript string
operations the client uses: `trim`, `includes`, a one-character `replace` and truthiness.

JSON request members are modelled as `Absent | Null | Given(value)`. This keeps visible what
`data.get(...)` and `data["title"]` do with a missing member and with `null`.

## Model

| member | source | states |
|---|---|---|
| Models.InsertWithDefaults | backend/models.py:6-13 | A row inserted with only id, title and description takes the column defaults: status `todo`, not finished, no finish time, created at `now`. Such a row satisfies both finishing invariants. |
| Backend.StatusCode | backend/app.py:66 | A create answers 201 and a missing id answers 404, and no other reply uses those codes. |
| Backend.GetOr | backend/app.py:73-75 | `data.get(key, current)`: a missing member keeps the current value, `null` stores NULL, and a given string replaces the value. |
| Backend.NewTask | backend/app.py:57-63 | A create succeeds exactly when `title` is a string. The new row equals the column-default row, with description `""` when none is given. It is in `todo`, unfinished, with no finish time. |
| Backend.ApplyUpdate | backend/app.py:73-83 | A commit fails exactly when the title is set to `null`. Absent members keep their old values, and the id and creation time never change. Afterwards the row is finished iff its status is `done`. A first move to `done` records `now`. A repeated `done` keeps the original finish time. Any other status, or NULL, clears it. The finish-time invariant is preserved whenever it held before. |
| Backend.RowsOf | backend/app.py:43 | Every row of the table appears, each under its own key, and the count equals the table size. |
| Backend.SortNewestFirst | backend/app.py:43 | `ORDER BY created_at DESC`: the result is a permutation of the input, ordered newest first. |
| Backend.ListTasks | backend/app.py:43-52 | `get_tasks` returns every row of the table and nothing else, as many entries as rows, newest first. |
| Backend.DoneAgainKeepsFirstFinishTime | backend/app.py:78-83 | Setting an unfinished task to `done` records that moment. Setting it to `done` again later changes nothing. |
| Backend.StatusWalk | backend/app.py:75-83 | Taking a new task through `in_progress`, `done` and then `todo` finishes it exactly when it reaches `done`, at that moment. It then returns to the very row it started as. |
| Backend.ListSingleRow | backend/app.py:43-52 | A table with one row lists exactly that row. |
| Backend.TaskTable.constructor | backend/app.py:99 | `create_all` on an empty database: no rows, and the first id handed out is 1. |
| Backend.TaskTable.List | backend/app.py:43-52 | `GET /api/tasks` on the table: every row and nothing else, newest first, each row consistent. |
| Backend.TaskTable.Create | backend/app.py:55-66 | A create hands out a fresh id and inserts exactly the `NewTask` row under it, answering 201 with that id. A missing or `null` title answers 500 and leaves the table unchanged. The table invariant is kept. |
| Backend.TaskTable.Update | backend/app.py:69-86 | A missing id answers 404 and leaves the table unchanged. A `null` title answers 500 and leaves it unchanged. Otherwise only that row is replaced, by `ApplyUpdate` of the old row, and the table invariant is kept. |
| Backend.TaskTable.Delete | backend/app.py:89-93 | A missing id answers 404 and leaves the table unchanged. Otherwise exactly that row is removed and no other. |
| JsStrings.Trim | frontend/src/components/TaskForm.jsx:10 | `trim()` is a slice of the string with only whitespace cut off at either end. It is empty exactly when the string is all whitespace, and otherwise starts and ends with a non-whitespace character. |
| JsStrings.TrimIdempotent | frontend/src/components/TaskForm.jsx:13-14 | Trimming an already trimmed string changes nothing. |
| JsStrings.Includes | frontend/src/App.jsx:32 | `includes(sub)` holds for the empty `sub` and only when `sub` is no longer than the string. |
| JsStrings.IncludesIffOccurs | frontend/src/App.jsx:32 | `s.includes(sub)` holds exactly when `sub` occupies some position of `s`. |
| JsStrings.ReplaceFirst | frontend/src/components/TaskItem.jsx:73 | A one-character `replace` changes only the first occurrence. Every other character, later occurrences included, is kept. |
| Api.AuthHeaders | frontend/src/services/api.js:3-9 | The headers always begin with the JSON content type. `Authorization: Bearer <token>` is present exactly when storage holds a truthy token. |
| Api.TaskCallOutcome | frontend/src/services/api.js:11-46 | A task call succeeds exactly on an ok response and yields its body. Any non-ok status throws the call's fixed message. A network failure throws its own message. |
| Api.AuthCallOutcome | frontend/src/services/api.js:48-70 | A non-ok register or login response whose body is JSON throws the body's truthy `error`, or else the fixed fallback. An unparsable body or a network failure throws its own message. |
| Api.TaskHttpFailureNeverUnauthorized | frontend/src/services/api.js:11-46 | None of the four fixed task-call failure messages contains `"Unauthorized"`. |
| Api.AuthHttpFailureMessageNonEmpty | frontend/src/services/api.js:54-57 | A JSON-bodied register or login failure always carries a non-empty message. |
| BrowserStorage.LocalStorage.constructor | frontend/src/context/AuthContext.jsx:19 | The storage starts with the given items. |
| BrowserStorage.LocalStorage.GetItem | frontend/src/context/AuthContext.jsx:19 | `getItem(key)` is the stored value, or `null` exactly when the key is missing. |
| BrowserStorage.LocalStorage.SetItem | frontend/src/context/AuthContext.jsx:27 | `setItem(key, value)` stores `value` under `key` and leaves every other key as it was. |
| BrowserStorage.LocalStorage.RemoveItem | frontend/src/context/AuthContext.jsx:32 | `removeItem(key)` removes exactly that key. |
| Api.ApiClient.FetchTasks | frontend/src/services/api.js:11-17 | Sends one GET with the current auth headers. Its outcome is `TaskCallOutcome` with "Failed to fetch tasks". |
| Api.ApiClient.CreateTask | frontend/src/services/api.js:19-27 | Sends one POST of the payload with the auth headers. It fails with "Failed to create task". |
| Api.ApiClient.UpdateTask | frontend/src/services/api.js:29-37 | Sends one PUT to the task's path with the update. It fails with "Failed to update task". |
| Api.ApiClient.DeleteTask | frontend/src/services/api.js:39-46 | Sends one DELETE to the task's path. It fails with "Failed to delete task". |
| Api.ApiClient.Register | frontend/src/services/api.js:48-59 | Sends the credentials with only the content type and never an Authorization header. It fails with the body's error or "Registration failed". |
| Api.ApiClient.Login | frontend/src/services/api.js:61-74 | Sends the credentials with only the content type. It fails with the body's error or "Login failed". On success it writes the returned token under `"token"` before returning; on failure storage is untouched. |
| AuthContext.Authenticated | frontend/src/context/AuthContext.jsx:36 | `!!token`: no token and the empty token are not authenticated, and any other token is. |
| AuthContext.AuthProvider.IsAuthenticated | frontend/src/context/AuthContext.jsx:36 | The provider is authenticated exactly when it holds a non-empty token. |
| AuthContext.Initial | frontend/src/context/AuthContext.jsx:14-15 | Before mounting, the token is null, `loading` is true and the session is not authenticated. |
| AuthContext.Restored | frontend/src/context/AuthContext.jsx:17-24 | The mount effect adopts the stored token only if it is truthy and otherwise keeps the token. It ends loading and only reads storage. |
| AuthContext.LoggedIn | frontend/src/context/AuthContext.jsx:26-29 | `login(t)` stores `t` under `"token"` and makes `t` the in-memory token. No other storage key changes. |
| AuthContext.LoggedOut | frontend/src/context/AuthContext.jsx:31-34 | `logout()` removes the `"token"` key and nulls the token. No other storage key changes. |
| AuthContext.MountAuthenticatesIffStoredTokenTruthy | frontend/src/context/AuthContext.jsx:17-36 | After mounting, loading is over. The session is authenticated exactly when storage held a truthy token, and that stored token is then the in-memory one. |
| AuthContext.LoginAuthenticatesIffTokenNonEmpty | frontend/src/context/AuthContext.jsx:26-36 | After `login(t)`, `isAuthenticated` holds exactly when `t` is not the empty string. |
| AuthContext.LogoutIdempotent | frontend/src/context/AuthContext.jsx:31-34 | Logging out twice gives the same state as logging out once. |
| AuthContext.LoginThenLogout | frontend/src/context/AuthContext.jsx:26-36 | `login(t)` followed by `logout()` leaves no token in storage and an unauthenticated session. The rest of storage is as it was before the login. |
| AuthContext.AuthProvider.constructor | frontend/src/context/AuthContext.jsx:13-15 | A new provider is in the initial state over the given storage. |
| AuthContext.AuthProvider.Restore | frontend/src/context/AuthContext.jsx:17-24 | The provider's new state is `Restored` of its old state. |
| AuthContext.AuthProvider.Login | frontend/src/context/AuthContext.jsx:26-29 | The provider's new state, storage included, is `LoggedIn` of its old state. |
| AuthContext.AuthProvider.Logout | frontend/src/context/AuthContext.jsx:31-34 | The provider's new state, storage included, is `LoggedOut` of its old state. |
| AuthContext.UseAuth | frontend/src/context/AuthContext.jsx:5-11 | `useAuth` fails, with the provider error message, exactly when there is no provider. Otherwise it returns the provider's value. |
| TaskItem.NextStatus | frontend/src/components/TaskItem.jsx:13-14 | The status map gives a successor exactly for the three statuses, and that successor is always another of the three. Every other status is taken to give `undefined` (see Left out). |
| TaskItem.StatusCycleHasLengthThree | frontend/src/components/TaskItem.jsx:13 | Starting from any of the three statuses, three toggles return to it, and two toggles do not. |
| TaskItem.ToggleStatus | frontend/src/components/TaskItem.jsx:12-16 | A toggle updates `task.id` with only the successor status. For a status outside the cycle that member is taken to be `undefined`. |
| TaskItem.SentUpdate | frontend/src/services/api.js:33 | The body of a toggle's update carries only the status, and an `undefined` status is dropped, so the backend sees it as missing. |
| TaskItem.ToggleTakesEffect | frontend/src/components/TaskItem.jsx:12-16 | A toggle applied by the backend to the row it was shown for moves the row to the next status and keeps it consistent. The row is finished exactly when that status is `done`, and then finished at that moment. A row outside the cycle is left as it was. |
| TaskItem.IsExpired | frontend/src/components/TaskItem.jsx:22-26 | Without the backend flag, a finished task or one without a deadline is not expired. An unfinished task past its deadline is. |
| TaskItem.ExpiryMonotoneInTime | frontend/src/components/TaskItem.jsx:22-26 | A task that is expired at some time is still expired at every later time. |
| TaskItem.ExpiryNeedsOpenPastDeadline | frontend/src/components/TaskItem.jsx:22-26 | Without the backend flag, a task is expired exactly when it is unfinished and has a deadline before `now`. A finished task, or one with no deadline, is never expired. |
| TaskItem.StatusLabel | frontend/src/components/TaskItem.jsx:73 | The label keeps the status's length. It turns the first `_` into a space and keeps every other character. |
| TaskItem.KnownStatusLabels | frontend/src/components/TaskItem.jsx:73 | `in_progress` is shown as `in progress`; `todo` and `done` are unchanged. |
| TaskItem.OnlyFirstUnderscoreReplaced | frontend/src/components/TaskItem.jsx:73 | A second underscore survives: `a_b_c` becomes `a b_c`. |
| App.FilterTasks | frontend/src/App.jsx:68-72 | `"active"` keeps exactly the unfinished tasks and `"completed"` exactly the finished ones. Each kept task keeps its multiplicity and every other task is dropped. |
| App.FilterPreservesOrder | frontend/src/App.jsx:68-72 | Every filtered view is a subsequence of the task list, so relative order is kept. |
| App.OtherFilterKeepsAll | frontend/src/App.jsx:68-72 | Any filter value other than `"active"` and `"completed"` keeps the whole list unchanged. |
| App.ActiveCompletedPartition | frontend/src/App.jsx:68-77 | The active and completed views share no task. Together they hold every task as often as the list does, and their lengths add up to its length. |
| App.StatsOf | frontend/src/App.jsx:74-78 | `total` is the list's length and `active`/`completed` are the lengths of the two views. `total == active + completed`. |
| App.ForcesLogout | frontend/src/App.jsx:32 | Only a failure forces a logout, and only one whose message is at least as long as `"Unauthorized"`. |
| App.RefetchLogoutOnlyOnNetworkMessage | frontend/src/App.jsx:29-34 | A failed refetch forces a logout exactly when it was a network failure whose message contains `"Unauthorized"`. An HTTP failure, 401 included, never does. |
| App.TaskBoard.constructor | frontend/src/App.jsx:14-16 | The main view starts with no tasks, filter `"all"` and not loading. |
| App.TaskBoard.SetFilter | frontend/src/App.jsx:15 | Only the filter changes. |
| App.TaskBoard.LoadTasks | frontend/src/App.jsx:24-38 | One GET is sent. On success the list is replaced wholesale by the fetched one; on failure it is kept. The session is logged out exactly when the error message contains `"Unauthorized"`. Loading is false afterwards either way. |
| App.TaskBoard.OnAuthenticationChange | frontend/src/App.jsx:18-22 | Tasks are fetched only when the session is authenticated; otherwise nothing is sent and nothing changes. When they are fetched, the list and the session change exactly as in `LoadTasks`: a refetch failing with "Unauthorized" logs out. |
| App.TaskBoard.HandleAddTask | frontend/src/App.jsx:40-48 | Create is sent before the refetch. A failed create is rethrown with its message: no refetch is sent, and the list and session stay unchanged. |
| App.TaskBoard.HandleUpdateTask | frontend/src/App.jsx:50-57 | Update is sent, and the refetch only if the update succeeded. A failed update is swallowed and leaves the list and session unchanged. |
| App.TaskBoard.HandleDeleteTask | frontend/src/App.jsx:59-66 | Delete is sent, and the refetch only if the delete succeeded. A failed delete, such as one for a missing id, is swallowed and leaves the list unchanged. |
| TaskForm.BlankTitleNeverSubmits | frontend/src/components/TaskForm.jsx:10 | The form submits exactly when the title has a non-whitespace character. |
| TaskForm.Payload | frontend/src/components/TaskForm.jsx:13-17 | The payload carries the trimmed title and description, which trimming again would not change. A title that passes the guard is non-empty. An empty deadline is sent as null; any other deadline is sent unchanged. |
| TaskForm.Form.constructor | frontend/src/components/TaskForm.jsx:5-7 | All three fields start empty. |
| TaskForm.Form.HandleSubmit | frontend/src/components/TaskForm.jsx:9-24 | A blank title sends nothing and changes nothing. Otherwise the create of `Payload(...)` is sent with the headers of that moment. After a successful create, the refetch follows, the list and session change as in `LoadTasks`, and the fields are cleared. After a failed one, nothing else is sent and the fields, list, loading flag and session are kept. The filter never changes. |
| RegisterForm.Validate | frontend/src/components/RegisterForm.jsx:18-31 | The submit may proceed exactly when all three fields are non-blank, the passwords match and the untrimmed password has at least 6 characters. Otherwise the first failing check, in source order, decides the message. |
| RegisterForm.LengthCheckIgnoresTrimming | frontend/src/components/RegisterForm.jsx:18-31 | `" abcd "` passes the length check because spaces count, while six spaces fail the blank-field check first. |
| RegisterForm.ShownError | frontend/src/components/RegisterForm.jsx:40 | The shown error is never empty. It is the thrown message whenever that message is non-empty. |
| RegisterForm.FallbackOnlyWithoutMessage | frontend/src/components/RegisterForm.jsx:39-40 | For an HTTP failure with a JSON body, the form shows the API's message and never its own fallback. |
| RegisterForm.Form.constructor | frontend/src/components/RegisterForm.jsx:7-11 | All fields start empty and the form is not loading. |
| RegisterForm.Form.HandleSubmit | frontend/src/components/RegisterForm.jsx:14-44 | The error is cleared first. A failed check shows its message and sends nothing. Otherwise register is sent, then login only if register succeeded. The token reaches the session only if both succeeded, and the error is then empty. A failure shows the thrown message or the fallback. Loading is false at the end. |

## Behaviour worth knowing

- An HTTP 401 from the task list never logs out. `fetchTasks` turns every non-ok status
  into "Failed to fetch tasks", and `loadTasks` logs out only on a message containing
  `"Unauthorized"` (`App.RefetchLogoutOnlyOnNetworkMessage`). No other error path logs
  out; the logout button does.
- The empty-title guard lives in the task form (`TaskForm.Form.HandleSubmit`), not in the
  main view's `handleAddTask`.
- Only register and login read the error body. The four task calls throw fixed messages.
- Deleting a missing id is only logged by `handleDeleteTask`, and the list stays as it was.
- `isAuthenticated` is truthiness, so an empty-string token counts as no token.

## Left out

- Prometheus metrics, request timing, `/metrics`, CORS, Flask routing, the SQLAlchemy session and `app.run`: framework and I/O. The table is an abstract map.
- JSON decoding: request members are strings, `null` or missing. A non-string member, a body that is not JSON, and `isoformat` rendering of times are not modelled. Times are integers.
- Api.AuthCallOutcome: an error response body is modelled as an object whose `error` member is a string or missing. A JSON `null` body, which makes `error.error` throw a TypeError, is not modelled. Nor is a truthy non-string `error`, which `new Error(...)` turns into a string.
- Backend.TaskTable.Create: ids come from a counter that never reuses an id. SQLite's own rowid choice (largest id plus one) could reuse the id of a deleted newest row.
- Backend.ListTasks: the order among rows with equal `created_at` is left open, as SQL leaves it. The function is ghost because it picks rows from a map.
- The `String(255)` and `String(50)` length limits: SQLite does not enforce them.
- `fetch`, the `VITE_API_URL` lookup and `res.json()` on a successful response, which is assumed to parse. The bodies of successful create, update and delete calls are ignored, as the client ignores them.
- Api.ApiClient.Login: assumes the reply carries a string token. A reply without one would store the string `"undefined"`.
- Interleaving of async handlers and racing refetches: each handler runs as one sequential step.
- `console.error` logging of swallowed errors.
- Date handling: deadlines are integer timestamps. A deadline string that does not parse, `toLocaleString` formatting and the real clock are not modelled.
- TaskItem.ToggleStatus: status strings that name an `Object.prototype` member are not modelled, because `statusColors` and `statusFlow` are plain object literals and their lookups also find inherited names.
  - For a name such as `"constructor"` or `"toString"`, both lookups return a function. The row renders with undefined colors, and `JSON.stringify` drops the function, so the update body is empty, as in the model.
  - For `"__proto__"`, `statusFlow` returns `Object.prototype`, so the body is `{"status": {}}`. The backend then stores a dict as the status and the commit fails with a 500, so no refetch follows. The model instead sends an empty body, which the backend acknowledges.
  - Any other status outside the three makes `statusColors` give `undefined`, so rendering throws before any toggle.
  - A NULL status from the backend would make the label's `replace` throw. The client task's status is modelled as a string only.
- RegisterForm.Validate: counts Unicode scalar values, while `password.length` counts UTF-16 code units. The two differ only for characters outside the Basic Multilingual Plane. `trim` is modelled on the same characters.
- The presentation-only components (AuthPage, StatsCard, TaskList, FilterButtons, Headers), styles and hover handlers. The logout button and the delete button are plain calls of `Logout` and `HandleDeleteTask`.
- LoginForm is not part of this model. The source shown does not include it.
- The backend has no `/register` or `/login` routes and ignores `deadline`. Responses to those calls are inputs only.
