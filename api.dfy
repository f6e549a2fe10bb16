/** The client's calls to the backend. `fetch` is not modelled: each call records the
    request it would send and takes the server's response as an input. */
module Api {
  import opened Wrappers
  import opened JsStrings
  import opened BrowserStorage

  /** A task as the client receives it. `deadline` and `isExpired` are read by the task view
      but not sent by the backend; `None` and `false` stand for their absence. */
  datatype ClientTask = ClientTask(
    id: int,
    title: string,
    description: Option<string>,
    status: string,
    isFinished: bool,
    deadline: Option<int>,
    isExpired: bool,
    createdAt: int,
    finishedAt: Option<int>)

  /** The body of a create call; `deadline: None` is sent as `null`. */
  datatype CreatePayload = CreatePayload(title: string, description: string, deadline: Option<string>)

  /** The body of an update call. The client only ever sends `status`; `None` is an
      `undefined` value, which JSON serialisation drops, leaving `{}`. */
  datatype TaskUpdate = TaskUpdate(status: Option<string>)

  datatype Verb = GET | POST | PUT | DELETE

  datatype Endpoint = TasksPath | TaskPath(id: int) | RegisterPath | LoginPath

  datatype Body =
    | NoBody
    | NewTask(payload: CreatePayload)
    | Changes(update: TaskUpdate)
    | Credentials(username: string, password: string)

  type Header = (string, string)

  datatype Request = Request(verb: Verb, endpoint: Endpoint, headers: seq<Header>, body: Body)

  /** The body of a non-ok response, as `res.json()` reads it: JSON with an optional
      `error` member, or text that fails to parse (the parse error's message). */
  datatype ErrorBody = ErrorJson(error: Option<string>) | NotJson(parseError: string)

  /** What `fetch` yields: an ok response with its decoded body, a non-ok status, or a
      rejected promise (the network failure's message). */
  datatype Response<T> = Success(body: T) | HttpError(status: int, errorBody: ErrorBody) | NetworkError(message: string)

  datatype LoginReply = LoginReply(token: string)

  const ContentType: Header := ("Content-Type", "application/json")

  const FetchFailed := "Failed to fetch tasks"
  const CreateFailed := "Failed to create task"
  const UpdateFailed := "Failed to update task"
  const DeleteFailed := "Failed to delete task"
  const RegistrationFailed := "Registration failed"
  const LoginFailed := "Login failed"

  predicate HasAuthorization(headers: seq<Header>) {
    exists i :: 0 <= i < |headers| && headers[i].0 == "Authorization"
  }

  /** `getAuthHeaders()` given what storage holds under "token": the JSON content type,
      and a bearer token exactly when the stored token is truthy. */
  function AuthHeaders(stored: Option<string>): (h: seq<Header>)
    ensures |h| >= 1 && h[0] == ContentType
    ensures HasAuthorization(h) <==> stored.Some? && Truthy(stored.value)
    ensures HasAuthorization(h) ==> h == [ContentType, ("Authorization", "Bearer " + stored.value)]
    ensures !HasAuthorization(h) ==> h == [ContentType]
  {
    if stored.Some? && Truthy(stored.value) then
      var h := [ContentType, ("Authorization", "Bearer " + stored.value)];
      assert h[1].0 == "Authorization";
      h
    else
      assert ContentType.0 != "Authorization" by { assert ContentType.0[0] != 'A'; }
      [ContentType]
  }

  /** A task call's outcome: a non-ok status throws the call's fixed message, whatever the
      body says; a network failure propagates its own message. */
  function TaskCallOutcome<T>(resp: Response<T>, failure: string): (r: Result<T, string>)
    ensures r.Ok? <==> resp.Success?
    ensures r.Ok? ==> r.value == resp.body
    ensures resp.HttpError? ==> r == Err(failure)
    ensures resp.NetworkError? ==> r == Err(resp.message)
  {
    match resp
    case Success(body) => Ok(body)
    case HttpError(_, _) => Err(failure)
    case NetworkError(message) => Err(message)
  }

  /** A register or login call's outcome: `error.error || fallback` for a non-ok status
      whose body is JSON; an unparsable body or a network failure throws its own message. */
  function AuthCallOutcome<T>(resp: Response<T>, fallback: string): (r: Result<T, string>)
    ensures r.Ok? <==> resp.Success?
    ensures r.Ok? ==> r.value == resp.body
    ensures resp.HttpError? && resp.errorBody.ErrorJson? ==>
      r == Err(if resp.errorBody.error.Some? && Truthy(resp.errorBody.error.value)
               then resp.errorBody.error.value else fallback)
    ensures resp.HttpError? && resp.errorBody.NotJson? ==> r == Err(resp.errorBody.parseError)
    ensures resp.NetworkError? ==> r == Err(resp.message)
  {
    match resp
    case Success(body) => Ok(body)
    case HttpError(_, ErrorJson(error)) =>
      if error.Some? && Truthy(error.value) then Err(error.value) else Err(fallback)
    case HttpError(_, NotJson(parseError)) => Err(parseError)
    case NetworkError(message) => Err(message)
  }

  /** A non-ok status from a task call never produces a message containing "Unauthorized":
      none of the four fixed messages contains it. */
  lemma TaskHttpFailureNeverUnauthorized<T>(resp: Response<T>, failure: string)
    requires resp.HttpError?
    requires failure in {FetchFailed, CreateFailed, UpdateFailed, DeleteFailed}
    ensures !Includes(TaskCallOutcome(resp, failure).error, "Unauthorized")
  {
    assert 'U' !in FetchFailed && 'U' !in CreateFailed && 'U' !in UpdateFailed && 'U' !in DeleteFailed;
    NotIncludesWithoutFirstChar(failure, "Unauthorized");
  }

  /** A non-ok status from register or login always yields a non-empty message when the
      body is JSON. */
  lemma AuthHttpFailureMessageNonEmpty<T>(resp: Response<T>, fallback: string)
    requires resp.HttpError? && resp.errorBody.ErrorJson?
    requires Truthy(fallback)
    ensures Truthy(AuthCallOutcome(resp, fallback).error)
  {
  }

  class ApiClient {
    const storage: LocalStorage
    /** Every request sent so far, oldest first. */
    var sent: seq<Request>

    constructor (storage: LocalStorage)
      ensures this.storage == storage && sent == []
    {
      this.storage := storage;
      sent := [];
    }

    /** The headers of the task calls, read from storage at the time of the call. */
    function TaskHeaders(): seq<Header>
      reads storage
    {
      AuthHeaders(storage.GetItem(TokenKey))
    }

    method FetchTasks(resp: Response<seq<ClientTask>>) returns (r: Result<seq<ClientTask>, string>)
      modifies this
      ensures sent == old(sent) + [Request(GET, TasksPath, TaskHeaders(), NoBody)]
      ensures r == TaskCallOutcome(resp, FetchFailed)
    {
      sent := sent + [Request(GET, TasksPath, TaskHeaders(), NoBody)];
      r := TaskCallOutcome(resp, FetchFailed);
    }

    method CreateTask(payload: CreatePayload, resp: Response<()>) returns (r: Result<(), string>)
      modifies this
      ensures sent == old(sent) + [Request(POST, TasksPath, TaskHeaders(), NewTask(payload))]
      ensures r == TaskCallOutcome(resp, CreateFailed)
    {
      sent := sent + [Request(POST, TasksPath, TaskHeaders(), NewTask(payload))];
      r := TaskCallOutcome(resp, CreateFailed);
    }

    method UpdateTask(id: int, update: TaskUpdate, resp: Response<()>) returns (r: Result<(), string>)
      modifies this
      ensures sent == old(sent) + [Request(PUT, TaskPath(id), TaskHeaders(), Changes(update))]
      ensures r == TaskCallOutcome(resp, UpdateFailed)
    {
      sent := sent + [Request(PUT, TaskPath(id), TaskHeaders(), Changes(update))];
      r := TaskCallOutcome(resp, UpdateFailed);
    }

    method DeleteTask(id: int, resp: Response<()>) returns (r: Result<(), string>)
      modifies this
      ensures sent == old(sent) + [Request(DELETE, TaskPath(id), TaskHeaders(), NoBody)]
      ensures r == TaskCallOutcome(resp, DeleteFailed)
    {
      sent := sent + [Request(DELETE, TaskPath(id), TaskHeaders(), NoBody)];
      r := TaskCallOutcome(resp, DeleteFailed);
    }

    /** Register sends only the content type, never the stored token. */
    method Register(username: string, password: string, resp: Response<()>) returns (r: Result<(), string>)
      modifies this
      ensures sent == old(sent) + [Request(POST, RegisterPath, [ContentType], Credentials(username, password))]
      ensures r == AuthCallOutcome(resp, RegistrationFailed)
    {
      sent := sent + [Request(POST, RegisterPath, [ContentType], Credentials(username, password))];
      r := AuthCallOutcome(resp, RegistrationFailed);
    }

    /** Login sends only the content type; on success it writes the returned token to
        storage before returning. */
    method Login(username: string, password: string, resp: Response<LoginReply>) returns (r: Result<LoginReply, string>)
      modifies this, storage
      ensures sent == old(sent) + [Request(POST, LoginPath, [ContentType], Credentials(username, password))]
      ensures r == AuthCallOutcome(resp, LoginFailed)
      ensures r.Ok? ==> storage.items == old(storage.items)[TokenKey := r.value.token]
      ensures r.Err? ==> storage.items == old(storage.items)
    {
      sent := sent + [Request(POST, LoginPath, [ContentType], Credentials(username, password))];
      r := AuthCallOutcome(resp, LoginFailed);
      if r.Ok? {
        storage.SetItem(TokenKey, r.value.token);
      }
    }
  }
}
