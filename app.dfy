/** The task synchronizer of the main view: a cached task list that every mutation refreshes
    with a full refetch, and the filtered view and counts derived from it. Each async handler
    is one sequential step; the server's responses are its inputs. */
module App {
  import opened Wrappers
  import opened JsStrings
  import opened Api
  import opened AuthContext

  const AllFilter := "all"
  const ActiveFilter := "active"
  const CompletedFilter := "completed"

  const UnauthorizedMarker := "Unauthorized"

  /** The callback of `tasks.filter` for the selected filter value. */
  predicate Keeps(filter: string, t: ClientTask) {
    if filter == ActiveFilter then !t.isFinished
    else if filter == CompletedFilter then t.isFinished
    else true
  }

  /** `filteredTasks`: each task occurs as often as in `tasks` when the filter keeps it,
      and not at all otherwise. */
  function FilterTasks(tasks: seq<ClientTask>, filter: string): (r: seq<ClientTask>)
    ensures |r| <= |tasks|
    ensures forall t :: multiset(r)[t] == if Keeps(filter, t) then multiset(tasks)[t] else 0
    ensures forall t :: t in r <==> t in tasks && Keeps(filter, t)
  {
    if tasks == [] then []
    else
      assert tasks == [tasks[0]] + tasks[1..];
      var rest := FilterTasks(tasks[1..], filter);
      if Keeps(filter, tasks[0]) then [tasks[0]] + rest else rest
  }

  /** `r` is `s` with some elements left out and the rest in their original order. */
  ghost predicate IsSubsequence<T>(r: seq<T>, s: seq<T>)
    decreases |s|
  {
    if r == [] then true
    else if s == [] then false
    else (r[0] == s[0] && IsSubsequence(r[1..], s[1..])) || IsSubsequence(r, s[1..])
  }

  /** Filtering never reorders tasks. */
  lemma {:induction false} FilterPreservesOrder(tasks: seq<ClientTask>, filter: string)
    ensures IsSubsequence(FilterTasks(tasks, filter), tasks)
    decreases |tasks|
  {
    if tasks != [] {
      FilterPreservesOrder(tasks[1..], filter);
      var rest := FilterTasks(tasks[1..], filter);
      if !Keeps(filter, tasks[0]) && rest != [] {
        assert IsSubsequence(rest, tasks[1..]);
      }
    }
  }

  /** Any filter value other than "active" and "completed" keeps the list as it is. */
  lemma {:induction false} OtherFilterKeepsAll(tasks: seq<ClientTask>, filter: string)
    requires filter != ActiveFilter && filter != CompletedFilter
    ensures FilterTasks(tasks, filter) == tasks
    decreases |tasks|
  {
    if tasks != [] {
      OtherFilterKeepsAll(tasks[1..], filter);
      assert tasks == [tasks[0]] + tasks[1..];
    }
  }

  /** The active and completed views split the list: no task is in both, and together they
      hold every task as often as the list does. */
  lemma ActiveCompletedPartition(tasks: seq<ClientTask>)
    ensures var active := FilterTasks(tasks, ActiveFilter);
      var completed := FilterTasks(tasks, CompletedFilter);
      && (forall t :: !(t in active && t in completed))
      && multiset(active) + multiset(completed) == multiset(tasks)
      && |active| + |completed| == |tasks|
  {
    var active := FilterTasks(tasks, ActiveFilter);
    var completed := FilterTasks(tasks, CompletedFilter);
    assert multiset(active) + multiset(completed) == multiset(tasks) by {
      forall t
        ensures (multiset(active) + multiset(completed))[t] == multiset(tasks)[t]
      {
        assert Keeps(ActiveFilter, t) != Keeps(CompletedFilter, t);
      }
    }
    calc {
      |active| + |completed|;
      |multiset(active)| + |multiset(completed)|;
      |multiset(active) + multiset(completed)|;
      |multiset(tasks)|;
      |tasks|;
    }
  }

  datatype Stats = Stats(total: nat, active: nat, completed: nat)

  /** `stats`: the counts of the whole list and of the active and completed views; the two
      views always add up to the total. */
  function StatsOf(tasks: seq<ClientTask>): (st: Stats)
    ensures st.total == |tasks|
    ensures st.active == |FilterTasks(tasks, ActiveFilter)|
    ensures st.completed == |FilterTasks(tasks, CompletedFilter)|
    ensures st.total == st.active + st.completed
  {
    ActiveCompletedPartition(tasks);
    Stats(|tasks|, |FilterTasks(tasks, ActiveFilter)|, |FilterTasks(tasks, CompletedFilter)|)
  }

  /** The error message of a failed refetch that makes `loadTasks` log out. */
  predicate ForcesLogout(outcome: Result<seq<ClientTask>, string>)
    ensures ForcesLogout(outcome) ==> outcome.Err? && |outcome.error| >= |UnauthorizedMarker|
    ensures outcome.Ok? ==> !ForcesLogout(outcome)
  {
    outcome.Err? && Includes(outcome.error, UnauthorizedMarker)
  }

  /** A non-ok status from the task list never forces a logout, 401 included: `fetchTasks`
      replaces every such response by its fixed message. Only a network failure whose own
      message mentions "Unauthorized" could. */
  lemma RefetchLogoutOnlyOnNetworkMessage(resp: Response<seq<ClientTask>>)
    ensures ForcesLogout(TaskCallOutcome(resp, FetchFailed)) <==>
      resp.NetworkError? && Includes(resp.message, UnauthorizedMarker)
  {
    if resp.HttpError? {
      TaskHttpFailureNeverUnauthorized(resp, FetchFailed);
    }
  }

  /** The main view's state. The API client and the session store share one storage. */
  class TaskBoard {
    const api: ApiClient
    const auth: AuthProvider
    var tasks: seq<ClientTask>
    var filter: string
    var loading: bool

    ghost predicate Valid() {
      api.storage == auth.storage
    }

    constructor (api: ApiClient, auth: AuthProvider)
      requires api.storage == auth.storage
      ensures Valid() && this.api == api && this.auth == auth
      ensures tasks == [] && filter == AllFilter && !loading
    {
      this.api := api;
      this.auth := auth;
      tasks := [];
      filter := AllFilter;
      loading := false;
    }

    /** The filter buttons' `setFilter`. */
    method SetFilter(f: string)
      modifies this
      ensures filter == f && tasks == old(tasks) && loading == old(loading)
    {
      filter := f;
    }

    /** `loadTasks()`: one GET; the list is replaced wholesale on success and kept on
        failure; an "Unauthorized" message logs out; loading ends either way. */
    method LoadTasks(resp: Response<seq<ClientTask>>)
      requires Valid()
      modifies this, api, auth, auth.storage
      ensures api.sent == old(api.sent) + [Request(GET, TasksPath, old(api.TaskHeaders()), NoBody)]
      ensures resp.Success? ==> tasks == resp.body
      ensures !resp.Success? ==> tasks == old(tasks)
      ensures !loading && filter == old(filter)
      ensures auth.State() == if ForcesLogout(TaskCallOutcome(resp, FetchFailed))
        then LoggedOut(old(auth.State())) else old(auth.State())
    {
      loading := true;
      var outcome := api.FetchTasks(resp);
      if outcome.Ok? {
        tasks := outcome.value;
      } else if Includes(outcome.error, UnauthorizedMarker) {
        auth.Logout();
      }
      loading := false;
    }

    /** The effect on `isAuthenticated`: tasks are loaded only for an authenticated session. */
    method OnAuthenticationChange(resp: Response<seq<ClientTask>>)
      requires Valid()
      modifies this, api, auth, auth.storage
      ensures !old(auth.IsAuthenticated()) ==>
        api.sent == old(api.sent) && tasks == old(tasks) && loading == old(loading)
        && auth.State() == old(auth.State())
      ensures old(auth.IsAuthenticated()) ==>
        && api.sent == old(api.sent) + [Request(GET, TasksPath, old(api.TaskHeaders()), NoBody)]
        && tasks == (if resp.Success? then resp.body else old(tasks))
        && !loading
        && auth.State() == if ForcesLogout(TaskCallOutcome(resp, FetchFailed))
          then LoggedOut(old(auth.State())) else old(auth.State())
      ensures filter == old(filter)
    {
      if auth.IsAuthenticated() {
        LoadTasks(resp);
      }
    }

    /** `handleAddTask(payload)`: create, then refetch. A failed create is rethrown to the
        form and nothing is refetched. */
    method HandleAddTask(payload: CreatePayload, createResp: Response<()>, fetchResp: Response<seq<ClientTask>>)
      returns (r: Result<(), string>)
      requires Valid()
      modifies this, api, auth, auth.storage
      ensures var h := old(api.TaskHeaders());
        var create := Request(POST, TasksPath, h, NewTask(payload));
        if createResp.Success? then
          && r.Ok?
          && api.sent == old(api.sent) + [create, Request(GET, TasksPath, h, NoBody)]
          && tasks == (if fetchResp.Success? then fetchResp.body else old(tasks))
          && !loading
          && auth.State() == if ForcesLogout(TaskCallOutcome(fetchResp, FetchFailed))
            then LoggedOut(old(auth.State())) else old(auth.State())
        else
          && r == Err(TaskCallOutcome(createResp, CreateFailed).error)
          && api.sent == old(api.sent) + [create]
          && tasks == old(tasks) && loading == old(loading)
          && auth.State() == old(auth.State())
      ensures filter == old(filter)
    {
      var created := api.CreateTask(payload, createResp);
      if created.Err? {
        return Err(created.error);
      }
      LoadTasks(fetchResp);
      r := Ok(());
    }

    /** `handleUpdateTask(id, update)`: update, then refetch; a failed update is logged and
        swallowed, with no refetch. */
    method HandleUpdateTask(id: int, update: TaskUpdate, updateResp: Response<()>, fetchResp: Response<seq<ClientTask>>)
      requires Valid()
      modifies this, api, auth, auth.storage
      ensures var h := old(api.TaskHeaders());
        var put := Request(PUT, TaskPath(id), h, Changes(update));
        if updateResp.Success? then
          && api.sent == old(api.sent) + [put, Request(GET, TasksPath, h, NoBody)]
          && tasks == (if fetchResp.Success? then fetchResp.body else old(tasks))
          && !loading
          && auth.State() == if ForcesLogout(TaskCallOutcome(fetchResp, FetchFailed))
            then LoggedOut(old(auth.State())) else old(auth.State())
        else
          && api.sent == old(api.sent) + [put]
          && tasks == old(tasks) && loading == old(loading)
          && auth.State() == old(auth.State())
      ensures filter == old(filter)
    {
      var updated := api.UpdateTask(id, update, updateResp);
      if updated.Ok? {
        LoadTasks(fetchResp);
      }
    }

    /** `handleDeleteTask(id)`: delete, then refetch; a failed delete (a missing id, say) is
        logged and swallowed, with no refetch. */
    method HandleDeleteTask(id: int, deleteResp: Response<()>, fetchResp: Response<seq<ClientTask>>)
      requires Valid()
      modifies this, api, auth, auth.storage
      ensures var h := old(api.TaskHeaders());
        var del := Request(DELETE, TaskPath(id), h, NoBody);
        if deleteResp.Success? then
          && api.sent == old(api.sent) + [del, Request(GET, TasksPath, h, NoBody)]
          && tasks == (if fetchResp.Success? then fetchResp.body else old(tasks))
          && !loading
          && auth.State() == if ForcesLogout(TaskCallOutcome(fetchResp, FetchFailed))
            then LoggedOut(old(auth.State())) else old(auth.State())
        else
          && api.sent == old(api.sent) + [del]
          && tasks == old(tasks) && loading == old(loading)
          && auth.State() == old(auth.State())
      ensures filter == old(filter)
    {
      var deleted := api.DeleteTask(id, deleteResp);
      if deleted.Ok? {
        LoadTasks(fetchResp);
      }
    }
  }
}
