/** The new-task form: a guard on the title, the payload it builds and the field reset. */
module TaskForm {
  import opened Wrappers
  import opened JsStrings
  import opened Api
  import opened App
  import opened AuthContext

  /** `if (!title.trim()) return;`: only a title with a non-whitespace character submits. */
  predicate Submits(title: string) {
    Truthy(Trim(title))
  }

  lemma BlankTitleNeverSubmits(title: string)
    ensures Submits(title) <==> !AllWhitespace(title)
  {
  }

  /** The object handed to `onSubmit`: trimmed title and description; `deadline || null`. */
  function Payload(title: string, description: string, deadline: string): (p: CreatePayload)
    ensures p.title == Trim(title) && p.description == Trim(description)
    ensures deadline == "" ==> p.deadline.None?
    ensures deadline != "" ==> p.deadline == Some(deadline)
    ensures Trim(p.title) == p.title && Trim(p.description) == p.description
    ensures Submits(title) ==> p.title != ""
  {
    TrimIdempotent(title);
    TrimIdempotent(description);
    CreatePayload(Trim(title), Trim(description), if Truthy(deadline) then Some(deadline) else None)
  }

  class Form {
    var title: string
    var description: string
    var deadline: string

    constructor ()
      ensures title == "" && description == "" && deadline == ""
    {
      title, description, deadline := "", "", "";
    }

    /** `handleSubmit()` with `onSubmit` being the main view's `handleAddTask`. A blank title
        sends nothing; otherwise the payload is created, and the fields are cleared only when
        the create succeeded. A failed create is caught here and the fields are kept. */
    method HandleSubmit(board: TaskBoard, createResp: Response<()>, fetchResp: Response<seq<ClientTask>>)
      requires board.Valid()
      modifies this, board, board.api, board.auth, board.auth.storage
      ensures !Submits(old(title)) ==>
        && title == old(title) && description == old(description) && deadline == old(deadline)
        && board.api.sent == old(board.api.sent) && board.tasks == old(board.tasks)
        && board.loading == old(board.loading)
        && board.auth.State() == old(board.auth.State())
      ensures Submits(old(title)) ==>
        var h := old(board.api.TaskHeaders());
        var create := Request(POST, TasksPath, h, NewTask(Payload(old(title), old(description), old(deadline))));
        if createResp.Success? then
          && title == "" && description == "" && deadline == ""
          && board.api.sent == old(board.api.sent) + [create, Request(GET, TasksPath, h, NoBody)]
          && board.tasks == (if fetchResp.Success? then fetchResp.body else old(board.tasks))
          && !board.loading
          && board.auth.State() == if ForcesLogout(TaskCallOutcome(fetchResp, FetchFailed))
            then LoggedOut(old(board.auth.State())) else old(board.auth.State())
        else
          && title == old(title) && description == old(description) && deadline == old(deadline)
          && board.api.sent == old(board.api.sent) + [create]
          && board.tasks == old(board.tasks) && board.loading == old(board.loading)
          && board.auth.State() == old(board.auth.State())
      ensures board.filter == old(board.filter)
    {
      if !Truthy(Trim(title)) {
        return;
      }
      var r := board.HandleAddTask(Payload(title, description, deadline), createResp, fetchResp);
      if r.Ok? {
        title := "";
        description := "";
        deadline := "";
      }
    }
  }
}
