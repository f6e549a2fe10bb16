/** The rules of one task row in the list: the status toggle, the expiry test and the
    status label. */
module TaskItem {
  import opened Wrappers
  import opened JsStrings
  import opened Models
  import opened Api
  import Backend

  /** `statusFlow[status]`: the next status in the cycle todo, in_progress, done. Any other
      string is modelled as giving `undefined`, which holds for every string that is neither
      an own key of the map nor the name of an `Object.prototype` member. */
  function NextStatus(status: string): (r: Option<string>)
    ensures r.Some? <==> IsKnownStatus(status)
    ensures r.Some? ==> IsKnownStatus(r.value) && r.value != status
  {
    if status == Todo then Some(InProgress)
    else if status == InProgress then Some(Done)
    else if status == Done then Some(Todo)
    else None
  }

  /** Three toggles bring any of the three statuses back to itself. */
  lemma StatusCycleHasLengthThree(status: string)
    requires IsKnownStatus(status)
    ensures var s1 := NextStatus(status).value;
      var s2 := NextStatus(s1).value;
      && s2 != status
      && NextStatus(s2) == Some(status)
  {
  }

  /** `toggleStatus()`: an update of `task.id` whose only member is the next status. For a
      status outside the cycle the model takes that member to be `undefined`, so the body is
      empty. */
  function ToggleStatus(task: ClientTask): (call: (int, TaskUpdate))
    ensures call.0 == task.id
    ensures call.1.status.Some? <==> IsKnownStatus(task.status)
    ensures call.1.status == NextStatus(task.status)
  {
    (task.id, TaskUpdate(NextStatus(task.status)))
  }

  /** The body `updateTask` sends for an update: `JSON.stringify` drops an `undefined`
      member, so the backend sees the status as missing. */
  function SentUpdate(u: TaskUpdate): (req: Backend.UpdateRequest)
    ensures req.title.Absent? && req.description.Absent?
    ensures u.status.None? ==> req.status.Absent?
    ensures u.status.Some? ==> req.status == Backend.Given(u.status.value)
  {
    Backend.UpdateRequest(Backend.Absent, Backend.Absent,
      if u.status.Some? then Backend.Given(u.status.value) else Backend.Absent)
  }

  /** What a toggle does to the stored row it was shown for: the row moves to the next
      status, it is finished exactly when that status is done, and reaching done records
      the moment. A row with a status outside the cycle is left as it was. */
  lemma ToggleTakesEffect(task: ClientTask, row: Task, now: int)
    requires row.id == task.id && row.status == Some(task.status) && Consistent(row)
    ensures var u := Backend.ApplyUpdate(row, SentUpdate(ToggleStatus(task).1), now).value;
      && Consistent(u)
      && (IsKnownStatus(task.status) ==> u.status == NextStatus(task.status))
      && (!IsKnownStatus(task.status) ==> u == row)
      && (u.isFinished <==> NextStatus(task.status) == Some(Done))
      && (u.isFinished ==> u.finishedAt == Some(now))
  {
  }

  /** `isExpired` at time `now`: the backend flag, or a deadline strictly before `now` on a
      task that is not finished. */
  predicate IsExpired(task: ClientTask, now: int)
    ensures !task.isExpired && (task.isFinished || task.deadline.None?) ==> !IsExpired(task, now)
    ensures !task.isFinished && task.deadline.Some? && task.deadline.value < now ==> IsExpired(task, now)
  {
    task.isExpired || (task.deadline.Some? && task.deadline.value < now && !task.isFinished)
  }

  /** Without the backend flag, neither a finished task nor one without a deadline is ever
      expired, and an unfinished past-deadline task always is. */
  lemma ExpiryNeedsOpenPastDeadline(task: ClientTask, now: int)
    requires !task.isExpired
    ensures IsExpired(task, now) <==>
      !task.isFinished && task.deadline.Some? && task.deadline.value < now
  {
  }

  /** Once expired, a task stays expired as time goes on. */
  lemma ExpiryMonotoneInTime(task: ClientTask, now: int, later: int)
    requires IsExpired(task, now) && now <= later
    ensures IsExpired(task, later)
  {
  }

  /** `task.status.replace("_", " ")` */
  function StatusLabel(status: string): (text: string)
    ensures |text| == |status|
    ensures '_' !in status ==> text == status
    ensures '_' in status ==> text[IndexOf(status, '_')] == ' '
    ensures forall k :: 0 <= k < |status| && k != IndexOf(status, '_') ==> text[k] == status[k]
  {
    ReplaceFirst(status, '_', ' ')
  }

  /** The label of the middle status, and of the other two, which have no underscore. */
  lemma KnownStatusLabels()
    ensures StatusLabel(InProgress) == "in progress"
    ensures StatusLabel(Todo) == Todo && StatusLabel(Done) == Done
  {
    var i := IndexOf(InProgress, '_');
    assert InProgress[2] == '_';
    assert i == 2;
    assert StatusLabel(InProgress) == "in progress";
  }

  /** Only the first underscore is rewritten: "a_b_c" becomes "a b_c". */
  lemma OnlyFirstUnderscoreReplaced()
    ensures StatusLabel("a_b_c") == "a b_c"
  {
    assert "a_b_c"[1] == '_';
    assert IndexOf("a_b_c", '_') == 1;
  }
}
