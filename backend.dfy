/** The CRUD endpoints of the backend over the task table. Routing, JSON decoding, the
    metrics hooks and the SQL session are left out; the table is a map from id to row. */
module Backend {
  import opened Wrappers
  import opened Models

  /** A member of the JSON request body: missing, `null`, or a string. */
  datatype Field<T> = Absent | Null | Given(value: T)

  datatype CreateRequest = CreateRequest(title: Field<string>, description: Field<string>)

  datatype UpdateRequest = UpdateRequest(title: Field<string>, description: Field<string>, status: Field<string>)

  /** What an endpoint answers; `Acknowledged` is the 200 reply `{"ok": true}`. `ServerError` is the 500 a missing key or a NOT NULL
      violation at commit produces. */
  datatype Reply = Created(id: int) | Acknowledged | NotFound | ServerError

  function StatusCode(r: Reply): (code: int)
    ensures r.Created? <==> code == 201
    ensures r.NotFound? <==> code == 404
  {
    match r
    case Created(_) => 201
    case Acknowledged => 200
    case NotFound => 404
    case ServerError => 500
  }

  /** `data.get(key, current)`: a missing member keeps `current`, `null` stores NULL. */
  function GetOr(f: Field<string>, current: Option<string>): (v: Option<string>)
    ensures f.Absent? ==> v == current
    ensures f.Null? ==> v.None?
    ensures f.Given? ==> v == Some(f.value)
  {
    match f
    case Absent => current
    case Null => None
    case Given(s) => Some(s)
  }

  /** The row `create_task` inserts under `id`, or `None` when the insert fails: a missing
      `title` raises a KeyError and a `null` one violates NOT NULL. A missing description
      becomes the empty string. The values passed explicitly are the column defaults. */
  function NewTask(id: int, req: CreateRequest, now: int): (r: Option<Task>)
    ensures r.Some? <==> req.title.Given?
    ensures r.Some? ==> r.value == InsertWithDefaults(id, req.title.value, GetOr(req.description, Some("")), now)
    ensures r.Some? && req.description.Absent? ==> r.value.description == Some("")
    ensures r.Some? ==> r.value.status == Some(Todo) && !r.value.isFinished && r.value.finishedAt.None?
  {
    match req.title
    case Given(title) =>
      Some(Task(id, title, GetOr(req.description, Some("")), Some(Todo), now, None, false))
    case _ => None
  }

  /** The row `update_task` commits for the stored row `t`, or `None` when the commit fails
      because the title was set to `null`. Absent members keep their values; the status is
      not validated; finishing is recomputed from the new status. */
  function ApplyUpdate(t: Task, req: UpdateRequest, now: int): (r: Option<Task>)
    ensures r.None? <==> req.title.Null?
    ensures r.Some? ==> r.value.id == t.id && r.value.createdAt == t.createdAt
    ensures r.Some? && req.title.Absent? ==> r.value.title == t.title
    ensures r.Some? && req.title.Given? ==> r.value.title == req.title.value
    ensures r.Some? ==> r.value.description == GetOr(req.description, t.description)
    ensures r.Some? ==> r.value.status == GetOr(req.status, t.status)
    ensures r.Some? ==> FinishedIffDone(r.value)
    ensures r.Some? && r.value.status == Some(Done) && !t.isFinished ==> r.value.finishedAt == Some(now)
    ensures r.Some? && r.value.status == Some(Done) && t.isFinished ==> r.value.finishedAt == t.finishedAt
    ensures r.Some? && r.value.status != Some(Done) ==> r.value.finishedAt.None?
    ensures r.Some? && FinishTimeIffFinished(t) ==> Consistent(r.value)
  {
    var title := GetOr(req.title, Some(t.title));
    var status := GetOr(req.status, t.status);
    var row := t.(description := GetOr(req.description, t.description), status := status);
    if title.None? then None
    else if status == Some(Done) && !t.isFinished then
      Some(row.(title := title.value, isFinished := true, finishedAt := Some(now)))
    else if status != Some(Done) then
      Some(row.(title := title.value, isFinished := false, finishedAt := None))
    else
      Some(row.(title := title.value))
  }

  /** Every key names its own row. */
  ghost predicate KeysMatch(rows: map<int, Task>) {
    forall k :: k in rows ==> rows[k].id == k
  }

  lemma NonEmptyHasKey(rows: map<int, Task>)
    requires |rows| != 0
    ensures exists k :: k in rows
  {
    if forall k :: k !in rows {
      assert false;
    }
  }

  /** The rows of the table, in some order. */
  ghost function RowsOf(rows: map<int, Task>): (s: seq<Task>)
    requires KeysMatch(rows)
    ensures |s| == |rows|
    ensures forall t :: t in s ==> t.id in rows && rows[t.id] == t
    ensures forall k :: k in rows ==> rows[k] in s
    decreases |rows|
  {
    if |rows| == 0 then
      []
    else
      NonEmptyHasKey(rows);
      var k :| k in rows;
      var rest := rows - {k};
      assert rest.Keys == rows.Keys - {k};
      var tail := RowsOf(rest);
      assert forall j :: j in rows && j != k ==> j in rest && rest[j] == rows[j];
      [rows[k]] + tail
  }

  predicate NewestFirst(s: seq<Task>) {
    forall i, j :: 0 <= i < j < |s| ==> s[i].createdAt >= s[j].createdAt
  }

  function InsertNewestFirst(t: Task, s: seq<Task>): (r: seq<Task>)
    requires NewestFirst(s)
    ensures NewestFirst(r)
    ensures forall x :: x in r <==> x in s || x == t
    ensures multiset(r) == multiset(s) + multiset{t}
  {
    if s == [] || t.createdAt >= s[0].createdAt then
      [t] + s
    else
      var rest := InsertNewestFirst(t, s[1..]);
      assert s == [s[0]] + s[1..];
      assert forall j :: 0 <= j < |rest| ==> rest[j].createdAt <= s[0].createdAt by {
        forall j | 0 <= j < |rest| ensures rest[j].createdAt <= s[0].createdAt {
          assert rest[j] in rest;
        }
      }
      [s[0]] + rest
  }

  /** `ORDER BY created_at DESC`: a permutation of `s`, newest first. Rows with equal
      creation times come in an order SQL leaves open. */
  function SortNewestFirst(s: seq<Task>): (r: seq<Task>)
    ensures NewestFirst(r)
    ensures multiset(r) == multiset(s)
  {
    if s == [] then []
    else
      assert s == [s[0]] + s[1..];
      InsertNewestFirst(s[0], SortNewestFirst(s[1..]))
  }

  /** The array `get_tasks` answers: every row exactly once, newest first. */
  ghost function ListTasks(rows: map<int, Task>): (r: seq<Task>)
    requires KeysMatch(rows)
    ensures NewestFirst(r)
    ensures |r| == |rows|
    ensures forall k :: k in rows ==> rows[k] in r
    ensures forall t :: t in r ==> t.id in rows && rows[t.id] == t
  {
    var s := RowsOf(rows);
    var r := SortNewestFirst(s);
    assert forall t :: t in r <==> t in multiset(s);
    assert |r| == |multiset(r)| == |multiset(s)| == |s|;
    r
  }

  /** A task finished once keeps its first finish time when it is set to done again. */
  lemma DoneAgainKeepsFirstFinishTime(t: Task, req: UpdateRequest, first: int, later: int)
    requires !t.isFinished
    requires req == UpdateRequest(Absent, Absent, Given(Done))
    ensures var once := ApplyUpdate(t, req, first).value;
      && once.finishedAt == Some(first)
      && ApplyUpdate(once, req, later).value == once
  {
  }

  /** Walking a new task through the three statuses, one update each, finishes it at the
      moment it becomes done and reopens it without a finish time. */
  lemma StatusWalk(t: Task, t1: int, t2: int, t3: int)
    requires Consistent(t) && t.status == Some(Todo)
    ensures var a := ApplyUpdate(t, UpdateRequest(Absent, Absent, Given(InProgress)), t1).value;
      var b := ApplyUpdate(a, UpdateRequest(Absent, Absent, Given(Done)), t2).value;
      var c := ApplyUpdate(b, UpdateRequest(Absent, Absent, Given(Todo)), t3).value;
      && !a.isFinished && a.finishedAt.None?
      && b.isFinished && b.finishedAt == Some(t2)
      && c == t
  {
  }

  /** A table holding one row lists exactly that row. */
  lemma ListSingleRow(t: Task)
    ensures ListTasks(map[t.id := t]) == [t]
  {
    var r := ListTasks(map[t.id := t]);
    assert t in r;
  }

  /** The task table. `nextId` is the id the next insert receives. */
  class TaskTable {
    var rows: map<int, Task>
    var nextId: int

    /** Ids are unique because they are the keys; every id was handed out before
        `nextId`; every row keeps the two finishing invariants. */
    ghost predicate Valid()
      reads this
    {
      && nextId >= 1
      && KeysMatch(rows)
      && forall k :: k in rows ==> 1 <= k < nextId && Consistent(rows[k])
    }

    constructor ()
      ensures Valid() && rows == map[] && nextId == 1
    {
      rows := map[];
      nextId := 1;
    }

    /** POST /api/tasks */
    method Create(req: CreateRequest, now: int) returns (reply: Reply)
      requires Valid()
      modifies this
      ensures Valid()
      ensures req.title.Given? ==>
        && reply == Created(old(nextId))
        && old(nextId) !in old(rows)
        && rows == old(rows)[old(nextId) := NewTask(old(nextId), req, now).value]
        && nextId == old(nextId) + 1
      ensures !req.title.Given? ==> reply == ServerError && rows == old(rows) && nextId == old(nextId)
    {
      var t := NewTask(nextId, req, now);
      if t.None? {
        return ServerError;
      }
      rows := rows[nextId := t.value];
      reply := Created(nextId);
      nextId := nextId + 1;
    }

    /** PUT /api/tasks/<id>: the members are copied one by one, then finishing is recomputed. */
    method Update(id: int, req: UpdateRequest, now: int) returns (reply: Reply)
      requires Valid()
      modifies this
      ensures Valid() && nextId == old(nextId)
      ensures id !in old(rows) ==> reply == NotFound && rows == old(rows)
      ensures id in old(rows) && req.title.Null? ==> reply == ServerError && rows == old(rows)
      ensures id in old(rows) && !req.title.Null? ==>
        reply == Acknowledged && rows == old(rows)[id := ApplyUpdate(old(rows)[id], req, now).value]
    {
      if id !in rows {
        return NotFound;
      }
      var t := rows[id];
      var title := GetOr(req.title, Some(t.title));
      var description := GetOr(req.description, t.description);
      var status := GetOr(req.status, t.status);
      var isFinished, finishedAt := t.isFinished, t.finishedAt;
      if status == Some(Done) && !t.isFinished {
        isFinished, finishedAt := true, Some(now);
      } else if status != Some(Done) {
        isFinished, finishedAt := false, None;
      }
      if title.None? {
        // the NOT NULL constraint fails at commit and nothing is written
        return ServerError;
      }
      rows := rows[id := t.(title := title.value, description := description, status := status,
                            isFinished := isFinished, finishedAt := finishedAt)];
      reply := Acknowledged;
    }

    /** DELETE /api/tasks/<id> */
    method Delete(id: int) returns (reply: Reply)
      requires Valid()
      modifies this
      ensures Valid() && nextId == old(nextId)
      ensures id !in old(rows) ==> reply == NotFound && rows == old(rows)
      ensures id in old(rows) ==> reply == Acknowledged && rows == old(rows) - {id}
    {
      if id !in rows {
        return NotFound;
      }
      rows := rows - {id};
      reply := Acknowledged;
    }

    /** GET /api/tasks */
    ghost function List(): (r: seq<Task>)
      reads this
      requires Valid()
      ensures NewestFirst(r) && |r| == |rows|
      ensures forall k :: k in rows ==> rows[k] in r
      ensures forall t :: t in r ==> t.id in rows && rows[t.id] == t && Consistent(t)
    {
      ListTasks(rows)
    }
  }
}
