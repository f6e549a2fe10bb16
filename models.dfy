/** The `Task` table of the backend: its columns, their defaults and nullability. */
module Models {
  import opened Wrappers

  const Todo := "todo"
  const InProgress := "in_progress"
  const Done := "done"

  /** The three status values the column is meant to hold. The column itself is a free
      string and accepts any other value, and NULL. */
  predicate IsKnownStatus(s: string) {
    s == Todo || s == InProgress || s == Done
  }

  /** One row. `title` is NOT NULL and so a plain string; the nullable columns
      `description`, `status` and `finished_at` are options. Times are integers. */
  datatype Task = Task(
    id: int,
    title: string,
    description: Option<string>,
    status: Option<string>,
    createdAt: int,
    finishedAt: Option<int>,
    isFinished: bool)

  /** `is_finished` agrees with the status. */
  predicate FinishedIffDone(t: Task) {
    t.isFinished <==> t.status == Some(Done)
  }

  /** A finish time is recorded exactly for finished tasks. */
  predicate FinishTimeIffFinished(t: Task) {
    t.finishedAt.Some? <==> t.isFinished
  }

  predicate Consistent(t: Task) {
    FinishedIffDone(t) && FinishTimeIffFinished(t)
  }

  /** The row an insert produces when only id, title and description are supplied at
      time `now`: every other column takes its default. */
  function InsertWithDefaults(id: int, title: string, description: Option<string>, now: int): (t: Task)
    ensures t.id == id && t.title == title && t.description == description && t.createdAt == now
    ensures t.status == Some(Todo) && !t.isFinished && t.finishedAt.None?
    ensures Consistent(t)
  {
    Task(id, title, description, Some(Todo), now, None, false)
  }
}
