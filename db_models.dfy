/** The rows of the `task` table and the mapping a row is handed out as. */
module DbModels {
  import opened Python
  import opened Responses

  /** One row of the `task` table. `id` is the primary key; `est_time_days`,
      `description` and `parent_task_id` are nullable. `deadline` is a `Date` column:
      its SQLite type writes a `datetime` as its year, month and day only, and a row
      read back holds a `date`. */
  datatype TaskRow = TaskRow(
    id: int,
    title: string,
    importance: int,
    deadline: Date,
    estTimeDays: Option<int>,
    description: Option<string>,
    userId: int,
    parentTaskId: Option<int>)

  /** The `task` table, keyed by primary key. */
  type Table = map<int, TaskRow>

  /** Every row is stored under its own primary key. */
  predicate WellKeyed(t: Table)
  {
    forall k :: k in t ==> t[k].id == k
  }

  const TaskColumns: set<string> :=
    {"id", "title", "importance", "deadline", "est_time_days", "description", "user_id", "parent_task_id"}

  /** `task.to_dict()`: the row's columns as a mapping from column name to value. */
  function ToDict(row: TaskRow): (d: TaskDict)
    ensures d.Keys == TaskColumns
  {
    map["id" := IntV(row.id),
        "title" := StrV(row.title),
        "importance" := IntV(row.importance),
        "deadline" := DateV(row.deadline),
        "est_time_days" := OptionalInt(row.estTimeDays),
        "description" := OptionalStr(row.description),
        "user_id" := IntV(row.userId),
        "parent_task_id" := OptionalInt(row.parentTaskId)]
  }

  /** The mapping determines the row: distinct rows give distinct mappings. */
  lemma ToDictInjective(a: TaskRow, b: TaskRow)
    requires ToDict(a) == ToDict(b)
    ensures a == b
  {
    assert ToDict(a)["id"] == ToDict(b)["id"];
    assert ToDict(a)["title"] == ToDict(b)["title"];
    assert ToDict(a)["importance"] == ToDict(b)["importance"];
    assert ToDict(a)["deadline"] == ToDict(b)["deadline"];
    assert ToDict(a)["est_time_days"] == ToDict(b)["est_time_days"];
    assert ToDict(a)["description"] == ToDict(b)["description"];
    assert ToDict(a)["user_id"] == ToDict(b)["user_id"];
    assert ToDict(a)["parent_task_id"] == ToDict(b)["parent_task_id"];
  }
}
