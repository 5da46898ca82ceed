/** The task data-access layer: add a task, fetch one task of a user, list a user's
    tasks. Every operation reports the failures it catches in its response. The
    database is an in-memory `task` table; a storage failure is an extra argument
    giving the text of the error the engine raised at that point. */
module DbOperations {
  import opened Python
  import opened Responses
  import opened Requests
  import opened DbModels

  /** The `task_data` argument of `try_add_new_task`: an `AddTaskRequestModel`
      instance, or any other object (a plain dict, say). */
  datatype TaskDataArg = RequestModel(request: AddTaskRequest) | NotRequestModel

  const NotRequestModelMessage := "Provided task_data is not instance of AddTaskRequestModel"
  const UserIdNotIntMessage := "Provided user_id is not an instance of int"
  const IdsNotIntMessage := "At least one of provided id's is not an instance of int"

  function NotFoundMessage(taskId: Value): string
    requires IsInt(taskId)
  {
    "No task with id " + IntStr(taskId) + " found in your account"
  }

  /** The row `Task(...)` builds from a request, once the store has assigned it `id`.
      Read back, it gives the request's fields as the request model holds them, except
      that the deadline keeps only its calendar date. */
  function NewTaskRow(id: int, req: AddTaskRequest, userId: int, parentTaskId: Option<int>): (row: TaskRow)
    ensures var d := ToDict(row);
            var kw := AddTaskKwargs(req);
            && d["id"] == IntV(id) && d["user_id"] == IntV(userId) && d["parent_task_id"] == OptionalInt(parentTaskId)
            && (forall f :: f in {"title", "importance", "est_time_days", "description"} ==> d[f] == kw[f])
            && d["deadline"] == DateV(kw["deadline"].dt.date)
  {
    TaskRow(id, req.title, req.importance, req.deadline.date, req.estTimeDays, req.description, userId, parentTaskId)
  }

  /** The primary keys of the rows owned by `userId`. */
  function OwnedIds(t: Table, userId: int): set<int>
  {
    set k | k in t && t[k].userId == userId
  }

  /** `tasks` lists the rows of `userId`, in some order: one mapping per owned row,
      each mapping from an owned row, no mapping twice. */
  predicate IsListingOf(t: Table, userId: int, tasks: seq<TaskDict>)
  {
    && |tasks| == |OwnedIds(t, userId)|
    && (forall i, j :: 0 <= i < j < |tasks| ==> tasks[i] != tasks[j])
    && (forall i :: 0 <= i < |tasks| ==> exists k :: k in t && t[k].userId == userId && tasks[i] == ToDict(t[k]))
    && (forall k :: k in t && t[k].userId == userId ==> ToDict(t[k]) in tasks)
  }

  /** `id` is the key the engine gives a new row when the keys in use are `keys`:
      1 for an empty table, otherwise one more than the largest key. */
  predicate AssignedKey(keys: set<int>, id: int)
  {
    && id !in keys
    && (keys == {} ==> id == 1)
    && (keys != {} ==> id - 1 in keys && forall k :: k in keys ==> k < id)
  }

  /** The primary key the engine gives a new row when none is supplied: one more than
      the largest key in the table, or 1 for an empty table. It is never a key in use. */
  method NextRowId(keys: set<int>) returns (id: int)
    ensures AssignedKey(keys, id)
  {
    if keys == {} {
      return 1;
    }
    HasElement(keys);
    var largest :| largest in keys;
    var rest := keys - {largest};
    while rest != {}
      invariant rest <= keys && largest in keys
      invariant forall k :: k in keys && k !in rest ==> k <= largest
      decreases rest
    {
      HasElement(rest);
      var k :| k in rest;
      if k > largest {
        largest := k;
      }
      rest := rest - {k};
    }
    id := largest + 1;
  }

  /** `try_getting_specific_task(user_id, task_id)` over the table. It succeeds exactly
      when both ids are ints and a row has that id and belongs to that user; a row of
      another user is "not found" like a missing one. */
  function TryGettingSpecificTask(table: Table, userId: Value, taskId: Value, fault: Option<string>): (r: OneTaskResponse)
    requires WellKeyed(table)
    ensures r.success <==>
              && IsInt(userId) && IsInt(taskId) && fault.None?
              && exists k :: k in table && table[k].id == AsInt(taskId) && table[k].userId == AsInt(userId)
    ensures r.success ==>
              && r.message == "" && r.exception.None?
              && AsInt(taskId) in table && r.task == Some(ToDict(table[AsInt(taskId)]))
    ensures !(IsInt(userId) && IsInt(taskId)) ==>
              r == OneTaskResponse(false, IdsNotIntMessage, Some(TypeError(IdsNotIntMessage)), None)
    ensures IsInt(userId) && IsInt(taskId) && fault.Some? ==>
              r == OneTaskResponse(false, fault.value, Some(SQLAlchemyError(fault.value)), None)
    ensures IsInt(userId) && IsInt(taskId) && fault.None? && !r.success ==>
              r == OneTaskResponse(false, NotFoundMessage(taskId), Some(NoResultFound), None)
  {
    if !IsInt(taskId) || !IsInt(userId) then
      OneTaskResponse(false, IdsNotIntMessage, Some(TypeError(IdsNotIntMessage)), None)
    else if fault.Some? then
      OneTaskResponse(false, fault.value, Some(SQLAlchemyError(fault.value)), None)
    else
      var id := AsInt(taskId);
      if id in table && table[id].userId == AsInt(userId) then
        OneTaskResponse(true, "", None, Some(ToDict(table[id])))
      else
        OneTaskResponse(false, NotFoundMessage(taskId), Some(NoResultFound), None)
  }

  /** A set with no elements is the empty set. */
  lemma NoElementsEmpty(s: set<int>)
    requires forall x :: x !in s
    ensures s == {}
  {
    assert forall x :: x in s <==> x in {};
  }

  /** A non-empty set has an element. */
  lemma HasElement(s: set<int>)
    requires s != {}
    ensures exists x :: x in s
  {
    if !(exists x :: x in s) {
      NoElementsEmpty(s);
      assert false;
    }
  }

  /** The shared task table and the two operations that go through a session. */
  class TaskStore {
    var rows: Table

    ghost predicate Valid()
      reads this
    {
      WellKeyed(rows)
    }

    constructor ()
      ensures Valid() && rows == map[]
    {
      rows := map[];
    }

    /** `try_add_new_task(task_data, user_id, parent_task_id)`. Anything but a request
        model is refused with a `TypeError` and the table is untouched. Otherwise the
        row is added under the key the engine assigns and committed. If the commit
        fails, the session is rolled back: the table is as before and the response
        carries the error. Once committed, reading `new_task.id` reloads the expired row;
        if that read fails, the rollback has nothing to undo, so the row stays while the
        response carries the error. On success the message is the decimal string of
        the new key. */
    method TryAddNewTask(taskData: TaskDataArg, userId: int, parentTaskId: Option<int>,
                         commitFault: Option<string>, refreshFault: Option<string>)
      returns (r: SimpleResponse)
      requires Valid()
      modifies this
      ensures Valid()
      ensures taskData.NotRequestModel? ==>
                rows == old(rows) &&
                r == SimpleResponse(false, NotRequestModelMessage, Some(TypeError(NotRequestModelMessage)))
      ensures taskData.RequestModel? && commitFault.Some? ==>
                rows == old(rows) &&
                r == SimpleResponse(false, commitFault.value, Some(SQLAlchemyError(commitFault.value)))
      ensures taskData.RequestModel? && commitFault.None? && refreshFault.Some? ==>
                && r == SimpleResponse(false, refreshFault.value, Some(SQLAlchemyError(refreshFault.value)))
                && exists id :: AssignedKey(old(rows).Keys, id) &&
                                rows == old(rows)[id := NewTaskRow(id, taskData.request, userId, parentTaskId)]
      ensures taskData.RequestModel? && commitFault.None? && refreshFault.None? ==>
                && r.success && r.exception.None? && ParseInt(r.message).Some?
                && var id := ParseInt(r.message).value;
                && r.message == IntToDecimal(id)
                && AssignedKey(old(rows).Keys, id)
                && rows == old(rows)[id := NewTaskRow(id, taskData.request, userId, parentTaskId)]
    {
      if taskData.NotRequestModel? {
        r := SimpleResponse(false, NotRequestModelMessage, Some(TypeError(NotRequestModelMessage)));
        return;
      }
      // session.add + flush: the engine assigns the primary key
      var id := NextRowId(rows.Keys);
      var pending := rows[id := NewTaskRow(id, taskData.request, userId, parentTaskId)];
      if commitFault.Some? {
        // rollback: the pending row is discarded
        r := SimpleResponse(false, commitFault.value, Some(SQLAlchemyError(commitFault.value)));
        return;
      }
      rows := pending;
      if refreshFault.Some? {
        // rollback after the commit: nothing left to undo
        r := SimpleResponse(false, refreshFault.value, Some(SQLAlchemyError(refreshFault.value)));
        return;
      }
      r := SimpleResponse(true, IntToDecimal(id), None);
      ParseIntRoundTrip(id);
    }

    /** `Task.query.filter_by(user_id=user_id).all()`: every row of the user, each once,
        in an order the engine chooses. */
    method FilterByUser(userId: int) returns (found: seq<TaskRow>)
      requires Valid()
      ensures |found| == |OwnedIds(rows, userId)|
      ensures forall i :: 0 <= i < |found| ==>
                found[i].id in rows && rows[found[i].id] == found[i] && found[i].userId == userId
      ensures forall i, j :: 0 <= i < j < |found| ==> found[i].id != found[j].id
      ensures forall k :: k in rows && rows[k].userId == userId ==> rows[k] in found
    {
      var rest := rows.Keys;
      found := [];
      ghost var picked: set<int> := {};
      while rest != {}
        invariant rest <= rows.Keys
        invariant picked == set k | k in rows && k !in rest && rows[k].userId == userId
        invariant |found| == |picked|
        invariant forall i :: 0 <= i < |found| ==> found[i].id in picked && rows[found[i].id] == found[i]
        invariant forall k :: k in picked ==> rows[k] in found
        invariant forall i, j :: 0 <= i < j < |found| ==> found[i].id != found[j].id
        decreases rest
      {
        HasElement(rest);
        var k :| k in rest;
        if rows[k].userId == userId {
          found := found + [rows[k]];
          picked := picked + {k};
        }
        rest := rest - {k};
      }
      assert picked == OwnedIds(rows, userId);
    }

    /** `try_getting_user_tasks(user_id)`. A non-int user id is refused with a
        `TypeError`; otherwise the response lists exactly the user's tasks, none of
        another user's, and is empty when the user has none. It reads the table only. */
    method TryGettingUserTasks(userId: Value, fault: Option<string>) returns (r: ManyTasksResponse)
      requires Valid()
      ensures !IsInt(userId) ==>
                r == ManyTasksResponse(false, UserIdNotIntMessage, Some(TypeError(UserIdNotIntMessage)), None)
      ensures IsInt(userId) && fault.Some? ==>
                r == ManyTasksResponse(false, fault.value, Some(SQLAlchemyError(fault.value)), None)
      ensures IsInt(userId) && fault.None? ==>
                && r.success && r.message == "" && r.exception.None? && r.tasks.Some?
                && IsListingOf(rows, AsInt(userId), r.tasks.value)
    {
      if !IsInt(userId) {
        r := ManyTasksResponse(false, UserIdNotIntMessage, Some(TypeError(UserIdNotIntMessage)), None);
        return;
      }
      if fault.Some? {
        // the query raised; the session is rolled back, and nothing was pending
        r := ManyTasksResponse(false, fault.value, Some(SQLAlchemyError(fault.value)), None);
        return;
      }
      var tasks := FilterByUser(AsInt(userId));
      var tasksFormatted: seq<TaskDict> := [];
      var i := 0;
      while i < |tasks|
        invariant 0 <= i <= |tasks|
        invariant |tasksFormatted| == i
        invariant forall j :: 0 <= j < i ==> tasksFormatted[j] == ToDict(tasks[j])
      {
        tasksFormatted := tasksFormatted + [ToDict(tasks[i])];
        i := i + 1;
      }
      ListingFromRows(rows, AsInt(userId), tasks, tasksFormatted);
      r := ManyTasksResponse(true, "", None, Some(tasksFormatted));
    }
  }

  /** Formatting every queried row with `to_dict` gives a listing of the user's tasks. */
  lemma ListingFromRows(t: Table, userId: int, found: seq<TaskRow>, tasks: seq<TaskDict>)
    requires |found| == |OwnedIds(t, userId)|
    requires forall i :: 0 <= i < |found| ==> found[i].id in t && t[found[i].id] == found[i] && found[i].userId == userId
    requires forall i, j :: 0 <= i < j < |found| ==> found[i].id != found[j].id
    requires forall k :: k in t && t[k].userId == userId ==> t[k] in found
    requires |tasks| == |found| && forall j :: 0 <= j < |found| ==> tasks[j] == ToDict(found[j])
    ensures IsListingOf(t, userId, tasks)
  {
    forall i, j | 0 <= i < j < |tasks| ensures tasks[i] != tasks[j] {
      assert tasks[i]["id"] == IntV(found[i].id);
      assert tasks[j]["id"] == IntV(found[j].id);
    }
    forall i | 0 <= i < |tasks|
      ensures exists k :: k in t && t[k].userId == userId && tasks[i] == ToDict(t[k])
    {
      var k := found[i].id;
      assert k in t && t[k].userId == userId && tasks[i] == ToDict(t[k]);
    }
    forall k | k in t && t[k].userId == userId ensures ToDict(t[k]) in tasks {
      var j :| 0 <= j < |found| && found[j] == t[k];
      assert tasks[j] == ToDict(t[k]);
    }
  }

  /** A user with no tasks gets an empty listing. */
  lemma EmptyListingWhenNoTasks(t: Table, userId: int, tasks: seq<TaskDict>)
    requires IsListingOf(t, userId, tasks)
    requires forall k :: k in t ==> t[k].userId != userId
    ensures tasks == []
  {
    assert forall k :: k !in OwnedIds(t, userId);
    assert OwnedIds(t, userId) == {};
  }

  /** Round trip: after a row is added for a user, fetching it with that user and the
      new key succeeds and gives back the request's title, importance, estimate and
      description, the owner and the parent, and the calendar date of the deadline.
      The deadline comes back as a `date`, which never equals the request's `datetime`. */
  lemma AddThenGet(t: Table, id: int, req: AddTaskRequest, userId: int, parentTaskId: Option<int>)
    requires WellKeyed(t)
    ensures WellKeyed(t[id := NewTaskRow(id, req, userId, parentTaskId)])
    ensures var r := TryGettingSpecificTask(t[id := NewTaskRow(id, req, userId, parentTaskId)], IntV(userId), IntV(id), None);
            && r.success && r.task.Some?
            && r.task.value["title"] == StrV(req.title)
            && r.task.value["importance"] == IntV(req.importance)
            && r.task.value["deadline"] == DateV(req.deadline.date)
            && r.task.value["deadline"] != DatetimeV(req.deadline)
            && r.task.value["est_time_days"] == OptionalInt(req.estTimeDays)
            && r.task.value["description"] == OptionalStr(req.description)
            && r.task.value["user_id"] == IntV(userId)
            && r.task.value["parent_task_id"] == OptionalInt(parentTaskId)
  {
  }

  /** Owner scoping: a task added for one user is "not found" for every other user. */
  lemma AddedTaskHiddenFromOtherUsers(t: Table, id: int, req: AddTaskRequest, owner: int, other: int, parentTaskId: Option<int>)
    requires WellKeyed(t) && other != owner
    ensures WellKeyed(t[id := NewTaskRow(id, req, owner, parentTaskId)])
    ensures TryGettingSpecificTask(t[id := NewTaskRow(id, req, owner, parentTaskId)], IntV(other), IntV(id), None)
            == OneTaskResponse(false, "No task with id " + IntToDecimal(id) + " found in your account", Some(NoResultFound), None)
  {
  }

  /** Adding a row leaves every lookup of another key as it was. */
  lemma AddKeepsOtherLookups(t: Table, id: int, row: TaskRow, userId: Value, taskId: Value, fault: Option<string>)
    requires WellKeyed(t) && row.id == id
    requires !(IsInt(taskId) && AsInt(taskId) == id)
    ensures WellKeyed(t[id := row])
    ensures TryGettingSpecificTask(t[id := row], userId, taskId, fault) == TryGettingSpecificTask(t, userId, taskId, fault)
  {
    if IsInt(userId) && IsInt(taskId) && fault.None? {
      var k := AsInt(taskId);
      if k in t && t[k].userId == AsInt(userId) {
        assert t[id := row][k] == t[k];
      }
    }
  }

  /** Adding a fresh row for a user adds exactly its key to the user's keys, and
      leaves every other user's keys alone. */
  lemma AddExtendsOwnedIds(t: Table, id: int, row: TaskRow, userId: int)
    requires id !in t
    ensures row.userId == userId ==> OwnedIds(t[id := row], userId) == OwnedIds(t, userId) + {id}
    ensures row.userId != userId ==> OwnedIds(t[id := row], userId) == OwnedIds(t, userId)
  {
  }

  /** The flow the data-access tests go through: add a task for user 42, read the
      message back as the id, fetch the task, and list the two tasks of the user. */
  method AddGetListClient(first: AddTaskRequest, second: AddTaskRequest, refreshError: string)
  {
    var store := new TaskStore();
    var r1 := store.TryAddNewTask(RequestModel(first), 42, None, None, None);
    assert r1.success;
    var id1 := ParseInt(r1.message).value;
    assert id1 == 1;
    AddThenGet(map[], id1, first, 42, None);
    var g1 := TryGettingSpecificTask(store.rows, IntV(42), IntV(id1), None);
    assert g1.success && g1.task.value["title"] == StrV(first.title);

    var r2 := store.TryAddNewTask(RequestModel(second), 42, None, None, None);
    var id2 := ParseInt(r2.message).value;
    assert id2 == 2;
    AddExtendsOwnedIds(map[], id1, NewTaskRow(id1, first, 42, None), 42);
    AddExtendsOwnedIds(map[id1 := NewTaskRow(id1, first, 42, None)], id2, NewTaskRow(id2, second, 42, None), 42);
    assert OwnedIds(store.rows, 42) == {id1, id2};

    var all := store.TryGettingUserTasks(IntV(42), None);
    assert all.success && |all.tasks.value| == 2;
    assert ToDict(store.rows[id1]) in all.tasks.value;
    assert ToDict(store.rows[id2]) in all.tasks.value;

    var bad := store.TryAddNewTask(NotRequestModel, 42, None, None, None);
    assert !bad.success && bad.exception == Some(TypeError(NotRequestModelMessage));
    var wrong := store.TryGettingUserTasks(StrV("cat"), None);
    assert !wrong.success && wrong.exception.value.TypeError?;
  }

  /** A reload that fails after the commit: the failure is reported, yet the new row
      stays in the table next to the earlier one. */
  method RefreshFaultClient(req: AddTaskRequest, refreshError: string)
  {
    var store := new TaskStore();
    var r1 := store.TryAddNewTask(RequestModel(req), 42, None, None, None);
    assert ParseInt(r1.message).value == 1;
    var r2 := store.TryAddNewTask(RequestModel(req), 42, None, None, Some(refreshError));
    assert !r2.success && r2.exception == Some(SQLAlchemyError(refreshError));
    assert 1 in store.rows && 2 in store.rows;
  }
}
