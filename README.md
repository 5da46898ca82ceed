# TaskManager core, modelled in Dafny

TaskManager is a small personal task manager. Users keep tasks with a title, an
importance, a deadline, an optional estimate in days and an optional description. They
work on them through server pages and a browser "terminal". This project models the
three pieces of the application that hold real logic, and proves properties of them:

- **The task data-access layer** (`website/db_operations.py`). It adds a task, fetches
  one task of a user, and lists a user's tasks. The database is an in-memory `task`
  table (`map<int, TaskRow>`, keyed by primary key) held in a `TaskStore` class. Adding
  is a method that changes the table. Listing is a read-only method with the source's
  append loop. Fetching is a pure function over the table. Every failure the source
  catches becomes a response value (`SimpleResponse`, `ManyTasksResponse`,
  `OneTaskResponse`); the ones it does not catch are listed under "Left out". Python's
  dynamically typed arguments are a `Value` datatype, so the `isinstance(…, int)`
  checks can be stated (a `bool` counts as an `int`, as in Python).
- **Request validation** (`website/models/requests.py`). A model is built from keyword
  arguments (`map<string, Value>`). Construction yields the model or a validation error:
  either the set of fields whose constraints failed, or the message of the `ValueError`
  raised by the exclusivity validator of `TargetSpecificTaskModel`.
- **The terminal front-end** (`website/static/js/terminal.js`), without the DOM. It
  covers trimming and splitting a command line, dispatching the command, and the
  keyboard handler's command-history state machine. The page is a `TerminalPage` class
  holding the history, the history position, the input text, the output lines and a
  log of the requests sent.

Modules: `Python` (values and the builtins used), `Responses`, `Requests`, `DbModels`
(the row and `to_dict`), `DbOperations`, `Terminal`.

Assumptions where the source is incomplete:

- `OneTaskResponse` is imported by `db_operations.py` but not defined in
  `models/responses.py`. It has the shape of `ManyTasksResponse`, with one `task`
  mapping where that has the `tasks` list, as the tests use it.
- `Task.to_dict()` is called but not defined. It is the mapping from the row's eight
  column names to their values.
- Storage failures are not produced by the model. Each operation that talks to the
  database takes an `Option<string>`: the text of the error the engine raised, or
  `None` when the engine succeeded.
- The `deadline` column is a `Date` column, whose SQLite type writes a `datetime` as
  its year, month and day only. A `Datetime` is therefore a date and a time of day,
  and a row stores only the date part of the request's deadline.
- A new row's primary key is chosen as SQLite chooses it for an `INTEGER PRIMARY KEY`
  with no value given: one more than the largest key in the table, or 1 for an empty
  table.

Where the code and its own tests disagree, the model follows the code:

- Assigning to a field of a request model is not validated, since `validate_assignment`
  is never enabled. The test at `tests_website/test_db_operations.py:102-103` expects
  such an assignment to raise. So `AddTaskRequest` values keep the field types but need
  not meet the field constraints (a negative importance, say), and adding a task does
  not require that they do.
- The test at `tests_website/test_db_operations.py:61` expects the deadline back
  unchanged. The `Date` column (`website/db_models.py:29`) gives back only its
  calendar date, as a `date`. In Python a `date` never equals a `datetime`, so that
  comparison cannot hold for any request whose deadline is a `datetime`, as
  construction guarantees (`AddThenGet`).

Other facts of the code:

- `db_operations.py` has no delete or edit function; the `/delete` and `/edit` handlers
  of `website/terminal.py` are stubs.
- The `NoResultFound` branch of listing cannot be reached, because `.all()` never
  raises it. Listing therefore never fails with "not found".

## Model

| member | source | states |
|---|---|---|
| `Python.NatToDecimal` | TaskManager/website/db_operations.py:26-27 | `str` of a non-negative id is one or more decimal digits, with no leading zero unless the id is 0 |
| `Python.DigitsRoundTrip` | TaskManager/tests_website/test_db_operations.py:55 | the digits of `n` read back as `n` |
| `Python.ParseIntRoundTrip` | TaskManager/tests_website/test_db_operations.py:55 | `int(str(n)) == n` for every integer, so the add message gives back the assigned id |
| `Requests.NewAddTaskRequest` | TaskManager/website/models/requests.py:6-11 | construction succeeds iff every field is given and meets its constraint: a title of at most 100 characters, a non-negative int importance, a datetime deadline, `None` or a non-negative int estimate, `None` or a description of at most 2000 characters; the model then holds exactly the values given and meets the constraints; on failure the error names exactly the failing fields |
| `Requests.AddTaskRequestFromOwnFields` | TaskManager/website/models/requests.py:6-11 | a request meeting the constraints, rebuilt from its own fields, is the same request |
| `Requests.AddTaskRejectsBadTitleOrImportance` | TaskManager/website/models/requests.py:7-8 | a title over 100 characters, or an importance that is negative or not an int, makes construction fail and is reported against that field |
| `Requests.NewTargetSpecificTask` | TaskManager/website/models/requests.py:13-23 | field errors (negative or non-int `task_id`, non-string or over-long `title`) are reported first; otherwise the model is accepted iff exactly one of `task_id` and `title` is truthy in Python's sense; both truthy gives "Cannot provide both…", neither gives "Have to provide either…"; an accepted model holds the arguments unchanged |
| `Requests.ValidateOnlyOneField` | TaskManager/website/models/requests.py:17-23 | the validator accepts the instance unchanged iff exactly one of `task_id` and `title` is truthy in Python's sense; both truthy gives "Cannot provide both…", neither gives "Have to provide either…" |
| `Requests.TargetTruthinessExamples` | TaskManager/website/models/requests.py:19-22 | `{task_id: 0}` is rejected as "neither"; `{task_id: 0, title: "x"}` and `{task_id: 5, title: ""}` are accepted; `{task_id: 5, title: "x"}` is rejected as "both" |
| `DbModels.ToDict` | TaskManager/website/db_models.py:26-33 | a row's mapping has exactly the eight columns of the task table as keys |
| `DbModels.ToDictInjective` | TaskManager/website/db_models.py:26-33 | two rows with equal mappings are equal rows |
| `DbOperations.NewTaskRow` | TaskManager/website/db_operations.py:14-22 | read back through `to_dict`, the new row gives the assigned id, the user id and the parent id, and the request's title, importance, estimate and description exactly as the request model holds them; the deadline gives only its calendar date |
| `DbOperations.NextRowId` | TaskManager/website/db_models.py:26 | the key given to a new row is not in use; it is 1 for an empty table, otherwise one more than the largest key (`AssignedKey`) |
| `DbOperations.TryGettingSpecificTask` | TaskManager/website/db_operations.py:50-62 | a `TypeError` if either id is not an int, whichever one it is; otherwise success iff a row has that id and that owner, with the row's mapping; otherwise `NoResultFound` with "No task with id {task_id} found in your account"; a storage error is passed on; the table is only read |
| `DbOperations.TaskStore.constructor` | TaskManager/website/db_models.py:25-47 | an empty, well-keyed task table |
| `DbOperations.TaskStore.TryAddNewTask` | TaskManager/website/db_operations.py:9-30 | a non-model argument gives a `TypeError` and leaves the table unchanged; a failed commit is rolled back, so the table is unchanged and the error is returned; otherwise exactly one row is committed under the key the engine assigns (`AssignedKey`), holding the request's title, importance, deadline date, estimate and description, the user id and the parent id; if reading the new id back then fails, the error is returned and the row stays; otherwise the message is that key's decimal string |
| `DbOperations.TaskStore.FilterByUser` | TaskManager/website/db_operations.py:38 | the query returns every row of the user, once each, and only those rows |
| `DbOperations.TaskStore.TryGettingUserTasks` | TaskManager/website/db_operations.py:32-48 | a `TypeError` for a non-int user id; a storage error is passed on; otherwise success with exactly one mapping per row of the user, none of another user's, and no mapping twice |
| `DbOperations.ListingFromRows` | TaskManager/website/db_operations.py:39-42 | formatting each queried row with `to_dict` lists the user's tasks exactly |
| `DbOperations.EmptyListingWhenNoTasks` | TaskManager/website/db_operations.py:38-42 | a user with no tasks gets an empty list |
| `DbOperations.AddThenGet` | TaskManager/tests_website/test_db_operations.py:44-61 | after a row is added for user U, fetching (U, new id) succeeds, and the mapping holds the request's title, importance, estimate and description, with U as owner and the given parent; the deadline comes back as the `date` of the request's deadline and so differs from the request's `datetime`, unlike the test's comparison at line 61 |
| `DbOperations.AddedTaskHiddenFromOtherUsers` | TaskManager/website/db_operations.py:55-60 | a task added for one user is "not found" for any other user, with the not-found message |
| `DbOperations.AddKeepsOtherLookups` | TaskManager/website/db_operations.py:24-26 | adding a row changes no lookup of any other key |
| `DbOperations.AddExtendsOwnedIds` | TaskManager/tests_website/test_db_operations.py:122-151 | adding a fresh row for a user adds exactly that key to the user's keys and leaves other users' keys unchanged |
| `Terminal.Strip` | TaskManager/website/static/js/terminal.js:73 | `trim` leaves a slice of the line with only whitespace outside it and none at its ends; the result is empty iff the line is all whitespace |
| `Terminal.JoinSplit` | TaskManager/website/static/js/terminal.js:73-75 | joining the pieces of `split(' ')` with spaces gives the string back |
| `Terminal.ParseCommand` | TaskManager/website/static/js/terminal.js:73-75 | the command name has no space; its full shape is stated by `ParseCommandShape` |
| `Terminal.ParseCommandShape` | TaskManager/website/static/js/terminal.js:73-75 | with `t` the trimmed line: `cmd` has no space; if `t` has a space, `cmd` is the text before the first space, `args` the text after it, and `cmd + " " + args == t`; otherwise `cmd == t` and `args == ""` |
| `Terminal.Dispatch` | TaskManager/website/static/js/terminal.js:77-103 | `clear` and `help` are handled locally; exactly `list`, `view`, `add`, `edit` and `delete` go to `/terminal/<cmd>`; every other command is unknown |
| `Terminal.DispatchAsWritten` | TaskManager/website/static/js/terminal.js:88-103 | the lookup as written: `clear` and `help` are handled locally; a request is sent iff the command is one of the five server commands or the name of an `Object.prototype` member; the five go to `/terminal/<cmd>` (see `InheritedMemberIsDispatched` and `DispatchAsWrittenAgreesElsewhere`) |
| `Terminal.InheritedMemberIsDispatched` | TaskManager/website/static/js/terminal.js:97-99 | as written, the command `toString` is sent to the server rather than reported as unknown |
| `Terminal.DispatchAsWrittenAgreesElsewhere` | TaskManager/website/static/js/terminal.js:88-103 | the code as written and the corrected dispatch differ exactly on the names of inherited `Object.prototype` members |
| `Terminal.ProcessedOutput` | TaskManager/website/static/js/terminal.js:68-104 | `clear` leaves exactly the one line "Terminal cleared."; any other command keeps the old output and echoes the command; `help` then appends exactly the help lines; an unknown command appends exactly one error line, `Unknown command: '<cmd>'. …`; a server command appends nothing at once |
| `Terminal.ProcessedRequests` | TaskManager/website/static/js/terminal.js:88-99 | exactly one request, to `/terminal/<cmd>` with `args`, is sent for a server command; `clear`, `help` and unknown commands send none |
| `Terminal.TerminalPage.constructor` | TaskManager/website/static/js/terminal.js:5-6 | empty history, position -1 |
| `Terminal.TerminalPage.AddLine` | TaskManager/website/static/js/terminal.js:13-18 | appends one response line with its class |
| `Terminal.TerminalPage.DisplayHelp` | TaskManager/website/static/js/terminal.js:23-34 | appends the nine help lines and nothing else |
| `Terminal.TerminalPage.SendTerminalCmd` | TaskManager/website/static/js/terminal.js:40-46 | logs one request with the endpoint and the argument string |
| `Terminal.TerminalPage.ProcessCommand` | TaskManager/website/static/js/terminal.js:68-104 | the output and request log become `ProcessedOutput` and `ProcessedRequests` of the old ones |
| `Terminal.TerminalPage.KeyDown` | TaskManager/website/static/js/terminal.js:107-141 | `-1 <= historyIndex < |commandHistory|` holds after every key. Enter on non-blank input prepends the raw input to the history, resets the position to -1, processes the command and empties the input; on blank input it changes nothing. ArrowUp moves to the older entry and shows it only when one exists. ArrowDown from above 0 moves to the newer entry and shows it; from 0 it resets to -1 and empties the input; from -1 it does nothing |

## Findings

| source | as written | input that shows it | evidently intended | confidence | as-written member | corrected member |
|---|---|---|---|---|---|---|
| TaskManager/website/static/js/terminal.js:97 | `if (endpoints[cmd])` looks the command up on an object literal, which also finds members inherited from `Object.prototype`; the request is then sent to the string form of that member | the command `toString` (also `constructor`, `valueOf`, `hasOwnProperty`, …) is sent to the URL made from `function toString() { [native code] }` (as V8 renders a native function), resolved against the page's address | only the five listed commands are sent; any other command gets the unknown-command line | high (not executed) | `Terminal.DispatchAsWritten`, shown by `Terminal.InheritedMemberIsDispatched` | `Terminal.Dispatch`, used by `Terminal.ProcessedOutput`, `Terminal.ProcessedRequests` and `Terminal.TerminalPage.ProcessCommand` |

## Left out

- Flask routes, blueprints and the app factory (`__init__.py`, `views.py`, `auth.py`, `terminal.py`) are framework glue. The terminal handlers for view, list, delete and edit return fixed strings.
- Users, login and password hashing (`db_models.py` `User`, werkzeug scrypt) are a foreign library and outside the modelled core. Registration does not exist in `auth.py`.
- SQLAlchemy sessions and query execution are abstracted as an in-memory table. An optional error text stands for an `SQLAlchemyError` the engine raises at that point: at the commit or at the reload of the new id in add, and at the query in fetch and list. Which failures the engine actually raises is not modelled.
- TryAddNewTask, TryGettingSpecificTask, TryGettingUserTasks: ids and column values outside SQLite's signed 64-bit integer range are not modelled. For them the source's driver raises `OverflowError`, which no `except` clause of `db_operations.py` catches, so the source raises past its response. The model's unbounded integers give a response instead (for a fetch, "not found"; for an add, success).
- NextRowId: does not model SQLite's fallback to a random unused key once the largest key reaches 2^63 - 1.
- TryAddNewTask: `user_id` is taken as an `int`, as typed. The source does not check it, and what the engine does with a non-int is not modelled. `parent_task_id` is stored without an existence check, as in the source; SQLite does not enforce foreign keys by default.
- AddTaskRequest: a field assigned a value of another type after construction is not modelled. In the source, two such cases make the add fail at the commit: a `None` in a NOT NULL column (an `IntegrityError`), and a deadline that is not a date (the `TypeError` of the SQLite `DATE` type, wrapped in a `StatementError`). Both are `SQLAlchemyError`s, so the add rolls back and reports the error. Any other value SQLite can store, such as a string importance or an int title, is stored as given, and the add succeeds.
- NewAddTaskRequest: does not model pydantic's lax coercions, such as numeric strings, bools or integral floats to int, or strings and numbers to datetime. Only values already of the field's type are accepted.
- NewTargetSpecificTask: does not model the same lax coercions, nor the "Value error, " prefix pydantic adds to a validator's message.
- Deadline parsing is library behaviour. A `Datetime` is a date and a time of day, and the model does not compute with either part. How SQLite formats a stored date is not modelled.
- The text of SQLAlchemy's own `NoResultFound` exception is not modelled, only its kind. The response message is modelled exactly.
- ParseInt: models `int()` on an optional sign and decimal digits only. Surrounding whitespace, underscores and non-ASCII Unicode decimal digits, which Python also accepts, are not modelled.
- Browser I/O is not modelled: the `fetch` promise chain and the line that a server response adds later, `innerHTML` as HTML text (the output is a sequence of lines), scrolling, and `preventDefault`. The user's typing is the `EditInput` method. JavaScript strings are UTF-16 code units; the model uses Unicode characters.
- `show_task_dialog.js`, `utils/json_encoders.py` (a wrapper over `isoformat`) and `utils/responses.py` (a duplicate response type) are not part of this model.
