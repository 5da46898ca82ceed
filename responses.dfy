/** The result objects the data-access functions return instead of raising. */
module Responses {
  import opened Python

  /** The exception a failed call carries; the text is what `str(err)` gives. */
  datatype PyError =
    | TypeError(text: string)
    | NoResultFound               // SQLAlchemy's own text for it is not modelled
    | SQLAlchemyError(text: string)

  /** `Task.to_dict()`: one entry per column, keyed by the column's name. */
  type TaskDict = map<string, Value>

  /** `SimpleResponse(success, message='', exception=None)`. */
  datatype SimpleResponse = SimpleResponse(success: bool, message: string, exception: Option<PyError>)

  /** `ManyTasksResponse`: a `SimpleResponse` with a list of task mappings (`None` by default). */
  datatype ManyTasksResponse =
    ManyTasksResponse(success: bool, message: string, exception: Option<PyError>, tasks: Option<seq<TaskDict>>)

  /** `OneTaskResponse`: the shape of `ManyTasksResponse`, with one task mapping instead of a list. */
  datatype OneTaskResponse =
    OneTaskResponse(success: bool, message: string, exception: Option<PyError>, task: Option<TaskDict>)
}
