/** The validated request shapes of the terminal API. A model is built from keyword
    arguments; construction either yields the model or fails with a validation error,
    as a schema-validating constructor does. Keyword arguments the schema does not
    name are ignored. */
module Requests {
  import opened Python

  /** Keyword arguments given to a model's constructor. */
  type Kwargs = map<string, Value>

  /** Why construction failed: the fields whose own constraints failed, or the
      message of the `ValueError` a model validator raised. */
  datatype ValidationError = FieldErrors(fields: set<string>) | ValueError(message: string)

  /** Outcome of constructing a model. */
  datatype Constructed<T> = Built(model: T) | Invalid(error: ValidationError)

  const MaxTitleLength := 100
  const MaxDescriptionLength := 2000

  /** The value given for `key`, or `None` when it was not given (a field's default). */
  function Arg(kw: Kwargs, key: string): Value
  {
    if key in kw then kw[key] else NoneV
  }

  // ---------------------------------------------------------------------------
  // Field parsers: `None` means the field's constraint failed.

  /** `str` with `max_length`. */
  function StrField(v: Value, maxLength: nat): Option<string>
  {
    if v.StrV? && |v.s| <= maxLength then Some(v.s) else None
  }

  /** `NonNegativeInt`. */
  function NonNegativeIntField(v: Value): Option<int>
  {
    if v.IntV? && v.i >= 0 then Some(v.i) else None
  }

  /** `datetime`. */
  function DatetimeField(v: Value): Option<Datetime>
  {
    if v.DatetimeV? then Some(v.dt) else None
  }

  /** `Optional[...]` of a field parser's result: `None` is accepted as absent. */
  function OptionalField<T>(v: Value, parsed: Option<T>): Option<Option<T>>
  {
    if v.NoneV? then Some(None) else if parsed.Some? then Some(parsed) else None
  }

  // ---------------------------------------------------------------------------
  // AddTaskRequestModel

  /** An `AddTaskRequestModel` instance. Assignment to its fields is not validated,
      so an instance need not satisfy `ValidAddTaskRequest`. */
  datatype AddTaskRequest = AddTaskRequest(
    title: string,
    importance: int,
    deadline: Datetime,
    estTimeDays: Option<int>,
    description: Option<string>)

  /** The field constraints of `AddTaskRequestModel`. */
  predicate ValidAddTaskRequest(req: AddTaskRequest)
  {
    && |req.title| <= MaxTitleLength
    && req.importance >= 0
    && (req.estTimeDays.Some? ==> req.estTimeDays.value >= 0)
    && (req.description.Some? ==> |req.description.value| <= MaxDescriptionLength)
  }

  const AddTaskFields: set<string> := {"title", "importance", "deadline", "est_time_days", "description"}

  /** Whether the argument for `field` meets that field's constraint. Every field is
      required: `est_time_days` and `description` may be `None` but must be given. */
  predicate AddTaskFieldOk(kw: Kwargs, field: string)
  {
    field in kw &&
    var v := kw[field];
    match field
    case "title" => v.StrV? && |v.s| <= MaxTitleLength
    case "importance" => v.IntV? && v.i >= 0
    case "deadline" => v.DatetimeV?
    case "est_time_days" => v.NoneV? || (v.IntV? && v.i >= 0)
    case "description" => v.NoneV? || (v.StrV? && |v.s| <= MaxDescriptionLength)
    case _ => true
  }

  /** The request as the keyword arguments that would construct it. */
  function AddTaskKwargs(req: AddTaskRequest): Kwargs
  {
    map["title" := StrV(req.title),
        "importance" := IntV(req.importance),
        "deadline" := DatetimeV(req.deadline),
        "est_time_days" := OptionalInt(req.estTimeDays),
        "description" := OptionalStr(req.description)]
  }

  /** `AddTaskRequestModel(**kw)`. It succeeds exactly when every field meets its
      constraint, and the model then holds exactly the values given; otherwise the
      error names exactly the fields that failed. */
  function NewAddTaskRequest(kw: Kwargs): (r: Constructed<AddTaskRequest>)
    ensures r.Built? <==> forall f :: f in AddTaskFields ==> AddTaskFieldOk(kw, f)
    ensures r.Built? ==> ValidAddTaskRequest(r.model)
    ensures r.Built? ==> forall f :: f in AddTaskFields ==> kw[f] == AddTaskKwargs(r.model)[f]
    ensures r.Invalid? ==> r.error == FieldErrors(set f | f in AddTaskFields && !AddTaskFieldOk(kw, f))
  {
    var title := StrField(Arg(kw, "title"), MaxTitleLength);
    var importance := NonNegativeIntField(Arg(kw, "importance"));
    var deadline := DatetimeField(Arg(kw, "deadline"));
    var est := OptionalField(Arg(kw, "est_time_days"), NonNegativeIntField(Arg(kw, "est_time_days")));
    var description := OptionalField(Arg(kw, "description"), StrField(Arg(kw, "description"), MaxDescriptionLength));
    var failed :=
      (if title.None? then {"title"} else {}) +
      (if importance.None? then {"importance"} else {}) +
      (if deadline.None? then {"deadline"} else {}) +
      (if "est_time_days" !in kw || est.None? then {"est_time_days"} else {}) +
      (if "description" !in kw || description.None? then {"description"} else {});
    assert forall f :: f in AddTaskFields ==> (f in failed <==> !AddTaskFieldOk(kw, f));
    if failed == {} then
      Built(AddTaskRequest(title.value, importance.value, deadline.value, est.value, description.value))
    else
      assert failed == set f | f in AddTaskFields && !AddTaskFieldOk(kw, f);
      Invalid(FieldErrors(failed))
  }

  /** A request that meets the constraints is rebuilt unchanged from its own fields. */
  lemma AddTaskRequestFromOwnFields(req: AddTaskRequest)
    requires ValidAddTaskRequest(req)
    ensures NewAddTaskRequest(AddTaskKwargs(req)) == Built(req)
  {
    var r := NewAddTaskRequest(AddTaskKwargs(req));
    assert AddTaskFieldOk(AddTaskKwargs(req), "title");
    assert AddTaskFieldOk(AddTaskKwargs(req), "importance");
    assert AddTaskFieldOk(AddTaskKwargs(req), "deadline");
    assert AddTaskFieldOk(AddTaskKwargs(req), "est_time_days");
    assert AddTaskFieldOk(AddTaskKwargs(req), "description");
    assert r.Built?;
    var kw := AddTaskKwargs(req);
    assert kw["title"] == AddTaskKwargs(r.model)["title"];
    assert kw["importance"] == AddTaskKwargs(r.model)["importance"];
    assert kw["deadline"] == AddTaskKwargs(r.model)["deadline"];
    assert kw["est_time_days"] == AddTaskKwargs(r.model)["est_time_days"];
    assert kw["description"] == AddTaskKwargs(r.model)["description"];
  }

  /** A title longer than 100 characters, or an importance that is negative or not an
      integer, makes construction fail and is reported against its field. */
  lemma AddTaskRejectsBadTitleOrImportance(kw: Kwargs)
    requires ("title" in kw && kw["title"].StrV? && |kw["title"].s| > MaxTitleLength)
          || ("importance" in kw && !(kw["importance"].IntV? && kw["importance"].i >= 0))
    ensures NewAddTaskRequest(kw).Invalid?
    ensures "title" in kw && kw["title"].StrV? && |kw["title"].s| > MaxTitleLength ==>
              "title" in NewAddTaskRequest(kw).error.fields
    ensures "importance" in kw && !(kw["importance"].IntV? && kw["importance"].i >= 0) ==>
              "importance" in NewAddTaskRequest(kw).error.fields
  {
    if "title" in kw && kw["title"].StrV? && |kw["title"].s| > MaxTitleLength {
      assert !AddTaskFieldOk(kw, "title");
    }
    if "importance" in kw && !(kw["importance"].IntV? && kw["importance"].i >= 0) {
      assert !AddTaskFieldOk(kw, "importance");
    }
  }

  // ---------------------------------------------------------------------------
  // TargetSpecificTaskModel

  /** A `TargetSpecificTaskModel` instance: a task chosen by id or by title. */
  datatype TargetSpecificTask = TargetSpecificTask(taskId: Option<int>, title: Option<string>)

  const BothGivenMessage := "Cannot provide both title and task_id"
  const NeitherGivenMessage := "Have to provide either task_id or title, neither was provided"

  /** `task_id: Optional[NonNegativeInt] = None`. */
  predicate TaskIdFieldOk(kw: Kwargs)
  {
    var v := Arg(kw, "task_id");
    v.NoneV? || (v.IntV? && v.i >= 0)
  }

  /** `title: Optional[str] = Field(max_length=100, default=None)`. */
  predicate TargetTitleFieldOk(kw: Kwargs)
  {
    var v := Arg(kw, "title");
    v.NoneV? || (v.StrV? && |v.s| <= MaxTitleLength)
  }

  /** The fields among `task_id` and `title` whose field check fails. */
  function TargetFieldErrors(kw: Kwargs): set<string>
  {
    (if TaskIdFieldOk(kw) then {} else {"task_id"}) + (if TargetTitleFieldOk(kw) then {} else {"title"})
  }

  /** `validate_only_one_field`: run after the field constraints, it rejects an
      instance whose id and title are both truthy, or both falsy. */
  function ValidateOnlyOneField(m: TargetSpecificTask): (r: Constructed<TargetSpecificTask>)
    ensures r.Built? <==> Truthy(OptionalInt(m.taskId)) != Truthy(OptionalStr(m.title))
    ensures r.Built? ==> r.model == m
    ensures r.Invalid? ==>
              r.error == ValueError(if Truthy(OptionalInt(m.taskId)) then BothGivenMessage else NeitherGivenMessage)
  {
    var idGiven := m.taskId.Some? && m.taskId.value != 0;
    var titleGiven := m.title.Some? && m.title.value != "";
    if idGiven && titleGiven then Invalid(ValueError(BothGivenMessage))
    else if !idGiven && !titleGiven then Invalid(ValueError(NeitherGivenMessage))
    else Built(m)
  }

  /** `TargetSpecificTaskModel(**kw)`. Field constraints come first; only when both
      fields pass does the exclusivity validator run. The instance is accepted exactly
      when exactly one of the two arguments is truthy in Python's sense, and it then
      holds the arguments unchanged. */
  function NewTargetSpecificTask(kw: Kwargs): (r: Constructed<TargetSpecificTask>)
    ensures TargetFieldErrors(kw) != {} ==> r == Invalid(FieldErrors(TargetFieldErrors(kw)))
    ensures TargetFieldErrors(kw) == {} ==>
              (r.Built? <==> (Truthy(Arg(kw, "task_id")) != Truthy(Arg(kw, "title"))))
    ensures TargetFieldErrors(kw) == {} && Truthy(Arg(kw, "task_id")) && Truthy(Arg(kw, "title")) ==>
              r == Invalid(ValueError(BothGivenMessage))
    ensures TargetFieldErrors(kw) == {} && !Truthy(Arg(kw, "task_id")) && !Truthy(Arg(kw, "title")) ==>
              r == Invalid(ValueError(NeitherGivenMessage))
    ensures r.Built? ==>
              Arg(kw, "task_id") == OptionalInt(r.model.taskId) && Arg(kw, "title") == OptionalStr(r.model.title)
  {
    var errors := TargetFieldErrors(kw);
    if errors != {} then
      Invalid(FieldErrors(errors))
    else
      var idArg := Arg(kw, "task_id");
      var titleArg := Arg(kw, "title");
      var m := TargetSpecificTask(
        if idArg.IntV? then Some(idArg.i) else None,
        if titleArg.StrV? then Some(titleArg.s) else None);
      ValidateOnlyOneField(m)
  }

  /** Truthiness makes 0 and "" count as absent: `{task_id: 0}` alone is rejected as
      "neither", while `{task_id: 0, title: "x"}` and `{task_id: 5, title: ""}` are accepted. */
  lemma TargetTruthinessExamples()
    ensures NewTargetSpecificTask(map["task_id" := IntV(0)]) == Invalid(ValueError(NeitherGivenMessage))
    ensures NewTargetSpecificTask(map["task_id" := IntV(0), "title" := StrV("x")])
              == Built(TargetSpecificTask(Some(0), Some("x")))
    ensures NewTargetSpecificTask(map["task_id" := IntV(5), "title" := StrV("")])
              == Built(TargetSpecificTask(Some(5), Some("")))
    ensures NewTargetSpecificTask(map["task_id" := IntV(5), "title" := StrV("x")])
              == Invalid(ValueError(BothGivenMessage))
  {
    var one := map["task_id" := IntV(0)];
    assert Arg(one, "title") == NoneV;
    var two := map["task_id" := IntV(0), "title" := StrV("x")];
    assert Arg(two, "title") == StrV("x");
  }
}
