/**
 * The job model of `multiply_ui/ui/job/model.py`: a job is a validated
 * dictionary whose tasks are looked up by name, and whose state is replaced
 * by a newer state of the same job.
 */
module JobModel {
  import opened Wrappers
  import opened Text
  import opened Json
  import opened Schema
  import opened Keyed
  import opened Shapes

  const TaskType := RecordOf([
    PropertyDef("name", Plain(StrType)),
    PropertyDef("progress", Plain(IntType)),
    PropertyDef("status", Plain(StrType))])

  const JobType := RecordOf([
    PropertyDef("id", Plain(StrType)),
    PropertyDef("name", Plain(StrType)),
    PropertyDef("progress", Plain(IntType)),
    PropertyDef("status", Plain(StrType)),
    PropertyDef("tasks", ListOf(TaskType))])

  /**
   * What constructing or updating a job raises: the validation error, or the
   * `TypeError` of subscripting a value that is not a dictionary.
   */
  datatype JobError = Invalid(error: SchemaError) | Lookup(lookupError: LookupError)

  /** `str(v)` for the values an f-string renders without a `repr`. */
  function Display(v: Value): string {
    match v
    case Str(s) => s
    case Int(i) => IntToString(i)
    case Bool(b) => if b then "True" else "False"
    case Null => "None"
    case _ => "?"
  }

  /** The message prefix of `_validate`: the job id when the dictionary has one, `?` otherwise. */
  function JobPrefix(fields: seq<Field>): string {
    match Get(fields, "id")
    case Some(id) => "job " + Display(id) + ": "
    case None => "job ?: "
  }

  /**
   * `_validate` together with the first subscript that follows it. A value
   * that is not a dictionary always ends in `TypeError`: `in` raises it for
   * `None` and numbers, a subscript raises it for text and lists, whether
   * `_validate` or its caller makes that subscript.
   */
  function CheckJob(raw: Value): (r: Option<JobError>)
    ensures r.None? <==> raw.Object? && Accepts(JobType, raw)
    ensures !raw.Object? ==> r == Some(Lookup(NotADict(TypeName(raw))))
  {
    if !raw.Object? then Some(Lookup(NotADict(TypeName(raw))))
    else
      PrefixIrrelevant(JobType, raw, JobPrefix(raw.fields), "");
      match Validate(JobType, raw, JobPrefix(raw.fields))
      case Fail(e) => Some(Invalid(e))
      case Pass => None
  }

  /** A validation error names the job the dictionary claims to be. */
  lemma CheckJobMessage(fields: seq<Field>, e: SchemaError)
    requires CheckJob(Object(fields)) == Some(Invalid(e))
    ensures Validate(JobType, Object(fields), JobPrefix(fields)) == Fail(e)
    ensures Get(fields, "id").Some? && Get(fields, "id").value.Str? ==>
              JobPrefix(fields) == "job " + Get(fields, "id").value.s + ": "
    ensures Get(fields, "id").None? ==> JobPrefix(fields) == "job ?: "
  {
  }

  // ---------------------------------------------------------------------------
  // What validation guarantees
  // ---------------------------------------------------------------------------

  /** The shape of a validated job dictionary, as far as the model relies on it. */
  predicate JobShaped(fields: seq<Field>) {
    && HasText(Object(fields), "id") && HasText(Object(fields), "name") && HasText(Object(fields), "status")
    && Get(fields, "progress").Some? && (Get(fields, "progress").value.Int? || Get(fields, "progress").value.Bool?)
    && HasList(fields, "tasks") && TextKeyed(ListAt(fields, "tasks"), "name")
  }

  lemma TaskShape(x: Value)
    requires Accepts(TaskType, x) && x.Object?
    ensures HasText(x, "name")
  {
    RecordText(TaskType, x, 0);
  }

  lemma IntAccepted(v: Value)
    requires Accepts(Plain(IntType), v)
    ensures v.Int? || v.Bool?
  {
  }

  lemma ProgressAccepted(fields: seq<Field>)
    requires Accepts(JobType, Object(fields))
    ensures Get(fields, "progress").Some? && (Get(fields, "progress").value.Int? || Get(fields, "progress").value.Bool?)
  {
    RecordAccepted(JobType, Object(fields));
    var defs := JobType.properties.defs;
    assert defs[2].name == "progress" && defs[2].propType == Plain(IntType);
    IntAccepted(Get(fields, "progress").value);
  }

  /** Validation against the job type guarantees every entry the job reads. */
  lemma JobShape(fields: seq<Field>)
    requires Accepts(JobType, Object(fields))
    ensures JobShaped(fields)
  {
    JobText(fields, 0, "id");
    JobText(fields, 1, "name");
    JobText(fields, 3, "status");
    ProgressAccepted(fields);
    TasksShape(fields);
  }

  lemma JobText(fields: seq<Field>, i: nat, key: string)
    requires Accepts(JobType, Object(fields))
    requires (i == 0 && key == "id") || (i == 1 && key == "name") || (i == 3 && key == "status")
    ensures HasText(Object(fields), key)
  {
    RecordText(JobType, Object(fields), i);
  }

  lemma TasksShape(fields: seq<Field>)
    requires Accepts(JobType, Object(fields))
    ensures HasList(fields, "tasks") && TextKeyed(ListAt(fields, "tasks"), "name")
  {
    RecordList(JobType, Object(fields), 4, TaskType);
    forall x | x in ListAt(fields, "tasks") && x.Object? ensures HasText(x, "name") {
      TaskShape(x);
    }
  }

  // ---------------------------------------------------------------------------
  // Construction and update, on dictionaries
  // ---------------------------------------------------------------------------

  /** The tasks dictionary `{task['name']: Task(task) for task in tasks}` of a validated job. */
  function TasksOf(fields: seq<Field>): Result<Catalog, LookupError>
    requires JobShaped(fields)
  {
    if "tasks" !in Keys(fields) then Ok(Catalog([]))
    else
      match KeyedBy(ListAt(fields, "tasks"), "name")
      case Err(e) => Err(e)
      case Ok(d) => Ok(Catalog(d))
  }

  /** Why `Job(raw_data)` raises, if it does: validation, then the tasks comprehension. */
  function JobFailure(raw: Value): Option<JobError> {
    match CheckJob(raw)
    case Some(e) => Some(e)
    case None =>
      JobShape(raw.fields);
      match TasksOf(raw.fields)
      case Err(e) => Some(Lookup(e))
      case Ok(_) => None
  }

  /** A job is constructed exactly from a valid dictionary whose tasks are all dictionaries. */
  lemma JobFailureIff(raw: Value)
    ensures JobFailure(raw).None? <==>
              raw.Object? && Accepts(JobType, raw) && HasList(raw.fields, "tasks") && AllDicts(ListAt(raw.fields, "tasks"))
  {
    if raw.Object? && Accepts(JobType, raw) {
      JobShape(raw.fields);
      KeyedByFails(ListAt(raw.fields, "tasks"), "name");
    }
  }

  /** Whatever the job's tasks look like, an invalid dictionary raises its validation error first. */
  lemma JobValidatedFirst(fields: seq<Field>)
    requires !Accepts(JobType, Object(fields))
    ensures Validate(JobType, Object(fields), JobPrefix(fields)).Fail?
    ensures JobFailure(Object(fields)) == Some(Invalid(Validate(JobType, Object(fields), JobPrefix(fields)).error))
  {
    PrefixIrrelevant(JobType, Object(fields), JobPrefix(fields), "");
  }

  /** The tasks of a validated job, as `names` and `get` see them. */
  lemma TasksContents(fields: seq<Field>)
    requires Accepts(JobType, Object(fields))
    ensures JobShaped(fields)
    ensures TasksOf(fields).Ok? <==> AllDicts(ListAt(fields, "tasks"))
    ensures TasksOf(fields).Ok? ==> KeyedFrom(TasksOf(fields).value, ListAt(fields, "tasks"), "name")
  {
    JobShape(fields);
    KeyedByFails(ListAt(fields, "tasks"), "name");
    if TasksOf(fields).Ok? {
      KeyedByFrom(ListAt(fields, "tasks"), "name");
    }
  }

  /** Two states describe the same job when their ids and names agree. */
  predicate SameJob(a: seq<Field>, b: seq<Field>)
    requires JobShaped(a) && JobShaped(b)
  {
    TextAt(Object(a), "id") == TextAt(Object(b), "id") && TextAt(Object(a), "name") == TextAt(Object(b), "name")
  }

  /**
   * `update(new_state)`: the new state after validation, or the error; a
   * valid state of another job is ignored.
   */
  function UpdateOutcome(current: seq<Field>, newState: Value): (r: Result<seq<Field>, JobError>)
    requires Accepts(JobType, Object(current))
  {
    match CheckJob(newState)
    case Some(e) => Err(e)
    case None =>
      JobShape(current);
      JobShape(newState.fields);
      if SameJob(current, newState.fields) then Ok(newState.fields) else Ok(current)
  }

  /** An update fails exactly when the new state is invalid, and then with the same error as construction. */
  lemma UpdateFails(current: seq<Field>, newState: Value)
    requires Accepts(JobType, Object(current))
    ensures UpdateOutcome(current, newState).Err? <==> !(newState.Object? && Accepts(JobType, newState))
    ensures UpdateOutcome(current, newState).Err? ==> Some(UpdateOutcome(current, newState).error) == CheckJob(newState)
  {
  }

  /**
   * A successful update keeps the state valid and keeps the job's identity;
   * it takes the new state exactly when that state is of the same job.
   */
  lemma UpdateKeepsJob(current: seq<Field>, newState: Value)
    requires Accepts(JobType, Object(current)) && UpdateOutcome(current, newState).Ok?
    ensures var d := UpdateOutcome(current, newState).value;
            && Accepts(JobType, Object(d)) && JobShaped(d) && JobShaped(current) && SameJob(d, current)
            && JobShaped(newState.fields)
            && d == if SameJob(current, newState.fields) then newState.fields else current
  {
    JobShape(current);
    JobShape(newState.fields);
  }

  /** Applying the same update twice changes nothing more. */
  lemma UpdateIdempotent(current: seq<Field>, newState: Value)
    requires Accepts(JobType, Object(current)) && UpdateOutcome(current, newState).Ok?
    ensures Accepts(JobType, Object(UpdateOutcome(current, newState).value))
    ensures UpdateOutcome(UpdateOutcome(current, newState).value, newState) == UpdateOutcome(current, newState)
  {
    UpdateKeepsJob(current, newState);
  }

  // ---------------------------------------------------------------------------
  // The job object
  // ---------------------------------------------------------------------------

  /** `Job`: the validated state dictionary, replaced as a whole by `update`. */
  class Job {
    var data: seq<Field>

    predicate Valid()
      reads this
    {
      Accepts(JobType, Object(data))
    }

    constructor FromValid(fields: seq<Field>)
      requires Accepts(JobType, Object(fields))
      ensures data == fields && Valid()
    {
      data := fields;
    }

    /** `Job(raw_data)`: the job, or what the constructor raises. */
    static method Create(raw: Value) returns (r: Result<Job, JobError>)
      ensures r.Err? <==> JobFailure(raw).Some?
      ensures r.Err? ==> Some(r.error) == JobFailure(raw)
      ensures r.Ok? ==> fresh(r.value) && r.value.Valid() && Object(r.value.data) == raw
    {
      var failure := CheckJob(raw);
      if failure.Some? {
        return Err(failure.value);
      }
      JobShape(raw.fields);
      var tasks := TasksOf(raw.fields);
      if tasks.Err? {
        return Err(Lookup(tasks.error));
      }
      var job := new Job.FromValid(raw.fields);
      return Ok(job);
    }

    function Id(): (id: string)
      reads this
      requires Valid()
      ensures Get(data, "id") == Some(Str(id))
    {
      JobShape(data);
      TextAt(Object(data), "id")
    }

    function Name(): (name: string)
      reads this
      requires Valid()
      ensures Get(data, "name") == Some(Str(name))
    {
      JobShape(data);
      TextAt(Object(data), "name")
    }

    /** `progress`: an `int`, or a `bool`, which validation accepts as an `int`. */
    function Progress(): (p: Value)
      reads this
      requires Valid()
      ensures Get(data, "progress") == Some(p) && (p.Int? || p.Bool?)
    {
      JobShape(data);
      Get(data, "progress").value
    }

    function Status(): (status: string)
      reads this
      requires Valid()
      ensures Get(data, "status") == Some(Str(status))
    {
      JobShape(data);
      TextAt(Object(data), "status")
    }

    predicate HasTasks()
      reads this
    {
      "tasks" in Keys(data)
    }

    /** `tasks`: recomputed from the state on every call. */
    function Tasks(): (r: Result<Catalog, LookupError>)
      reads this
      requires Valid()
      ensures HasTasks() && HasList(data, "tasks")
      ensures r.Ok? <==> AllDicts(ListAt(data, "tasks"))
      ensures r.Ok? ==> KeyedFrom(r.value, ListAt(data, "tasks"), "name")
    {
      TasksContents(data);
      TasksOf(data)
    }

    /** `as_dict`: a copy of the state; a copy of a value is the value itself. */
    method AsDict() returns (d: Value)
      requires Valid()
      ensures d.Object? && Accepts(JobType, d) && d.fields == data
    {
      d := Object(data);
    }

    /** `update(new_state)`. */
    method Update(newState: Value) returns (error: Option<JobError>)
      requires Valid()
      modifies this
      ensures Valid()
      ensures error.Some? <==> UpdateOutcome(old(data), newState).Err?
      ensures error.Some? ==> error.value == UpdateOutcome(old(data), newState).error && data == old(data)
      ensures error.None? ==> data == UpdateOutcome(old(data), newState).value
    {
      var failure := CheckJob(newState);
      if failure.Some? {
        return failure;
      }
      JobShape(newState.fields);
      var id := Id();
      var name := Name();
      JobShape(data);
      if id == TextAt(newState, "id") && name == TextAt(newState, "name") {
        data := newState.fields;
      }
      UpdateKeepsJob(old(data), newState);
      return None;
    }
  }
}
