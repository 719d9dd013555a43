/** A V2 task object (lib/operations/v2/task.rb): its fields, its construction, and the
    transitions that only assign fields (`go_to`, `sleep_until_woken`, `complete`). */
module Tasks {
  import opened Values
  import opened Errors
  import opened Records
  import opened OrderedMaps
  import opened Handlers
  import opened Dsl

  /** A task after an operation that may raise part-way: the fields as they were when it stopped. */
  datatype Changed = Changed(task: TaskData, error: Option<Error>)

  /** The declared attribute and model keywords `initialize` copies in; other keywords are dropped. */
  function DeclaredAttributes(c: TaskClass, args: NewArgs): Attrs {
    args.attributes.GetOr(map[])
      + map a | a in args.attributeArgs && a in c.attributeDefinitions.entries :: args.attributeArgs[a]
  }

  function DeclaredModels(c: TaskClass, args: NewArgs): Models {
    args.models.GetOr(map[])
      + map m | m in args.modelArgs && (m in c.modelDefinitions.entries || m in c.modelsDefinitions.entries) :: args.modelArgs[m]
  }

  /** The fields `initialize` assigns before `validate!`. */
  function Initialized(c: TaskClass, args: NewArgs, now: Time): (t: TaskData)
    ensures t.id == args.id && t.typeName == c.name && t.parentTaskId == args.parentTaskId
    ensures t.status == args.status.GetOr(Active)
    ensures t.currentState == args.currentState.GetOr(c.initialState)
    ensures args.timeoutAt.None? ==> t.timeoutAt == Some(now + c.executionTimeout)
    ensures args.deleteAt.None? ==> t.deleteAt == Some(now + c.deletionTime)
    ensures t.exceptionClass.None? && t.exceptionMessage.None? && t.exceptionBacktrace.None?
  {
    TaskData(
      args.id, c.name, args.status.GetOr(Active), args.currentState.GetOr(c.initialState),
      FilledDefaults(c.attributeDefinitions, DeclaredAttributes(c, args)), DeclaredModels(c, args),
      args.parentTaskId, None, None, None,
      args.createdAt.GetOr(now), args.updatedAt.GetOr(now), args.wakeAt,
      Some(args.timeoutAt.GetOr(now + c.executionTimeout)), Some(args.deleteAt.GetOr(now + c.deletionTime)))
  }

  /** `Task.new(**args)`: the initialised task, or the error `validate!` raises. */
  function NewData(c: TaskClass, args: NewArgs, now: Time): (r: Result<TaskData>)
    ensures r.Ok? <==> Validate(c, Initialized(c, args, now)).None?
    ensures r.Ok? ==> r.value == Initialized(c, args, now)
    ensures r.Err? ==> r.error.kind == ValidationError || r.error.kind == NoMethodError
  {
    var t := Initialized(c, args, now);
    match Validate(c, t)
    case Some(e) => Err(e)
    case None => Ok(t)
  }

  /** A task built with no system keywords is active in the initial state and times out
      and expires relative to its creation. */
  lemma NewTaskDefaults(c: TaskClass, attributeArgs: Attrs, modelArgs: Models, now: Time)
    requires NewData(c, Arguments(attributeArgs, modelArgs), now).Ok?
    ensures var t := NewData(c, Arguments(attributeArgs, modelArgs), now).value;
            && t.IsActive() && t.currentState == c.initialState && t.id.None? && t.parentTaskId.None?
            && t.createdAt == now && t.updatedAt == now && t.wakeAt.None?
            && t.timeoutAt == Some(now + c.executionTimeout) && t.deleteAt == Some(now + c.deletionTime)
  {
  }

  /** `go_to(next_state)`: the state changes first; the status then follows the target
      handler, and a missing handler raises NoMethodError with the state already changed. */
  function GoToData(c: TaskClass, t: TaskData, next: string, now: Time): (r: Changed)
    ensures r.task.currentState == next
    ensures r.task.(currentState := t.currentState, status := t.status, wakeAt := t.wakeAt) == t
    ensures r.error.None? <==> HandlerFor(c, next).Some?
    ensures r.error.Some? ==> r.error.value.kind == NoMethodError && r.task.status == t.status && r.task.wakeAt == t.wakeAt
    ensures r.error.None? ==> (r.task.IsActive() <==> HandlerFor(c, next).value.Immediate())
    ensures r.error.None? && !r.task.IsActive() ==> r.task.IsWaiting() && r.task.wakeAt == Some(now + c.backgroundDelay)
    ensures r.task.IsActive() ==> r.task.wakeAt == t.wakeAt
  {
    var moved := t.(currentState := next);
    match HandlerFor(c, next)
    case None => Changed(moved, Some(Raise(NoMethodError, "undefined method 'immediate?' for nil")))
    case Some(h) =>
      if h.Immediate() then Changed(moved.(status := Active), None)
      else Changed(moved.(status := Waiting, wakeAt := Some(now + c.backgroundDelay)), None)
  }

  /** `sleep_until_woken`: waiting until one background delay from now, in the same state. */
  function SleepData(c: TaskClass, t: TaskData, now: Time): (r: TaskData)
    ensures r.IsWaiting() && r.wakeAt == Some(now + c.backgroundDelay)
    ensures r.(status := t.status, wakeAt := t.wakeAt) == t
  {
    t.(status := Waiting, wakeAt := Some(now + c.backgroundDelay))
  }

  /** `complete`: only the status changes. */
  function CompleteData(t: TaskData): (r: TaskData)
    ensures r.IsCompleted() && r.(status := t.status) == t
  {
    t.(status := Completed)
  }

  /** The fields `record_error!` assigns before it saves. */
  function RecordedError(t: TaskData, e: Error): (r: TaskData)
    ensures r.IsFailed()
    ensures r.exceptionClass == Some(ClassName(e.kind)) && r.exceptionMessage == Some(e.message)
    ensures r.exceptionBacktrace == Some(Join(e.backtrace, "\n"))
    ensures r.(status := t.status, exceptionClass := t.exceptionClass, exceptionMessage := t.exceptionMessage,
               exceptionBacktrace := t.exceptionBacktrace) == t
  {
    t.(status := Failed, exceptionClass := Some(ClassName(e.kind)), exceptionMessage := Some(e.message),
       exceptionBacktrace := Some(Join(e.backtrace, "\n")))
  }

  class Task {
    var id: Option<TaskId>
    var typeName: string
    var status: Status
    var currentState: string
    var attributes: Attrs
    var models: Models
    var parentTaskId: Option<TaskId>
    var exceptionClass: Option<string>
    var exceptionMessage: Option<string>
    var exceptionBacktrace: Option<string>
    var createdAt: Time
    var updatedAt: Time
    var wakeAt: Option<Time>
    var timeoutAt: Option<Time>
    var deleteAt: Option<Time>

    /** The task's fields as a value. */
    function Data(): TaskData
      reads this
    {
      TaskData(id, typeName, status, currentState, attributes, models, parentTaskId,
               exceptionClass, exceptionMessage, exceptionBacktrace,
               createdAt, updatedAt, wakeAt, timeoutAt, deleteAt)
    }

    /** `restore_from(data)`: allocates a task and copies the snapshot's fields. */
    constructor RestoreFrom(s: Snapshot)
      ensures Data() == Records.RestoreFrom(s)
    {
      var d := Records.RestoreFrom(s);
      id, typeName, status, currentState := d.id, d.typeName, d.status, d.currentState;
      attributes, models, parentTaskId := d.attributes, d.models, d.parentTaskId;
      exceptionClass, exceptionMessage, exceptionBacktrace := d.exceptionClass, d.exceptionMessage, d.exceptionBacktrace;
      createdAt, updatedAt, wakeAt, timeoutAt, deleteAt := d.createdAt, d.updatedAt, d.wakeAt, d.timeoutAt, d.deleteAt;
    }

    /** The system fields of `initialize`, before the attribute defaults are filled in. */
    constructor Init(c: TaskClass, args: NewArgs, now: Time)
      ensures Data() == Initialized(c, args, now).(attributes := DeclaredAttributes(c, args))
    {
      id := args.id;
      typeName := c.name;
      status := args.status.GetOr(Active);
      currentState := args.currentState.GetOr(c.initialState);
      parentTaskId := args.parentTaskId;
      createdAt := args.createdAt.GetOr(now);
      updatedAt := args.updatedAt.GetOr(now);
      wakeAt := args.wakeAt;
      timeoutAt := Some(args.timeoutAt.GetOr(now + c.executionTimeout));
      deleteAt := Some(args.deleteAt.GetOr(now + c.deletionTime));
      attributes := DeclaredAttributes(c, args);
      models := DeclaredModels(c, args);
      exceptionClass, exceptionMessage, exceptionBacktrace := None, None, None;
    }

    /** `Task.new(**args)`: initialise, fill attribute defaults, then `validate!`. */
    static method New(c: TaskClass, args: NewArgs, now: Time) returns (task: Task?, err: Option<Error>)
      ensures NewData(c, args, now).Ok? ==> err.None? && task != null && fresh(task) && task.Data() == NewData(c, args, now).value
      ensures NewData(c, args, now).Err? ==> task == null && err == Some(NewData(c, args, now).error)
    {
      var t := new Task.Init(c, args, now);
      var filled := InitializeAttributes(c.attributeDefinitions, t.attributes);
      t.attributes := filled;
      var problem := Validate(c, t.Data());
      if problem.Some? {
        return null, problem;
      }
      return t, None;
    }

    /** `to_h`: a snapshot from which `restore_from` rebuilds this task, field for field. */
    function ToH(): (s: Snapshot)
      reads this
      ensures WellFormedStatus(status) ==> Records.RestoreFrom(s) == Data()
      ensures s.status == StatusName(status)
    {
      Records.ToH(Data())
    }

    method GoTo(c: TaskClass, next: string, now: Time) returns (err: Option<Error>)
      modifies this
      ensures Data() == GoToData(c, old(Data()), next, now).task
      ensures err == GoToData(c, old(Data()), next, now).error
    {
      currentState := next;
      var handler := HandlerFor(c, next);
      if handler.None? {
        return Some(Raise(NoMethodError, "undefined method 'immediate?' for nil"));
      }
      status := if handler.value.Immediate() then Active else Waiting;
      if status == Waiting {
        wakeAt := Some(now + c.backgroundDelay);
      }
      err := None;
    }

    method SleepUntilWoken(c: TaskClass, now: Time)
      modifies this
      ensures Data() == SleepData(c, old(Data()), now)
    {
      status := Waiting;
      wakeAt := Some(now + c.backgroundDelay);
    }

    method Complete()
      modifies this
      ensures Data() == CompleteData(old(Data()))
    {
      status := Completed;
    }
  }
}
