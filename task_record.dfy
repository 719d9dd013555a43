/** The state a V2 task carries (lib/operations/v2/task.rb) and the snapshot a storage
    adapter keeps for it (`to_h` / `restore_from`). */
module Records {
  import opened Values

  /** A task's status symbol. Any symbol can be assigned; the engine uses four. */
  datatype Status = Active | Waiting | Completed | Failed | OtherStatus(name: string)

  /** `Symbol#to_s`. */
  function StatusName(s: Status): string {
    match s
    case Active => "active"
    case Waiting => "waiting"
    case Completed => "completed"
    case Failed => "failed"
    case OtherStatus(n) => n
  }

  /** `String#to_sym`. */
  function StatusFromName(n: string): Status {
    if n == "active" then Active
    else if n == "waiting" then Waiting
    else if n == "completed" then Completed
    else if n == "failed" then Failed
    else OtherStatus(n)
  }

  /** One symbol per name: an `OtherStatus` never spells one of the four engine statuses. */
  predicate WellFormedStatus(s: Status) {
    s.OtherStatus? ==> s.name !in ["active", "waiting", "completed", "failed"]
  }

  /** The fields of a task object. */
  datatype TaskData = TaskData(
    id: Option<TaskId>,
    typeName: string,
    status: Status,
    currentState: string,
    attributes: Attrs,
    models: Models,
    parentTaskId: Option<TaskId>,
    exceptionClass: Option<string>,
    exceptionMessage: Option<string>,
    exceptionBacktrace: Option<string>,
    createdAt: Time,
    updatedAt: Time,
    wakeAt: Option<Time>,
    timeoutAt: Option<Time>,
    deleteAt: Option<Time>)
  {
    predicate IsActive() { status == Active }
    predicate IsWaiting() { status == Waiting }
    predicate IsCompleted() { status == Completed }
    predicate IsFailed() { status == Failed }

    /** `in?` / `waiting_until?`: the state is compared by its string form. */
    predicate In(state: string) { currentState == state }

    /** `timeout_at && timeout_at < now`. */
    predicate TimeoutExpired(now: Time) {
      timeoutAt.Some? && timeoutAt.value < now
    }
  }

  /** The hash `to_h` produces: the same fields, with the status as a string. */
  datatype Snapshot = Snapshot(
    id: Option<TaskId>,
    typeName: string,
    status: string,
    currentState: string,
    attributes: Attrs,
    models: Models,
    parentTaskId: Option<TaskId>,
    exceptionClass: Option<string>,
    exceptionMessage: Option<string>,
    exceptionBacktrace: Option<string>,
    createdAt: Time,
    updatedAt: Time,
    wakeAt: Option<Time>,
    timeoutAt: Option<Time>,
    deleteAt: Option<Time>)

  function ToH(t: TaskData): Snapshot {
    Snapshot(t.id, t.typeName, StatusName(t.status), t.currentState, t.attributes, t.models,
             t.parentTaskId, t.exceptionClass, t.exceptionMessage, t.exceptionBacktrace,
             t.createdAt, t.updatedAt, t.wakeAt, t.timeoutAt, t.deleteAt)
  }

  function RestoreFrom(s: Snapshot): TaskData {
    TaskData(s.id, s.typeName, StatusFromName(s.status), s.currentState, s.attributes, s.models,
             s.parentTaskId, s.exceptionClass, s.exceptionMessage, s.exceptionBacktrace,
             s.createdAt, s.updatedAt, s.wakeAt, s.timeoutAt, s.deleteAt)
  }

  /** Restoring a task's snapshot gives back every field of the task. */
  lemma RestoreAfterToH(t: TaskData)
    requires WellFormedStatus(t.status)
    ensures RestoreFrom(ToH(t)) == t
  {
  }

  /** Any stored snapshot survives a restore and a new `to_h` unchanged. */
  lemma ToHAfterRestore(s: Snapshot)
    ensures ToH(RestoreFrom(s)) == s
  {
  }

  /** The keyword arguments `Task.new` accepts. Named system arguments are optional; the
      declared attributes and models arrive as their own maps, and any other keyword is dropped. */
  datatype NewArgs = NewArgs(
    id: Option<TaskId>,
    status: Option<Status>,
    currentState: Option<string>,
    parentTaskId: Option<TaskId>,
    createdAt: Option<Time>,
    updatedAt: Option<Time>,
    wakeAt: Option<Time>,
    timeoutAt: Option<Time>,
    deleteAt: Option<Time>,
    attributes: Option<Attrs>,
    models: Option<Models>,
    attributeArgs: Attrs,
    modelArgs: Models)

  /** `Task.new(**args)` with only declared attribute and model keywords. */
  function Arguments(attributeArgs: Attrs, modelArgs: Models): NewArgs {
    NewArgs(None, None, None, None, None, None, None, None, None, None, None, attributeArgs, modelArgs)
  }
}
