/** The engine as the Ruby code runs it: the task object's fields and the store adapter's Hash
    change in place. Each method is proved to leave the objects exactly as the corresponding
    function of module Execution describes. */
module Engine {
  import opened Values
  import opened Errors
  import opened Records
  import opened Handlers
  import opened Dsl
  import opened Tasks
  import opened Storage
  import Execution

  /** The task object and the store object as a value. */
  function WorldOf(task: Task, store: MemoryStore): Execution.World
    reads task, store
    requires store.Valid()
  {
    Execution.World(task.Data(), store.State())
  }

  /** The objects and the ending a method reports agree with a run's result. */
  ghost predicate Reports(r: Execution.RunResult, task: Task, store: MemoryStore, error: Option<Error>, exhausted: bool)
    reads task, store
  {
    && store.Valid()
    && WorldOf(task, store) == r.world
    && (exhausted <==> r.Exhausted?)
    && (if r.Raised? then error == Some(r.error) else error.None?)
  }

  /** `start(task_class, **attributes)`: a child task is built and saved; the inline executor's
      `later` runs nothing for it, since it is waiting. */
  method StartChild(task: Task, req: StartRequest, store: MemoryStore, now: Time) returns (err: Option<Error>)
    requires store.Valid()
    modifies store
    ensures store.Valid()
    ensures Execution.Outcome(WorldOf(task, store), err) == Execution.StartChild(old(WorldOf(task, store)), req, now)
  {
    var child, e := Task.New(req.taskClass, Execution.ChildArgs(task.Data(), req.args), now);
    if e.Some? {
      return e;
    }
    store.Save(child, now);
    err := None;
  }

  /** One operation of a body, on the task object. */
  method PerformOp(task: Task, c: TaskClass, store: MemoryStore, op: TaskOp, now: Time) returns (err: Option<Error>)
    requires store.Valid()
    modifies task, store
    ensures store.Valid()
    ensures Execution.Outcome(WorldOf(task, store), err) == Execution.ApplyOp(c, old(WorldOf(task, store)), op, now)
  {
    err := None;
    match op
    case SetAttribute(a, v) => task.attributes := task.attributes[a := v];
    case SetModel(m, ref) => task.models := task.models[m := One(ref)];
    case SetModels(m, refs) => task.models := task.models[m := Many(ArrayOf(refs))];
    case GoTo(state) => err := task.GoTo(c, state, now);
    case SleepUntilWoken => task.SleepUntilWoken(c, now);
    case Complete => task.Complete();
    case Start(req) => err := StartChild(task, req, store, now);
    case Raises(e) => err := Some(e);
  }

  /** `task.instance_exec(&block)`: the body's operations in order, until one raises. */
  method Perform(task: Task, c: TaskClass, store: MemoryStore, ops: seq<TaskOp>, now: Time) returns (err: Option<Error>)
    requires store.Valid()
    modifies task, store
    ensures store.Valid()
    ensures Execution.Outcome(WorldOf(task, store), err) == Execution.ApplyOps(c, old(WorldOf(task, store)), ops, now)
  {
    var i := 0;
    while i < |ops|
      invariant 0 <= i <= |ops|
      invariant store.Valid()
      invariant Execution.ApplyOps(c, old(WorldOf(task, store)), ops, now) == Execution.ApplyOps(c, WorldOf(task, store), ops[i..], now)
    {
      assert ops[i..][0] == ops[i] && ops[i..][1..] == ops[i + 1..];
      err := PerformOp(task, c, store, ops[i], now);
      if err.Some? {
        return;
      }
      i := i + 1;
    }
    err := None;
  }

  /** `handler.call(task)`. */
  method InvokeHandler(task: Task, c: TaskClass, h: Handler, store: MemoryStore, now: Time) returns (err: Option<Error>)
    requires store.Valid()
    modifies task, store
    ensures store.Valid()
    ensures Execution.Outcome(WorldOf(task, store), err) == Execution.CallHandler(c, h, old(WorldOf(task, store)), now)
  {
    match h
    case ActionHandler(_, action, next) =>
      if action.None? {
        return Some(Raise(LocalJumpError, "no block given (yield)"));
      }
      err := Perform(task, c, store, action.value(task.Data()), now);
      if err.None? && next.Some? {
        err := task.GoTo(c, next.value, now);
      }
    case DecisionHandler(name, rule) =>
      var target := Decide(name, rule, task.Data());
      if target.Err? {
        return Some(target.error);
      }
      err := task.GoTo(c, target.value, now);
    case WaitHandler(name, rule) =>
      match Wait(name, rule, task.Data()) {
        case Advance(target) => err := task.GoTo(c, target, now);
        case Sleep =>
          task.SleepUntilWoken(c, now);
          err := None;
        case WaitFailed(e) => err := Some(e);
      }
    case ResultHandler(_) =>
      task.Complete();
      err := None;
  }

  /** `record_error!(ex)`. */
  method RecordError(task: Task, store: MemoryStore, e: Error, now: Time)
    requires store.Valid()
    modifies task, store
    ensures store.Valid()
    ensures WorldOf(task, store) == Execution.WithErrorRecorded(old(WorldOf(task, store)), e, now)
  {
    ghost var w := WorldOf(task, store);
    task.status := Failed;
    task.exceptionClass := Some(ClassName(e.kind));
    task.exceptionMessage := Some(e.message);
    task.exceptionBacktrace := Some(Join(e.backtrace, "\n"));
    assert task.Data() == RecordedError(w.task, e);
    store.Save(task, now);
  }

  /** One pass of `execute_state_machine`'s loop: the current state's handler, then a save; a
      missing handler or an error is recorded instead. */
  method Pass(task: Task, c: TaskClass, store: MemoryStore, now: Time) returns (err: Option<Error>)
    requires store.Valid()
    modifies task, store
    ensures store.Valid()
    ensures var s := Execution.StepOnce(c, now, old(WorldOf(task, store)));
            WorldOf(task, store) == s.world && err == (if s.Stop? then Some(s.error) else None)
  {
    ghost var before := WorldOf(task, store);
    var handler := HandlerFor(c, task.currentState);
    if handler.None? {
      var e := Raise(InvalidState, "No handler for state: " + task.currentState);
      RecordError(task, store, e, now);
      return Some(e);
    }
    err := InvokeHandler(task, c, handler.value, store, now);
    if err.Some? {
      RecordError(task, store, err.value, now);
      return;
    }
    store.Save(task, now);
  }

  /** `execute_state_machine`, allowed at most `fuel` handler calls. */
  method ExecuteStateMachine(task: Task, c: TaskClass, store: MemoryStore, now: Time, fuel: nat)
    returns (error: Option<Error>, exhausted: bool)
    requires store.Valid()
    modifies task, store
    ensures Reports(Execution.ExecuteStateMachine(c, old(WorldOf(task, store)), now, fuel), task, store, error, exhausted)
  {
    ghost var step := Execution.StepOf(c, now);
    ghost var start := WorldOf(task, store);
    ghost var outcome := Execution.Loop(step, start, "", fuel);
    assert Execution.ExecuteStateMachine(c, start, now, fuel) == outcome;
    var previous := "";
    var remaining := fuel;
    while task.status == Active && previous != task.currentState
      invariant store.Valid()
      invariant Execution.Loop(step, WorldOf(task, store), previous, remaining) == outcome
      decreases remaining
    {
      ghost var w := WorldOf(task, store);
      assert w.task.IsActive() && previous != w.task.currentState;
      if remaining == 0 {
        assert outcome == Execution.Exhausted(w);
        return None, true;
      }
      var state := task.currentState;
      var err := Pass(task, c, store, now);
      Execution.LoopUnfolds(step, w, previous, remaining);
      if err.Some? {
        assert outcome == Execution.Raised(WorldOf(task, store), err.value);
        return err, false;
      }
      previous, remaining := state, remaining - 1;
    }
    assert outcome == Execution.Finished(WorldOf(task, store), previous);
    return None, false;
  }

  /** The operations of the executor contract (adapters/executor/base.rb). */
  datatype ExecutorOperation = ExecuteCall | ExecuteLater | ExecuteWake

  function ExecutorOperationName(op: ExecutorOperation): string {
    match op
    case ExecuteCall => "call"
    case ExecuteLater => "later"
    case ExecuteWake => "wake"
  }

  /** What the base executor does for an operation a subclass does not override: it raises
      NotImplementedError naming the executor class and the operation. */
  function ExecutorUnimplemented(executorClass: string, op: ExecutorOperation): (e: Error)
    ensures e.kind == NotImplementedError
    ensures e.message == executorClass + " must implement #" + ExecutorOperationName(op)
  {
    Raise(NotImplementedError, executorClass + " must implement #" + ExecutorOperationName(op))
  }

  /** The inline executor's `call`. */
  method InlineCall(task: Task, c: TaskClass, store: MemoryStore, now: Time, fuel: nat)
    returns (error: Option<Error>, exhausted: bool)
    requires store.Valid()
    modifies task, store
    ensures Reports(Execution.InlineCall(c, old(WorldOf(task, store)), now, fuel), task, store, error, exhausted)
  {
    error, exhausted := ExecuteStateMachine(task, c, store, now, fuel);
  }

  /** The inline executor's `later`: in inline mode, `call`. */
  method InlineLater(task: Task, c: TaskClass, store: MemoryStore, now: Time, fuel: nat)
    returns (error: Option<Error>, exhausted: bool)
    requires store.Valid()
    modifies task, store
    ensures Reports(Execution.InlineLater(c, old(WorldOf(task, store)), now, fuel), task, store, error, exhausted)
  {
    error, exhausted := InlineCall(task, c, store, now, fuel);
  }

  /** The inline executor's `wake`: the status becomes active, then `call`. */
  method InlineWake(task: Task, c: TaskClass, store: MemoryStore, now: Time, fuel: nat)
    returns (error: Option<Error>, exhausted: bool)
    requires store.Valid()
    modifies task, store
    ensures Reports(Execution.InlineWake(c, old(WorldOf(task, store)), now, fuel), task, store, error, exhausted)
  {
    task.status := Active;
    error, exhausted := InlineCall(task, c, store, now, fuel);
  }

  /** `wake_up!`. */
  method WakeUp(task: Task, c: TaskClass, store: MemoryStore, now: Time, fuel: nat)
    returns (error: Option<Error>, exhausted: bool)
    requires store.Valid()
    modifies task, store
    ensures Reports(Execution.WakeUp(c, old(WorldOf(task, store)), now, fuel), task, store, error, exhausted)
  {
    if task.Data().TimeoutExpired(now) {
      exhausted := false;
      match c.timeoutHandler {
        case None => error := Some(Raise(Timeout, "Timeout expired"));
        case Some(callback) => error := Perform(task, c, store, callback(task.Data()), now);
      }
      return;
    }
    error, exhausted := InlineWake(task, c, store, now, fuel);
    if error.None? && !exhausted {
      store.Save(task, now);
    }
  }

  /** Calling the interaction `interactionName` on the task: the method the interaction defines
      on the task class, then the handler's `call`. */
  method Interact(task: Task, c: TaskClass, interactionName: string, args: seq<Value>, store: MemoryStore, now: Time, fuel: nat)
    returns (error: Option<Error>, exhausted: bool)
    requires store.Valid()
    modifies task, store
    ensures Reports(Execution.Interact(c, interactionName, args, old(WorldOf(task, store)), now, fuel), task, store, error, exhausted)
  {
    var handler := InteractionHandlerFor(c, interactionName);
    if handler.None? {
      return Some(Raise(NoMethodError, "undefined method '" + interactionName + "'")), false;
    }
    var h := handler.value;
    if !InteractionAllowed(h, task.currentState) {
      return Some(Raise(InvalidState, "Cannot call " + h.name + " when in state " + task.currentState)), false;
    }
    if h.implementation.None? {
      return Some(Raise(LocalJumpError, "no block given (yield)")), false;
    }
    error := Perform(task, c, store, h.implementation.value(task.Data(), args), now);
    exhausted := false;
    if error.None? && task.status == Waiting {
      error, exhausted := WakeUp(task, c, store, now, fuel);
    }
  }

  /** The objects a class-level entry point leaves agree with its result. */
  ghost predicate StartReports(r: Execution.Started, task: Task?, store: MemoryStore, error: Option<Error>, exhausted: bool)
    reads task, store
  {
    match r
    case NotCreated(e) => task == null && error == Some(e) && !exhausted
    case Created(run) => task != null && Reports(run, task, store, error, exhausted)
  }

  /** `Task.call(**attributes)`. */
  method Call(c: TaskClass, args: NewArgs, store: MemoryStore, now: Time, fuel: nat)
    returns (task: Task?, error: Option<Error>, exhausted: bool)
    requires store.Valid()
    modifies store
    ensures store.Valid() && (task == null ==> store.State() == old(store.State()))
    ensures task != null ==> fresh(task)
    ensures StartReports(Execution.Call(c, args, old(store.State()), now, fuel), task, store, error, exhausted)
  {
    var e;
    task, e := Task.New(c, args, now);
    if e.Some? {
      return null, e, false;
    }
    error, exhausted := InlineCall(task, c, store, now, fuel);
    if error.None? && !exhausted {
      store.Save(task, now);
    }
  }

  /** `Task.later(**attributes)`. */
  method Later(c: TaskClass, args: NewArgs, store: MemoryStore, now: Time, fuel: nat)
    returns (task: Task?, error: Option<Error>, exhausted: bool)
    requires store.Valid()
    modifies store
    ensures store.Valid() && (task == null ==> store.State() == old(store.State()))
    ensures task != null ==> fresh(task)
    ensures StartReports(Execution.Later(c, args, old(store.State()), now, fuel), task, store, error, exhausted)
  {
    var e;
    task, e := Task.New(c, args.(status := Some(Waiting)), now);
    if e.Some? {
      return null, e, false;
    }
    store.Save(task, now);
    error, exhausted := InlineLater(task, c, store, now, fuel);
  }

  /** `Task.test(state, **attributes)`. */
  method Test(c: TaskClass, state: string, args: NewArgs, store: MemoryStore, now: Time)
    returns (task: Task?, error: Option<Error>)
    requires store.Valid()
    modifies store
    ensures store.Valid() && (task == null ==> store.State() == old(store.State()))
    ensures task != null ==> fresh(task)
    ensures StartReports(Execution.Test(c, state, args, old(store.State()), now), task, store, error, false)
  {
    var e;
    task, e := Task.New(c, args.(currentState := Some(state)), now);
    if e.Some? {
      return null, e;
    }
    var handler := HandlerFor(c, state);
    if handler.None? {
      return task, Some(Raise(NoMethodError, "undefined method 'call' for nil"));
    }
    error := InvokeHandler(task, c, handler.value, store, now);
  }
}
