/** What running a V2 task does (lib/operations/v2/task.rb with the handlers and the inline
    executor), stated as functions over a task and its store. The methods in module Engine
    perform the same steps in place and are proved equal to these functions. */
module Execution {
  import opened Values
  import opened Errors
  import opened Records
  import opened OrderedMaps
  import opened Handlers
  import opened Dsl
  import opened Tasks
  import opened Storage

  /** The running task and the store it is saved in. */
  datatype World = World(task: TaskData, store: Store)

  /** The world after a step that may raise part-way. */
  datatype Outcome = Outcome(world: World, error: Option<Error>)

  /** The arguments `start` passes on to `task_class.later`: this task's id as the parent, and
      `later`'s status waiting. */
  function ChildArgs(parent: TaskData, args: NewArgs): NewArgs {
    args.(parentTaskId := parent.id, status := Some(Waiting))
  }

  /** `start(task_class, **attributes)`: the child is built waiting and saved. The executor's
      `later` then runs the child's loop, which does nothing for a waiting task
      (see `InactiveTaskRunsNothing`). */
  function StartChild(w: World, req: StartRequest, now: Time): (o: Outcome)
    ensures o.world.task == w.task
  {
    match NewData(req.taskClass, ChildArgs(w.task, req.args), now)
    case Err(e) => Outcome(w, Some(e))
    case Ok(child) => Outcome(w.(store := Saved(w.store, child, now).store), None)
  }

  /** One operation of a body, run on the task. */
  function ApplyOp(c: TaskClass, w: World, op: TaskOp, now: Time): (o: Outcome)
  {
    match op
    case SetAttribute(a, v) => Outcome(w.(task := w.task.(attributes := w.task.attributes[a := v])), None)
    case SetModel(m, ref) => Outcome(w.(task := w.task.(models := w.task.models[m := One(ref)])), None)
    case SetModels(m, refs) => Outcome(w.(task := w.task.(models := w.task.models[m := Many(ArrayOf(refs))])), None)
    case GoTo(state) =>
      var changed := GoToData(c, w.task, state, now);
      Outcome(w.(task := changed.task), changed.error)
    case SleepUntilWoken => Outcome(w.(task := SleepData(c, w.task, now)), None)
    case Complete => Outcome(w.(task := CompleteData(w.task)), None)
    case Start(req) => StartChild(w, req, now)
    case Raises(e) => Outcome(w, Some(e))
  }

  /** A body's operations in order (`instance_exec`); the first error stops the body. */
  function ApplyOps(c: TaskClass, w: World, ops: seq<TaskOp>, now: Time): (o: Outcome)
    decreases |ops|
  {
    if ops == [] then Outcome(w, None)
    else
      var first := ApplyOp(c, w, ops[0], now);
      if first.error.Some? then first else ApplyOps(c, first.world, ops[1..], now)
  }

  /** `task.go_to(state)` on a world. */
  function GoToWorld(c: TaskClass, w: World, state: string, now: Time): (o: Outcome)
    ensures o.world.store == w.store
  {
    var changed := GoToData(c, w.task, state, now);
    Outcome(w.(task := changed.task), changed.error)
  }

  /** `handler.call(task)` for each kind of handler. */
  function CallHandler(c: TaskClass, h: Handler, w: World, now: Time): (o: Outcome)
  {
    match h
    case ActionHandler(_, action, next) =>
      (match action
       case None => Outcome(w, Some(Raise(LocalJumpError, "no block given (yield)")))
       case Some(body) =>
         var ran := ApplyOps(c, w, body(w.task), now);
         if ran.error.Some? || next.None? then ran else GoToWorld(c, ran.world, next.value, now))
    case DecisionHandler(name, rule) =>
      (match Decide(name, rule, w.task)
       case Ok(target) => GoToWorld(c, w, target, now)
       case Err(e) => Outcome(w, Some(e)))
    case WaitHandler(name, rule) =>
      (match Wait(name, rule, w.task)
       case Advance(target) => GoToWorld(c, w, target, now)
       case Sleep => Outcome(w.(task := SleepData(c, w.task, now)), None)
       case WaitFailed(e) => Outcome(w, Some(e)))
    case ResultHandler(_) => Outcome(w.(task := CompleteData(w.task)), None)
  }

  /** The task is saved: the store holds its snapshot under its id. */
  ghost predicate IsSaved(w: World) {
    && w.task.id.Some? && w.task.id.value in w.store.snapshots.entries
    && w.store.snapshots.entries[w.task.id.value] == ToH(w.task)
  }

  /** `record_error!(e)` has run: the task is failed with the exception's class, message and
      backtrace, and saved. */
  ghost predicate IsRecorded(w: World, e: Error) {
    && w.task.IsFailed()
    && w.task.exceptionClass == Some(ClassName(e.kind))
    && w.task.exceptionMessage == Some(e.message)
    && w.task.exceptionBacktrace == Some(Join(e.backtrace, "\n"))
    && IsSaved(w)
  }

  /** `record_error!(ex)`: mark the task failed with the exception, then save it. */
  function WithErrorRecorded(w: World, e: Error, now: Time): (r: World)
    ensures IsRecorded(r, e)
    ensures r.task == RecordedError(w.task, e).(id := r.task.id, updatedAt := now)
  {
    var saved := Saved(w.store, RecordedError(w.task, e), now);
    World(saved.task, saved.store)
  }

  /** `storage.save(task)` on a world. */
  function SavedWorld(w: World, now: Time): (r: World)
    ensures IsSaved(r)
    ensures r.task == w.task.(id := r.task.id, updatedAt := now)
  {
    var saved := Saved(w.store, w.task, now);
    World(saved.task, saved.store)
  }

  /** One pass of the loop's body. */
  datatype Step = Continue(world: World) | Stop(world: World, error: Error)

  /** The body of `execute_state_machine`'s loop: call the current state's handler, then save;
      a missing handler or an error in the handler is recorded and ends the loop. */
  function StepOnce(c: TaskClass, now: Time, w: World): (s: Step)
    ensures s.Continue? ==> IsSaved(s.world)
    ensures s.Stop? ==> IsRecorded(s.world, s.error)
  {
    var state := w.task.currentState;
    match HandlerFor(c, state)
    case None =>
      var e := Raise(InvalidState, "No handler for state: " + state);
      Stop(WithErrorRecorded(w, e, now), e)
    case Some(h) =>
      var o := CallHandler(c, h, w, now);
      match o.error
      case Some(e) => Stop(WithErrorRecorded(o.world, e, now), e)
      case None => Continue(SavedWorld(o.world, now))
  }

  /** The loop body of a task class, as a value the loop can be given. */
  function Body(c: TaskClass, now: Time): World -> Step {
    (w: World) => StepOnce(c, now, w)
  }

  /** How a run ended: the loop condition failed (`previous` is the state the last step
      started from), an error escaped, or the step bound ran out. */
  datatype RunResult = Finished(world: World, previous: string) | Raised(world: World, error: Error) | Exhausted(world: World)

  /** `while task.active? && previous_state != task.current_state`, for a loop body `step`,
      allowed at most `fuel` passes. */
  function Loop(step: World -> Step, w: World, previous: string, fuel: nat): RunResult
    decreases fuel
  {
    if !(w.task.IsActive() && previous != w.task.currentState) then Finished(w, previous)
    else if fuel == 0 then Exhausted(w)
    else
      match step(w)
      case Stop(failed, e) => Raised(failed, e)
      case Continue(next) => Loop(step, next, w.task.currentState, fuel - 1)
  }

  /** `execute_state_machine` after `previous`, allowed at most `fuel` handler calls. */
  function Run(c: TaskClass, w: World, previous: string, now: Time, fuel: nat): RunResult {
    Loop(Body(c, now), w, previous, fuel)
  }

  /** `execute_state_machine` from its start (`previous_state = ""`). */
  function ExecuteStateMachine(c: TaskClass, w: World, now: Time, fuel: nat): RunResult {
    Run(c, w, "", now, fuel)
  }

  // ---------------------------------------------------------------------------------------
  // The loop

  /** The loop stops only when the task is no longer active or the last pass left the state
      unchanged. */
  lemma {:induction false} LoopFinishedIsStable(step: World -> Step, w: World, previous: string, fuel: nat)
    requires Loop(step, w, previous, fuel).Finished?
    ensures var r := Loop(step, w, previous, fuel);
            !r.world.task.IsActive() || r.world.task.currentState == r.previous
    decreases fuel
  {
    if w.task.IsActive() && previous != w.task.currentState && fuel > 0 && step(w).Continue? {
      LoopFinishedIsStable(step, step(w).world, w.task.currentState, fuel - 1);
    }
  }

  /** When every pass saves the task, a loop that ran at least once leaves the task saved. */
  lemma {:induction false} LoopFinishedIsSaved(step: World -> Step, w: World, previous: string, fuel: nat)
    requires forall x :: step(x).Continue? ==> IsSaved(step(x).world)
    requires w.task.IsActive() && previous != w.task.currentState
    requires Loop(step, w, previous, fuel).Finished?
    ensures IsSaved(Loop(step, w, previous, fuel).world)
    decreases fuel
  {
    var next := step(w).world;
    if next.task.IsActive() && w.task.currentState != next.task.currentState {
      LoopFinishedIsSaved(step, next, w.task.currentState, fuel - 1);
    }
  }

  /** When every stopping pass records its error, so does the loop. */
  lemma {:induction false} LoopRaisedIsRecorded(step: World -> Step, w: World, previous: string, fuel: nat)
    requires forall x :: step(x).Stop? ==> IsRecorded(step(x).world, step(x).error)
    requires Loop(step, w, previous, fuel).Raised?
    ensures IsRecorded(Loop(step, w, previous, fuel).world, Loop(step, w, previous, fuel).error)
    decreases fuel
  {
    if step(w).Continue? {
      LoopRaisedIsRecorded(step, step(w).world, w.task.currentState, fuel - 1);
    }
  }

  /** While the loop condition holds and passes remain, the loop is one pass of `step` followed
      by the rest of the loop. */
  lemma LoopUnfolds(step: World -> Step, w: World, previous: string, fuel: nat)
    requires w.task.IsActive() && previous != w.task.currentState && fuel > 0
    ensures step(w).Stop? ==> Loop(step, w, previous, fuel) == Raised(step(w).world, step(w).error)
    ensures step(w).Continue? ==> Loop(step, w, previous, fuel) == Loop(step, step(w).world, w.task.currentState, fuel - 1)
  {
  }

  /** While the loop condition holds and passes remain, `Run` is one pass of the body followed
      by the rest of the loop. */
  lemma RunUnfolds(c: TaskClass, w: World, previous: string, now: Time, fuel: nat)
    requires w.task.IsActive() && previous != w.task.currentState && fuel > 0
    ensures Run(c, w, previous, now, fuel) == match StepOnce(c, now, w)
                                              case Stop(failed, e) => Raised(failed, e)
                                              case Continue(next) => Run(c, next, w.task.currentState, now, fuel - 1)
  {
  }

  /** The loop body of `c` as a step known only by its passes: applied to a world it is
      `StepOnce`, and running `c` is running the loop over it. */
  lemma StepOf(c: TaskClass, now: Time) returns (step: World -> Step)
    ensures forall w {:trigger StepOnce(c, now, w)} :: step(w) == StepOnce(c, now, w)
    ensures forall w, previous, fuel {:trigger Run(c, w, previous, now, fuel)} ::
              Run(c, w, previous, now, fuel) == Loop(step, w, previous, fuel)
  {
    step := Body(c, now);
  }

  /** The loop stops only when the task is no longer active or the last step left the state
      unchanged. */
  lemma FinishedRunIsStable(c: TaskClass, w: World, previous: string, now: Time, fuel: nat)
    requires Run(c, w, previous, now, fuel).Finished?
    ensures var r := Run(c, w, previous, now, fuel);
            !r.world.task.IsActive() || r.world.task.currentState == r.previous
  {
    LoopFinishedIsStable(Body(c, now), w, previous, fuel);
  }

  /** A task that is not active, or whose state is the one the last pass started from, runs
      no handler: the world is returned unchanged. */
  lemma InactiveTaskRunsNothing(c: TaskClass, w: World, previous: string, now: Time, fuel: nat)
    requires !w.task.IsActive() || previous == w.task.currentState
    ensures Run(c, w, previous, now, fuel) == Finished(w, previous)
  {
  }

  /** After every handler call the task is saved, so once at least one step has run, a finished
      run leaves the store holding exactly the task's final snapshot. */
  lemma FinishedRunIsSaved(c: TaskClass, w: World, previous: string, now: Time, fuel: nat)
    requires w.task.IsActive() && previous != w.task.currentState
    requires Run(c, w, previous, now, fuel).Finished?
    ensures IsSaved(Run(c, w, previous, now, fuel).world)
  {
    LoopFinishedIsSaved(Body(c, now), w, previous, fuel);
  }

  /** Any error in a step marks the task failed with the exception's class, message and
      backtrace, saves it, and is re-raised. */
  lemma RaisedRunIsRecorded(c: TaskClass, w: World, previous: string, now: Time, fuel: nat)
    requires Run(c, w, previous, now, fuel).Raised?
    ensures IsRecorded(Run(c, w, previous, now, fuel).world, Run(c, w, previous, now, fuel).error)
  {
    LoopRaisedIsRecorded(Body(c, now), w, previous, fuel);
  }

  /** A state without a handler raises InvalidState, and the task is recorded as failed. */
  lemma MissingHandlerRaisesInvalidState(c: TaskClass, w: World, previous: string, now: Time, fuel: nat)
    requires fuel > 0
    requires w.task.IsActive() && previous != w.task.currentState
    requires HandlerFor(c, w.task.currentState).None?
    ensures var r := Run(c, w, previous, now, fuel);
            r.Raised? && r.error == Raise(InvalidState, "No handler for state: " + w.task.currentState)
            && r.world.task.IsFailed() && r.world.task.currentState == w.task.currentState
  {
  }

  /** A result handler completes the task without touching its state or attributes, and the
      loop stops after it. */
  lemma ResultHandlerEndsTheRun(c: TaskClass, w: World, previous: string, now: Time, fuel: nat)
    requires fuel > 0
    requires w.task.IsActive() && previous != w.task.currentState
    requires HandlerFor(c, w.task.currentState).Some? && HandlerFor(c, w.task.currentState).value.ResultHandler?
    ensures var r := Run(c, w, previous, now, fuel);
            r.Finished? && r.world.task.IsCompleted()
            && r.world.task.currentState == w.task.currentState
            && r.world.task.attributes == w.task.attributes
            && r.world.task.models == w.task.models
  {
    var h := HandlerFor(c, w.task.currentState).value;
    var o := CallHandler(c, h, w, now);
    assert o == Outcome(w.(task := CompleteData(w.task)), None);
    var done := SavedWorld(o.world, now);
    assert StepOnce(c, now, w) == Continue(done);
    RunUnfolds(c, w, previous, now, fuel);
    InactiveTaskRunsNothing(c, done, w.task.currentState, now, fuel - 1);
  }

  /** An action with no successor whose body only assigns attributes and models leaves the
      task active in the same state, and the loop stops after that one step. */
  lemma ActionWithoutSuccessorStops(c: TaskClass, w: World, previous: string, now: Time, fuel: nat)
    requires fuel > 0
    requires w.task.IsActive() && previous != w.task.currentState
    requires HandlerFor(c, w.task.currentState).Some?
    requires var h := HandlerFor(c, w.task.currentState).value;
             h.ActionHandler? && h.action.Some? && h.nextState.None?
             && forall op :: op in h.action.value(w.task) ==> op.SetAttribute? || op.SetModel? || op.SetModels?
    ensures var r := Run(c, w, previous, now, fuel);
            r.Finished? && r.world.task.IsActive() && r.world.task.currentState == w.task.currentState
  {
    var h := HandlerFor(c, w.task.currentState).value;
    SettersKeepStateAndStatus(c, w, h.action.value(w.task), now);
    var o := ApplyOps(c, w, h.action.value(w.task), now);
    assert CallHandler(c, h, w, now) == o;
    var next := SavedWorld(o.world, now);
    assert Body(c, now)(w) == Continue(next);
    assert Run(c, w, previous, now, fuel) == Loop(Body(c, now), next, w.task.currentState, fuel - 1);
  }

  lemma {:induction false} SettersKeepStateAndStatus(c: TaskClass, w: World, ops: seq<TaskOp>, now: Time)
    requires forall op :: op in ops ==> op.SetAttribute? || op.SetModel? || op.SetModels?
    ensures var o := ApplyOps(c, w, ops, now);
            o.error.None? && o.world.task.status == w.task.status && o.world.task.currentState == w.task.currentState
    decreases |ops|
  {
    if ops != [] {
      assert ops[0] in ops;
      SettersKeepStateAndStatus(c, ApplyOp(c, w, ops[0], now).world, ops[1..], now);
    }
  }

  /** A declared successor overrides any `go_to` the action's body made: when the body finishes
      without error and the successor has a handler, the task ends up in the successor's state. */
  lemma StaticSuccessorOverridesBody(c: TaskClass, w: World, h: Handler, now: Time)
    requires h.ActionHandler? && h.action.Some? && h.nextState.Some?
    requires ApplyOps(c, w, h.action.value(w.task), now).error.None?
    requires HandlerFor(c, h.nextState.value).Some?
    ensures CallHandler(c, h, w, now).error.None?
    ensures CallHandler(c, h, w, now).world.task.currentState == h.nextState.value
  {
  }

  /** An error in the body stops the action before its declared successor. */
  lemma BodyErrorSkipsSuccessor(c: TaskClass, w: World, h: Handler, now: Time)
    requires h.ActionHandler? && h.action.Some?
    requires ApplyOps(c, w, h.action.value(w.task), now).error.Some?
    ensures CallHandler(c, h, w, now) == ApplyOps(c, w, h.action.value(w.task), now)
  {
  }

  /** A wait handler with no true condition keeps the state, sleeps, and ends the run. */
  lemma WaitWithoutMatchSleeps(c: TaskClass, w: World, previous: string, now: Time, fuel: nat)
    requires fuel > 0
    requires w.task.IsActive() && previous != w.task.currentState
    requires HandlerFor(c, w.task.currentState).Some?
    requires var h := HandlerFor(c, w.task.currentState).value;
             h.WaitHandler? && !h.rule.HasTrueFalse()
             && forall j :: 0 <= j < |h.rule.conditions| ==> h.rule.conditions[j](w.task) == Ok(false)
    ensures var r := Run(c, w, previous, now, fuel);
            r.Finished? && r.world.task.IsWaiting() && r.world.task.currentState == w.task.currentState
            && r.world.task.wakeAt == Some(now + c.backgroundDelay)
  {
    var h := HandlerFor(c, w.task.currentState).value;
    WaitSleepsWhenNothingMatches(h.name, h.rule, w.task);
    var o := Outcome(w.(task := SleepData(c, w.task, now)), None);
    assert CallHandler(c, h, w, now) == o;
    var next := SavedWorld(o.world, now);
    assert Body(c, now)(w) == Continue(next);
    assert Run(c, w, previous, now, fuel) == Loop(Body(c, now), next, w.task.currentState, fuel - 1);
  }

  // ---------------------------------------------------------------------------------------
  // Sub-tasks

  /** A child started by `start` is saved waiting, with this task's id as its parent. */
  lemma StartedChildIsSavedWaiting(w: World, req: StartRequest, now: Time)
    requires NewData(req.taskClass, ChildArgs(w.task, req.args), now).Ok?
    ensures var child := Saved(w.store, NewData(req.taskClass, ChildArgs(w.task, req.args), now).value, now).task;
            && StartChild(w, req, now).error.None?
            && child.IsWaiting() && child.parentTaskId == w.task.id
            && StartChild(w, req, now).world.store.snapshots.entries[child.id.value] == ToH(child)
  {
  }

  /** `Task.call` does not save before its first step, so a child started by the first handler
      of a new task has no parent id. */
  lemma FirstStepChildrenHaveNoParent(c: TaskClass, args: NewArgs, store: Store, req: StartRequest, now: Time)
    requires args.id.None?
    requires NewData(c, args, now).Ok?
    requires NewData(req.taskClass, ChildArgs(NewData(c, args, now).value, req.args), now).Ok?
    ensures var w := World(NewData(c, args, now).value, store);
            var child := Saved(store, NewData(req.taskClass, ChildArgs(w.task, req.args), now).value, now).task;
            child.parentTaskId.None?
  {
  }

  /** A started child has no wake time unless its arguments give one, so the sleeping-task
      query never returns it. */
  lemma StartedChildIsNeverDue(w: World, req: StartRequest, now: Time, typeFilter: Option<string>, later: Time)
    requires req.args.wakeAt.None?
    requires NewData(req.taskClass, ChildArgs(w.task, req.args), now).Ok?
    ensures var child := Saved(w.store, NewData(req.taskClass, ChildArgs(w.task, req.args), now).value, now).task;
            child !in SleepingTasks(StartChild(w, req, now).world.store, typeFilter, later)
  {
  }

  /** `sub_tasks` and its status filters (task.rb:192-206): the sub-tasks with that status,
      each once and in store order. */
  function SubTasksWithStatus(w: World, status: Status): (r: seq<TaskData>)
    ensures forall d :: d in r <==> d in SubTasksOf(w.store, w.task) && d.status == status
    ensures |r| == |StatusIndexes(SubTasksOf(w.store, w.task), status)|
    ensures forall i :: 0 <= i < |r| ==>
              r[i] == SubTasksOf(w.store, w.task)[StatusIndexes(SubTasksOf(w.store, w.task), status)[i]]
  {
    FilterByStatusPositions(SubTasksOf(w.store, w.task), status);
    FilterByStatus(SubTasksOf(w.store, w.task), status)
  }

  /** The positions of the tasks with that status, in increasing order. */
  function StatusIndexes(tasks: seq<TaskData>, status: Status): (r: seq<nat>)
    ensures forall i :: 0 <= i < |r| ==> r[i] < |tasks| && tasks[r[i]].status == status
    ensures forall i, j :: 0 <= i < j < |r| ==> r[i] < r[j]
    ensures forall k :: 0 <= k < |tasks| && tasks[k].status == status ==> k in r
    decreases |tasks|
  {
    if tasks == [] then []
    else
      var n := |tasks| - 1;
      var earlier := StatusIndexes(tasks[..n], status);
      assert forall i :: 0 <= i < |earlier| ==> tasks[earlier[i]] == tasks[..n][earlier[i]];
      earlier + (if tasks[n].status == status then [n] else [])
  }

  /** `select { |t| t.status == status }`: every task of that status, and no other. */
  function FilterByStatus(tasks: seq<TaskData>, status: Status): (r: seq<TaskData>)
    ensures forall d :: d in r <==> d in tasks && d.status == status
    decreases |tasks|
  {
    if tasks == [] then []
    else
      var n := |tasks| - 1;
      assert forall d :: d in tasks <==> d in tasks[..n] || d == tasks[n] by {
        assert tasks == tasks[..n] + [tasks[n]];
      }
      FilterByStatus(tasks[..n], status) + (if tasks[n].status == status then [tasks[n]] else [])
  }

  /** The selection keeps the store order: its i-th task sits at the i-th matching position. */
  lemma {:induction false} FilterByStatusPositions(tasks: seq<TaskData>, status: Status)
    ensures |FilterByStatus(tasks, status)| == |StatusIndexes(tasks, status)|
    ensures forall i :: 0 <= i < |StatusIndexes(tasks, status)| ==>
              FilterByStatus(tasks, status)[i] == tasks[StatusIndexes(tasks, status)[i]]
    decreases |tasks|
  {
    if tasks != [] {
      var n := |tasks| - 1;
      FilterByStatusPositions(tasks[..n], status);
      var earlier, before := FilterByStatus(tasks[..n], status), StatusIndexes(tasks[..n], status);
      var selected, positions := FilterByStatus(tasks, status), StatusIndexes(tasks, status);
      var kept := tasks[n].status == status;
      assert selected == earlier + (if kept then [tasks[n]] else []);
      assert positions == before + (if kept then [n] else []);
      forall i | 0 <= i < |positions| ensures selected[i] == tasks[positions[i]] {
        if i < |before| {
          assert selected[i] == earlier[i] == tasks[..n][before[i]];
        }
      }
    }
  }

  // ---------------------------------------------------------------------------------------
  // Entry points

  /** `wake_up!`: an expired task runs its timeout callback, or raises Timeout, and never
      enters the loop or the rescue; otherwise the inline executor's `wake` makes the task
      active and runs the loop, and the task is saved. */
  function WakeUp(c: TaskClass, w: World, now: Time, fuel: nat): (r: RunResult)
  {
    if w.task.TimeoutExpired(now) then
      match c.timeoutHandler
      case None => Raised(w, Raise(Timeout, "Timeout expired"))
      case Some(callback) =>
        var o := ApplyOps(c, w, callback(w.task), now);
        if o.error.Some? then Raised(o.world, o.error.value) else Finished(o.world, w.task.currentState)
    else
      match InlineWake(c, w, now, fuel)
      case Finished(done, previous) => Finished(SavedWorld(done, now), previous)
      case other => other
  }

  /** The inline executor's `call`: run the loop. */
  function InlineCall(c: TaskClass, w: World, now: Time, fuel: nat): (r: RunResult)
  {
    ExecuteStateMachine(c, w, now, fuel)
  }

  /** The inline executor's `later`: the same as `call`. */
  function InlineLater(c: TaskClass, w: World, now: Time, fuel: nat): (r: RunResult)
  {
    InlineCall(c, w, now, fuel)
  }

  /** The inline executor's `wake`: status active, whatever it was, then `call`. */
  function InlineWake(c: TaskClass, w: World, now: Time, fuel: nat): (r: RunResult)
  {
    InlineCall(c, w.(task := w.task.(status := Active)), now, fuel)
  }

  /** An expired task without a timeout callback raises Timeout and is left exactly as it was:
      it is not marked failed. */
  lemma ExpiredWakeUpRaisesTimeout(c: TaskClass, w: World, now: Time, fuel: nat)
    requires w.task.TimeoutExpired(now) && c.timeoutHandler.None?
    ensures WakeUp(c, w, now, fuel) == Raised(w, Raise(Timeout, "Timeout expired"))
    ensures !w.task.IsFailed() ==> !WakeUp(c, w, now, fuel).world.task.IsFailed()
  {
  }

  /** An expired task with a timeout callback runs only the callback: no handler runs and the
      task is not saved. */
  lemma ExpiredWakeUpRunsCallback(c: TaskClass, w: World, now: Time, fuel: nat)
    requires w.task.TimeoutExpired(now) && c.timeoutHandler.Some?
    ensures WakeUp(c, w, now, fuel).world == ApplyOps(c, w, c.timeoutHandler.value(w.task), now).world
  {
  }

  /** The inline executor's `wake` reactivates completed and failed tasks too, so waking a
      completed task runs the handler of its state again. */
  lemma WakeReactivatesFinishedTasks(c: TaskClass, w: World, now: Time, fuel: nat)
    requires !w.task.TimeoutExpired(now) && fuel > 0
    requires w.task.IsCompleted() || w.task.IsFailed()
    requires w.task.currentState != ""
    requires HandlerFor(c, w.task.currentState).Some? && HandlerFor(c, w.task.currentState).value.ResultHandler?
    ensures WakeUp(c, w, now, fuel).Finished?
    ensures WakeUp(c, w, now, fuel).world.task.IsCompleted()
  {
    var active := w.(task := w.task.(status := Active));
    ResultHandlerEndsTheRun(c, active, "", now, fuel);
  }

  /** Calling an interaction: the legal-state guard, the body, then `wake_up!` if the task is
      waiting (interaction_handler.rb:30-41). Errors propagate without being recorded. */
  function Interact(c: TaskClass, interactionName: string, args: seq<Value>, w: World, now: Time, fuel: nat): (r: RunResult)
  {
    match InteractionHandlerFor(c, interactionName)
    case None => Raised(w, Raise(NoMethodError, "undefined method '" + interactionName + "'"))
    case Some(h) =>
      if !InteractionAllowed(h, w.task.currentState) then
        Raised(w, Raise(InvalidState, "Cannot call " + h.name + " when in state " + w.task.currentState))
      else
        match h.implementation
        case None => Raised(w, Raise(LocalJumpError, "no block given (yield)"))
        case Some(body) =>
          var o := ApplyOps(c, w, body(w.task, args), now);
          if o.error.Some? then Raised(o.world, o.error.value)
          else if o.world.task.IsWaiting() then WakeUp(c, o.world, now, fuel)
          else Finished(o.world, o.world.task.currentState)
  }

  /** An interaction called in a state it does not allow raises InvalidState and changes
      nothing, not even the status or the exception fields. */
  lemma IllegalInteractionChangesNothing(c: TaskClass, interactionName: string, args: seq<Value>, w: World, now: Time, fuel: nat)
    requires InteractionHandlerFor(c, interactionName).Some?
    requires !InteractionAllowed(InteractionHandlerFor(c, interactionName).value, w.task.currentState)
    ensures var r := Interact(c, interactionName, args, w, now, fuel);
            r.Raised? && r.error.kind == InvalidState && r.world == w
  {
  }

  /** An interaction with no legal states listed runs its body in any state. */
  lemma UnrestrictedInteractionRuns(c: TaskClass, interactionName: string, args: seq<Value>, w: World, now: Time, fuel: nat)
    requires InteractionHandlerFor(c, interactionName).Some?
    requires var h := InteractionHandlerFor(c, interactionName).value; h.validStates == [] && h.implementation.Some?
    requires !ApplyOps(c, w, InteractionHandlerFor(c, interactionName).value.implementation.value(w.task, args), now).world.task.IsWaiting()
    ensures Interact(c, interactionName, args, w, now, fuel).world
            == ApplyOps(c, w, InteractionHandlerFor(c, interactionName).value.implementation.value(w.task, args), now).world
  {
  }

  /** The result of a class-level entry point: no task when `new` raised. */
  datatype Started = NotCreated(error: Error) | Created(result: RunResult)

  /** `Task.call(**args)`: build, run, and save once more after the loop. The task is not
      saved before its first step. */
  function Call(c: TaskClass, args: NewArgs, store: Store, now: Time, fuel: nat): (r: Started)
  {
    match NewData(c, args, now)
    case Err(e) => NotCreated(e)
    case Ok(t) =>
      match InlineCall(c, World(t, store), now, fuel)
      case Finished(done, previous) => Created(Finished(SavedWorld(done, now), previous))
      case other => Created(other)
  }

  /** `Task.later(**args)`: build waiting, save, then hand to the executor. */
  function Later(c: TaskClass, args: NewArgs, store: Store, now: Time, fuel: nat): (r: Started)
  {
    match NewData(c, args.(status := Some(Waiting)), now)
    case Err(e) => NotCreated(e)
    case Ok(t) => Created(InlineLater(c, SavedWorld(World(t, store), now), now, fuel))
  }

  /** With the inline executor, `Task.later` saves the waiting task and runs nothing. */
  lemma LaterOnlySaves(c: TaskClass, args: NewArgs, store: Store, now: Time, fuel: nat)
    requires NewData(c, args.(status := Some(Waiting)), now).Ok?
    ensures var t := NewData(c, args.(status := Some(Waiting)), now).value;
            Later(c, args, store, now, fuel) == Created(Finished(SavedWorld(World(t, store), now), ""))
            && t.IsWaiting()
  {
  }

  /** `Task.test(state, **args)`: build the task in `state` and call that state's handler once,
      with no save and no error recording. */
  function Test(c: TaskClass, state: string, args: NewArgs, store: Store, now: Time): (r: Started)
  {
    match NewData(c, args.(currentState := Some(state)), now)
    case Err(e) => NotCreated(e)
    case Ok(t) =>
      var w := World(t, store);
      match HandlerFor(c, state)
      case None => Created(Raised(w, Raise(NoMethodError, "undefined method 'call' for nil")))
      case Some(h) =>
        var o := CallHandler(c, h, w, now);
        if o.error.Some? then Created(Raised(o.world, o.error.value)) else Created(Finished(o.world, state))
  }
}
