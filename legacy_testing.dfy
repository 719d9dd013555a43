/** The test harness of app/models/operations/task/testing.rb: `handling` runs one state's
    handler on a task that is never saved, with a recording data carrier
    (TestResultCarrier) in place of the production one, and yields what was recorded. */
module LegacyTesting {
  import opened Values
  import opened Errors
  import opened OrderedMaps
  import opened LegacyCalls
  import opened LegacyInputs
  import opened LegacyCarrierHandlers

  /** The status message the carrier's `go_to` records: the state's name (`to_s`), or the
      carrier object itself when a handler passes it as the message. */
  datatype StatusMessage = NameOf(state: Value) | CarrierObject

  /** Everything the harness records: the test task's state and the carrier's fields, each
      nil until first set. */
  datatype Recorded = Recorded(taskState: Value, nextState: Option<Value>, statusMessage: Option<StatusMessage>,
                               failureMessage: Option<string>, subTasks: Option<seq<string>>, completionResults: Option<Data>)

  /** A test task in `state`, and a carrier on which nothing was recorded. */
  function Fresh(state: Value): Recorded {
    Recorded(state, None, None, None, None, None)
  }

  /** `record_sub_task`: `sub_tasks ||= []`, then append. */
  function WithSubTask(r: Recorded, taskClass: string): (r': Recorded)
    ensures r'.subTasks == Some(r.subTasks.GetOr([]) + [taskClass])
  {
    r.(subTasks := Some(r.subTasks.GetOr([]) + [taskClass]))
  }

  /** What one call made by a handler records. The task's own `go_to` only sets its state.
      Calls that only the Plan and Agent interaction handlers make on a task are not made on
      the carrier and record nothing here. */
  function AfterCall(r: Recorded, c: Call): Recorded {
    match c
    case TaskGoTo(state, _) => r.(taskState := state)
    case CarrierGoTo(state, message) =>
      r.(nextState := Some(state), statusMessage := Some(if message == TheCarrier then CarrierObject else NameOf(state)))
    case FailWith(reason) => r.(failureMessage := Some(reason))
    case CallSubTask(taskClass, _) => WithSubTask(r, taskClass)
    case StartSubTask(taskClass, _) => WithSubTask(r, taskClass)
    case Complete(results) => r.(completionResults := Some(results))
    case _ => r
  }

  /** The calls received in order. */
  function AfterCalls(r: Recorded, calls: seq<Call>): Recorded
    decreases |calls|
  {
    if |calls| == 0 then r else AfterCall(AfterCalls(r, calls[..|calls| - 1]), calls[|calls| - 1])
  }

  /** Receiving `a` and then `b` is receiving `a + b`. */
  lemma {:induction false} AfterCallsAppend(r: Recorded, a: seq<Call>, b: seq<Call>)
    ensures AfterCalls(r, a + b) == AfterCalls(AfterCalls(r, a), b)
    decreases |b|
  {
    if |b| == 0 {
      assert a + b == a;
    } else {
      AfterCallsAppend(r, a, b[..|b| - 1]);
      assert (a + b)[..|a + b| - 1] == a + b[..|b| - 1];
    }
  }

  /** The result block of the carrier's `call` runs with the carrier as `self`, after the
      sub-task was recorded: its calls act on what `call` left behind. */
  lemma ResultBlockFollowsTheCall(r: Recorded, taskClass: string, args: Data, block: seq<Call>)
    ensures AfterCalls(r, [CallSubTask(taskClass, args)] + block) == AfterCalls(WithSubTask(r, taskClass), block)
  {
    AfterCallsAppend(r, [CallSubTask(taskClass, args)], block);
    assert AfterCalls(r, [CallSubTask(taskClass, args)]) == AfterCall(AfterCalls(r, []), CallSubTask(taskClass, args));
  }

  /** The sub-task classes of the `call` and `start` calls, in order. */
  function SubTaskClasses(calls: seq<Call>): (classes: seq<string>)
    ensures |classes| <= |calls|
    decreases |calls|
  {
    if |calls| == 0 then []
    else
      var c := calls[|calls| - 1];
      SubTaskClasses(calls[..|calls| - 1]) + (if c.CallSubTask? || c.StartSubTask? then [c.taskClass] else [])
  }

  /** `sub_tasks` lists every called or started sub-task class, in the order of the calls. */
  lemma {:induction false} SubTasksInCallOrder(r: Recorded, calls: seq<Call>)
    ensures AfterCalls(r, calls).subTasks.GetOr([]) == r.subTasks.GetOr([]) + SubTaskClasses(calls)
    ensures AfterCalls(r, calls).subTasks.None? <==> r.subTasks.None? && |SubTaskClasses(calls)| == 0
    decreases |calls|
  {
    if |calls| > 0 {
      SubTasksInCallOrder(r, calls[..|calls| - 1]);
    }
  }

  /** The last carrier `go_to` decides `next_state` and `status_message`. */
  lemma {:induction false} LastCarrierGoToWins(r: Recorded, calls: seq<Call>, i: nat)
    requires i < |calls| && calls[i].CarrierGoTo?
    requires forall j :: i < j < |calls| ==> !calls[j].CarrierGoTo?
    ensures AfterCalls(r, calls).nextState == Some(calls[i].state)
    ensures AfterCalls(r, calls).statusMessage ==
              Some(if calls[i].message == TheCarrier then CarrierObject else NameOf(calls[i].state))
    decreases |calls|
  {
    if i < |calls| - 1 {
      LastCarrierGoToWins(r, calls[..|calls| - 1], i);
    }
  }

  /** Without a `complete` call no completion results are recorded. */
  lemma {:induction false} NoCompleteNoResults(r: Recorded, calls: seq<Call>)
    requires forall j :: 0 <= j < |calls| ==> !calls[j].Complete?
    ensures AfterCalls(r, calls).completionResults == r.completionResults
    decreases |calls|
  {
    if |calls| > 0 {
      NoCompleteNoResults(r, calls[..|calls| - 1]);
    }
  }

  /** The task made by `new(state: state)`, whose `go_to` only sets its state. */
  class TestTask {
    var state: Value

    constructor (s: Value)
      ensures state == s
    {
      state := s;
    }

    method GoTo(s: Value)
      modifies this
      ensures state == s
    {
      state := s;
    }
  }

  /** TestResultCarrier: an OpenStruct over the data with recording control methods. */
  class TestResultCarrier {
    var table: Data
    var nextState: Option<Value>
    var statusMessage: Option<StatusMessage>
    var failureMessage: Option<string>
    var subTasks: Option<seq<string>>
    var completionResults: Option<Data>

    constructor (d: Data)
      ensures table == d && nextState.None? && statusMessage.None? && failureMessage.None?
      ensures subTasks.None? && completionResults.None?
    {
      table := d;
      nextState, statusMessage, failureMessage, subTasks, completionResults := None, None, None, None, None;
    }

    /** What this carrier and `task` have recorded. */
    function Snapshot(task: TestTask): Recorded
      reads this, task
    {
      Recorded(task.state, nextState, statusMessage, failureMessage, subTasks, completionResults)
    }

    /** `go_to(state, message = nil)`. */
    method GoTo(state: Value, message: CarrierMessage)
      modifies this
      ensures nextState == Some(state)
      ensures statusMessage == Some(if message == TheCarrier then CarrierObject else NameOf(state))
      ensures table == old(table) && failureMessage == old(failureMessage)
      ensures subTasks == old(subTasks) && completionResults == old(completionResults)
    {
      nextState := Some(state);
      statusMessage := Some(if message == TheCarrier then CarrierObject else NameOf(state));
    }

    /** `fail_with(message)`. */
    method FailWith(reason: string)
      modifies this
      ensures failureMessage == Some(reason)
      ensures table == old(table) && nextState == old(nextState) && statusMessage == old(statusMessage)
      ensures subTasks == old(subTasks) && completionResults == old(completionResults)
    {
      failureMessage := Some(reason);
    }

    /** `inputs(*names)`: ArgumentError naming the names that are not keys. */
    method Inputs(names: seq<string>) returns (err: Option<Error>)
      ensures err.None? <==> forall n :: n in names ==> n in table
      ensures err.Some? ==> err.value == Raise(ArgumentError, MissingInputsMessage(Difference(names, table.Keys)))
    {
      err := CarrierInputs(table, names);
    }

    /** `optional(*names)`. */
    method Optional(names: seq<string>) returns (v: Value)
      ensures v == Nil
    {
      v := Nil;
    }

    method RecordSubTask(taskClass: string)
      modifies this
      ensures subTasks == Some(old(subTasks).GetOr([]) + [taskClass])
      ensures table == old(table) && nextState == old(nextState) && statusMessage == old(statusMessage)
      ensures failureMessage == old(failureMessage) && completionResults == old(completionResults)
    {
      subTasks := Some(subTasks.GetOr([]) + [taskClass]);
    }

    /** `call(sub_task_class, **data)`: records the class and answers `{answer: 42}`
        without running anything. */
    method Call(taskClass: string, args: Data) returns (results: Data)
      modifies this
      ensures results == map["answer" := Int(42)]
      ensures subTasks == Some(old(subTasks).GetOr([]) + [taskClass])
      ensures table == old(table) && nextState == old(nextState) && statusMessage == old(statusMessage)
      ensures failureMessage == old(failureMessage) && completionResults == old(completionResults)
    {
      RecordSubTask(taskClass);
      results := map["answer" := Int(42)];
    }

    /** `start(sub_task_class, **data)`: records the class and returns nil. */
    method Start(taskClass: string, args: Data) returns (v: Value)
      modifies this
      ensures v == Nil
      ensures subTasks == Some(old(subTasks).GetOr([]) + [taskClass])
      ensures table == old(table) && nextState == old(nextState) && statusMessage == old(statusMessage)
      ensures failureMessage == old(failureMessage) && completionResults == old(completionResults)
    {
      RecordSubTask(taskClass);
      v := Nil;
    }

    /** `complete(results)`. */
    method Complete(results: Data)
      modifies this
      ensures completionResults == Some(results)
      ensures table == old(table) && nextState == old(nextState) && statusMessage == old(statusMessage)
      ensures failureMessage == old(failureMessage) && subTasks == old(subTasks)
    {
      completionResults := Some(results);
    }

    /** One call made by the handler, on the carrier or on the task. */
    method Receive(c: Call, task: TestTask)
      modifies this, task
      ensures Snapshot(task) == AfterCall(old(Snapshot(task)), c)
      ensures table == old(table)
    {
      match c
      case TaskGoTo(state, _) => task.GoTo(state);
      case CarrierGoTo(state, message) => GoTo(state, message);
      case FailWith(reason) => FailWith(reason);
      case CallSubTask(taskClass, args) => var _ := Call(taskClass, args);
      case StartSubTask(taskClass, args) => var _ := Start(taskClass, args);
      case Complete(results) => Complete(results);
      case _ =>
    }

    /** The handler's calls, in order. */
    method ReceiveEach(calls: seq<Call>, task: TestTask)
      requires task as object != this
      modifies this, task
      ensures Snapshot(task) == AfterCalls(old(Snapshot(task)), calls)
      ensures table == old(table)
    {
      var i := 0;
      while i < |calls|
        invariant 0 <= i <= |calls|
        invariant Snapshot(task) == AfterCalls(old(Snapshot(task)), calls[..i])
        invariant table == old(table)
      {
        assert calls[..i + 1][..i] == calls[..i];
        Receive(calls[i], task);
        i := i + 1;
      }
      assert calls[..|calls|] == calls;
    }
  }

  /** What `handling` yields to its block: the completion results when the handler
      completed, the carrier otherwise. */
  datatype Yielded = YieldedResults(results: Data) | YieldedCarrier(recorded: Recorded, table: Data)

  /** `handling(state, **data)`: the handler of `state` called with a test task in that state
      and a carrier over the data. An error raised by the handler propagates. */
  function Handle(handlers: Hash<string, Handler>, className: string, background: bool,
                  methods: map<string, Condition>, state: string, d: Data): Result<Yielded>
  {
    if state !in handlers.entries then Err(Raise(NoMethodError, "undefined method 'call' for nil"))
    else
      var e := CallHandler(handlers.entries[state], TaskView(className, background, Str(state), methods), d);
      if e.error.Some? then Err(e.error.value)
      else
        var rec := AfterCalls(Fresh(Str(state)), e.calls);
        if rec.completionResults.Some? then Ok(YieldedResults(rec.completionResults.value))
        else Ok(YieldedCarrier(rec, e.data))
  }

  /** The harness, step by step: it builds the task and the carrier, runs the handler, lets
      the carrier and the task receive its calls, and picks what to yield. */
  method Handling(handlers: Hash<string, Handler>, className: string, background: bool,
                  methods: map<string, Condition>, state: string, d: Data) returns (r: Result<Yielded>)
    ensures r == Handle(handlers, className, background, methods, state, d)
  {
    if state !in handlers.entries {
      return Err(Raise(NoMethodError, "undefined method 'call' for nil"));
    }
    var task := new TestTask(Str(state));
    var carrier := new TestResultCarrier(d);
    var e := CallHandler(handlers.entries[state], TaskView(className, background, Str(state), methods), d);
    carrier.table := e.data;
    carrier.ReceiveEach(e.calls, task);
    if e.error.Some? {
      return Err(e.error.value);
    }
    if carrier.completionResults.Some? {
      r := Ok(YieldedResults(carrier.completionResults.value));
    } else {
      r := Ok(YieldedCarrier(carrier.Snapshot(task), carrier.table));
    }
  }

  /** Handling a completion state without a block yields empty results. */
  lemma HandlingCompletionYieldsResults(handlers: Hash<string, Handler>, className: string, background: bool,
                                        methods: map<string, Condition>, state: string, d: Data)
    requires state in handlers.entries && handlers.entries[state].CompletionState?
    requires handlers.entries[state].completion.handler.None?
    ensures Handle(handlers, className, background, methods, state, d) == Ok(YieldedResults(map[]))
  {
  }

  /** Handling a decision whose inputs are present and whose condition answers yields the
      carrier, with `next_state` set to the branch's state and the carrier as message. */
  lemma HandlingDecisionRecordsTheBranch(handlers: Hash<string, Handler>, className: string, background: bool,
                                         methods: map<string, Condition>, state: string, d: Data, onTrue: string, onFalse: string)
    requires state in handlers.entries && handlers.entries[state].DecisionState?
    requires var x := handlers.entries[state].decision;
             x.trueState == StateTarget(onTrue) && x.falseState == StateTarget(onFalse)
             && ValidateInputs(x.inputs, d).None?
             && Ask(x, TaskView(className, background, Str(state), methods), d).Ok?
    ensures var x := handlers.entries[state].decision;
            var b := Ask(x, TaskView(className, background, Str(state), methods), d).value;
            var next := Str(if b then onTrue else onFalse);
            Handle(handlers, className, background, methods, state, d)
              == Ok(YieldedCarrier(Recorded(Str(state), Some(next), Some(CarrierObject), None, None, None), d))
  {
    var x := handlers.entries[state].decision;
    var b := Ask(x, TaskView(className, background, Str(state), methods), d).value;
    var next := Str(if b then onTrue else onFalse);
    var e := CallHandler(handlers.entries[state], TaskView(className, background, Str(state), methods), d);
    assert e == Calling(d, CarrierGoTo(next, TheCarrier));
    assert e.calls[..0] == [];
    assert AfterCalls(Fresh(Str(state)), e.calls) == Recorded(Str(state), Some(next), Some(CarrierObject), None, None, None);
  }

  /** Handling a wait state in the foreground fails before any condition runs. */
  lemma HandlingWaitInForeground(handlers: Hash<string, Handler>, className: string,
                                 methods: map<string, Condition>, state: string, d: Data)
    requires state in handlers.entries && handlers.entries[state].WaitState?
    ensures Handle(handlers, className, false, methods, state, d)
              == Err(Raise(CannotWaitInForeground, className + " cannot wait in the foreground"))
  {
  }
}
