/** The Task::StateManagement variant of the legacy engine
    (app/models/operations/task/state_management.rb): `go_to` saves the new state and at once
    runs that state's handler, which may itself call `go_to`, so a whole run is a recursion
    through the handlers. The recursion is bounded by a `fuel` argument.

    Handler blocks run on the task (`instance_eval`). A block is modelled as the list of
    steps it takes, computed from the task as the block starts. */
module LegacyStateMachine {
  import opened Values
  import opened Errors
  import opened OrderedMaps
  import opened LegacyCalls

  /** One step of a block run on the task. */
  datatype Step =
    | Assign(key: string, value: Value)                    // self.key = value
    | GoTo(state: Option<string>, message: Option<string>) // go_to(state, message)
    | CompleteWith(results: Data)                          // complete(**results)
    | Fail(error: Error)                                   // raise

  /** The columns of an operations_tasks row that the engine writes: the state, the status
      message, whether the status is completed, the data and the results. */
  datatype Record = Record(state: Option<string>, statusMessage: string, completed: bool, data: Data, results: Data)

  type Body = Record -> seq<Step>
  type Predicate = Record -> Result<bool>

  /** The block of `ends_with`: it fills the results hash it is given. */
  type ResultsBlock = Data -> Result<Data>

  /** The handler classes nested in state_management.rb. */
  datatype Handler =
    | ActionHandler(name: string, action: Option<Body>)
    | DecisionHandler(name: string, condition: Option<Predicate>, trueState: Option<string>, falseState: Option<string>)
    | CompletionHandler(name: string, handler: Option<ResultsBlock>)

  /** A task class as the engine runs it: its initial state, its handlers, and the instance
      methods a handler without a block calls by name. */
  datatype TaskClass = TaskClass(initialState: Option<string>, handlers: Hash<string, Handler>,
                                 actions: map<string, Body>, predicates: map<string, Predicate>)

  /** `state_is_valid`: the state is present, not blank, and has a handler. */
  predicate StateIsValid(c: TaskClass, state: Option<string>) {
    state.Some? && !Blank(state.value) && state.value in c.handlers.entries
  }

  /** `state.to_s`. */
  function StateName(state: Option<string>): string {
    state.GetOr("")
  }

  /** The error `update!` and `create!` raise when `state_is_valid` fails. */
  const Invalid: Error := Raise(RecordInvalid, "Validation failed: State is invalid")

  /** How a run ended: it returned, it raised, or it ran out of fuel. */
  datatype Stop = Returned | Raised(error: Error) | OutOfFuel

  /** The task as a run left it (in memory), and how the run ended. */
  datatype Outcome = Outcome(task: Record, stop: Stop)

  /** The fields `update!(state:, status_message:)` assigns. */
  function Moved(t: Record, state: Option<string>, message: Option<string>): (r: Record)
    ensures r.state == state && r.statusMessage == message.GetOr(StateName(state))
    ensures r.completed == t.completed && r.data == t.data && r.results == t.results
  {
    t.(state := state, statusMessage := message.GetOr(StateName(state)))
  }

  /** `go_to(state, message)`: saves the state with the message, which defaults to the
      state's name, then runs the new state's handler. Saving an invalid state raises. */
  function GoToState(c: TaskClass, t: Record, state: Option<string>, message: Option<string>, fuel: nat): (o: Outcome)
    ensures !StateIsValid(c, state) ==> o == Outcome(Moved(t, state, message), Raised(Invalid))
    ensures StateIsValid(c, state) && fuel > 0 ==> o == Process(c, Moved(t, state, message), fuel - 1)
    decreases fuel, 0, 0
  {
    var moved := Moved(t, state, message);
    if !StateIsValid(c, state) then Outcome(moved, Raised(Invalid))
    else if fuel == 0 then Outcome(moved, OutOfFuel)
    else Process(c, moved, fuel - 1)
  }

  /** `complete(**results)`: saves the completed status with the results. */
  function CompleteTask(c: TaskClass, t: Record, results: Data): (o: Outcome)
    ensures o.task == t.(completed := true, results := results)
    ensures o.stop.Returned? <==> StateIsValid(c, t.state)
    ensures !o.stop.Returned? ==> o.stop == Raised(Invalid)
  {
    var done := t.(completed := true, results := results);
    if StateIsValid(c, t.state) then Outcome(done, Returned) else Outcome(done, Raised(Invalid))
  }

  /** The answer a decision handler acts on: its condition on the task, or else the task's
      method of the handler's name. */
  function Answer(c: TaskClass, name: string, condition: Option<Predicate>, t: Record): Result<bool> {
    match condition
    case Some(p) => p(t)
    case None =>
      if name in c.predicates then c.predicates[name](t)
      else Err(Raise(NoMethodError, "undefined method '" + name + "'"))
  }

  /** The results a completion handler completes with: an empty hash that its block, when
      there is one, fills. */
  function Results(handler: Option<ResultsBlock>): Result<Data> {
    match handler
    case Some(b) => b(map[])
    case None => Ok(map[])
  }

  /** `process_current_state`: `handler_for(state).call(self)`. */
  function Process(c: TaskClass, t: Record, fuel: nat): (o: Outcome)
    decreases fuel, 2, 0
  {
    if t.state.None? then Outcome(t, Raised(Raise(NoMethodError, "undefined method 'to_sym' for nil")))
    else if t.state.value !in c.handlers.entries then Outcome(t, Raised(Raise(NoMethodError, "undefined method 'call' for nil")))
    else
      match c.handlers.entries[t.state.value]
      case ActionHandler(name, action) =>
        if action.Some? then RunSteps(c, t, action.value(t), fuel)
        else if name in c.actions then RunSteps(c, t, c.actions[name](t), fuel)
        else Outcome(t, Raised(Raise(NoMethodError, "undefined method '" + name + "'")))
      case DecisionHandler(name, condition, trueState, falseState) =>
        (match Answer(c, name, condition, t)
         case Ok(b) => GoToState(c, t, if b then trueState else falseState, None, fuel)
         case Err(e) => Outcome(t, Raised(e)))
      case CompletionHandler(_, handler) =>
        match Results(handler)
        case Ok(results) => CompleteTask(c, t, results)
        case Err(e) => Outcome(t, Raised(e))
  }

  /** Runs a block's steps in order; a `go_to` step runs the whole chain of handlers it
      leads to before the block goes on, and an error stops the block. */
  function RunSteps(c: TaskClass, t: Record, steps: seq<Step>, fuel: nat): (o: Outcome)
    decreases fuel, 1, |steps|
  {
    if |steps| == 0 then Outcome(t, Returned)
    else
      match steps[0]
      case Assign(key, value) => RunSteps(c, t.(data := t.data[key := value]), steps[1..], fuel)
      case GoTo(state, message) =>
        var o := GoToState(c, t, state, message, fuel);
        if o.stop.Returned? then RunSteps(c, o.task, steps[1..], fuel) else o
      case CompleteWith(results) =>
        var o := CompleteTask(c, t, results);
        if o.stop.Returned? then RunSteps(c, o.task, steps[1..], fuel) else o
      case Fail(e) => Outcome(t, Raised(e))
  }

  /** What `start(**data)` produced: no task, because `create!` raised, or a task and how
      running its first handler ended. */
  datatype Started = NotCreated(error: Error) | Created(outcome: Outcome)

  /** The row `create!(data.merge(state: initial_state))` builds. */
  function Created0(c: TaskClass, data: Data): Record {
    Record(c.initialState, "", false, data, map[])
  }

  /** `start(**data)`: creates the task in the initial state, then runs that state's handler. */
  function Start(c: TaskClass, data: Data, fuel: nat): (r: Started)
    ensures r.NotCreated? <==> !StateIsValid(c, c.initialState)
    ensures r.NotCreated? ==> r.error == Invalid
    ensures r.Created? ==> r.outcome == Process(c, Created0(c, data), fuel)
  {
    if !StateIsValid(c, c.initialState) then NotCreated(Invalid)
    else Created(Process(c, Created0(c, data), fuel))
  }

  /** What every run keeps: a run that did not raise leaves the task in a valid state, and a
      completed task stays completed. */
  ghost predicate Keeps(c: TaskClass, t: Record, o: Outcome) {
    && (!o.stop.Raised? ==> StateIsValid(c, o.task.state))
    && (t.completed ==> o.task.completed)
  }

  lemma {:induction false} GoToKeeps(c: TaskClass, t: Record, state: Option<string>, message: Option<string>, fuel: nat)
    ensures Keeps(c, t, GoToState(c, t, state, message, fuel))
    decreases fuel, 0, 0
  {
    if StateIsValid(c, state) && fuel > 0 {
      ProcessKeeps(c, Moved(t, state, message), fuel - 1);
    }
  }

  lemma {:induction false} ProcessKeeps(c: TaskClass, t: Record, fuel: nat)
    requires StateIsValid(c, t.state)
    ensures Keeps(c, t, Process(c, t, fuel))
    decreases fuel, 2, 0
  {
    match c.handlers.entries[t.state.value]
    case ActionHandler(name, action) =>
      if action.Some? {
        RunStepsKeeps(c, t, action.value(t), fuel);
      } else if name in c.actions {
        RunStepsKeeps(c, t, c.actions[name](t), fuel);
      }
    case DecisionHandler(name, condition, trueState, falseState) =>
      match Answer(c, name, condition, t) {
        case Ok(b) => GoToKeeps(c, t, if b then trueState else falseState, None, fuel);
        case Err(e) =>
      }
    case CompletionHandler(_, handler) =>
  }

  lemma {:induction false} RunStepsKeeps(c: TaskClass, t: Record, steps: seq<Step>, fuel: nat)
    requires StateIsValid(c, t.state)
    ensures Keeps(c, t, RunSteps(c, t, steps, fuel))
    decreases fuel, 1, |steps|
  {
    if |steps| > 0 {
      match steps[0]
      case Assign(key, value) =>
        RunStepsKeeps(c, t.(data := t.data[key := value]), steps[1..], fuel);
      case GoTo(state, message) =>
        var o := GoToState(c, t, state, message, fuel);
        GoToKeeps(c, t, state, message, fuel);
        if o.stop.Returned? {
          RunStepsKeeps(c, o.task, steps[1..], fuel);
        }
      case CompleteWith(results) =>
        var o := CompleteTask(c, t, results);
        RunStepsKeeps(c, o.task, steps[1..], fuel);
      case Fail(e) =>
    }
  }

  /** A task that `start` created and ran without error is in a valid state. */
  lemma StartedTaskIsValid(c: TaskClass, data: Data, fuel: nat)
    requires Start(c, data, fuel).Created? && !Start(c, data, fuel).outcome.stop.Raised?
    ensures StateIsValid(c, Start(c, data, fuel).outcome.task.state)
  {
    ProcessKeeps(c, Created0(c, data), fuel);
  }

  /** The nested decision handler goes to the true state exactly when its condition (or the
      task's method of its name) is truthy, and to the false state otherwise. */
  lemma DecisionFollowsAnswer(c: TaskClass, t: Record, fuel: nat)
    requires t.state.Some? && t.state.value in c.handlers.entries
    requires c.handlers.entries[t.state.value].DecisionHandler?
    ensures var h := c.handlers.entries[t.state.value];
            match Answer(c, h.name, h.condition, t)
            case Ok(b) => Process(c, t, fuel) == GoToState(c, t, if b then h.trueState else h.falseState, None, fuel)
            case Err(e) => Process(c, t, fuel) == Outcome(t, Raised(e))
  {
  }

  /** The nested action handler without a block calls the task's method of its name, and
      raises NoMethodError when there is none. */
  lemma BlocklessActionCallsMethod(c: TaskClass, t: Record, fuel: nat)
    requires t.state.Some? && t.state.value in c.handlers.entries
    requires c.handlers.entries[t.state.value].ActionHandler? && c.handlers.entries[t.state.value].action.None?
    ensures var name := c.handlers.entries[t.state.value].name;
            if name in c.actions then Process(c, t, fuel) == RunSteps(c, t, c.actions[name](t), fuel)
            else Process(c, t, fuel).stop == Raised(Raise(NoMethodError, "undefined method '" + name + "'"))
  {
  }

  /** A completion state completes the task with the results its block filled in, or with
      empty results when it has no block. */
  lemma CompletionCompletes(c: TaskClass, t: Record, fuel: nat)
    requires StateIsValid(c, t.state) && c.handlers.entries[t.state.value].CompletionHandler?
    requires Results(c.handlers.entries[t.state.value].handler).Ok?
    ensures var o := Process(c, t, fuel);
            o.stop.Returned? && o.task.completed
            && o.task.results == Results(c.handlers.entries[t.state.value].handler).value
            && o.task.state == t.state && o.task.data == t.data
    ensures c.handlers.entries[t.state.value].handler.None? ==> Process(c, t, fuel).task.results == map[]
  {
  }

  /** `go_to` a completion state with no block: the task ends completed in that state, with
      empty results and the state's name as status message. */
  lemma GoToFinalState(c: TaskClass, t: Record, state: string, fuel: nat)
    requires fuel > 0 && !Blank(state) && state in c.handlers.entries
    requires c.handlers.entries[state] == CompletionHandler(state, None)
    ensures GoToState(c, t, Some(state), None, fuel) ==
            Outcome(t.(state := Some(state), statusMessage := state, completed := true, results := map[]), Returned)
  {
  }

  /** A step after a failing one never runs: a block that raises leaves the task as it was
      when it raised. */
  lemma FailureStopsTheBlock(c: TaskClass, t: Record, e: Error, after: seq<Step>, fuel: nat)
    ensures RunSteps(c, t, [Fail(e)] + after, fuel) == Outcome(t, Raised(e))
  {
  }
  /** A call made by the configuration block of `decision(name) { ... }`. */
  datatype DecisionConfig = SetCondition(p: Predicate) | IfTrue(ifTrue: string) | IfFalse(ifFalse: string)

  /** `DecisionHandler.new(name, &config)`: every setting starts nil and each call of the block
      replaces one of them. */
  function ConfigureDecision(name: string, config: seq<DecisionConfig>): (h: Handler)
    ensures h.DecisionHandler? && h.name == name
    decreases |config|
  {
    if |config| == 0 then DecisionHandler(name, None, None, None)
    else
      var h := ConfigureDecision(name, config[..|config| - 1]);
      match config[|config| - 1]
      case SetCondition(p) => h.(condition := Some(p))
      case IfTrue(s) => h.(trueState := Some(s))
      case IfFalse(s) => h.(falseState := Some(s))
  }

  /** The last `condition` of a configuration block is the one the handler keeps, whatever
      else the block set after it; with none, the handler asks the task's method. */
  lemma {:induction false} LastConditionWins(name: string, config: seq<DecisionConfig>, i: nat)
    requires i < |config| && config[i].SetCondition?
    requires forall j :: i < j < |config| ==> !config[j].SetCondition?
    ensures ConfigureDecision(name, config).condition == Some(config[i].p)
    decreases |config|
  {
    if i < |config| - 1 {
      LastConditionWins(name, config[..|config| - 1], i);
    }
  }

  lemma {:induction false} NoConditionAsksTheTask(name: string, config: seq<DecisionConfig>)
    requires forall j :: 0 <= j < |config| ==> !config[j].SetCondition?
    ensures ConfigureDecision(name, config).condition.None?
    decreases |config|
  {
    if |config| > 0 {
      NoConditionAsksTheTask(name, config[..|config| - 1]);
    }
  }

  /** The class-level registry of state_management.rb while a task class body runs. */
  class Definition {
    var initialState: Option<string>
    var stateHandlers: Hash<string, Handler>

    constructor ()
      ensures initialState.None? && stateHandlers == Empty()
    {
      initialState := None;
      stateHandlers := Empty();
    }

    /** `starts_with(value)`. */
    method StartsWith(state: string)
      modifies this
      ensures initialState == Some(state) && stateHandlers == old(stateHandlers)
    {
      initialState := Some(state);
    }

    /** Registers `handler` under `state`, replacing an earlier handler of that name. */
    method Register(state: string, handler: Handler)
      modifies this
      ensures stateHandlers == Put(old(stateHandlers), state, handler)
      ensures Get(stateHandlers, state) == Some(handler)
      ensures forall s :: s != state ==> Get(stateHandlers, s) == Get(old(stateHandlers), s)
      ensures initialState == old(initialState)
    {
      stateHandlers := Put(stateHandlers, state, handler);
    }

    /** `decision(name) { ... }`. */
    method Decision(state: string, config: seq<DecisionConfig>)
      modifies this
      ensures stateHandlers == Put(old(stateHandlers), state, ConfigureDecision(state, config))
      ensures initialState == old(initialState)
    {
      Register(state, ConfigureDecision(state, config));
    }

    /** `action(name) { ... }`, or `action(name)` naming a task method. */
    method Action(state: string, action: Option<Body>)
      modifies this
      ensures stateHandlers == Put(old(stateHandlers), state, ActionHandler(state, action))
      ensures initialState == old(initialState)
    {
      Register(state, ActionHandler(state, action));
    }

    /** `ends_with(name) { |results| ... }`. */
    method EndsWith(state: string, results: Option<ResultsBlock>)
      modifies this
      ensures stateHandlers == Put(old(stateHandlers), state, CompletionHandler(state, results))
      ensures initialState == old(initialState)
    {
      Register(state, CompletionHandler(state, results));
    }

    /** The task class the definition describes, given the task's own methods. */
    function TaskClassWith(actions: map<string, Body>, predicates: map<string, Predicate>): TaskClass
      reads this
    {
      TaskClass(initialState, stateHandlers, actions, predicates)
    }
  }

  /** A task row in memory, changed in place by `go_to`, `complete` and the handlers. */
  class Task {
    const taskClass: TaskClass
    var state: Option<string>
    var statusMessage: string
    var completed: bool
    var data: Data
    var results: Data

    function Row(): Record
      reads this
    {
      Record(state, statusMessage, completed, data, results)
    }

    method SetRow(r: Record)
      modifies this
      ensures Row() == r
    {
      state, statusMessage, completed, data, results := r.state, r.statusMessage, r.completed, r.data, r.results;
    }

    /** The row `create!` saves, before its first handler runs. */
    constructor (c: TaskClass, d: Data)
      ensures taskClass == c && Row() == Created0(c, d)
    {
      taskClass := c;
      state, statusMessage, completed, data, results := c.initialState, "", false, d, map[];
    }

    /** `go_to(state, message)`. */
    method GoTo(next: Option<string>, message: Option<string>, fuel: nat) returns (stop: Stop)
      modifies this
      ensures Row() == GoToState(taskClass, old(Row()), next, message, fuel).task
      ensures stop == GoToState(taskClass, old(Row()), next, message, fuel).stop
      decreases fuel, 0, 0
    {
      state, statusMessage := next, message.GetOr(StateName(next));
      if !StateIsValid(taskClass, state) {
        return Raised(Invalid);
      }
      if fuel == 0 {
        return OutOfFuel;
      }
      stop := ProcessCurrentState(fuel - 1);
    }

    /** `complete(**results)`. */
    method Complete(r: Data) returns (stop: Stop)
      modifies this
      ensures Row() == CompleteTask(taskClass, old(Row()), r).task
      ensures stop == CompleteTask(taskClass, old(Row()), r).stop
    {
      completed, results := true, r;
      stop := if StateIsValid(taskClass, state) then Returned else Raised(Invalid);
    }

    /** `process_current_state`. */
    method ProcessCurrentState(fuel: nat) returns (stop: Stop)
      modifies this
      ensures Row() == Process(taskClass, old(Row()), fuel).task
      ensures stop == Process(taskClass, old(Row()), fuel).stop
      decreases fuel, 2, 0
    {
      if state.None? {
        return Raised(Raise(NoMethodError, "undefined method 'to_sym' for nil"));
      }
      if state.value !in taskClass.handlers.entries {
        return Raised(Raise(NoMethodError, "undefined method 'call' for nil"));
      }
      match taskClass.handlers.entries[state.value]
      case ActionHandler(name, action) =>
        if action.Some? {
          stop := RunBlock(action.value(Row()), fuel);
        } else if name in taskClass.actions {
          stop := RunBlock(taskClass.actions[name](Row()), fuel);
        } else {
          stop := Raised(Raise(NoMethodError, "undefined method '" + name + "'"));
        }
      case DecisionHandler(name, condition, trueState, falseState) =>
        match Answer(taskClass, name, condition, Row()) {
          case Ok(b) => stop := GoTo(if b then trueState else falseState, None, fuel);
          case Err(e) => stop := Raised(e);
        }
      case CompletionHandler(_, handler) =>
        match Results(handler) {
          case Ok(r) => stop := Complete(r);
          case Err(e) => stop := Raised(e);
        }
    }

    /** Runs a block's steps on the task, one at a time. */
    method RunBlock(steps: seq<Step>, fuel: nat) returns (stop: Stop)
      modifies this
      ensures Row() == RunSteps(taskClass, old(Row()), steps, fuel).task
      ensures stop == RunSteps(taskClass, old(Row()), steps, fuel).stop
      decreases fuel, 1, |steps|
    {
      var i := 0;
      stop := Returned;
      while i < |steps|
        invariant 0 <= i <= |steps| && stop == Returned
        invariant RunSteps(taskClass, Row(), steps[i..], fuel) == RunSteps(taskClass, old(Row()), steps, fuel)
        decreases |steps| - i
      {
        assert steps[i..][0] == steps[i] && steps[i..][1..] == steps[i + 1..];
        ghost var before := Row();
        match steps[i] {
          case Assign(key, value) =>
            data := data[key := value];
          case GoTo(next, message) =>
            stop := GoTo(next, message, fuel);
            assert !stop.Returned? ==> RunSteps(taskClass, before, steps[i..], fuel) == GoToState(taskClass, before, next, message, fuel);
          case CompleteWith(r) =>
            stop := Complete(r);
            assert !stop.Returned? ==> RunSteps(taskClass, before, steps[i..], fuel) == CompleteTask(taskClass, before, r);
          case Fail(e) =>
            stop := Raised(e);
            assert RunSteps(taskClass, before, steps[i..], fuel) == Outcome(before, stop);
        }
        if !stop.Returned? {
          return;
        }
        i := i + 1;
      }
    }
  }

  /** `start(**data)`: the task `create!` saved and ran, or the error `create!` raised. */
  method StartTask(c: TaskClass, d: Data, fuel: nat) returns (task: Task?, err: Option<Error>, stop: Stop)
    ensures task == null <==> err.Some?
    ensures err.Some? <==> Start(c, d, fuel).NotCreated?
    ensures err.Some? ==> err.value == Start(c, d, fuel).error
    ensures task != null ==> fresh(task) && task.taskClass == c
                             && Start(c, d, fuel) == Created(Outcome(task.Row(), stop))
  {
    if !StateIsValid(c, c.initialState) {
      return null, Some(Invalid), Raised(Invalid);
    }
    task := new Task(c, d);
    stop := task.ProcessCurrentState(fuel);
    err := None;
  }
}
