/** The handler classes of app/models/operations/task/state_management/: handlers whose
    `call(task, data)` runs blocks on the data carrier and makes its transitions through the
    carrier, or through the task for an action's static successor. */
module LegacyCarrierHandlers {
  import opened Values
  import opened Errors
  import opened Selection
  import opened LegacyCalls
  import opened LegacyInputs
  import LegacyAgent

  /** What a handler can see of the task it is called with: its class name, whether it runs
      in the background, its state, and the task methods a decision without a condition
      calls (`task.send(name, data)`). */
  datatype TaskView = TaskView(className: string, background: bool, state: Value, methods: map<string, Condition>)

  /** The task's state after `calls` were made on it and the carrier, starting from
      `initial`: the state of the last `task.go_to`, if there was one. */
  function StateAfter(initial: Value, calls: seq<Call>): (s: Value)
    ensures (forall i :: 0 <= i < |calls| ==> !calls[i].TaskGoTo?) ==> s == initial
    ensures |calls| > 0 && calls[|calls| - 1].TaskGoTo? ==> s == calls[|calls| - 1].state
    decreases |calls|
  {
    if |calls| == 0 then initial
    else if calls[|calls| - 1].TaskGoTo? then calls[|calls| - 1].state
    else StateAfter(initial, calls[..|calls| - 1])
  }

  /** ActionHandler: its body, its static successor (`next_state`, nil at first) and the
      input lists, which start empty. */
  datatype Action = Action(name: string, inputs: InputLists, action: Option<Block>, nextState: Option<string>)

  function NewAction(name: string, action: Option<Block>): (h: Action)
    ensures h.nextState.None? && h.inputs == NoInputs
  {
    Action(name, NoInputs, action, None)
  }

  /** `handler.next_state = state`. */
  function WithNextState(h: Action, state: Option<string>): Action {
    h.(nextState := state)
  }

  /** Whether the static successor names one of the handler's declared inputs. */
  predicate NamesAnInput(h: Action) {
    h.nextState.Some? && (h.nextState.value in h.inputs.required || h.nextState.value in h.inputs.optional)
  }

  /** The `go_to` the static successor adds after the body, if any: none without a successor
      or when the body moved the task out of this action's state; the value of a named input
      when it is truthy; the successor itself otherwise. */
  function StaticTransition(h: Action, before: Value, ran: Effect): Option<Call> {
    if h.nextState.None? || StateAfter(before, ran.calls) != Str(h.name) then None
    else if NamesAnInput(h) then
      var target := Lookup(ran.data, h.nextState.value);
      if Truthy(target) then Some(TaskGoTo(target, Some(ran.data))) else None
    else Some(TaskGoTo(Str(h.nextState.value), Some(ran.data)))
  }

  /** `call(task, data)`: runs the body on the carrier, then makes the static transition, and
      returns the body's value. */
  function CallAction(h: Action, task: TaskView, d: Data): (e: Effect)
    ensures var ran := Exec(h.action, d);
            && e.data == ran.data && e.value == ran.value && e.error == ran.error
            && (ran.error.Some? ==> e == ran)
            && (ran.error.None? && StaticTransition(h, task.state, ran).None? ==> e == ran)
            && (ran.error.None? && StaticTransition(h, task.state, ran).Some? ==>
                  e.calls == ran.calls + [StaticTransition(h, task.state, ran).value])
  {
    var ran := Exec(h.action, d);
    if ran.error.Some? then ran
    else match StaticTransition(h, task.state, ran)
      case None => ran
      case Some(c) => Effect(ran.data, ran.calls + [c], ran.value, None)
  }

  /** A `go_to` in the body that leaves this action's state wins over the static successor:
      the action adds no call of its own. */
  lemma GoToInBodyWins(h: Action, task: TaskView, d: Data)
    requires Exec(h.action, d).error.None?
    requires var calls := Exec(h.action, d).calls;
             |calls| > 0 && calls[|calls| - 1].TaskGoTo? && calls[|calls| - 1].state != Str(h.name)
    ensures CallAction(h, task, d) == Exec(h.action, d)
  {
  }

  /** A body that does not move the task leaves it to the static successor, passed the
      carrier's data. */
  lemma StaticSuccessorFires(h: Action, task: TaskView, d: Data)
    requires Exec(h.action, d).error.None? && h.nextState.Some? && !NamesAnInput(h)
    requires task.state == Str(h.name)
    requires forall c :: c in Exec(h.action, d).calls ==> !c.TaskGoTo?
    ensures var ran := Exec(h.action, d);
            CallAction(h, task, d).calls == ran.calls + [TaskGoTo(Str(h.nextState.value), Some(ran.data))]
  {
    var calls := Exec(h.action, d).calls;
    assert forall i :: 0 <= i < |calls| ==> !calls[i].TaskGoTo? by {
      forall i | 0 <= i < |calls| ensures !calls[i].TaskGoTo? {
        assert calls[i] in calls;
      }
    }
  }

  /** A successor naming an input goes where the input says, and nowhere when the input is
      nil or false. */
  lemma InputNamedSuccessor(h: Action, task: TaskView, d: Data)
    requires Exec(h.action, d).error.None? && NamesAnInput(h)
    requires StateAfter(task.state, Exec(h.action, d).calls) == Str(h.name)
    ensures var ran := Exec(h.action, d);
            var target := Lookup(ran.data, h.nextState.value);
            (Truthy(target) ==> CallAction(h, task, d).calls == ran.calls + [TaskGoTo(target, Some(ran.data))])
            && (!Truthy(target) ==> CallAction(h, task, d) == ran)
  {
  }

  /** The input lists of an action start empty and nothing in the handler declares inputs,
      so a successor never names an input. */
  lemma ConstructedActionNeverNamesAnInput(name: string, action: Option<Block>, next: Option<string>)
    ensures !NamesAnInput(WithNextState(NewAction(name, action), next))
  {
  }

  /** DecisionHandler: one condition slot, a true and a false target, and input lists. */
  datatype Decision = Decision(name: string, inputs: InputLists, condition: Option<Condition>, trueState: Target, falseState: Target)

  /** A call made by a decision's configuration block. */
  datatype DecisionSetting =
    | DecideOn(condition: Condition)
    | IfTrueGoes(state: Option<string>, block: Option<Block>)
    | IfFalseGoes(state: Option<string>, block: Option<Block>)
    | NeedsInputs(names: seq<string>)
    | AcceptsOptional(names: seq<string>)

  /** `DecisionHandler.new(name, &config)`: every setting starts nil or empty and the block's
      calls apply in order. */
  function ConfigureDecision(name: string, config: seq<DecisionSetting>): (h: Decision)
    ensures h.name == name
    decreases |config|
  {
    if |config| == 0 then Decision(name, NoInputs, None, NoTarget, NoTarget)
    else
      var h := ConfigureDecision(name, config[..|config| - 1]);
      match config[|config| - 1]
      case DecideOn(c) => h.(condition := Some(c))
      case IfTrueGoes(s, b) => h.(trueState := TargetOf(s, b))
      case IfFalseGoes(s, b) => h.(falseState := TargetOf(s, b))
      case NeedsInputs(names) => h.(inputs := DeclareInputs(h.inputs, names))
      case AcceptsOptional(names) => h.(inputs := DeclareOptional(h.inputs, names))
  }

  /** Only one condition slot exists: the last `condition` of the block is the one kept. */
  lemma {:induction false} LaterConditionReplacesEarlier(name: string, config: seq<DecisionSetting>, i: nat)
    requires i < |config| && config[i].DecideOn?
    requires forall j :: i < j < |config| ==> !config[j].DecideOn?
    ensures ConfigureDecision(name, config).condition == Some(config[i].condition)
    decreases |config|
  {
    if i < |config| - 1 {
      LaterConditionReplacesEarlier(name, config[..|config| - 1], i);
    }
  }

  /** The answer of a decision: its condition on the carrier, or the task's method of the
      handler's name. */
  function Ask(h: Decision, task: TaskView, d: Data): Result<bool> {
    match h.condition
    case Some(c) => c(d)
    case None =>
      if h.name in task.methods then task.methods[h.name](d)
      else Err(Raise(NoMethodError, "undefined method '" + h.name + "'"))
  }

  /** `call(task, data)`: the input check first, then the answer picks a target, which runs
      on the carrier when it is a block and is passed to the carrier's `go_to` otherwise. */
  function CallDecision(h: Decision, task: TaskView, d: Data): (e: Effect)
    ensures ValidateInputs(h.inputs, d).Some? ==> e == Raising(d, ValidateInputs(h.inputs, d).value)
    ensures ValidateInputs(h.inputs, d).None? ==>
              match Ask(h, task, d)
              case Ok(b) => e == Branch(if b then h.trueState else h.falseState, d)
              case Err(err) => e == Raising(d, err)
  {
    match ValidateInputs(h.inputs, d)
    case Some(err) => Raising(d, err)
    case None =>
      match Ask(h, task, d)
      case Ok(b) => Branch(if b then h.trueState else h.falseState, d)
      case Err(err) => Raising(d, err)
  }

  /** Missing inputs stop a decision before its condition: whatever the condition would
      answer, the result is the input error. */
  lemma MissingInputsComeFirst(h: Decision, task: TaskView, d: Data, other: Option<Condition>)
    requires exists n :: n in h.inputs.required && n !in d
    ensures CallDecision(h, task, d) == CallDecision(h.(condition := other), task, d)
    ensures CallDecision(h, task, d).error.Some? && CallDecision(h, task, d).error.value.kind == ArgumentError
  {
  }

  /** WaitHandler: the conditions and destinations its configuration block declared. */
  datatype Wait = Wait(name: string, rule: Rule)

  function NewWait(name: string): Wait {
    Wait(name, NoConditions)
  }

  function WaitCondition(h: Wait, c: Condition): (configured: Wait)
    ensures configured.rule.labels == h.rule.labels
  {
    h.(rule := AddCondition(h.rule, c, None))
  }

  function WaitGoTo(h: Wait, state: Option<string>): Wait {
    h.(rule := AddDestination(h.rule, state))
  }

  /** `call(task, data)`: CannotWaitInForeground unless the task runs in the background;
      then the carrier's `go_to` to the destination of the first condition that holds, or to
      the task's own state. */
  function CallWait(h: Wait, task: TaskView, d: Data): (e: Effect)
    ensures !task.background ==>
              e == Raising(d, Raise(CannotWaitInForeground, task.className + " cannot wait in the foreground"))
    ensures task.background ==>
              match SelectDestination(h.rule, d, task.state)
              case Ok(target) => e == Calling(d, CarrierGoTo(target, NoMessage))
              case Err(err) => e == Raising(d, err)
  {
    if !task.background then Raising(d, Raise(CannotWaitInForeground, task.className + " cannot wait in the foreground"))
    else match SelectDestination(h.rule, d, task.state)
      case Ok(target) => Calling(d, CarrierGoTo(target, NoMessage))
      case Err(err) => Raising(d, err)
  }

  /** In the background this wait handler does what the Agent's does. */
  lemma BackgroundWaitIsAgentWait(h: Wait, className: string, state: string, methods: map<string, Condition>, d: Data)
    ensures CallWait(h, TaskView(className, true, Str(state), methods), d) == LegacyAgent.CallWait(LegacyAgent.WaitHandler(h.name, h.rule), state, d)
  {
  }

  /** The foreground check comes before any condition: even a raising condition is never
      reached. */
  lemma ForegroundWaitNeverAsks(h: Wait, task: TaskView, d: Data)
    requires !task.background
    ensures CallWait(h, task, d).error.Some? && CallWait(h, task, d).error.value.kind == CannotWaitInForeground
    ensures CallWait(h, task, d).calls == []
  {
  }

  /** What the completion block did: its own effect on the carrier, and the results object as
      it left it. */
  datatype Filled = Filled(ran: Effect, results: Data)

  /** The block of `ends_with`/`result`: it runs on the carrier and receives the results. */
  type FillBlock = (Data, Data) -> Filled

  /** CompletionHandler, with the input lists its constructor was given. */
  datatype Completion = Completion(name: string, inputs: InputLists, handler: Option<FillBlock>)

  /** `call(task, data)`: a fresh empty results object, filled by the block when there is
      one, then `data.complete(results)` once the block returned. */
  function CallCompletion(h: Completion, d: Data): (e: Effect)
    ensures h.handler.None? ==> e == Calling(d, Complete(map[]))
    ensures h.handler.Some? ==>
              var f := h.handler.value(d, map[]);
              if f.ran.error.Some? then e == f.ran
              else e == Effect(f.ran.data, f.ran.calls + [Complete(f.results)], Nil, None)
    ensures e.error.None? ==> |e.calls| > 0 && e.calls[|e.calls| - 1].Complete?
    ensures e.error.Some? ==> forall c :: c in e.calls ==> c in h.handler.value(d, map[]).ran.calls
  {
    match h.handler
    case None => Calling(d, Complete(map[]))
    case Some(b) =>
      var f := b(d, map[]);
      if f.ran.error.Some? then f.ran
      else Effect(f.ran.data, f.ran.calls + [Complete(f.results)], Nil, None)
  }

  /** Each call starts from empty results: completing twice on the same data completes with
      the same results both times. */
  lemma CompletionStartsAfresh(h: Completion, d: Data)
    requires CallCompletion(h, d).error.None?
    ensures var calls := CallCompletion(h, d).calls;
            calls[|calls| - 1] == Complete(if h.handler.None? then map[] else h.handler.value(d, map[]).results)
  {
  }

  /** A handler of this family, as a task class registers it. */
  datatype Handler = ActionState(action: Action) | DecisionState(decision: Decision) | WaitState(wait: Wait) | CompletionState(completion: Completion)

  /** `handler.call(task, data)`. */
  function CallHandler(h: Handler, task: TaskView, d: Data): (e: Effect)
    ensures h.ActionState? ==> e == CallAction(h.action, task, d)
    ensures h.DecisionState? ==> e == CallDecision(h.decision, task, d)
    ensures h.WaitState? ==> e == CallWait(h.wait, task, d)
    ensures h.CompletionState? ==> e == CallCompletion(h.completion, d)
  {
    match h
    case ActionState(a) => CallAction(a, task, d)
    case DecisionState(x) => CallDecision(x, task, d)
    case WaitState(w) => CallWait(w, task, d)
    case CompletionState(c) => CallCompletion(c, d)
  }
}
