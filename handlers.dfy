/** The V2 state handlers (the files under lib/operations/v2/handlers) and the frozen view of a task class
    that the engine runs against.

    Closures are uninterpreted functions: a condition reads the task and answers or raises; a body
    reads the task and yields the operations it performs on it, in order. */
module Handlers {
  import opened Values
  import opened Errors
  import opened Records
  import opened OrderedMaps
  import opened Selection

  /** `Array(values)` as the has_models setter applies it: nil, one model, or a list. */
  datatype ArrayArg = NilArg | Single(ref: ModelRef) | List(refs: seq<ModelRef>)

  /** One thing a body does to its task, in the order it does it. */
  datatype TaskOp =
    | SetAttribute(attribute: string, value: Value)       // an attribute setter
    | SetModel(model: string, ref: ModelRef)              // a has_model setter
    | SetModels(models: string, refs: ArrayArg)           // a has_models setter
    | GoTo(state: string)                                 // `go_to(state)`, the state by its `to_s`
    | SleepUntilWoken
    | Complete
    | Start(request: StartRequest)                        // `start(task_class, **attributes)`
    | Raises(error: Error)

  datatype StartRequest = StartRequest(taskClass: TaskClass, args: NewArgs)

  type Body = TaskData -> seq<TaskOp>
  type InteractionBody = (TaskData, seq<Value>) -> seq<TaskOp>
  type Condition = TaskData -> Result<bool>

  /** The configuration of a decision or wait handler. Destinations are kept by their `to_s`. */
  datatype Rule = Rule(conditions: seq<Condition>, destinations: seq<string>,
                       trueState: Option<string>, falseState: Option<string>)
  {
    /** `!@true_state.nil? || !@false_state.nil?` */
    predicate HasTrueFalse() { trueState.Some? || falseState.Some? }
  }

  /** A handler registered for a state. A nil block is a `None` body. */
  datatype Handler =
    | ActionHandler(name: string, action: Option<Body>, nextState: Option<string>)
    | DecisionHandler(name: string, rule: Rule)
    | WaitHandler(name: string, rule: Rule)
    | ResultHandler(name: string)
  {
    /** Whether arriving in this handler's state keeps the task running. */
    predicate Immediate() { !WaitHandler? }
  }

  /** An interaction: a named method callable from outside while the task is in a legal state. */
  datatype InteractionHandler = InteractionHandler(name: string, validStates: seq<string>,
                                                   implementation: Option<InteractionBody>)

  /** What an attribute or model declaration defines as a reader method. */
  datatype Reader = AttributeReader(default: Value) | ModelReader | ModelsReader

  datatype AttributeDefinition = AttributeDefinition(typeName: string, default: Value)

  /** Everything the engine reads from a task class once its DSL has run. */
  datatype TaskClass = TaskClass(
    name: string,
    initialState: string,
    stateHandlers: Hash<string, Handler>,
    interactionHandlers: Hash<string, InteractionHandler>,
    backgroundDelay: int,
    executionTimeout: int,
    deletionTime: int,
    timeoutHandler: Option<Body>,
    attributeDefinitions: Hash<string, AttributeDefinition>,
    modelDefinitions: Hash<string, string>,
    modelsDefinitions: Hash<string, string>,
    readers: map<string, Reader>,
    validationRules: Hash<string, bool>)

  /** A new action handler: no successor declared (action_handler.rb:7-11). */
  function NewAction(name: string, action: Option<Body>): (h: Handler)
    ensures h.ActionHandler? && h.nextState.None? && h.Immediate()
  {
    ActionHandler(name, action, None)
  }

  /** `then(state)`: declares the successor and returns the handler itself. */
  function Then(h: Handler, state: string): (r: Handler)
    requires h.ActionHandler?
    ensures r.ActionHandler? && r.nextState == Some(state)
    ensures r.name == h.name && r.action == h.action
  {
    h.(nextState := Some(state))
  }

  /** `when(*states)`: replaces the legal states by their string forms and returns the handler. */
  function When(h: InteractionHandler, states: seq<string>): (r: InteractionHandler)
    ensures r.validStates == states && r.name == h.name && r.implementation == h.implementation
  {
    h.(validStates := states)
  }

  /** An interaction may run when no legal state is listed, or the task is in one of them. */
  predicate InteractionAllowed(h: InteractionHandler, currentState: string) {
    |h.validStates| == 0 || currentState in h.validStates
  }

  /** `@destinations[index]` passed to `go_to`, where an index past the end reads nil and nil's
      `to_s` is the empty string. */
  function DestinationAt(destinations: seq<string>, i: nat): string {
    if i < |destinations| then destinations[i] else ""
  }

  /** The target of `task.go_to(state)` for an optional branch target: nil becomes "". */
  function TargetName(state: Option<string>): string {
    state.GetOr("")
  }

  /** Where a decision sends the task, or the error it raises (decision_handler.rb:34-60). */
  function Decide(name: string, r: Rule, t: TaskData): (d: Result<string>)
    ensures r.HasTrueFalse() && |r.conditions| == 0 ==> d.Err? && d.error.kind == ArgumentError
    ensures r.HasTrueFalse() && |r.conditions| > 0 ==>
              match r.conditions[0](t)
              case Ok(b) => d == Ok(TargetName(if b then r.trueState else r.falseState))
              case Err(e) => d == Err(e)
    ensures !r.HasTrueFalse() && d.Ok? ==>
              exists i :: 0 <= i < |r.conditions| && r.conditions[i](t) == Ok(true)
                          && (forall j :: 0 <= j < i ==> r.conditions[j](t) == Ok(false))
                          && d.value == DestinationAt(r.destinations, i)
    ensures !r.HasTrueFalse() && (forall j :: 0 <= j < |r.conditions| ==> r.conditions[j](t) == Ok(false)) ==>
              d == Err(Raise(NoDecision, "No conditions matched in " + name))
    ensures !r.HasTrueFalse() && d.Err? ==>
              d.error == Raise(NoDecision, "No conditions matched in " + name)
              || exists i :: 0 <= i < |r.conditions| && r.conditions[i](t) == Err(d.error)
  {
    if r.HasTrueFalse() then
      if |r.conditions| == 0 then Err(Raise(ArgumentError, "wrong number of arguments (given 0, expected 1..3)"))
      else
        match r.conditions[0](t)
        case Ok(b) => Ok(TargetName(if b then r.trueState else r.falseState))
        case Err(e) => Err(e)
    else
      match FirstTrue(r.conditions, t)
      case Matched(i) => Ok(DestinationAt(r.destinations, i))
      case NoneMatched => Err(Raise(NoDecision, "No conditions matched in " + name))
      case Raised(e) => Err(e)
  }

  /** With a true or false branch set, only the first condition is consulted and the go_to
      destination list is ignored. */
  lemma BooleanPathReadsFirstConditionOnly(name: string, r: Rule, t: TaskData,
                                            later: seq<Condition>, destinations: seq<string>)
    requires r.HasTrueFalse() && |r.conditions| > 0
    ensures Decide(name, r, t) == Decide(name, r.(conditions := r.conditions[..1] + later, destinations := destinations), t)
  {
    var narrowed := r.(conditions := r.conditions[..1] + later, destinations := destinations);
    assert narrowed.conditions[0] == r.conditions[0];
  }

  /** On the multiple-condition path, conditions after the first true one are not evaluated. */
  lemma {:induction false} MultiplePathStopsAtFirstMatch(name: string, r: Rule, t: TaskData, i: nat, later: seq<Condition>)
    requires !r.HasTrueFalse()
    requires FirstTrue(r.conditions, t) == Matched(i)
    ensures Decide(name, r, t) == Ok(DestinationAt(r.destinations, i))
    ensures Decide(name, r.(conditions := r.conditions[..i + 1] + later), t) == Decide(name, r, t)
  {
    LaterConditionsIgnored(r.conditions, later, t, i);
  }

  /** What a wait handler does: advance like a decision, or sleep when no condition matched
      (wait_handler.rb:9-17). Only NoDecision is swallowed. */
  datatype WaitOutcome = Advance(target: string) | Sleep | WaitFailed(error: Error)

  function Wait(name: string, r: Rule, t: TaskData): (w: WaitOutcome)
    ensures Decide(name, r, t).Ok? ==> w == Advance(Decide(name, r, t).value)
    ensures Decide(name, r, t).Err? ==>
              if Decide(name, r, t).error.kind == NoDecision then w == Sleep else w == WaitFailed(Decide(name, r, t).error)
  {
    match Decide(name, r, t)
    case Ok(target) => Advance(target)
    case Err(e) => if e.kind == NoDecision then Sleep else WaitFailed(e)
  }

  /** A wait handler with true/false branches never sleeps unless its first condition itself
      raises NoDecision. */
  lemma BooleanWaitNeverSleeps(name: string, r: Rule, t: TaskData)
    requires r.HasTrueFalse()
    requires |r.conditions| > 0 ==> !(r.conditions[0](t).Err? && r.conditions[0](t).error.kind == NoDecision)
    ensures Wait(name, r, t) != Sleep
  {
  }

  /** A wait handler whose conditions are all false sleeps. */
  lemma WaitSleepsWhenNothingMatches(name: string, r: Rule, t: TaskData)
    requires !r.HasTrueFalse()
    requires forall j :: 0 <= j < |r.conditions| ==> r.conditions[j](t) == Ok(false)
    ensures Wait(name, r, t) == Sleep
  {
  }
}
