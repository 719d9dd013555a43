/** The Task::Plan variant of the legacy engine (app/models/operations/task/plan.rb and
    the handler files under plan/): the class-level handler table and its four handler kinds. */
module LegacyPlan {
  import opened Values
  import opened Errors
  import opened OrderedMaps
  import opened Selection
  import opened LegacyCalls
  import opened LegacyInputs
  import LegacyAgent

  /** Plan::ActionHandler: its body and the successor that `then` or the class-level
      `go_to` set (nil at first). */
  datatype ActionHandler = ActionHandler(name: string, action: Option<Block>, nextState: Option<string>)

  function NewAction(name: string, action: Option<Block>): (h: ActionHandler)
    ensures h.nextState.None?
  {
    ActionHandler(name, action, None)
  }

  /** `then(next_state)`: the handler with its successor set, and the value the call
      returns, which is the state and not the handler. */
  function Then(h: ActionHandler, next: string): (r: (ActionHandler, string))
    ensures r.0 == h.(nextState := Some(next))
    ensures r.1 == next
  {
    (h.(nextState := Some(next)), next)
  }

  /** `immediate?`: an action always runs straight away. */
  function ActionImmediate(h: ActionHandler): (b: bool)
    ensures b
  {
    true
  }

  /** `call(task)`: runs the body on the task, then always calls `task.go_to(next_state)`,
      even when no successor is set. An error in the body propagates before the `go_to`. */
  function CallAction(h: ActionHandler, d: Data): (e: Effect)
    ensures Exec(h.action, d).error.Some? ==> e == Exec(h.action, d)
    ensures Exec(h.action, d).error.None? ==>
              e.error.None? && e.data == Exec(h.action, d).data
              && e.calls == Exec(h.action, d).calls + [TaskGoTo(StateValue(h.nextState), None)]
    ensures h.action.None? ==> e.error == Some(Raise(LocalJumpError, "no block given (yield)")) && e.calls == []
  {
    AndThen(Exec(h.action, d), TaskGoTo(StateValue(h.nextState), None))
  }

  /** Plan::DecisionHandler: the declared inputs, the conditions with their destinations and
      labels, and the true and false targets. */
  datatype DecisionHandler = DecisionHandler(name: string, inputs: InputLists, rule: Rule,
                                             trueState: Target, falseState: Target)
  {
    /** `has_true_false_handlers?`: either branch is set. */
    predicate HasTrueFalse() {
      !trueState.NoTarget? || !falseState.NoTarget?
    }
  }

  function NewDecision(name: string): DecisionHandler {
    DecisionHandler(name, NoInputs, NoConditions, NoTarget, NoTarget)
  }

  /** `condition(destination, label: ...) { ... }`: appends the condition and, when one is
      given, its destination. */
  function DecisionCondition(h: DecisionHandler, destination: Option<string>, c: Condition, caption: Option<string>): (r: DecisionHandler)
    ensures r.rule.conditions == h.rule.conditions + [c]
    ensures destination.Some? ==> r.rule.destinations == h.rule.destinations + [destination]
    ensures destination.None? ==> r.rule.destinations == h.rule.destinations
    ensures r.rule.labels == AddCondition(h.rule, c, caption).labels
    ensures r.(rule := h.rule) == h
  {
    var added := AddCondition(h.rule, c, caption);
    h.(rule := if destination.Some? then AddDestination(added, destination) else added)
  }

  /** `go_to(destination)` inside the configuration block. */
  function DecisionGoTo(h: DecisionHandler, destination: Option<string>): DecisionHandler {
    h.(rule := AddDestination(h.rule, destination))
  }

  /** `if_true(state) { ... }` and `if_false(state) { ... }`. */
  function IfTrue(h: DecisionHandler, state: Option<string>, block: Option<Block>): DecisionHandler {
    h.(trueState := TargetOf(state, block))
  }

  function IfFalse(h: DecisionHandler, state: Option<string>, block: Option<Block>): DecisionHandler {
    h.(falseState := TargetOf(state, block))
  }

  /** `inputs(*names)` and `optional(*names)` inside the configuration block. */
  function DecisionInputs(h: DecisionHandler, names: seq<string>): DecisionHandler {
    h.(inputs := DeclareInputs(h.inputs, names))
  }

  function DecisionOptional(h: DecisionHandler, names: seq<string>): DecisionHandler {
    h.(inputs := DeclareOptional(h.inputs, names))
  }

  /** `call(task, data)`: the input check first; then, with a true or false branch set,
      only the first condition decides between them; otherwise the destination of the first
      condition that holds, or NoDecision when none does. */
  function CallDecision(h: DecisionHandler, d: Data): (e: Effect)
    ensures ValidateInputs(h.inputs, d).Some? ==> e == Raising(d, ValidateInputs(h.inputs, d).value)
    ensures ValidateInputs(h.inputs, d).None? && h.HasTrueFalse() && |h.rule.conditions| == 0 ==>
              e.error.Some? && e.error.value.kind == ArgumentError && e.calls == []
    ensures ValidateInputs(h.inputs, d).None? && h.HasTrueFalse() && |h.rule.conditions| > 0 ==>
              var answer := h.rule.conditions[0](d);
              (answer.Ok? ==> e == Branch(if answer.value then h.trueState else h.falseState, d))
              && (answer.Err? ==> e == Raising(d, answer.error))
    ensures ValidateInputs(h.inputs, d).None? && !h.HasTrueFalse() ==>
              var first := FirstTrue(h.rule.conditions, d);
              (first.Matched? ==> e == Calling(d, CarrierGoTo(DestinationAt(h.rule.destinations, first.index), NoMessage)))
              && (first.NoneMatched? ==> e == Raising(d, Raise(NoDecision, "No conditions matched " + h.name)))
              && (first.Raised? ==> e == Raising(d, first.error))
  {
    match ValidateInputs(h.inputs, d)
    case Some(err) => Raising(d, err)
    case None =>
      if h.HasTrueFalse() then
        if |h.rule.conditions| == 0 then Raising(d, Raise(ArgumentError, "wrong number of arguments (given 0, expected 1..3)"))
        else
          match h.rule.conditions[0](d)
          case Ok(b) => Branch(if b then h.trueState else h.falseState, d)
          case Err(err) => Raising(d, err)
      else
        match FirstTrue(h.rule.conditions, d)
        case Matched(i) => Calling(d, CarrierGoTo(DestinationAt(h.rule.destinations, i), NoMessage))
        case NoneMatched => Raising(d, Raise(NoDecision, "No conditions matched " + h.name))
        case Raised(err) => Raising(d, err)
  }

  /** Setting a true or false branch selects the single-condition mode: the destinations and
      every condition after the first are then ignored. */
  lemma BranchesOverrideDestinations(h: DecisionHandler, d: Data, later: seq<Condition>, destinations: seq<Option<string>>)
    requires h.HasTrueFalse() && |h.rule.conditions| > 0
    ensures CallDecision(h, d) ==
            CallDecision(h.(rule := h.rule.(conditions := h.rule.conditions[..1] + later, destinations := destinations)), d)
  {
    var narrowed := h.(rule := h.rule.(conditions := h.rule.conditions[..1] + later, destinations := destinations));
    assert narrowed.rule.conditions[0] == h.rule.conditions[0];
  }

  /** In the multiple-condition mode, conditions after the first one that holds are not
      evaluated. */
  lemma {:induction false} MultipleDecisionStopsAtFirstMatch(h: DecisionHandler, d: Data, i: nat, later: seq<Condition>)
    requires !h.HasTrueFalse() && ValidateInputs(h.inputs, d).None?
    requires FirstTrue(h.rule.conditions, d) == Matched(i)
    ensures CallDecision(h, d) == Calling(d, CarrierGoTo(DestinationAt(h.rule.destinations, i), NoMessage))
    ensures CallDecision(h.(rule := h.rule.(conditions := h.rule.conditions[..i + 1] + later)), d) == CallDecision(h, d)
  {
    LaterConditionsIgnored(h.rule.conditions, later, d, i);
  }

  /** Declaring every condition with its destination keeps each destination paired with its
      condition. */
  lemma PairedDeclarationKeepsAlignment(h: DecisionHandler, destination: string, c: Condition, caption: Option<string>)
    requires |h.rule.destinations| == |h.rule.conditions|
    ensures var r := DecisionCondition(h, Some(destination), c, caption);
            |r.rule.destinations| == |r.rule.conditions|
            && r.rule.destinations[|h.rule.conditions|] == Some(destination)
  {
  }

  /** A condition declared without a destination shifts the pairing: when it is the one that
      holds, the decision goes to the destination declared with the next condition. */
  lemma UnpairedConditionTakesNextDestination(name: string, first: Condition, second: Condition, target: string, d: Data)
    requires first(d) == Ok(true)
    ensures var h := DecisionCondition(DecisionCondition(NewDecision(name), None, first, None), Some(target), second, None);
            CallDecision(h, d) == Calling(d, CarrierGoTo(Str(target), NoMessage))
  {
    var h := DecisionCondition(DecisionCondition(NewDecision(name), None, first, None), Some(target), second, None);
    assert h.rule.conditions == [first, second];
    assert h.rule.destinations == [Some(target)];
    assert FirstTrue(h.rule.conditions, d) == Matched(0);
  }

  /** Plan::WaitHandler is configured exactly as Agent::WaitHandler is (the same `initialize`,
      `immediate?`, `condition` and `go_to`), so it is the same value; only its `call`
      differs. */
  type WaitHandler = LegacyAgent.WaitHandler

  /** `call(task)`: `task.go_to` the destination of the first condition that holds on the
      task, or its current state when none holds. An error raised by a condition propagates
      before any `go_to`. */
  function CallWait(h: WaitHandler, state: string, d: Data): (e: Effect)
    ensures e.data == d && e.value == Nil
    ensures FirstTrue(h.rule.conditions, d).Matched? ==>
              e.calls == [TaskGoTo(DestinationAt(h.rule.destinations, FirstTrue(h.rule.conditions, d).index), None)]
              && e.error.None?
    ensures (forall j :: 0 <= j < |h.rule.conditions| ==> h.rule.conditions[j](d) == Ok(false)) ==>
              e == Calling(d, TaskGoTo(Str(state), None))
    ensures e.error.Some? <==> FirstTrue(h.rule.conditions, d).Raised?
    ensures e.error.Some? ==> e.calls == []
  {
    match SelectDestination(h.rule, d, Str(state))
    case Ok(target) => Calling(d, TaskGoTo(target, None))
    case Err(err) => Raising(d, err)
  }

  /** The Plan and Agent wait handlers select the same destination; they differ only in
      whether the task or the carrier receives the `go_to`. */
  lemma WaitVariantsAgree(name: string, rule: Rule, state: string, d: Data)
    ensures var p := CallWait(LegacyAgent.WaitHandler(name, rule), state, d);
            var a := LegacyAgent.CallWait(LegacyAgent.WaitHandler(name, rule), state, d);
            p.error == a.error && |p.calls| == |a.calls|
            && forall i :: 0 <= i < |p.calls| ==> p.calls[i].TaskGoTo? && a.calls[i].CarrierGoTo? && p.calls[i].state == a.calls[i].state
  {
  }

  /** Plan::InteractionHandler keeps its legal states as Agent::InteractionHandler does (the
      same `initialize` and `when`, with string states), so it is the same value; only the
      method it generates differs. */
  type InteractionHandler = LegacyAgent.InteractionHandler

  /** The generated interaction method, called on a task in `state`: InvalidState in an
      illegal state, before the body; otherwise the body with the arguments, then
      `wake_up!`, which a body error skips. */
  function Interact(h: InteractionHandler, state: string, d: Data, args: seq<Value>): (e: Effect)
    ensures !LegacyAgent.Legal(h, state) ==>
              e == Raising(d, Raise(InvalidState, h.klass + "#" + h.name + " cannot be called in " + state))
    ensures LegacyAgent.Legal(h, state) && ExecWith(h.implementation, d, args).error.Some? ==> e == ExecWith(h.implementation, d, args)
    ensures LegacyAgent.Legal(h, state) && ExecWith(h.implementation, d, args).error.None? ==>
              e.error.None? && e.calls == ExecWith(h.implementation, d, args).calls + [WakeUp]
    ensures WakeUp in e.calls ==> LegacyAgent.Legal(h, state)
  {
    if !LegacyAgent.Legal(h, state) then Raising(d, Raise(InvalidState, h.klass + "#" + h.name + " cannot be called in " + state))
    else
      var ran := ExecWith(h.implementation, d, args);
      assert WakeUp in ran.calls ==> LegacyAgent.Legal(h, state);
      AndThen(ran, WakeUp)
  }

  /** The Plan interaction records nothing on failure, where the Agent interaction records
      every failure: they agree exactly on the calls made up to the body's end. */
  lemma InteractionVariantsDifferOnlyInBookkeeping(name: string, klass: string, states: seq<string>,
                                                   implementation: Option<ArgsBlock>, state: string, d: Data, args: seq<Value>)
    ensures var p := Interact(LegacyAgent.InteractionHandler(name, klass, states, implementation), state, d, args);
            var a := LegacyAgent.Interact(LegacyAgent.InteractionHandler(name, klass, states, implementation), state, d, args);
            p.error == a.error
            && (p.error.Some? ==> a.calls == p.calls + [RecordException(p.error.value)])
            && (p.error.None? ==> a.calls == p.calls[..|p.calls| - 1] + [RecordStateTransition(a.data), Perform])
  {
  }

  /** What the class-level DSL registers under a state. */
  datatype PlanHandler =
    | PlanAction(action: ActionHandler)
    | PlanDecision(decision: DecisionHandler)
    | PlanResult(name: string, inputs: seq<string>, optional: seq<string>)
    | AgentWait(wait: LegacyAgent.WaitHandler)          // `wait_until` of agent/plan.rb

  /** The positional arguments Plan::ResultHandler's `initialize` takes: the name alone. */
  const ResultHandlerArity: nat := 1

  /** `Plan::ResultHandler.new` given `given` positional arguments: a handler for the name when
      the count fits `initialize`, ArgumentError otherwise. */
  function NewResultHandler(name: string, given: nat): (r: Result<PlanHandler>)
    ensures r.Ok? <==> given == ResultHandlerArity
    ensures r.Ok? ==> r.value == PlanResult(name, [], [])
    ensures r.Err? ==> r.error.kind == ArgumentError
  {
    if given == ResultHandlerArity then Ok(PlanResult(name, [], []))
    else Err(Raise(ArgumentError, "wrong number of arguments"))
  }

  /** `result` passes the name, the inputs and the optional list to `ResultHandler.new`: three
      arguments, where `initialize` takes one. */
  lemma ResultDeclarationRaisesAsWritten(name: string)
    ensures NewResultHandler(name, 3).Err?
    ensures NewResultHandler(name, 3).error.kind == ArgumentError
  {
  }

  /** The key of the most recently declared action handler, if any. */
  function LastAction(handlers: Hash<string, PlanHandler>): (k: Option<string>)
    ensures k.Some? ==> k.value in handlers.entries && handlers.entries[k.value].PlanAction?
    ensures k.None? ==> forall s :: s in handlers.entries ==> !handlers.entries[s].PlanAction?
  {
    LastKeyWhere(handlers, (h: PlanHandler) => h.PlanAction?)
  }

  /** A task class's plan while its class body runs. */
  class Definition {
    var initialState: Option<string>
    var stateHandlers: Hash<string, PlanHandler>

    constructor ()
      ensures initialState.None? && stateHandlers == Empty()
    {
      initialState := None;
      stateHandlers := Empty();
    }

    /** `handler_for(state)`. */
    function HandlerFor(state: string): Option<PlanHandler>
      reads this
    {
      Get(stateHandlers, state)
    }

    /** `state_is_valid`: a task's state is valid when it is not blank and has a handler. */
    predicate StateIsValid(state: Option<string>)
      reads this
    {
      state.Some? && !Blank(state.value) && HandlerFor(state.value).Some?
    }

    /** `starts_with(value)`. */
    method StartsWith(state: string)
      modifies this
      ensures initialState == Some(state) && stateHandlers == old(stateHandlers)
    {
      initialState := Some(state);
    }

    /** Registers `handler` under `state`, replacing an earlier handler of that name. */
    method Register(state: string, handler: PlanHandler)
      modifies this
      ensures stateHandlers == Put(old(stateHandlers), state, handler)
      ensures HandlerFor(state) == Some(handler)
      ensures forall s :: s != state ==> HandlerFor(s) == old(HandlerFor(s))
      ensures !Blank(state) ==> StateIsValid(Some(state))
      ensures initialState == old(initialState)
    {
      stateHandlers := Put(stateHandlers, state, handler);
    }

    /** `decision(name) { ... }`, given the handler its configuration block built. */
    method Decision(state: string, h: DecisionHandler)
      modifies this
      ensures stateHandlers == Put(old(stateHandlers), state, PlanDecision(h))
      ensures initialState == old(initialState)
    {
      Register(state, PlanDecision(h));
    }

    /** `action(name) { ... }`: the handler starts without a successor. */
    method Action(state: string, action: Option<Block>) returns (h: ActionHandler)
      modifies this
      ensures h == NewAction(state, action)
      ensures stateHandlers == Put(old(stateHandlers), state, PlanAction(h))
      ensures initialState == old(initialState)
    {
      h := NewAction(state, action);
      Register(state, PlanAction(h));
    }

    /** `result(name, inputs:, optional:)` as written: the three arguments it hands to
        `ResultHandler.new` do not fit `initialize`, so the declaration raises ArgumentError
        and registers nothing. */
    method ResultAsWritten(state: string, inputs: seq<string>, optional: seq<string>) returns (err: Option<Error>)
      ensures err.Some? && err.value.kind == ArgumentError
    {
      var made := NewResultHandler(state, 3);
      ResultDeclarationRaisesAsWritten(state);
      err := Some(made.error);
    }

    /** `result(name, inputs:, optional:)` as evidently intended: a result handler carrying the
        declared input lists is registered under the state. */
    method Result(state: string, inputs: seq<string>, optional: seq<string>)
      modifies this
      ensures stateHandlers == Put(old(stateHandlers), state, PlanResult(state, inputs, optional))
      ensures HandlerFor(state) == Some(PlanResult(state, inputs, optional))
      ensures !Blank(state) ==> StateIsValid(Some(state))
      ensures initialState == old(initialState)
    {
      Register(state, PlanResult(state, inputs, optional));
    }

    /** `wait_until(name) { ... }` of agent/plan.rb, given the configured handler. */
    method WaitUntil(state: string, h: LegacyAgent.WaitHandler)
      modifies this
      ensures stateHandlers == Put(old(stateHandlers), state, AgentWait(h))
      ensures initialState == old(initialState)
    {
      Register(state, AgentWait(h));
    }

    /** Class-level `go_to(state)`: sets the successor of the most recently declared action
        handler, or raises ArgumentError when there is none. */
    method GoTo(state: string) returns (err: Option<Error>)
      modifies this
      ensures LastAction(old(stateHandlers)).None? ==>
                err == Some(Raise(ArgumentError, "No action handler defined yet")) && stateHandlers == old(stateHandlers)
      ensures LastAction(old(stateHandlers)).Some? ==>
                var key := LastAction(old(stateHandlers)).value;
                err.None? && stateHandlers.keys == old(stateHandlers.keys)
                && stateHandlers.entries == old(stateHandlers.entries)[key := PlanAction(old(stateHandlers.entries)[key].action.(nextState := Some(state)))]
      ensures initialState == old(initialState)
    {
      var last := LastAction(stateHandlers);
      if last.None? {
        return Some(Raise(ArgumentError, "No action handler defined yet"));
      }
      var h := stateHandlers.entries[last.value].action;
      stateHandlers := Put(stateHandlers, last.value, PlanAction(h.(nextState := Some(state))));
      err := None;
    }
  }

  /** A blank state is invalid even when a handler is registered under it. */
  lemma BlankStateIsInvalid(def: Definition, state: string)
    requires Blank(state)
    ensures !def.StateIsValid(Some(state))
  {
  }

  /** `action :a` followed by the class-level `go_to :b`, for a state `a` not declared
      before: a's successor becomes b and no other handler changes. */
  method ActionThenGoTo(def: Definition, a: string, body: Option<Block>, b: string)
    requires a !in def.stateHandlers.entries
    modifies def
    ensures def.HandlerFor(a) == Some(PlanAction(ActionHandler(a, body, Some(b))))
    ensures forall s :: s != a ==> def.HandlerFor(s) == old(def.HandlerFor(s))
  {
    var h := def.Action(a, body);
    var keys := def.stateHandlers.keys;
    assert keys[|keys| - 1] == a;
    assert LastAction(def.stateHandlers) == Some(a);
    var err := def.GoTo(b);
  }
}
