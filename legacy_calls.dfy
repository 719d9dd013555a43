/** The vocabulary shared by the legacy handler families under app/models/operations
    (Task::Plan, Task::StateManagement and Agent).

    A legacy handler does not change a task itself: it evaluates conditions, runs blocks and
    then calls `go_to`, `complete`, `fail_with`, ... on the task or on the data carrier wrapped
    round it. The model records those calls, in the order they are made, and leaves their
    meaning to the receiver (a production task, the data carrier, or the test carrier of
    testing.rb). Blocks and conditions are uninterpreted functions of the data they run on. */
module LegacyCalls {
  import opened Values
  import opened Errors
  import opened Selection

  /** A task's data hash, or the table of the data carrier wrapped round it. */
  type Data = map<string, Value>

  /** The message passed to a carrier's `go_to`: none, or the carrier object itself, as in
      `data.go_to(next_state, data)`. */
  datatype CarrierMessage = NoMessage | TheCarrier

  /** A call made by handler code on the task or on the data carrier. */
  datatype Call =
    | TaskGoTo(state: Value, data: Option<Data>)            // task.go_to(state[, data])
    | CarrierGoTo(state: Value, message: CarrierMessage)    // data.go_to(state[, data])
    | FailWith(reason: string)
    | CallSubTask(taskClass: string, args: Data)
    | StartSubTask(taskClass: string, args: Data)
    | Complete(results: Data)
    | WakeUp                                                // wake_up!
    | RecordStateTransition(carried: Data)                   // record_state_transition!(data:)
    | Perform                                               // perform
    | RecordException(error: Error)                         // record_exception(ex)

  /** What running some code left behind: the data as it ended, the calls it made in order,
      the value of its last expression, and the error that escaped it, if any. */
  datatype Effect = Effect(data: Data, calls: seq<Call>, value: Value, error: Option<Error>)

  /** A block run on the data (`instance_exec`/`instance_eval`). */
  type Block = Data -> Effect

  /** A block that also receives the call's arguments (`instance_exec(*args, &block)`). */
  type ArgsBlock = (Data, seq<Value>) -> Effect

  /** A condition block: it answers, or raises. */
  type Condition = Data -> Result<bool>

  /** Where a branch of a decision leads: nil, a state, or a block run on the carrier. */
  datatype Target = NoTarget | StateTarget(state: string) | BlockTarget(block: Block)

  /** `state || handler`, for the optional state and block given to `if_true`/`if_false`. */
  function TargetOf(state: Option<string>, block: Option<Block>): (t: Target)
    ensures state.Some? ==> t == StateTarget(state.value)
    ensures state.None? && block.Some? ==> t == BlockTarget(block.value)
    ensures t == NoTarget <==> state.None? && block.None?
  {
    if state.Some? then StateTarget(state.value)
    else if block.Some? then BlockTarget(block.value)
    else NoTarget
  }

  /** A state symbol, or nil, as an argument of `go_to`. */
  function StateValue(state: Option<string>): Value {
    match state
    case Some(s) => Str(s)
    case None => Nil
  }

  /** Code that raised before making any call. */
  function Raising(d: Data, e: Error): Effect {
    Effect(d, [], Nil, Some(e))
  }

  /** Code that made one call and returned. */
  function Calling(d: Data, c: Call): Effect {
    Effect(d, [c], Nil, None)
  }

  /** Makes the call `c` after `e` has run, unless `e` raised. */
  function AndThen(e: Effect, c: Call): Effect {
    if e.error.Some? then e else Effect(e.data, e.calls + [c], Nil, None)
  }

  /** `receiver.instance_exec(&block)`: without a block Ruby raises LocalJumpError. */
  function Exec(block: Option<Block>, d: Data): Effect {
    match block
    case Some(b) => b(d)
    case None => Raising(d, Raise(LocalJumpError, "no block given (yield)"))
  }

  /** `receiver.instance_exec(*args, &block)`. */
  function ExecWith(block: Option<ArgsBlock>, d: Data, args: seq<Value>): Effect {
    match block
    case Some(b) => b(d, args)
    case None => Raising(d, Raise(LocalJumpError, "no block given (yield)"))
  }

  /** A branch taken: a block target runs on the carrier, any other target is passed, with
      the carrier itself as message, to the carrier's `go_to`. */
  function Branch(target: Target, d: Data): Effect {
    match target
    case BlockTarget(b) => b(d)
    case StateTarget(s) => Calling(d, CarrierGoTo(Str(s), TheCarrier))
    case NoTarget => Calling(d, CarrierGoTo(Nil, TheCarrier))
  }

  /** The whitespace characters of `[[:space:]]` in the ASCII range. */
  predicate IsSpace(c: char) {
    c == ' ' || c == '\t' || c == '\n' || c == '\r' || c == 11 as char || c == 12 as char
  }

  /** `string.blank?`: empty or only whitespace. */
  predicate Blank(s: string) {
    forall i :: 0 <= i < |s| ==> IsSpace(s[i])
  }

  /** The conditions a configuration block declared, their `go_to` destinations and their
      labels, as the decision and wait handlers keep them in `@conditions`,
      `@destinations` and `@condition_labels`. Both lists start empty. */
  datatype Rule = Rule(conditions: seq<Condition>, destinations: seq<Option<string>>, labels: map<nat, string>)

  const NoConditions: Rule := Rule([], [], map[])

  /** `condition(label: ...) { ... }`: the condition is appended and its label, when given,
      is stored under the condition's index. */
  function AddCondition(r: Rule, c: Condition, caption: Option<string>): (extended: Rule)
    ensures extended.conditions == r.conditions + [c] && extended.destinations == r.destinations
    ensures caption.Some? ==> extended.labels == r.labels[|r.conditions| := caption.value]
    ensures caption.None? ==> extended.labels == r.labels
  {
    Rule(r.conditions + [c],
         r.destinations,
         if caption.Some? then r.labels[|r.conditions| := caption.value] else r.labels)
  }

  /** `go_to(state)` inside a configuration block: appends a destination. */
  function AddDestination(r: Rule, state: Option<string>): Rule {
    r.(destinations := r.destinations + [state])
  }

  /** A condition as a configuration block declares it, with its optional label. */
  datatype Declared = Declared(condition: Condition, caption: Option<string>)

  /** The rule a configuration block builds by declaring `ds` in order, starting from no
      conditions: the last declaration is the last one applied. */
  function DeclareAll(ds: seq<Declared>): Rule
    decreases |ds|
  {
    if |ds| == 0 then NoConditions
    else AddCondition(DeclareAll(ds[..|ds| - 1]), ds[|ds| - 1].condition, ds[|ds| - 1].caption)
  }

  /** The conditions are kept in declaration order. */
  lemma {:induction false} ConditionsFollowDeclarationOrder(ds: seq<Declared>)
    ensures |DeclareAll(ds).conditions| == |ds|
    ensures forall i :: 0 <= i < |ds| ==> DeclareAll(ds).conditions[i] == ds[i].condition
    decreases |ds|
  {
    if |ds| > 0 {
      var n := |ds| - 1;
      ConditionsFollowDeclarationOrder(ds[..n]);
      forall i | 0 <= i < n
        ensures DeclareAll(ds).conditions[i] == ds[i].condition
      {
        assert ds[..n][i] == ds[i];
      }
    }
  }

  /** Labels are keyed by condition index: exactly the labelled conditions have a label, and
      it is the one they were declared with. */
  lemma {:induction false} LabelsFollowDeclarationOrder(ds: seq<Declared>)
    ensures forall i: nat :: i in DeclareAll(ds).labels <==> i < |ds| && ds[i].caption.Some?
    ensures forall i :: 0 <= i < |ds| && ds[i].caption.Some? ==> DeclareAll(ds).labels[i] == ds[i].caption.value
    decreases |ds|
  {
    if |ds| > 0 {
      var n := |ds| - 1;
      var before := DeclareAll(ds[..n]);
      ConditionsFollowDeclarationOrder(ds[..n]);
      LabelsFollowDeclarationOrder(ds[..n]);
      assert |before.conditions| == n;
      forall i: nat
        ensures i in DeclareAll(ds).labels <==> i < |ds| && ds[i].caption.Some?
      {
        if i < n {
          assert ds[..n][i] == ds[i];
        }
      }
      forall i | 0 <= i < |ds| && ds[i].caption.Some?
        ensures DeclareAll(ds).labels[i] == ds[i].caption.value
      {
        if i < n {
          assert ds[..n][i] == ds[i];
        }
      }
    }
  }

  /** `@destinations[index]` as `go_to` receives it: nil past the end of the list. */
  function DestinationAt(destinations: seq<Option<string>>, i: nat): Value {
    if i < |destinations| then StateValue(destinations[i]) else Nil
  }

  /** `conditions.find { |c| data.instance_eval(&c) }` followed by `index`, then the
      destination of the condition found, or `fallback` when none holds. */
  function SelectDestination(r: Rule, d: Data, fallback: Value): (target: Result<Value>)
    ensures target.Ok? && FirstTrue(r.conditions, d).Matched? ==>
              target.value == DestinationAt(r.destinations, FirstTrue(r.conditions, d).index)
    ensures FirstTrue(r.conditions, d).NoneMatched? <==> target == Ok(fallback) && !FirstTrue(r.conditions, d).Matched?
    ensures target.Err? <==> FirstTrue(r.conditions, d).Raised?
  {
    match FirstTrue(r.conditions, d)
    case Matched(i) => Ok(DestinationAt(r.destinations, i))
    case NoneMatched => Ok(fallback)
    case Raised(e) => Err(e)
  }
}
