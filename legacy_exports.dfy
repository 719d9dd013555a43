/** The structure export of app/models/operations/task/exports.rb: `to_h` describes a task
    class's states and transitions as nested hashes, for diagram exporters. */
module LegacyExports {
  import opened Values
  import opened OrderedMaps
  import opened LegacyCalls
  import opened LegacyInputs
  import opened LegacyCarrierHandlers

  /** The decimal digit of `d`. */
  function Digit(d: nat): (c: char)
    requires d < 10
    ensures '0' <= c <= '9'
  {
    (48 + d) as char
  }

  /** `n.to_s`: decimal digits without leading zeros. */
  function Decimal(n: nat): (s: string)
    ensures |s| >= 1
    ensures n < 10 <==> |s| == 1
    ensures forall i :: 0 <= i < |s| ==> '0' <= s[i] <= '9'
    ensures n >= 10 ==> s[0] != '0'
    decreases n
  {
    if n < 10 then [Digit(n)] else Decimal(n / 10) + [Digit(n % 10)]
  }

  /** The number a string of decimal digits denotes, most significant digit first. */
  function DigitsValue(s: string): nat
    requires forall i :: 0 <= i < |s| ==> '0' <= s[i] <= '9'
  {
    if s == [] then 0 else 10 * DigitsValue(s[..|s| - 1]) + (s[|s| - 1] as int - 48)
  }

  /** `n.to_s` reads back as `n`. */
  lemma {:induction false} DecimalValue(n: nat)
    ensures DigitsValue(Decimal(n)) == n
    decreases n
  {
    if n >= 10 {
      DecimalValue(n / 10);
      var s := Decimal(n);
      assert s[..|s| - 1] == Decimal(n / 10);
    }
  }

  /** Different numbers print differently. */
  lemma {:induction false} DecimalInjective(a: nat, b: nat)
    requires Decimal(a) == Decimal(b)
    ensures a == b
    decreases a
  {
    if a < 10 {
      assert b < 10 && [Digit(a)] == [Digit(b)];
    } else {
      assert b >= 10;
      var sa, sb := Decimal(a / 10), Decimal(b / 10);
      assert Decimal(a) == sa + [Digit(a % 10)] && Decimal(b) == sb + [Digit(b % 10)];
      assert |sa| == |sb|;
      assert sa == Decimal(a)[..|sa|] && sb == Decimal(b)[..|sb|];
      assert Digit(a % 10) == Decimal(a)[|sa|] && Digit(b % 10) == Decimal(b)[|sb|];
      DecimalInjective(a / 10, b / 10);
    }
  }

  /** `:"condition_#{i}"`. */
  function ConditionKey(i: nat): string {
    "condition_" + Decimal(i)
  }

  lemma ConditionKeyInjective(i: nat, j: nat)
    requires ConditionKey(i) == ConditionKey(j)
    ensures i == j
  {
    var p := "condition_";
    assert Decimal(i) == ConditionKey(i)[|p|..];
    assert Decimal(j) == ConditionKey(j)[|p|..];
    DecimalInjective(i, j);
  }

  /** A destination as an exported transition: a state, or nil. */
  function DestinationTarget(destination: Option<string>): Target {
    TargetOf(destination, None)
  }

  /** No two indexes share a key. */
  lemma ConditionKeysDistinct()
    ensures forall i: nat, j: nat :: ConditionKey(i) == ConditionKey(j) ==> i == j
  {
    forall i: nat, j: nat | ConditionKey(i) == ConditionKey(j)
      ensures i == j
    {
      ConditionKeyInjective(i, j);
    }
  }

  /** The keys of `n` numbered pairs, in order. */
  function NumberedKeys(key: nat -> string, n: nat): (keys: seq<string>)
    ensures |keys| == n && forall i :: 0 <= i < n ==> keys[i] == key(i)
  {
    seq(n, i requires 0 <= i => key(i))
  }

  /** The entries of `[key(i), destinations[i]]` pairs made into a Hash, pair by pair. */
  function NumberedEntries(key: nat -> string, destinations: seq<Option<string>>): map<string, Target>
    decreases |destinations|
  {
    if |destinations| == 0 then map[]
    else
      var n := |destinations| - 1;
      NumberedEntries(key, destinations[..n])[key(n) := DestinationTarget(destinations[n])]
  }

  /** With keys that never repeat, every destination keeps its own entry, and every entry
      comes from a destination. */
  lemma {:induction false} NumberedEntriesAreIndexed(key: nat -> string, destinations: seq<Option<string>>)
    requires forall i: nat, j: nat :: key(i) == key(j) ==> i == j
    ensures forall i :: 0 <= i < |destinations| ==>
              key(i) in NumberedEntries(key, destinations)
              && NumberedEntries(key, destinations)[key(i)] == DestinationTarget(destinations[i])
    ensures forall k :: k in NumberedEntries(key, destinations) ==> exists i :: 0 <= i < |destinations| && key(i) == k
    decreases |destinations|
  {
    if |destinations| > 0 {
      var n := |destinations| - 1;
      NumberedEntriesAreIndexed(key, destinations[..n]);
      forall i | 0 <= i < n
        ensures NumberedEntries(key, destinations)[key(i)] == DestinationTarget(destinations[i])
      {
        assert destinations[..n][i] == destinations[i];
      }
    }
  }

  /** The key list and the entries agree and no key repeats, so the pairs form a Hash. */
  lemma NumberedIsHash(key: nat -> string, destinations: seq<Option<string>>)
    requires forall i: nat, j: nat :: key(i) == key(j) ==> i == j
    ensures OrderedMap(NumberedKeys(key, |destinations|), NumberedEntries(key, destinations)).Valid()
  {
    var keys := NumberedKeys(key, |destinations|);
    NumberedEntriesAreIndexed(key, destinations);
    forall k
      ensures k in NumberedEntries(key, destinations) <==> k in keys
    {
      if k in NumberedEntries(key, destinations) {
        var i :| 0 <= i < |destinations| && key(i) == k;
        assert keys[i] == k;
      }
    }
  }

  /** `destinations.map.with_index { |dest, i| [:"condition_#{i}", dest] }.to_h`: since the
      keys are distinct, every destination keeps its own entry, in order. */
  function IndexedTransitions(destinations: seq<Option<string>>): (t: Hash<string, Target>)
    ensures |t.keys| == |destinations|
    ensures forall i :: 0 <= i < |destinations| ==> t.keys[i] == ConditionKey(i)
    ensures forall i :: 0 <= i < |destinations| ==> t.entries[ConditionKey(i)] == DestinationTarget(destinations[i])
  {
    ConditionKeysDistinct();
    NumberedEntriesAreIndexed(ConditionKey, destinations);
    NumberedIsHash(ConditionKey, destinations);
    OrderedMap(NumberedKeys(ConditionKey, |destinations|), NumberedEntries(ConditionKey, destinations))
  }

  /** The exported `{"true" => t, "false" => f}` of a decision. */
  function TrueFalse(onTrue: Target, onFalse: Target): (t: Hash<string, Target>)
    ensures t.keys == ["true", "false"] && t.entries["true"] == onTrue && t.entries["false"] == onFalse
  {
    OrderedMap(["true", "false"], map["true" := onTrue, "false" := onFalse])
  }

  /** What `handler_to_h` makes of a handler. */
  datatype Export =
    | DecisionExport(transitions: Hash<string, Target>, inputs: seq<string>, optional: seq<string>)
    | ActionExport(nextState: Option<string>, inputs: seq<string>, optional: seq<string>)
    | WaitExport(transitions: Hash<string, Target>, inputs: seq<string>, optional: seq<string>)
    | ResultExport(inputs: seq<string>, optional: seq<string>)
    | UnknownExport

  /** A registered handler: one of the StateManagement handler classes, or any other. */
  datatype Registered = Known(handler: Handler) | Other

  /** `handler_to_h(handler)`. A decision always has both branch fields, which start nil, so
      it always exports true and false transitions. A wait handler has no input lists, so
      both export empty. */
  function HandlerToH(r: Registered): (x: Export)
    ensures r.Other? <==> x.UnknownExport?
    ensures r.Known? && r.handler.DecisionState? ==>
              x == DecisionExport(TrueFalse(r.handler.decision.trueState, r.handler.decision.falseState),
                                  r.handler.decision.inputs.required, r.handler.decision.inputs.optional)
    ensures r.Known? && r.handler.ActionState? ==>
              x == ActionExport(r.handler.action.nextState, r.handler.action.inputs.required, r.handler.action.inputs.optional)
    ensures r.Known? && r.handler.WaitState? ==>
              x == WaitExport(IndexedTransitions(r.handler.wait.rule.destinations), [], [])
    ensures r.Known? && r.handler.CompletionState? ==>
              x == ResultExport(r.handler.completion.inputs.required, r.handler.completion.inputs.optional)
  {
    match r
    case Other => UnknownExport
    case Known(h) =>
      match h
      case DecisionState(x) => DecisionExport(TrueFalse(x.trueState, x.falseState), x.inputs.required, x.inputs.optional)
      case ActionState(a) => ActionExport(a.nextState, a.inputs.required, a.inputs.optional)
      case WaitState(w) => WaitExport(IndexedTransitions(w.rule.destinations), [], [])
      case CompletionState(c) => ResultExport(c.inputs.required, c.inputs.optional)
  }

  /** The class-level `to_h`. */
  datatype TaskExport = TaskExport(name: string, initialState: Option<string>, inputs: seq<string>,
                                   optionalInputs: seq<string>, states: Hash<string, Export>)

  /** `state_handlers.transform_values { |handler| handler_to_h(handler) }`. */
  function ExportStates(handlers: Hash<string, Registered>): (states: Hash<string, Export>)
    ensures states.keys == handlers.keys
    ensures forall k :: k in handlers.entries ==> states.entries[k] == HandlerToH(handlers.entries[k])
  {
    OrderedMap(handlers.keys, map k | k in handlers.entries :: HandlerToH(handlers.entries[k]))
  }

  function ToH(name: string, initialState: Option<string>, inputs: InputLists,
               handlers: Hash<string, Registered>): (t: TaskExport)
    ensures t.name == name && t.initialState == initialState
    ensures t.inputs == inputs.required && t.optionalInputs == inputs.optional
    ensures t.states == ExportStates(handlers)
  {
    TaskExport(name, initialState, inputs.required, inputs.optional, ExportStates(handlers))
  }

  /** Every state of the task, and only those, is described, in declaration order. */
  lemma ExportDescribesEveryState(name: string, initialState: Option<string>, inputs: InputLists,
                                  handlers: Hash<string, Registered>, state: string)
    ensures var t := ToH(name, initialState, inputs, handlers);
            (state in t.states.entries <==> state in handlers.entries) && t.states.keys == handlers.keys
  {
  }

  /** A wait handler's export has one transition per destination, in order, keyed by the
      condition's index. */
  lemma WaitExportHasEveryDestination(w: Wait, i: nat)
    requires i < |w.rule.destinations|
    ensures var x := HandlerToH(Known(WaitState(w)));
            |x.transitions.keys| == |w.rule.destinations|
            && x.transitions.keys[i] == ConditionKey(i)
            && x.transitions.entries[ConditionKey(i)] == DestinationTarget(w.rule.destinations[i])
  {
  }
}
