/** Declared inputs and the data carrier of the legacy engine
    (app/models/operations/task/input_validation.rb, data_carrier.rb and sub_tasks.rb).
    Input names are symbols in the source and strings here; `to_sym` is the identity. */
module LegacyInputs {
  import opened Values
  import opened Errors
  import opened LegacyCalls

  /** Ruby's `list - other`: the elements of `list` that are not in `other`, in their order
      and with their repeats. */
  function Difference(list: seq<string>, other: set<string>): (r: seq<string>)
    ensures forall x :: x in r <==> x in list && x !in other
    ensures |r| <= |list|
    ensures r == list <==> forall x :: x in list ==> x !in other
    decreases |list|
  {
    if |list| == 0 then []
    else (if list[0] in other then [] else [list[0]]) + Difference(list[1..], other)
  }

  /** The difference keeps order: it distributes over concatenation. */
  lemma {:induction false} DifferenceOfConcatenation(a: seq<string>, b: seq<string>, other: set<string>)
    ensures Difference(a + b, other) == Difference(a, other) + Difference(b, other)
    decreases |a|
  {
    if |a| > 0 {
      assert (a + b)[0] == a[0];
      assert (a + b)[1..] == a[1..] + b;
      DifferenceOfConcatenation(a[1..], b, other);
    } else {
      assert a + b == b;
    }
  }

  /** `"Missing inputs: a, b"`. */
  function MissingInputsMessage(missing: seq<string>): string {
    "Missing inputs: " + Join(missing, ", ")
  }

  /** The input lists of a handler that includes InputValidation (`@required_inputs` and
      `@optional_inputs`); both read as empty until declared. */
  datatype InputLists = InputLists(required: seq<string>, optional: seq<string>)

  const NoInputs: InputLists := InputLists([], [])

  /** `inputs(*names)` assigns the required list. */
  function DeclareInputs(l: InputLists, names: seq<string>): InputLists {
    l.(required := names)
  }

  /** `optional(*names)` (alias `data`) appends to the optional list. */
  function DeclareOptional(l: InputLists, names: seq<string>): InputLists {
    l.(optional := l.optional + names)
  }

  /** A second `inputs` replaces the first, while a second `optional` adds to the first;
      neither touches the other list. */
  lemma InputsReplaceOptionalAppends(l: InputLists, first: seq<string>, second: seq<string>)
    ensures DeclareInputs(DeclareInputs(l, first), second) == l.(required := second)
    ensures DeclareOptional(DeclareOptional(l, first), second) == l.(optional := l.optional + first + second)
    ensures DeclareInputs(l, first).optional == l.optional && DeclareOptional(l, first).required == l.required
  {
  }

  /** `missing_inputs_from(hash)`: the required names that are not keys of the hash. */
  function MissingInputsFrom(l: InputLists, d: Data): (missing: seq<string>)
    ensures forall n :: n in missing <==> n in l.required && n !in d
    ensures |missing| <= |l.required|
  {
    Difference(l.required, d.Keys)
  }

  /** `required_inputs_are_present_in?(hash)`. */
  predicate RequiredInputsArePresentIn(l: InputLists, d: Data) {
    |MissingInputsFrom(l, d)| == 0
  }

  /** The inputs are present exactly when every required name is a key. */
  lemma PresentIffAllRequiredAreKeys(l: InputLists, d: Data)
    ensures RequiredInputsArePresentIn(l, d) <==> forall n :: n in l.required ==> n in d
  {
    if !RequiredInputsArePresentIn(l, d) {
      assert MissingInputsFrom(l, d)[0] in MissingInputsFrom(l, d);
    }
  }

  /** `validate_inputs!(hash)`: ArgumentError naming the missing inputs, or nothing. */
  function ValidateInputs(l: InputLists, d: Data): (err: Option<Error>)
    ensures err.None? <==> forall n :: n in l.required ==> n in d
    ensures err.Some? ==> err.value == Raise(ArgumentError, MissingInputsMessage(MissingInputsFrom(l, d)))
  {
    PresentIffAllRequiredAreKeys(l, d);
    if RequiredInputsArePresentIn(l, d) then None
    else Some(Raise(ArgumentError, MissingInputsMessage(MissingInputsFrom(l, d))))
  }

  /** `DataCarrier#inputs(*names)`: ArgumentError listing the names that are not keys of the
      carrier, or nothing. */
  function CarrierInputs(d: Data, names: seq<string>): (err: Option<Error>)
    ensures err.None? <==> forall n :: n in names ==> n in d
    ensures err.Some? ==> err.value == Raise(ArgumentError, MissingInputsMessage(Difference(names, d.Keys)))
  {
    var missing := Difference(names, d.Keys);
    assert |missing| > 0 ==> missing[0] in missing;
    if |missing| > 0 then Some(Raise(ArgumentError, MissingInputsMessage(missing)))
    else None
  }

  /** A carrier checks its own inputs as `validate_inputs!` checks a handler's. */
  lemma CarrierInputsAgreeWithValidation(d: Data, names: seq<string>)
    ensures CarrierInputs(d, names) == ValidateInputs(InputLists(names, []), d)
  {
  }

  /** `DataCarrier#optional(*names)`: returns nil and checks nothing. */
  function CarrierOptional(d: Data, names: seq<string>): (v: Value)
    ensures v == Nil
  {
    Nil
  }

  /** What a carrier does with a call made on it: hand it on to the task, or answer it
      itself with a value. */
  datatype CarrierReply = Forwarded(call: Call) | Answered(value: Value)

  /** The entry OpenStruct answers for a zero-argument method it does not define. */
  function TableEntry(d: Data, name: string): Value {
    if name in d then d[name] else Nil
  }

  function NoCarrierMethod(name: string): Error {
    Raise(NoMethodError, "undefined method '" + name + "' for an instance of Operations::Task::DataCarrier")
  }

  /** What a production DataCarrier, an OpenStruct over the data `d`, does with a call made on
      it. `fail_with`, `call`, `start` and `complete` are forwarded to the task unchanged. It
      defines no `go_to`, `record_state_transition!` or `record_exception`, and OpenStruct
      raises NoMethodError for an undefined method given arguments. `wake_up!` and `perform`
      take none, so OpenStruct answers them with the table entry of that name, nil unless the
      data has one, and nothing reaches the task. */
  function DataCarrierReceives(d: Data, c: Call): (r: Result<CarrierReply>)
    requires !c.TaskGoTo?
    ensures r.Ok? && r.value.Forwarded? <==> c.FailWith? || c.CallSubTask? || c.StartSubTask? || c.Complete?
    ensures r.Ok? && r.value.Forwarded? ==> r.value.call == c
    ensures r.Err? <==> c.CarrierGoTo? || c.RecordStateTransition? || c.RecordException?
    ensures r.Err? ==> r.error.kind == NoMethodError
    ensures c.WakeUp? ==> r == Ok(Answered(TableEntry(d, "wake_up!")))
    ensures c.Perform? ==> r == Ok(Answered(TableEntry(d, "perform")))
  {
    match c
    case CarrierGoTo(_, _) => Err(NoCarrierMethod("go_to"))
    case RecordStateTransition(_) => Err(NoCarrierMethod("record_state_transition!"))
    case RecordException(_) => Err(NoCarrierMethod("record_exception"))
    case WakeUp => Ok(Answered(TableEntry(d, "wake_up!")))
    case Perform => Ok(Answered(TableEntry(d, "perform")))
    case _ => Ok(Forwarded(c))
  }

  /** What the synchronous sub-task call produced: the child's results, and what the result
      block did with them when there was one. */
  datatype SubTaskOutcome = SubTaskOutcome(results: Data, handled: Option<Effect>)

  /** `call(sub_task_class, **data, &result_handler)` of sub_tasks.rb: the child runs to its
      results, which are passed to the block when one is given and returned. An error from the
      child, or from the block, propagates. */
  function CallSubTaskNow(child: Data -> Result<Data>, args: Data, handler: Option<Data -> Effect>): (r: Result<SubTaskOutcome>)
    ensures child(args).Err? ==> r == Err(child(args).error)
    ensures r.Ok? ==> child(args).Ok? && r.value.results == child(args).value
    ensures child(args).Ok? && handler.None? ==> r == Ok(SubTaskOutcome(child(args).value, None))
    ensures child(args).Ok? && handler.Some? ==>
              var ran := handler.value(child(args).value);
              if ran.error.Some? then r == Err(ran.error.value) else r == Ok(SubTaskOutcome(child(args).value, Some(ran)))
  {
    match child(args)
    case Err(e) => Err(e)
    case Ok(results) =>
      match handler
      case None => Ok(SubTaskOutcome(results, None))
      case Some(h) =>
        var ran := h(results);
        if ran.error.Some? then Err(ran.error.value) else Ok(SubTaskOutcome(results, Some(ran)))
  }
}
