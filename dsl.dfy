/** The class-level DSL of a V2 task (lib/operations/v2/dsl.rb).

    `Definition` is a task class while its body runs: each DSL call updates its fields.
    `Frozen()` is the finished class the engine runs against; the readers, `validate!` and
    `initialize_attributes` are stated over that value. */
module Dsl {
  import opened Values
  import opened Errors
  import opened Records
  import opened OrderedMaps
  import opened Handlers

  const DefaultInitialState := "start"
  const DefaultBackgroundDelay := 60       // one minute
  const DefaultExecutionTimeout := 86400   // one day
  const DefaultDeletionTime := 7776000     // ninety days

  function UpcaseChar(c: char): char {
    if 'a' <= c <= 'z' then (c as int - 32) as char else c
  }

  function DowncaseChar(c: char): char {
    if 'A' <= c <= 'Z' then (c as int + 32) as char else c
  }

  /** `String#downcase` on ASCII letters: each character lowered, none left upper case. */
  function Downcase(s: string): (r: string)
    ensures |r| == |s|
    ensures forall i :: 0 <= i < |s| ==> r[i] == DowncaseChar(s[i])
    ensures forall i :: 0 <= i < |r| ==> !('A' <= r[i] <= 'Z')
  {
    if s == [] then [] else [DowncaseChar(s[0])] + Downcase(s[1..])
  }

  /** `String#capitalize` on ASCII letters: first letter upper case, the rest lower case. */
  function Capitalize(s: string): (r: string)
    ensures |r| == |s|
    ensures Downcase(r) == Downcase(s)
    ensures |r| > 0 ==> !('a' <= r[0] <= 'z')
    ensures forall i :: 0 < i < |r| ==> !('A' <= r[i] <= 'Z')
  {
    if s == [] then [] else [UpcaseChar(s[0])] + Downcase(s[1..])
  }

  /** Those three facts pin `capitalize` down: any string that agrees with `s` up to case,
      starts with no lower-case letter and has no upper-case letter after it is
      `Capitalize(s)`. */
  lemma CapitalizeIsDetermined(s: string, r: string)
    requires |r| == |s| && Downcase(r) == Downcase(s)
    requires |r| > 0 ==> !('a' <= r[0] <= 'z')
    requires forall i :: 0 < i < |r| ==> !('A' <= r[i] <= 'Z')
    ensures r == Capitalize(s)
  {
    var c := Capitalize(s);
    forall i | 0 <= i < |r|
      ensures r[i] == c[i]
    {
      assert Downcase(r)[i] == Downcase(s)[i] == Downcase(c)[i];
    }
  }

  /** `sub(/s$/, "")`: drops one trailing "s". */
  function Singular(s: string): (r: string)
    ensures |s| > 0 && s[|s| - 1] == 's' ==> s == r + "s"
    ensures !(|s| > 0 && s[|s| - 1] == 's') ==> r == s
  {
    if |s| > 0 && s[|s| - 1] == 's' then s[..|s| - 1] else s
  }

  /** The fields of a `Definition`, in declaration order. */
  datatype DefinitionFields = DefinitionFields(
    initialStateSet: Option<string>,
    stateHandlers: Hash<string, Handler>,
    interactionHandlers: Hash<string, InteractionHandler>,
    backgroundDelaySet: Option<int>,
    executionTimeoutSet: Option<int>,
    deletionTimeSet: Option<int>,
    onTimeout: Option<Body>,
    attributeDefinitions: Hash<string, AttributeDefinition>,
    modelDefinitions: Hash<string, string>,
    modelsDefinitions: Hash<string, string>,
    readers: map<string, Reader>,
    validationRules: Hash<string, bool>,
    indexedAttributes: seq<string>)

  /** A task class while its DSL runs. Unset settings are `None`. */
  class Definition {
    const name: string
    var initialStateSet: Option<string>
    var stateHandlers: Hash<string, Handler>
    var interactionHandlers: Hash<string, InteractionHandler>
    var backgroundDelaySet: Option<int>
    var executionTimeoutSet: Option<int>
    var deletionTimeSet: Option<int>
    var onTimeout: Option<Body>
    var attributeDefinitions: Hash<string, AttributeDefinition>
    var modelDefinitions: Hash<string, string>
    var modelsDefinitions: Hash<string, string>
    var readers: map<string, Reader>
    var validationRules: Hash<string, bool>
    var indexedAttributes: seq<string>

    constructor (name: string)
      ensures this.name == name
      ensures initialStateSet.None? && backgroundDelaySet.None? && executionTimeoutSet.None?
      ensures deletionTimeSet.None? && onTimeout.None?
      ensures stateHandlers.entries == map[] && interactionHandlers.entries == map[]
      ensures attributeDefinitions.entries == map[] && modelDefinitions.entries == map[]
      ensures modelsDefinitions.entries == map[] && readers == map[] && validationRules.entries == map[]
      ensures indexedAttributes == []
    {
      this.name := name;
      initialStateSet := None;
      stateHandlers := Empty();
      interactionHandlers := Empty();
      backgroundDelaySet := None;
      executionTimeoutSet := None;
      deletionTimeSet := None;
      onTimeout := None;
      attributeDefinitions := Empty();
      modelDefinitions := Empty();
      modelsDefinitions := Empty();
      readers := map[];
      validationRules := Empty();
      indexedAttributes := [];
    }

    /** `initial_state`: "start" unless `starts_with` was called. */
    function InitialState(): (s: string)
      reads this
      ensures initialStateSet.None? ==> s == DefaultInitialState
      ensures initialStateSet.Some? ==> s == initialStateSet.value
    {
      initialStateSet.GetOr(DefaultInitialState)
    }

    /** `background_delay`, memoised to 60 when unset. */
    function BackgroundDelay(): (d: int)
      reads this
      ensures backgroundDelaySet.None? ==> d == DefaultBackgroundDelay
      ensures backgroundDelaySet.Some? ==> d == backgroundDelaySet.value
    {
      backgroundDelaySet.GetOr(DefaultBackgroundDelay)
    }

    /** `execution_timeout`, memoised to 86400 when unset. */
    function ExecutionTimeout(): (d: int)
      reads this
      ensures executionTimeoutSet.None? ==> d == DefaultExecutionTimeout
      ensures executionTimeoutSet.Some? ==> d == executionTimeoutSet.value
    {
      executionTimeoutSet.GetOr(DefaultExecutionTimeout)
    }

    /** `deletion_time`, memoised to 7776000 when unset. */
    function DeletionTime(): (d: int)
      reads this
      ensures deletionTimeSet.None? ==> d == DefaultDeletionTime
      ensures deletionTimeSet.Some? ==> d == deletionTimeSet.value
    {
      deletionTimeSet.GetOr(DefaultDeletionTime)
    }

    /** Every field the DSL calls write, as one value. */
    function Fields(): DefinitionFields
      reads this
    {
      DefinitionFields(initialStateSet, stateHandlers, interactionHandlers, backgroundDelaySet,
                       executionTimeoutSet, deletionTimeSet, onTimeout, attributeDefinitions,
                       modelDefinitions, modelsDefinitions, readers, validationRules, indexedAttributes)
    }

    /** The class as the engine sees it once the DSL has run. */
    function Frozen(): TaskClass
      reads this
    {
      TaskClass(name, InitialState(), stateHandlers, interactionHandlers, BackgroundDelay(),
                ExecutionTimeout(), DeletionTime(), onTimeout, attributeDefinitions,
                modelDefinitions, modelsDefinitions, readers, validationRules)
    }

    method StartsWith(state: string)
      modifies this
      ensures InitialState() == state
      ensures Fields() == old(Fields()).(initialStateSet := Some(state))
    {
      initialStateSet := Some(state);
    }

    /** Registers `handler` under `state`, replacing an earlier handler of that name. */
    method Register(state: string, handler: Handler)
      modifies this
      ensures Fields() == old(Fields()).(stateHandlers := Put(old(stateHandlers), state, handler))
      ensures HandlerFor(Frozen(), state) == Some(handler)
      ensures forall s :: s != state ==> HandlerFor(Frozen(), s) == old(HandlerFor(Frozen(), s))
    {
      stateHandlers := Put(stateHandlers, state, handler);
    }

    /** `action(name, &body)`: returns the new handler. */
    method Action(state: string, body: Option<Body>) returns (h: Handler)
      modifies this
      ensures h == NewAction(state, body)
      ensures Fields() == old(Fields()).(stateHandlers := Put(old(stateHandlers), state, h))
    {
      h := NewAction(state, body);
      Register(state, h);
    }

    /** `action(name, &body).then(next)`: the returned handler is the registered one, so
        `then` updates the registration. */
    method ActionThen(state: string, body: Option<Body>, next: string) returns (h: Handler)
      modifies this
      ensures h == ActionHandler(state, body, Some(next))
      ensures Fields() == old(Fields()).(stateHandlers := Put(old(stateHandlers), state, h))
    {
      h := Then(NewAction(state, body), next);
      Register(state, h);
    }

    method Decision(state: string, rule: Rule)
      modifies this
      ensures Fields() == old(Fields()).(stateHandlers := Put(old(stateHandlers), state, DecisionHandler(state, rule)))
    {
      Register(state, DecisionHandler(state, rule));
    }

    method WaitUntil(state: string, rule: Rule)
      modifies this
      ensures Fields() == old(Fields()).(stateHandlers := Put(old(stateHandlers), state, WaitHandler(state, rule)))
    {
      Register(state, WaitHandler(state, rule));
    }

    method Result(state: string)
      modifies this
      ensures Fields() == old(Fields()).(stateHandlers := Put(old(stateHandlers), state, ResultHandler(state)))
    {
      Register(state, ResultHandler(state));
    }

    /** `interaction(name, &implementation).when(*states)`; pass no states for a bare
        `interaction`. */
    method Interaction(interactionName: string, implementation: Option<InteractionBody>, states: seq<string>)
      returns (h: InteractionHandler)
      modifies this
      ensures h == InteractionHandler(interactionName, states, implementation)
      ensures Fields() == old(Fields()).(interactionHandlers := Put(old(interactionHandlers), interactionName, h))
    {
      h := When(InteractionHandler(interactionName, [], implementation), states);
      interactionHandlers := Put(interactionHandlers, interactionName, h);
    }

    /** Class-level `go_to(state)`: sets the successor of the most recently registered action
        handler, or fails with ArgumentError when there is none. */
    method GoTo(state: string) returns (err: Option<Error>)
      modifies this
      ensures LastAction(old(stateHandlers)).None? ==>
                err == Some(Raise(ArgumentError, "No action handler defined yet")) && Fields() == old(Fields())
      ensures LastAction(old(stateHandlers)).Some? ==>
                var key := LastAction(old(stateHandlers)).value;
                err.None? && stateHandlers.keys == old(stateHandlers.keys)
                && stateHandlers.entries == old(stateHandlers.entries)[key := old(stateHandlers.entries)[key].(nextState := Some(state))]
                && Fields() == old(Fields()).(stateHandlers := stateHandlers)
    {
      var last := LastAction(stateHandlers);
      if last.None? {
        return Some(Raise(ArgumentError, "No action handler defined yet"));
      }
      var h := stateHandlers.entries[last.value];
      stateHandlers := Put(stateHandlers, last.value, h.(nextState := Some(state)));
      err := None;
    }

    method Delay(seconds: int)
      modifies this
      ensures BackgroundDelay() == seconds
      ensures Fields() == old(Fields()).(backgroundDelaySet := Some(seconds))
    {
      backgroundDelaySet := Some(seconds);
    }

    method Timeout(seconds: int)
      modifies this
      ensures ExecutionTimeout() == seconds
      ensures Fields() == old(Fields()).(executionTimeoutSet := Some(seconds))
    {
      executionTimeoutSet := Some(seconds);
    }

    method DeleteAfter(seconds: int)
      modifies this
      ensures DeletionTime() == seconds
      ensures Fields() == old(Fields()).(deletionTimeSet := Some(seconds))
    {
      deletionTimeSet := Some(seconds);
    }

    method OnTimeout(handler: Option<Body>)
      modifies this
      ensures Fields() == old(Fields()).(onTimeout := handler)
    {
      onTimeout := handler;
    }

    /** `has_attribute(name, type, default:)`: records the definition and defines the reader. */
    method HasAttribute(attribute: string, typeName: string, default: Value)
      modifies this
      ensures Fields() == old(Fields()).(attributeDefinitions := Put(old(attributeDefinitions), attribute, AttributeDefinition(typeName, default)),
                                         readers := old(readers)[attribute := AttributeReader(default)])
    {
      attributeDefinitions := Put(attributeDefinitions, attribute, AttributeDefinition(typeName, default));
      readers := readers[attribute := AttributeReader(default)];
    }

    /** `has_model(name, class_name)`: the class name defaults to the capitalised name. */
    method HasModel(model: string, className: Option<string>)
      modifies this
      ensures Fields() == old(Fields()).(modelDefinitions := Put(old(modelDefinitions), model, className.GetOr(Capitalize(model))),
                                         readers := old(readers)[model := ModelReader])
    {
      modelDefinitions := Put(modelDefinitions, model, className.GetOr(Capitalize(model)));
      readers := readers[model := ModelReader];
    }

    /** `has_models(name, class_name)`: the class name defaults to the capitalised singular. */
    method HasModels(models: string, className: Option<string>)
      modifies this
      ensures Fields() == old(Fields()).(modelsDefinitions := Put(old(modelsDefinitions), models, className.GetOr(Capitalize(Singular(models)))),
                                         readers := old(readers)[models := ModelsReader])
    {
      modelsDefinitions := Put(modelsDefinitions, models, className.GetOr(Capitalize(Singular(models))));
      readers := readers[models := ModelsReader];
    }

    /** `validates(attr, presence: ...)`: replaces any earlier rule for `attr`. */
    method Validates(attribute: string, presence: bool)
      modifies this
      ensures Fields() == old(Fields()).(validationRules := Put(old(validationRules), attribute, presence))
    {
      validationRules := Put(validationRules, attribute, presence);
    }

    /** `index(*attrs)`: records the names and has no other effect. */
    method Index(attributes: seq<string>)
      modifies this
      ensures Fields() == old(Fields()).(indexedAttributes := old(indexedAttributes) + attributes)
      ensures Frozen() == old(Frozen())
    {
      indexedAttributes := indexedAttributes + attributes;
    }
  }

  /** The key of the most recently registered action handler, if any. */
  function LastAction(handlers: Hash<string, Handler>): (k: Option<string>)
    ensures k.Some? ==> k.value in handlers.entries && handlers.entries[k.value].ActionHandler?
    ensures k.None? ==> forall s :: s in handlers.entries ==> !handlers.entries[s].ActionHandler?
  {
    LastKeyWhere(handlers, (h: Handler) => h.ActionHandler?)
  }

  /** `handler_for(state)`: the handler registered under the state's string form. */
  function HandlerFor(c: TaskClass, state: string): Option<Handler> {
    Get(c.stateHandlers, state)
  }

  function InteractionHandlerFor(c: TaskClass, interactionName: string): Option<InteractionHandler> {
    Get(c.interactionHandlers, interactionName)
  }

  /** The attribute reader: `@attributes[name] || default`. */
  function ReadAttribute(attrs: Attrs, attribute: string, default: Value): (v: Value)
    ensures Truthy(Lookup(attrs, attribute)) ==> v == Lookup(attrs, attribute)
    ensures !Truthy(Lookup(attrs, attribute)) ==> v == default
  {
    var stored := Lookup(attrs, attribute);
    if Truthy(stored) then stored else default
  }

  /** A stored `false` reads as the declared default, so `arriving: false` with default `true`
      reads `true`. */
  lemma StoredFalseReadsDefault(attrs: Attrs, attribute: string, default: Value)
    requires attribute in attrs && attrs[attribute] == Bool(false)
    ensures ReadAttribute(attrs, attribute, default) == default
  {
  }

  /** What a reader method returns. */
  datatype Reading = Scalar(value: Value) | ModelValue(model: Option<ModelRef>) | ModelList(refs: seq<ModelRef>)

  /** `send(name)` for a reader defined by the DSL. */
  function Read(c: TaskClass, t: TaskData, readerName: string): (r: Result<Reading>)
    ensures readerName !in c.readers <==> r.Err?
    ensures r.Err? ==> r.error.kind == NoMethodError
    ensures readerName in c.readers && c.readers[readerName].ModelsReader? && readerName !in t.models ==>
              r == Ok(ModelList([]))
  {
    if readerName !in c.readers then Err(Raise(NoMethodError, "undefined method '" + readerName + "'"))
    else
      match c.readers[readerName]
      case AttributeReader(default) => Ok(Scalar(ReadAttribute(t.attributes, readerName, default)))
      case ModelReader =>
        if readerName !in t.models then Ok(ModelValue(None))
        else (match t.models[readerName]
              case One(m) => Ok(ModelValue(Some(m)))
              case Many(ms) => Ok(ModelList(ms)))
      case ModelsReader =>
        if readerName !in t.models then Ok(ModelList([]))
        else (match t.models[readerName]
              case One(m) => Ok(ModelValue(Some(m)))
              case Many(ms) => Ok(ModelList(ms)))
  }

  /** `Array(values)` as the has_models setter applies it. */
  function ArrayOf(a: ArrayArg): (refs: seq<ModelRef>)
    ensures a.NilArg? ==> refs == []
    ensures a.Single? ==> refs == [a.ref]
    ensures a.List? ==> refs == a.refs
  {
    match a
    case NilArg => []
    case Single(m) => [m]
    case List(ms) => ms
  }

  /** The has_models setter followed by its reader gives back the wrapped list. */
  lemma ModelsSetterThenReader(c: TaskClass, t: TaskData, models: string, a: ArrayArg)
    requires models in c.readers && c.readers[models].ModelsReader?
    ensures Read(c, t.(models := t.models[models := Many(ArrayOf(a))]), models) == Ok(ModelList(ArrayOf(a)))
  {
  }

  /** A value a presence rule rejects: nil or "". */
  predicate Blank(r: Reading) {
    r == Scalar(Nil) || r == Scalar(Str("")) || r == ModelValue(None)
  }

  /** The check `validate!` makes of one rule. */
  function CheckRule(c: TaskClass, t: TaskData, attribute: string, presence: bool): (r: Option<Error>)
    ensures r.Some? ==> r.value.kind == ValidationError || r.value.kind == NoMethodError
    ensures !presence ==> (r.None? <==> attribute in c.readers)
  {
    match Read(c, t, attribute)
    case Err(e) => Some(e)
    case Ok(v) => if presence && Blank(v) then Some(Raise(ValidationError, attribute + " is required")) else None
  }

  /** `validate!`: the rules in declaration order; the first failing rule raises. */
  function Validate(c: TaskClass, t: TaskData): (err: Option<Error>)
    ensures err.None? <==> forall a :: a in c.validationRules.entries ==> CheckRule(c, t, a, c.validationRules.entries[a]).None?
    ensures err.Some? ==> err.value.kind == ValidationError || err.value.kind == NoMethodError
  {
    ValidateRules(c, t, c.validationRules.keys, c.validationRules.entries)
  }

  function ValidateRules(c: TaskClass, t: TaskData, attributes: seq<string>, rules: map<string, bool>): (err: Option<Error>)
    requires forall a :: a in attributes ==> a in rules
    ensures err.None? <==> forall a :: a in attributes ==> CheckRule(c, t, a, rules[a]).None?
    ensures err.Some? ==> exists i :: 0 <= i < |attributes| && err == CheckRule(c, t, attributes[i], rules[attributes[i]])
                                      && forall j :: 0 <= j < i ==> CheckRule(c, t, attributes[j], rules[attributes[j]]).None?
    ensures err.Some? ==> err.value.kind == ValidationError || err.value.kind == NoMethodError
  {
    if attributes == [] then None
    else
      var first := CheckRule(c, t, attributes[0], rules[attributes[0]]);
      if first.Some? then first
      else
        var rest := ValidateRules(c, t, attributes[1..], rules);
        FirstRulePassed(c, t, attributes, rules, rest);
        rest
  }

  /** When the first rule passes, the outcome of the remaining rules is the outcome of all. */
  lemma FirstRulePassed(c: TaskClass, t: TaskData, attributes: seq<string>, rules: map<string, bool>, rest: Option<Error>)
    requires attributes != [] && forall a :: a in attributes ==> a in rules
    requires CheckRule(c, t, attributes[0], rules[attributes[0]]).None?
    requires rest.None? <==> forall a :: a in attributes[1..] ==> CheckRule(c, t, a, rules[a]).None?
    requires rest.Some? ==> exists i :: 0 <= i < |attributes[1..]| && rest == CheckRule(c, t, attributes[1..][i], rules[attributes[1..][i]])
                                        && forall j :: 0 <= j < i ==> CheckRule(c, t, attributes[1..][j], rules[attributes[1..][j]]).None?
    ensures rest.None? <==> forall a :: a in attributes ==> CheckRule(c, t, a, rules[a]).None?
    ensures rest.Some? ==> exists i :: 0 <= i < |attributes| && rest == CheckRule(c, t, attributes[i], rules[attributes[i]])
                                       && forall j :: 0 <= j < i ==> CheckRule(c, t, attributes[j], rules[attributes[j]]).None?
  {
    assert forall a :: a in attributes <==> a == attributes[0] || a in attributes[1..];
    if rest.Some? {
      var i :| 0 <= i < |attributes[1..]| && rest == CheckRule(c, t, attributes[1..][i], rules[attributes[1..][i]])
               && forall j :: 0 <= j < i ==> CheckRule(c, t, attributes[1..][j], rules[attributes[1..][j]]).None?;
      assert forall j :: 0 < j <= i ==> attributes[j] == attributes[1..][j - 1];
      assert rest == CheckRule(c, t, attributes[i + 1], rules[attributes[i + 1]]);
    }
  }

  /** A presence rule on a blank attribute makes `validate!` fail. */
  lemma {:induction false} BlankRequiredAttributeFails(c: TaskClass, t: TaskData, attribute: string)
    requires attribute in c.validationRules.entries && c.validationRules.entries[attribute]
    requires attribute in c.readers && c.readers[attribute].AttributeReader?
    requires var v := ReadAttribute(t.attributes, attribute, c.readers[attribute].default); v == Nil || v == Str("")
    ensures Validate(c, t).Some?
  {
    assert CheckRule(c, t, attribute, true) == Some(Raise(ValidationError, attribute + " is required"));
  }

  /** Whether `initialize_attributes` writes the default of `attribute`: it is declared, unset
      or nil, and its default is truthy. */
  predicate NeedsDefault(defs: map<string, AttributeDefinition>, attrs: Attrs, attribute: string) {
    attribute in defs && Lookup(attrs, attribute).Nil? && Truthy(defs[attribute].default)
  }

  /** The attributes after defaults were filled in for the declarations named in `names`. */
  function Filled(defs: map<string, AttributeDefinition>, attrs: Attrs, names: set<string>): Attrs {
    map a | a in attrs.Keys + (names * defs.Keys) && (a in attrs || NeedsDefault(defs, attrs, a)) ::
      if a in names && NeedsDefault(defs, attrs, a) then defs[a].default else attrs[a]
  }

  /** The attributes after `initialize_attributes`. */
  function FilledDefaults(defs: Hash<string, AttributeDefinition>, attrs: Attrs): Attrs {
    Filled(defs.entries, attrs, defs.entries.Keys)
  }

  /** Defaults fill only attributes that are unset or nil, and only when the default is truthy;
      every other stored value is kept. */
  lemma FilledDefaultsOnlyFillsNil(defs: Hash<string, AttributeDefinition>, attrs: Attrs, attribute: string)
    ensures NeedsDefault(defs.entries, attrs, attribute) ==>
              attribute in FilledDefaults(defs, attrs) && FilledDefaults(defs, attrs)[attribute] == defs.entries[attribute].default
    ensures !NeedsDefault(defs.entries, attrs, attribute) ==> Lookup(FilledDefaults(defs, attrs), attribute) == Lookup(attrs, attribute)
  {
  }

  /** Filling one more declaration changes at most that attribute. */
  lemma FilledStep(defs: map<string, AttributeDefinition>, attrs: Attrs, done: set<string>, a: string, more: set<string>)
    requires a !in done
    requires forall x :: x in more <==> x in done || x == a
    ensures Lookup(Filled(defs, attrs, done), a) == Lookup(attrs, a)
    ensures NeedsDefault(defs, attrs, a) ==> Filled(defs, attrs, more) == Filled(defs, attrs, done)[a := defs[a].default]
    ensures !NeedsDefault(defs, attrs, a) ==> Filled(defs, attrs, more) == Filled(defs, attrs, done)
  {
    assert more == done + {a};
    var before := Filled(defs, attrs, done);
    var after := Filled(defs, attrs, more);
    if NeedsDefault(defs, attrs, a) {
      assert after.Keys == before.Keys + {a};
      forall k | k in after.Keys ensures after[k] == before[a := defs[a].default][k] {
      }
    } else {
      assert after.Keys == before.Keys;
    }
  }

  /** `initialize_attributes`: walks the definitions in declaration order. */
  method InitializeAttributes(defs: Hash<string, AttributeDefinition>, attrs: Attrs) returns (r: Attrs)
    ensures r == FilledDefaults(defs, attrs)
  {
    r := attrs;
    var i := 0;
    ghost var done: set<string> := {};
    assert Filled(defs.entries, attrs, {}) == attrs;
    while i < |defs.keys|
      invariant 0 <= i <= |defs.keys|
      invariant forall j :: 0 <= j < i ==> defs.keys[j] in done
      invariant forall k :: k in done ==> exists j :: 0 <= j < i && defs.keys[j] == k
      invariant r == Filled(defs.entries, attrs, done)
    {
      var a := defs.keys[i];
      FilledStep(defs.entries, attrs, done, a, done + {a});
      var definition := defs.entries[a];
      if Lookup(r, a).Nil? && Truthy(definition.default) {
        r := r[a := definition.default];
      }
      done := done + {a};
      i := i + 1;
    }
    assert done == defs.entries.Keys by {
      forall k | k in defs.entries ensures k in done {
        var j :| 0 <= j < |defs.keys| && defs.keys[j] == k;
      }
    }
  }
}
