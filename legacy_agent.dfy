/** The Agent variant of the legacy engine (app/models/operations/agent/): its wait
    handler, its interaction handler, and the class-level settings and timeout rule of
    agent/plan.rb. */
module LegacyAgent {
  import opened Values
  import opened Errors
  import opened Selection
  import opened LegacyCalls

  /** Agent::WaitHandler: the conditions, destinations and labels its configuration block
      declared. */
  datatype WaitHandler = WaitHandler(name: string, rule: Rule)

  /** A new wait handler, before its configuration block runs. */
  function NewWait(name: string): WaitHandler {
    WaitHandler(name, NoConditions)
  }

  /** `condition(label: ...) { ... }` inside the configuration block. */
  function WaitCondition(h: WaitHandler, c: Condition, caption: Option<string>): WaitHandler {
    h.(rule := AddCondition(h.rule, c, caption))
  }

  /** `go_to(state)` inside the configuration block. */
  function WaitGoTo(h: WaitHandler, state: Option<string>): WaitHandler {
    h.(rule := AddDestination(h.rule, state))
  }

  /** `immediate?`: a wait handler never runs straight away. */
  function WaitImmediate(h: WaitHandler): (b: bool)
    ensures !b
  {
    false
  }

  /** `call(task, data)`: `data.go_to` the destination of the first condition that holds on
      the carrier, or the task's current state when none holds. An error raised by a
      condition propagates before any `go_to`. */
  function CallWait(h: WaitHandler, state: string, d: Data): (e: Effect)
    ensures e.data == d && e.value == Nil
    ensures FirstTrue(h.rule.conditions, d).Matched? ==>
              e.calls == [CarrierGoTo(DestinationAt(h.rule.destinations, FirstTrue(h.rule.conditions, d).index), NoMessage)]
              && e.error.None?
    ensures (forall j :: 0 <= j < |h.rule.conditions| ==> h.rule.conditions[j](d) == Ok(false)) ==>
              e == Calling(d, CarrierGoTo(Str(state), NoMessage))
    ensures e.error.Some? <==> FirstTrue(h.rule.conditions, d).Raised?
    ensures e.error.Some? ==> e.calls == []
  {
    match SelectDestination(h.rule, d, Str(state))
    case Ok(target) => Calling(d, CarrierGoTo(target, NoMessage))
    case Err(err) => Raising(d, err)
  }

  /** Agent::InteractionHandler: the legal states set by `when` (none at first) and the
      body of the interaction method it defines on the agent class `klass`. */
  datatype InteractionHandler = InteractionHandler(name: string, klass: string, legalStates: seq<string>,
                                                   implementation: Option<ArgsBlock>)

  function NewInteraction(name: string, klass: string, implementation: Option<ArgsBlock>): (h: InteractionHandler)
    ensures h.legalStates == []
  {
    InteractionHandler(name, klass, [], implementation)
  }

  /** `when(*states)`: replaces the legal states. */
  function When(h: InteractionHandler, states: seq<string>): InteractionHandler {
    h.(legalStates := states)
  }

  /** The guard of the generated method: any state when none is listed. */
  predicate Legal(h: InteractionHandler, state: string) {
    |h.legalStates| == 0 || state in h.legalStates
  }

  /** The generated interaction method, called on an agent in `state` whose carrier holds
      `d`: it checks the state, runs the body on the carrier with the arguments, records the
      state transition and performs. Any error, including the state check's, is recorded on
      the agent and then re-raised. */
  function Interact(h: InteractionHandler, state: string, d: Data, args: seq<Value>): (e: Effect)
    ensures !Legal(h, state) ==>
              var err := Raise(InvalidState, h.klass + "#" + h.name + " cannot be called in " + state);
              e == Effect(d, [RecordException(err)], Nil, Some(err))
    ensures Legal(h, state) && ExecWith(h.implementation, d, args).error.None? ==>
              var ran := ExecWith(h.implementation, d, args);
              e == Effect(ran.data, ran.calls + [RecordStateTransition(ran.data), Perform], Nil, None)
    ensures e.error.Some? ==> |e.calls| > 0 && e.calls[|e.calls| - 1] == RecordException(e.error.value)
    ensures e.error.None? ==> Legal(h, state) && Perform in e.calls
  {
    if !Legal(h, state) then
      var err := Raise(InvalidState, h.klass + "#" + h.name + " cannot be called in " + state);
      Effect(d, [RecordException(err)], Nil, Some(err))
    else
      var ran := ExecWith(h.implementation, d, args);
      if ran.error.Some? then Effect(ran.data, ran.calls + [RecordException(ran.error.value)], Nil, ran.error)
      else Effect(ran.data, ran.calls + [RecordStateTransition(ran.data), Perform], Nil, None)
  }

  /** With no legal state listed, the interaction runs in every state. */
  lemma UnrestrictedInteractionRunsAnywhere(name: string, klass: string, implementation: ArgsBlock,
                                            state: string, d: Data, args: seq<Value>)
    requires implementation(d, args).error.None?
    ensures Interact(NewInteraction(name, klass, Some(implementation)), state, d, args).error.None?
  {
  }

  /** The callback `on_timeout` registers: its own effect when called. */
  type TimeoutCallback = () -> Effect

  /** The class-level settings of agent/plan.rb while the class body runs. */
  class Settings {
    var backgroundDelay: Option<int>
    var executionTimeout: Option<int>
    var onTimeout: Option<TimeoutCallback>

    constructor ()
      ensures backgroundDelay.None? && executionTimeout.None? && onTimeout.None?
    {
      backgroundDelay, executionTimeout, onTimeout := None, None, None;
    }

    /** `background_delay`: five minutes unless `delay` set it. */
    function BackgroundDelay(): (seconds: int)
      reads this
      ensures backgroundDelay.None? ==> seconds == 300
      ensures backgroundDelay.Some? ==> seconds == backgroundDelay.value
    {
      backgroundDelay.GetOr(300)
    }

    /** `execution_timeout`: twenty-four hours unless `timeout` set it. */
    function ExecutionTimeout(): (seconds: int)
      reads this
      ensures executionTimeout.None? ==> seconds == 86400
      ensures executionTimeout.Some? ==> seconds == executionTimeout.value
    {
      executionTimeout.GetOr(86400)
    }

    method Delay(seconds: int)
      modifies this
      ensures BackgroundDelay() == seconds
      ensures executionTimeout == old(executionTimeout) && onTimeout == old(onTimeout)
    {
      backgroundDelay := Some(seconds);
    }

    method Timeout(seconds: int)
      modifies this
      ensures ExecutionTimeout() == seconds
      ensures backgroundDelay == old(backgroundDelay) && onTimeout == old(onTimeout)
    {
      executionTimeout := Some(seconds);
    }

    method OnTimeout(handler: TimeoutCallback)
      modifies this
      ensures onTimeout == Some(handler)
      ensures backgroundDelay == old(backgroundDelay) && executionTimeout == old(executionTimeout)
    {
      onTimeout := Some(handler);
    }
  }

  /** `timeout_expired?`: a timeout is set and lies strictly before now. */
  predicate TimeoutExpired(timesOutAt: Option<Time>, now: Time) {
    timesOutAt.Some? && timesOutAt.value < now
  }

  /** What `timeout!` did: nothing, raised, or called the timeout callback. */
  datatype TimeoutOutcome = NotExpired | TimedOut(error: Error) | CallbackRan(ran: Effect)

  /** `timeout!`: nothing unless the timeout has expired; then the callback when one is
      registered, and Timeout "Timeout expired" otherwise. */
  function CheckTimeout(timesOutAt: Option<Time>, callback: Option<TimeoutCallback>, now: Time): (r: TimeoutOutcome)
    ensures r.NotExpired? <==> !TimeoutExpired(timesOutAt, now)
    ensures r.TimedOut? <==> TimeoutExpired(timesOutAt, now) && callback.None?
    ensures r.TimedOut? ==> r.error == Raise(Timeout, "Timeout expired")
    ensures r.CallbackRan? ==> callback.Some? && r.ran == callback.value()
  {
    if !TimeoutExpired(timesOutAt, now) then NotExpired
    else match callback
      case None => TimedOut(Raise(Timeout, "Timeout expired"))
      case Some(f) => CallbackRan(f())
  }

  /** A timeout that is reached exactly now has not expired yet. */
  lemma TimeoutAtNowIsNotExpired(now: Time, callback: Option<TimeoutCallback>)
    ensures CheckTimeout(Some(now), callback, now) == NotExpired
    ensures CheckTimeout(None, callback, now) == NotExpired
  {
  }
}
