/** The background settings and timeout rule of app/models/operations/task/background.rb. The
    deadline lives in the task's data under `_execution_timeout`. */
module LegacyBackground {
  import opened Values
  import opened Errors
  import opened LegacyCalls

  /** The key `with_timeout` writes. */
  const TimeoutKey: string := "_execution_timeout"

  /** The class-level settings while the class body runs. */
  class Settings {
    var backgroundDelay: Option<int>
    var executionTimeout: Option<int>

    constructor ()
      ensures backgroundDelay.None? && executionTimeout.None?
    {
      backgroundDelay, executionTimeout := None, None;
    }

    /** `background_delay`: one second unless `delay` set it. */
    function BackgroundDelay(): (seconds: int)
      reads this
      ensures backgroundDelay.None? ==> seconds == 1
      ensures backgroundDelay.Some? ==> seconds == backgroundDelay.value
    {
      backgroundDelay.GetOr(1)
    }

    /** `execution_timeout`: five minutes unless `timeout` set it. */
    function ExecutionTimeout(): (seconds: int)
      reads this
      ensures executionTimeout.None? ==> seconds == 300
      ensures executionTimeout.Some? ==> seconds == executionTimeout.value
    {
      executionTimeout.GetOr(300)
    }

    method Delay(seconds: int)
      modifies this
      ensures BackgroundDelay() == seconds && executionTimeout == old(executionTimeout)
    {
      backgroundDelay := Some(seconds);
    }

    method Timeout(seconds: int)
      modifies this
      ensures ExecutionTimeout() == seconds && backgroundDelay == old(backgroundDelay)
    {
      executionTimeout := Some(seconds);
    }

    /** `with_timeout(data)`: the data with the deadline `now + execution_timeout` added. */
    function WithTimeout(d: Data, now: Time): (r: Data)
      reads this
      ensures forall k :: k in r <==> k in d || k == TimeoutKey
      ensures r[TimeoutKey] == Int(now + ExecutionTimeout())
      ensures forall k :: k in d && k != TimeoutKey ==> r[k] == d[k]
    {
      d[TimeoutKey := Int(now + ExecutionTimeout())]
    }
  }

  /** The deadline in the data, when one is present. */
  function Deadline(d: Data): Option<Time> {
    if TimeoutKey in d && d[TimeoutKey].Int? then Some(d[TimeoutKey].i) else None
  }

  /** `timeout_expired?`: a deadline is present and lies strictly before now. */
  predicate TimeoutExpired(d: Data, now: Time) {
    Deadline(d).Some? && Deadline(d).value < now
  }

  /** `timeout!`: Timeout "Timeout expired" when the deadline has passed, nothing otherwise. */
  function CheckTimeout(d: Data, now: Time): (err: Option<Error>)
    ensures err.Some? <==> TimeoutExpired(d, now)
    ensures err.Some? ==> err.value == Raise(Timeout, "Timeout expired")
  {
    if TimeoutExpired(d, now) then Some(Raise(Timeout, "Timeout expired")) else None
  }

  /** A task started `with_timeout` at `start` times out exactly when more than the
      execution timeout has passed. */
  lemma TimesOutAfterTheTimeout(s: Settings, d: Data, start: Time, now: Time)
    ensures CheckTimeout(s.WithTimeout(d, start), now).Some? <==> now > start + s.ExecutionTimeout()
  {
  }

  /** Without a deadline a task never times out. */
  lemma NoDeadlineNeverTimesOut(d: Data, now: Time)
    requires TimeoutKey !in d
    ensures CheckTimeout(d, now).None?
  {
  }
}
