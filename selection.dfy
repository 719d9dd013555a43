/** First-match selection over an ordered list of conditions: Ruby's
    `conditions.find { |c| instance_eval(&c) }` followed by `conditions.index(found)`.
    Every decision and wait handler of both engine generations selects this way. */
module Selection {
  import opened Errors

  /** What the search found: the index of the first true condition, no true condition,
      or an error raised by a condition (which stops the search). */
  datatype Match = Matched(index: nat) | NoneMatched | Raised(error: Error)

  function FirstTrue<T>(conditions: seq<T -> Result<bool>>, subject: T): (m: Match)
    ensures m.Matched? ==> m.index < |conditions| && conditions[m.index](subject) == Ok(true)
    ensures m.Matched? ==> forall j :: 0 <= j < m.index ==> conditions[j](subject) == Ok(false)
    ensures m.NoneMatched? <==> forall j :: 0 <= j < |conditions| ==> conditions[j](subject) == Ok(false)
    ensures m.Raised? ==> exists i :: 0 <= i < |conditions| && conditions[i](subject) == Err(m.error)
                                     && forall j :: 0 <= j < i ==> conditions[j](subject) == Ok(false)
    decreases |conditions|
  {
    if |conditions| == 0 then NoneMatched
    else
      match conditions[0](subject)
      case Err(e) => Raised(e)
      case Ok(true) => Matched(0)
      case Ok(false) =>
        match FirstTrue(conditions[1..], subject)
        case Matched(i) => Matched(i + 1)
        case NoneMatched => NoneMatched
        case Raised(e) => Raised(e)
  }

  /** Conditions after the first true one are never evaluated: replacing them changes nothing. */
  lemma {:induction false} LaterConditionsIgnored<T>(conditions: seq<T -> Result<bool>>, later: seq<T -> Result<bool>>, subject: T, i: nat)
    requires FirstTrue(conditions, subject) == Matched(i)
    ensures FirstTrue(conditions[..i + 1] + later, subject) == Matched(i)
    decreases |conditions|
  {
    var cs := conditions[..i + 1] + later;
    if i == 0 {
      assert cs[0] == conditions[0];
    } else {
      assert conditions[0](subject) == Ok(false);
      assert cs[0] == conditions[0];
      assert cs[1..] == conditions[1..][..i] + later;
      LaterConditionsIgnored(conditions[1..], later, subject, i - 1);
    }
  }
}
