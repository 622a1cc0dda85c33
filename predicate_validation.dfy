/** `PredicateValidation<T>` of Smaragd: a validation rule made of a
    predicate and an error message, both fixed when the rule is made. A
    value is valid exactly when the predicate holds of it; otherwise the
    rule reports its message. */
module SmaragdValidation {

  /** A C# `string`, which may be null (`None`). */
  datatype Option<T> = None | Some(value: T)

  /** The verdict of `IsValid`: the returned bool and the `out` message. */
  datatype Verdict = Verdict(valid: bool, errorMessage: Option<string>)

  /** The rule's two readonly fields; the datatype constructor is the C#
      constructor, and a datatype value cannot be changed after it is made. */
  datatype PredicateValidation<!T> = PredicateValidation(holds: T -> bool, message: Option<string>)
  {
    /** `IsValid(value, out errorMessage)` */
    function IsValid(value: T): (r: Verdict)
      ensures r.valid <==> holds(value)
      ensures r.valid ==> r.errorMessage == None
      ensures !r.valid ==> r.errorMessage == message
    {
      if holds(value) then Verdict(true, None) else Verdict(false, message)
    }
  }

  /** With a non-null message, a caller may read validity off the `out`
      message alone: it is null exactly when the value is valid. */
  lemma MessageSignalsInvalidity<T>(rule: PredicateValidation<T>, value: T)
    requires rule.message.Some?
    ensures rule.IsValid(value).errorMessage.None? <==> rule.IsValid(value).valid
  {
  }

  /** With a null message an invalid value also yields a null `out` message,
      so only the returned bool tells the two cases apart. */
  lemma NullMessageHidesFailure<T>(rule: PredicateValidation<T>, value: T)
    requires rule.message.None? && !rule.holds(value)
    ensures rule.IsValid(value) == Verdict(false, None)
  {
  }
}
