/** The picker's permissive setters: an invalid `format` or `minutesGap` is
    never refused, it is normalised to a safe value. */
module Constraints {
  import opened TimeValues

  /** The range a minutes gap must fall in to be kept as assigned. */
  const MinMinutesGap: int := 1
  const MaxMinutesGap: int := 60

  /** The `format` setter: 24 stays 24, anything else becomes 12. */
  function NormalizeFormat(value: int): (format: int)
    ensures format == 12 || format == 24
    ensures format == 24 <==> value == 24
  {
    if value == 24 then 24 else 12
  }

  /** The `minutesGap` setter. `value` is the assigned number, `None` standing
      for null or undefined, which leave the current gap as it is. A number is
      cut to its integer part; a result outside the valid range becomes 1. */
  function AssignMinutesGap(current: Option<int>, value: Option<real>): (gap: Option<int>)
    ensures value.None? ==> gap == current
    ensures value.Some? ==> gap.Some? && MinMinutesGap <= gap.value <= MaxMinutesGap
    ensures value.Some? && MinMinutesGap <= value.value.Floor <= MaxMinutesGap ==> gap == Some(value.value.Floor)
    ensures value.Some? && !(MinMinutesGap <= value.value.Floor <= MaxMinutesGap) ==> gap == Some(MinMinutesGap)
  {
    match value
    case None => current
    case Some(v) =>
      var whole := v.Floor;
      Some(if MinMinutesGap <= whole <= MaxMinutesGap then whole else MinMinutesGap)
  }

  /** Truncation toward zero, as JavaScript's integer conversion does. */
  function Truncate(v: real): int {
    if v >= 0.0 then v.Floor else -((-v).Floor)
  }

  /** Cutting a gap with `Floor` and with truncation toward zero differ only on
      negative numbers, and those end up as 1 either way: the setter's result
      does not depend on which of the two the component uses. */
  lemma FloorAgreesWithTruncation(v: real)
    ensures MinMinutesGap <= v.Floor <= MaxMinutesGap <==> MinMinutesGap <= Truncate(v) <= MaxMinutesGap
    ensures MinMinutesGap <= v.Floor <= MaxMinutesGap ==> v.Floor == Truncate(v)
  {
  }

  /** Assigning the gap the setter produced leaves it as it is. */
  lemma MinutesGapStable(current: Option<int>, value: real)
    ensures var g := AssignMinutesGap(current, Some(value));
            AssignMinutesGap(g, Some(g.value as real)) == g
  {
  }

  /** Assigning a format twice is the same as assigning it once. */
  lemma FormatIdempotent(value: int)
    ensures NormalizeFormat(NormalizeFormat(value)) == NormalizeFormat(value)
  {
  }

  /** 5 is kept, 65 becomes 1, 6.5 becomes 6, and null leaves an unset gap unset. */
  lemma MinutesGapExamples()
    ensures AssignMinutesGap(None, Some(5.0)) == Some(5)
    ensures AssignMinutesGap(None, Some(65.0)) == Some(1)
    ensures AssignMinutesGap(None, Some(6.5)) == Some(6)
    ensures AssignMinutesGap(None, None) == None
  {
  }
}
