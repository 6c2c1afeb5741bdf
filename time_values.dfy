/** Value types the picker works with: the optional wrapper, the AM/PM period,
    the dial units, the 24-hour bound times copied from the bound input and the
    dial values (a number and the angle it sits at). */
module TimeValues {

  datatype Option<+T> = None | Some(value: T)

  /** The half of a 12-hour day. */
  datatype Period = AM | PM

  /** The dial that is currently interactive. */
  datatype TimeUnit = Hour | Minute

  /** A time of day on the 24-hour clock, as carried by the input's `min` and `max`. */
  datatype ClockTime = ClockTime(hour: nat, minute: nat)

  predicate ValidClockTime(t: ClockTime) {
    t.hour < 24 && t.minute < 60
  }

  /** A dial value: the number shown (`time`) and the dial angle it sits at. */
  datatype ClockFaceTime = ClockFaceTime(time: nat, angle: int)

  /** The hour as read on a 12-hour clock face (0 and 12 read as 12). */
  function Hour12Of(hour: nat): (h12: nat)
    requires hour < 24
    ensures 1 <= h12 <= 12
    ensures h12 % 12 == hour % 12
  {
    if hour % 12 == 0 then 12 else hour % 12
  }

  /** The period a 24-hour hour falls in. */
  function PeriodOf(hour: nat): (p: Period)
  {
    if hour < 12 then AM else PM
  }

  /** The 24-hour hour that a 12-hour hour and a period denote: it is the only
      hour of the day that reads back as that hour in that period. */
  function Hour24Of(h12: nat, period: Period): (hour: nat)
    requires 1 <= h12 <= 12
    ensures hour < 24
    ensures Hour12Of(hour) == h12 && PeriodOf(hour) == period
  {
    if period == AM then h12 % 12 else assert period == PM; h12 % 12 + 12
  }

  /** Reading an hour on the 12-hour clock loses nothing once the period is kept. */
  lemma Hour12RoundTrip(hour: nat)
    requires hour < 24
    ensures Hour24Of(Hour12Of(hour), PeriodOf(hour)) == hour
  {
  }
}
