/** Moments in time as the backend's `new Date(...)` sees them, and the
    normalisation of a date to its calendar day. */
module Dates {
  import opened Js

  /** A calendar day, counted in days from 1970-01-01 (UTC). */
  type Day = int

  const MsPerDay: int := 86400000

  /** A valid JavaScript Date: a UTC day and the milliseconds into that day. */
  datatype Instant = Instant(day: Day, ms: int)

  type Moment = i: Instant | 0 <= i.ms < MsPerDay witness Instant(0, 0)

  /** `date.getTime()`. */
  function EpochMs(m: Moment): int
  {
    m.day * MsPerDay + m.ms
  }

  /** The first moment of a day, as `new Date("YYYY-MM-DD")` gives it. */
  function Midnight(d: Day): Moment
  {
    Instant(d, 0)
  }

  /** `new Date(a) >= new Date(b)`. A field that is absent or does not parse
      gives an invalid Date, and every comparison with one is false. */
  predicate NotBefore(a: Field<Moment>, b: Field<Moment>)
  {
    a.Given? && b.Given? && EpochMs(a.value) >= EpochMs(b.value)
  }

  /** toDateOnly: null for a missing or unparsable input, otherwise the UTC
      calendar day of the moment, its time of day dropped. */
  function ToDateOnly(f: Field<Moment>): (r: Option<Day>)
    ensures r.None? <==> !f.Given?
    ensures r.Some? ==> r.value * MsPerDay <= EpochMs(f.value) < (r.value + 1) * MsPerDay
  {
    if f.Given? then Some(f.value.day) else None
  }

  /** Normalising a day that is already date-only gives it back. */
  lemma ToDateOnlyOfMidnight(d: Day)
    ensures ToDateOnly(Given(Midnight(d))) == Some(d)
  {
  }

  /** Dropping the time of day keeps the order of two moments, but only
      weakly: two moments of the same day become equal. */
  lemma DayOrderIsWeak(a: Moment, b: Moment)
    requires EpochMs(a) < EpochMs(b)
    ensures a.day <= b.day
  {
  }
}
