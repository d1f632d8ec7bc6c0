/** java.time.LocalDateTime as a day count and a time of day, both in nanoseconds. */
module Time {

  const NANOS_PER_DAY: int := 86_400_000_000_000

  /** A local date-time: days since 1970-01-01 and nanoseconds since midnight. */
  datatype DateTime = DateTime(epochDay: int, nanoOfDay: int)

  predicate IsValid(t: DateTime) {
    0 <= t.nanoOfDay < NANOS_PER_DAY
  }

  /** The instant as one nanosecond count (what Duration.between subtracts). */
  function Nanos(t: DateTime): int {
    t.epochDay * NANOS_PER_DAY + t.nanoOfDay
  }

  /** The epoch day of LocalDate.MAX, +999999999-12-31: no later day exists. */
  const MAX_EPOCH_DAY: int := 365_241_780_471

  /** LocalDate.atStartOfDay. */
  function AtStartOfDay(epochDay: int): (t: DateTime)
    ensures IsValid(t) && t.epochDay == epochDay && t.nanoOfDay == 0
  {
    DateTime(epochDay, 0)
  }

  /** LocalDateTime.toLocalDate. */
  function ToLocalDate(t: DateTime): int {
    t.epochDay
  }

  /** Chronological order of valid date-times agrees with the nanosecond count. */
  lemma {:induction false} NanosOrder(a: DateTime, b: DateTime)
    requires IsValid(a) && IsValid(b)
    ensures Nanos(a) <= Nanos(b) <==>
      a.epochDay < b.epochDay || (a.epochDay == b.epochDay && a.nanoOfDay <= b.nanoOfDay)
  {
    if a.epochDay < b.epochDay {
      assert a.epochDay * NANOS_PER_DAY + NANOS_PER_DAY <= b.epochDay * NANOS_PER_DAY;
    } else if a.epochDay > b.epochDay {
      assert b.epochDay * NANOS_PER_DAY + NANOS_PER_DAY <= a.epochDay * NANOS_PER_DAY;
    }
  }
}
