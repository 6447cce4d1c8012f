/**
 * The boundary to the time library. Instants are compared by their Unix
 * nanosecond count; everything that needs calendar arithmetic (the civil
 * reading of an instant in a zone, building a local midnight, ISO week
 * dates) is delegated to a `Calendar` of total functions that callers pass in.
 */
module Clock {

  /** A time zone; only its identity matters here. */
  datatype Location = Location(name: string)

  /** An instant: nanoseconds since the Unix epoch, and the zone it is shown in. */
  datatype Time = Time(unixNano: int, loc: Location)

  /** The same instant shown in another zone (Go's t.In(loc)). */
  function In(t: Time, loc: Location): (r: Time)
    ensures r.unixNano == t.unixNano && r.loc == loc
  {
    Time(t.unixNano, loc)
  }

  /** The calendar reading of an instant in its own zone; week is the ISO 8601 week number. */
  datatype Civil = Civil(year: nat, month: nat, day: nat, week: nat)

  /**
   * The calendar computations the package takes from its libraries:
   *   civil        -- t.Year(), t.Month(), t.Day() and the week of t.ISOWeek()
   *   date         -- time.Date(year, month, day, 0, 0, 0, 0, loc), a local midnight
   *   isoWeekStart -- isoweek.StartDate(year, week), the Monday of that ISO week
   */
  datatype Calendar = Calendar(
    civil: Time -> Civil,
    date: (int, int, int, Location) -> Time,
    isoWeekStart: (int, int) -> (int, int, int)
  )
}
