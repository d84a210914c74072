/**
 The time-and-offset calculator: the UTC instant at which a reminder for a
 payment date fires, computed as Luxon does it — interpret the date as local
 midnight in the subscription's zone, subtract the reminder offset (whole
 calendar days for `1d`/`1w`, fixed durations for `15m`/`1h`), convert to UTC.
 */
module TimeZones {
  import opened Wrappers
  import opened Calendar

  /** Milliseconds since the Unix epoch, in UTC (what `toMillis` returns). */
  type Millis = int

  const MinuteMs: Millis := 60000
  const HourMs: Millis := 60 * MinuteMs

  /**
   The time-zone database, reduced to what the core asks of it: which zone
   names it knows, and the UTC instant of local midnight of a date in a zone.
   */
  datatype TzDb = TzDb(knows: string -> bool, midnight: (string, Date) -> Millis)

  /**
   What the model assumes of the database: UTC is a known zone, and in every
   known zone a later date has a later local midnight.
   */
  ghost predicate Sound(tz: TzDb) {
    tz.knows("UTC") &&
    forall zone, a, b ::
      tz.knows(zone) && ValidDate(a) && ValidDate(b) && Before(a, b) ==>
      tz.midnight(zone, a) < tz.midnight(zone, b)
  }

  /** `zone || 'UTC'`: an empty zone name means UTC. */
  function ZoneOrUtc(zone: string): (z: string)
    ensures z != ""
    ensures zone != "" ==> z == zone
  {
    if zone == "" then "UTC" else zone
  }

  /** The reminder offsets the schedulers understand; anything else subtracts nothing. */
  datatype Shift = NoShift | Minutes15 | Hours1 | Days1 | Weeks1

  function ShiftOf(offset: Option<string>): Shift {
    if offset == Some("15m") then Minutes15
    else if offset == Some("1h") then Hours1
    else if offset == Some("1d") then Days1
    else if offset == Some("1w") then Weeks1
    else NoShift
  }

  /**
   Local midnight of `d` in `zone`, minus the offset. A reminder never fires
   after the payment's own local midnight, and fires strictly before it
   whenever there is an offset.
   */
  function ReminderAt(tz: TzDb, zone: string, d: Date, s: Shift): (r: Millis)
    requires Sound(tz) && tz.knows(zone) && ValidDate(d)
    ensures r <= tz.midnight(zone, d)
    ensures r == tz.midnight(zone, d) <==> s == NoShift
    ensures s == Minutes15 ==> r == tz.midnight(zone, d) - 15 * MinuteMs
    ensures s == Hours1 ==> r == tz.midnight(zone, d) - HourMs
    ensures s == Days1 || s == Weeks1 ==>
      var back := SubDays(d, if s == Days1 then 1 else 7);
      r == tz.midnight(zone, back) && DayNumber(back) == DayNumber(d) - (if s == Days1 then 1 else 7)
  {
    match s
    case NoShift => tz.midnight(zone, d)
    case Minutes15 => tz.midnight(zone, d) - 15 * MinuteMs
    case Hours1 => tz.midnight(zone, d) - HourMs
    case Days1 => tz.midnight(zone, SubDays(d, 1))
    case Weeks1 => tz.midnight(zone, SubDays(d, 7))
  }

  /**
   `DateTime.fromISO(date, { zone }).minus(offset).toUTC().toISO()`: the
   instant, or null when Luxon cannot build the date-time (unknown zone).
   */
  function LocalReminder(tz: TzDb, zone: string, d: Date, offset: Option<string>): (r: Option<Millis>)
    requires Sound(tz)
    ensures r.Some? <==> tz.knows(zone) && ValidDate(d)
    ensures r.Some? ==> r.value <= tz.midnight(zone, d)
    ensures r.Some? && offset == Some("15m") ==> r.value == tz.midnight(zone, d) - 15 * MinuteMs
    ensures r.Some? && offset == Some("1h") ==> r.value == tz.midnight(zone, d) - HourMs
    ensures r.Some? && offset == Some("1d") ==> r.value == tz.midnight(zone, SubDays(d, 1))
    ensures r.Some? && offset == Some("1w") ==> r.value == tz.midnight(zone, SubDays(d, 7))
    ensures r.Some? && offset !in {Some("15m"), Some("1h"), Some("1d"), Some("1w")} ==>
      r.value == tz.midnight(zone, d)
  {
    if tz.knows(zone) && ValidDate(d) then Some(ReminderAt(tz, zone, d, ShiftOf(offset))) else None
  }

  /** The day before a later date is not before the day before an earlier one. */
  lemma PrevDayMonotone(a: Date, b: Date)
    requires ValidDate(a) && ValidDate(b) && Before(a, b)
    ensures Before(PrevDay(a), PrevDay(b))
  {
    assert a == PrevDay(b) || Before(a, PrevDay(b));
  }

  lemma {:induction false} SubDaysMonotone(a: Date, b: Date, n: nat)
    requires ValidDate(a) && ValidDate(b) && Before(a, b)
    ensures Before(SubDays(a, n), SubDays(b, n))
    decreases n
  {
    if n > 0 {
      PrevDayMonotone(a, b);
      SubDaysMonotone(PrevDay(a), PrevDay(b), n - 1);
    }
  }

  /**
   Calendar-day offsets are taken on local dates before conversion to UTC, so
   the reminder instant grows with the payment date for every offset.
   */
  lemma ReminderMonotone(tz: TzDb, zone: string, a: Date, b: Date, s: Shift)
    requires Sound(tz) && tz.knows(zone) && ValidDate(a) && ValidDate(b) && Before(a, b)
    ensures ReminderAt(tz, zone, a, s) < ReminderAt(tz, zone, b, s)
  {
    if s == Days1 {
      SubDaysMonotone(a, b, 1);
    } else if s == Weeks1 {
      SubDaysMonotone(a, b, 7);
    }
  }

  /**
   The worked case of the creation handler's test: payment 2025-11-01 in
   America/New_York with offset `1d` fires at local midnight of 2025-10-31,
   which in that zone (UTC-4 on that day) is 2025-10-31T04:00:00.000Z.
   */
  lemma NewYorkOneDayExample(tz: TzDb)
    requires Sound(tz) && tz.knows("America/New_York")
    requires tz.midnight("America/New_York", Date(2025, 10, 31)) == 1761883200000
    ensures LocalReminder(tz, "America/New_York", Date(2025, 11, 1), Some("1d")) == Some(1761883200000)
  {
    assert SubDays(Date(2025, 11, 1), 1) == Date(2025, 10, 31);
  }
}
