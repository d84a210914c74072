/**
 Advancing an overdue payment date: step it forward one billing-cycle unit at
 a time until its local midnight lies after "now" (the `while` loop of the
 renewal pass in the notification dispatcher).
 */
module BillingCycles {
  import opened Calendar
  import opened TimeZones

  predicate KnownCycle(cycle: string) {
    cycle == "monthly" || cycle == "quarterly" || cycle == "annually" || cycle == "weekly"
  }

  /** One billing-cycle unit: +1 month, +3 months, +1 year, +1 week; nothing for an unknown cycle. */
  function CycleStep(cycle: string, d: Date): (r: Date)
    requires ValidDate(d)
    ensures ValidDate(r)
    ensures KnownCycle(cycle) ==> Before(d, r)
    ensures !KnownCycle(cycle) ==> r == d
    ensures cycle == "monthly" || cycle == "quarterly" ==>
      MonthIndex(r) == MonthIndex(d) + (if cycle == "monthly" then 1 else 3) &&
      r.day == Min(d.day, DaysInMonth(r.year, r.month))
    ensures cycle == "annually" ==>
      r.year == d.year + 1 && r.month == d.month && r.day == Min(d.day, DaysInMonth(r.year, r.month))
    ensures cycle == "weekly" ==> DayNumber(r) == DayNumber(d) + 7
  {
    if cycle == "monthly" then AddMonths(d, 1)
    else if cycle == "quarterly" then AddMonths(d, 3)
    else if cycle == "annually" then AddYears(d, 1)
    else if cycle == "weekly" then AddDays(d, 7)
    else d
  }

  /** The date after k steps; clamping compounds, as repeated `plus` calls do. */
  function Iterate(cycle: string, d: Date, k: nat): (r: Date)
    requires ValidDate(d)
    ensures ValidDate(r)
    decreases k
  {
    if k == 0 then d else Iterate(cycle, CycleStep(cycle, d), k - 1)
  }

  /**
   The first date, among d and its successive steps, whose local midnight is
   after `now`; for an unknown cycle the loop gives up and the date stays.
   */
  function FirstFuture(tz: TzDb, zone: string, cycle: string, d: Date, now: Millis): (r: Date)
    requires Sound(tz) && tz.knows(zone) && ValidDate(d)
    ensures ValidDate(r)
    ensures KnownCycle(cycle) ==> now < tz.midnight(zone, r)
    ensures !KnownCycle(cycle) || now < tz.midnight(zone, d) ==> r == d
    decreases if tz.midnight(zone, d) <= now then now - tz.midnight(zone, d) + 1 else 0
  {
    if now < tz.midnight(zone, d) || !KnownCycle(cycle) then d
    else FirstFuture(tz, zone, cycle, CycleStep(cycle, d), now)
  }

  /**
   The advanced date is reached by whole steps, and every date passed over on
   the way was not after `now`: it is the first future occurrence.
   */
  lemma {:induction false} FirstFutureIsFirst(tz: TzDb, zone: string, cycle: string, d: Date, now: Millis)
    returns (k: nat)
    requires Sound(tz) && tz.knows(zone) && ValidDate(d)
    ensures FirstFuture(tz, zone, cycle, d, now) == Iterate(cycle, d, k)
    ensures forall j :: 0 <= j < k ==> tz.midnight(zone, Iterate(cycle, d, j)) <= now
    decreases if tz.midnight(zone, d) <= now then now - tz.midnight(zone, d) + 1 else 0
  {
    if now < tz.midnight(zone, d) || !KnownCycle(cycle) {
      k := 0;
    } else {
      var next := CycleStep(cycle, d);
      var k' := FirstFutureIsFirst(tz, zone, cycle, next, now);
      k := k' + 1;
      forall j | 0 <= j < k
        ensures tz.midnight(zone, Iterate(cycle, d, j)) <= now
      {
        if j > 0 {
          assert Iterate(cycle, d, j) == Iterate(cycle, next, j - 1);
        }
      }
    }
  }

  /**
   Month steps clamp and the clamping compounds: Jan 31 becomes Feb 28 and
   then Mar 28, not Mar 31.
   */
  lemma MonthlyClampCompounds()
    ensures CycleStep("monthly", Date(2025, 1, 31)) == Date(2025, 2, 28)
    ensures Iterate("monthly", Date(2025, 1, 31), 2) == Date(2025, 3, 28)
  {
    assert CycleStep("monthly", Date(2025, 2, 28)) == Date(2025, 3, 28);
  }

  /**
   A monthly subscription due 2025-01-31, renewed on 2025-03-15, lands on
   2025-03-28: after "now", and on the compounded clamp.
   */
  lemma {:induction false} MonthlyRenewalExample(tz: TzDb, zone: string, now: Millis)
    requires Sound(tz) && tz.knows(zone)
    requires tz.midnight(zone, Date(2025, 3, 15)) <= now < tz.midnight(zone, Date(2025, 3, 16))
    ensures FirstFuture(tz, zone, "monthly", Date(2025, 1, 31), now) == Date(2025, 3, 28)
  {
    MonthlyClampCompounds();
    assert tz.midnight(zone, Date(2025, 1, 31)) < tz.midnight(zone, Date(2025, 3, 15));
    assert tz.midnight(zone, Date(2025, 2, 28)) < tz.midnight(zone, Date(2025, 3, 15));
    assert tz.midnight(zone, Date(2025, 3, 16)) < tz.midnight(zone, Date(2025, 3, 28));
    assert FirstFuture(tz, zone, "monthly", Date(2025, 3, 28), now) == Date(2025, 3, 28);
    assert FirstFuture(tz, zone, "monthly", Date(2025, 2, 28), now) == Date(2025, 3, 28);
  }

  /**
   The renewal loop: while the date's local midnight is not after `now`, add
   one unit of the billing cycle; an unknown cycle breaks out unchanged.
   */
  method NextPaymentDate(tz: TzDb, zone: string, cycle: string, start: Date, now: Millis)
    returns (next: Date)
    requires Sound(tz) && tz.knows(zone) && ValidDate(start)
    ensures next == FirstFuture(tz, zone, cycle, start, now)
  {
    next := start;
    while tz.midnight(zone, next) <= now
      invariant ValidDate(next)
      invariant FirstFuture(tz, zone, cycle, next, now) == FirstFuture(tz, zone, cycle, start, now)
      decreases now - tz.midnight(zone, next)
    {
      if cycle == "monthly" {
        next := AddMonths(next, 1);
      } else if cycle == "quarterly" {
        next := AddMonths(next, 3);
      } else if cycle == "annually" {
        next := AddYears(next, 1);
      } else if cycle == "weekly" {
        next := AddDays(next, 7);
      } else {
        break;
      }
    }
  }
}
