/**
 The dashboard figures computed from the owner's subscriptions once they are
 fetched: the monthly spend, normalising every price to one month, and the
 next five payments that are not yet past.
 */
module Dashboard {
  import opened Calendar
  import opened TimeZones
  import opened BillingCycles
  import opened Tables

  const UpcomingCount := 5

  /** How many times a cycle's price is paid per month; an unknown cycle counts nothing. */
  function MonthlyFactor(cycle: string): (f: real)
    ensures f > 0.0 <==> KnownCycle(cycle)
    ensures f >= 0.0
  {
    if cycle == "weekly" then 4.0
    else if cycle == "monthly" then 1.0
    else if cycle == "quarterly" then 1.0 / 3.0
    else if cycle == "annually" then 1.0 / 12.0
    else 0.0
  }

  /**
   For the cycles counted in months, the factor is one over the number of
   months a renewal step advances the payment date; a week counts as a
   quarter of a month.
   */
  lemma FactorMatchesStep(cycle: string, d: Date)
    requires ValidDate(d) && (cycle == "monthly" || cycle == "quarterly" || cycle == "annually")
    ensures MonthlyFactor(cycle) * (MonthIndex(CycleStep(cycle, d)) - MonthIndex(d)) as real == 1.0
  {
  }

  function MonthlyCost(s: Subscription): real {
    s.renewalPrice * MonthlyFactor(s.billingCycle)
  }

  /** The sum of the monthly costs of the rows, added in order. */
  function Spend(subs: seq<Subscription>): real {
    if |subs| == 0 then 0.0 else Spend(subs[..|subs| - 1]) + MonthlyCost(subs[|subs| - 1])
  }

  lemma {:induction false} SpendAppend(a: seq<Subscription>, b: seq<Subscription>)
    ensures Spend(a + b) == Spend(a) + Spend(b)
    decreases |b|
  {
    if |b| == 0 {
      assert a + b == a;
    } else {
      assert (a + b)[..|a + b| - 1] == a + b[..|b| - 1];
      SpendAppend(a, b[..|b| - 1]);
    }
  }

  /** Taking one row out of the list takes its monthly cost out of the total. */
  lemma {:induction false} SpendRemove(b: seq<Subscription>, j: nat)
    requires j < |b|
    ensures Spend(b) == Spend(b[..j] + b[j + 1..]) + MonthlyCost(b[j])
  {
    var p, x, q := b[..j], b[j], b[j + 1..];
    assert b == (p + [x]) + q;
    SpendAppend(p + [x], q);
    assert (p + [x])[..|p + [x]| - 1] == p;
    assert Spend(p + [x]) == Spend(p) + MonthlyCost(x);
    SpendAppend(p, q);
  }

  /** With no negative price the total is not negative. */
  lemma {:induction false} SpendNonNegative(subs: seq<Subscription>)
    requires forall i :: 0 <= i < |subs| ==> subs[i].renewalPrice >= 0.0
    ensures Spend(subs) >= 0.0
  {
    if |subs| > 0 {
      SpendNonNegative(subs[..|subs| - 1]);
      assert MonthlyFactor(subs[|subs| - 1].billingCycle) >= 0.0;
    }
  }

  /** Removing the last element of `a` and an equal element of `b` keeps the two multisets equal. */
  lemma RemoveMatching<T>(a: seq<T>, b: seq<T>, j: nat)
    requires multiset(a) == multiset(b) && |a| > 0 && j < |b| && b[j] == a[|a| - 1]
    ensures multiset(a[..|a| - 1]) == multiset(b[..j] + b[j + 1..])
  {
    var x := a[|a| - 1];
    assert a == a[..|a| - 1] + [x];
    assert b == b[..j] + [x] + b[j + 1..];
    assert multiset(a) == multiset(a[..|a| - 1]) + multiset{x};
    assert multiset(b) == multiset(b[..j]) + multiset{x} + multiset(b[j + 1..]);
    assert multiset(b[..j] + b[j + 1..]) == multiset(b[..j]) + multiset(b[j + 1..]);
    var left, right := multiset(a[..|a| - 1]), multiset(b[..j] + b[j + 1..]);
    assert left + multiset{x} == right + multiset{x};
    assert left == (left + multiset{x}) - multiset{x};
    assert right == (right + multiset{x}) - multiset{x};
  }

  /** The total does not depend on the order in which the query returned the rows. */
  lemma {:induction false} SpendPermutation(a: seq<Subscription>, b: seq<Subscription>)
    requires multiset(a) == multiset(b)
    ensures Spend(a) == Spend(b)
    decreases |a|
  {
    if |a| == 0 {
      assert |multiset(b)| == 0;
    } else {
      var x := a[|a| - 1];
      assert x in multiset(b);
      var j :| 0 <= j < |b| && b[j] == x;
      RemoveMatching(a, b, j);
      SpendPermutation(a[..|a| - 1], b[..j] + b[j + 1..]);
      SpendRemove(b, j);
    }
  }

  /** The `forEach` that accumulates the monthly spend. */
  method MonthlySpend(subs: seq<Subscription>) returns (total: real)
    ensures total == Spend(subs)
  {
    total := 0.0;
    for i := 0 to |subs|
      invariant total == Spend(subs[..i])
    {
      assert subs[..i + 1][..i] == subs[..i];
      total := total + subs[i].renewalPrice * MonthlyFactor(subs[i].billingCycle);
    }
    assert subs[..|subs|] == subs;
  }

  /**
   `DateTime.fromISO(next_payment_date).toMillis()`: the date's midnight in
   the browser's own zone `zone`.
   */
  function PaymentAt(tz: TzDb, zone: string, s: Subscription): Millis {
    tz.midnight(zone, s.nextPaymentDate)
  }

  /** The `filter`: rows whose payment instant is not before now, in their order. */
  function NotPast(tz: TzDb, zone: string, subs: seq<Subscription>, now: Millis): (r: seq<Subscription>)
    ensures forall x :: x in r <==> x in subs && PaymentAt(tz, zone, x) >= now
    ensures multiset(r) <= multiset(subs)
  {
    if |subs| == 0 then []
    else
      assert subs == [subs[0]] + subs[1..];
      (if PaymentAt(tz, zone, subs[0]) >= now then [subs[0]] else []) + NotPast(tz, zone, subs[1..], now)
  }

  predicate SortedByPayment(tz: TzDb, zone: string, s: seq<Subscription>) {
    forall i, j :: 0 <= i < j < |s| ==> PaymentAt(tz, zone, s[i]) <= PaymentAt(tz, zone, s[j])
  }

  /** Inserts before the first row that is not earlier, so equal instants keep their order. */
  function InsertByPayment(tz: TzDb, zone: string, x: Subscription, s: seq<Subscription>): (r: seq<Subscription>)
    requires SortedByPayment(tz, zone, s)
    ensures SortedByPayment(tz, zone, r)
    ensures multiset(r) == multiset(s) + multiset{x}
  {
    if |s| == 0 then [x]
    else if PaymentAt(tz, zone, x) <= PaymentAt(tz, zone, s[0]) then
      ConsSorted(tz, zone, x, s);
      [x] + s
    else
      var rest := InsertByPayment(tz, zone, x, s[1..]);
      assert s == [s[0]] + s[1..];
      HeadBeforeInserted(tz, zone, x, s, rest);
      ConsSorted(tz, zone, s[0], rest);
      [s[0]] + rest
  }

  /** A row due no later than the first of a sorted list can go in front of it. */
  lemma ConsSorted(tz: TzDb, zone: string, h: Subscription, s: seq<Subscription>)
    requires SortedByPayment(tz, zone, s)
    requires |s| > 0 ==> PaymentAt(tz, zone, h) <= PaymentAt(tz, zone, s[0])
    ensures SortedByPayment(tz, zone, [h] + s)
  {
    var r := [h] + s;
    forall i, j | 0 <= i < j < |r|
      ensures PaymentAt(tz, zone, r[i]) <= PaymentAt(tz, zone, r[j])
    {
      assert r[j] == s[j - 1];
      if i > 0 {
        assert r[i] == s[i - 1];
      } else if j > 1 {
        assert PaymentAt(tz, zone, s[0]) <= PaymentAt(tz, zone, s[j - 1]);
      }
    }
  }

  /** The head of a sorted list is due no later than the first row of its tail with a later row inserted. */
  lemma HeadBeforeInserted(tz: TzDb, zone: string, x: Subscription, s: seq<Subscription>, rest: seq<Subscription>)
    requires SortedByPayment(tz, zone, s) && |s| > 0
    requires PaymentAt(tz, zone, s[0]) <= PaymentAt(tz, zone, x)
    requires multiset(rest) == multiset(s[1..]) + multiset{x}
    ensures |rest| > 0 && PaymentAt(tz, zone, s[0]) <= PaymentAt(tz, zone, rest[0])
  {
    assert x in multiset(rest);
    assert rest[0] in multiset(rest);
    if rest[0] != x {
      assert rest[0] in multiset(s[1..]);
      var j :| 0 <= j < |s[1..]| && s[1..][j] == rest[0];
      assert s[j + 1] == rest[0];
    }
  }

  /** The `sort` by payment instant: ascending, and a permutation of its input. */
  function SortByPayment(tz: TzDb, zone: string, s: seq<Subscription>): (r: seq<Subscription>)
    ensures SortedByPayment(tz, zone, r)
    ensures multiset(r) == multiset(s)
  {
    if |s| == 0 then []
    else
      assert s == [s[0]] + s[1..];
      InsertByPayment(tz, zone, s[0], SortByPayment(tz, zone, s[1..]))
  }

  /**
   The first n rows of a sorted list are sorted, are drawn from it, and are
   none of them later than a row left behind.
   */
  lemma SortedPrefix(tz: TzDb, zone: string, sorted: seq<Subscription>, n: nat)
    requires SortedByPayment(tz, zone, sorted) && n <= |sorted|
    ensures multiset(sorted[..n]) <= multiset(sorted)
    ensures forall x, y :: x in sorted && x !in sorted[..n] && y in sorted[..n] ==>
      PaymentAt(tz, zone, y) <= PaymentAt(tz, zone, x)
  {
    var r := sorted[..n];
    assert sorted == r + sorted[n..];
    assert multiset(sorted) == multiset(r) + multiset(sorted[n..]);
    forall j | 0 <= j < n
      ensures sorted[j] in r
    {
      assert r[j] == sorted[j];
    }
    forall x, y | x in sorted && x !in r && y in r
      ensures PaymentAt(tz, zone, y) <= PaymentAt(tz, zone, x)
    {
      var j :| 0 <= j < |sorted| && sorted[j] == x;
      var i :| 0 <= i < |r| && r[i] == y;
      assert sorted[i] == y;
    }
  }

  /** The first rows of a sorted permutation of `kept`, with everything the upcoming list promises. */
  lemma TakeEarliest(tz: TzDb, zone: string, kept: seq<Subscription>, sorted: seq<Subscription>, n: nat)
    requires SortedByPayment(tz, zone, sorted) && multiset(sorted) == multiset(kept)
    requires n == Min(UpcomingCount, |sorted|)
    ensures |sorted[..n]| == Min(UpcomingCount, |kept|)
    ensures SortedByPayment(tz, zone, sorted[..n])
    ensures multiset(sorted[..n]) <= multiset(kept)
    ensures forall x :: x in sorted[..n] ==> x in kept
    ensures forall x, y :: x in kept && x !in sorted[..n] && y in sorted[..n] ==>
      PaymentAt(tz, zone, y) <= PaymentAt(tz, zone, x)
  {
    SortedPrefix(tz, zone, sorted, n);
    assert |sorted| == |kept| by {
      assert |multiset(sorted)| == |multiset(kept)|;
    }
    forall x | x in sorted[..n]
      ensures x in kept
    {
      assert x in multiset(sorted[..n]);
    }
    forall x | x in kept
      ensures x in sorted
    {
      assert x in multiset(sorted);
    }
  }

  /**
   The upcoming list: the rows not yet past, sorted by payment instant, at
   most five of them, and no row left out is earlier than one kept.
   */
  function Upcoming(tz: TzDb, zone: string, subs: seq<Subscription>, now: Millis): (r: seq<Subscription>)
    ensures |r| == Min(UpcomingCount, |NotPast(tz, zone, subs, now)|)
    ensures forall x :: x in r ==> x in subs && PaymentAt(tz, zone, x) >= now
    ensures SortedByPayment(tz, zone, r)
    ensures multiset(r) <= multiset(NotPast(tz, zone, subs, now))
    ensures forall x, y :: x in NotPast(tz, zone, subs, now) && x !in r && y in r ==>
      PaymentAt(tz, zone, y) <= PaymentAt(tz, zone, x)
  {
    var kept := NotPast(tz, zone, subs, now);
    var sorted := SortByPayment(tz, zone, kept);
    var n := Min(UpcomingCount, |sorted|);
    TakeEarliest(tz, zone, kept, sorted, n);
    sorted[..n]
  }

  /**
   In a zone the time-zone database knows, ascending payment instants are
   ascending payment dates: no upcoming row is dated after a later one.
   */
  lemma UpcomingInDateOrder(tz: TzDb, zone: string, subs: seq<Subscription>, now: Millis)
    requires Sound(tz) && tz.knows(zone)
    requires forall i :: 0 <= i < |subs| ==> ValidDate(subs[i].nextPaymentDate)
    ensures var r := Upcoming(tz, zone, subs, now);
      forall i, j :: 0 <= i < j < |r| ==> !Before(r[j].nextPaymentDate, r[i].nextPaymentDate)
  {
    var r := Upcoming(tz, zone, subs, now);
    forall i, j | 0 <= i < j < |r|
      ensures !Before(r[j].nextPaymentDate, r[i].nextPaymentDate)
    {
      assert r[i] in subs && r[j] in subs;
      assert PaymentAt(tz, zone, r[i]) <= PaymentAt(tz, zone, r[j]);
    }
  }

  /** The figures of `fetchDashboardData` from the fetched rows; the rounding to cents is not modelled. */
  method DashboardFigures(tz: TzDb, zone: string, subs: seq<Subscription>, now: Millis)
    returns (totalMonthlySpend: real, upcoming: seq<Subscription>)
    ensures totalMonthlySpend == Spend(subs)
    ensures upcoming == Upcoming(tz, zone, subs, now)
  {
    totalMonthlySpend := MonthlySpend(subs);
    upcoming := Upcoming(tz, zone, subs, now);
  }
}
