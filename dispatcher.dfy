/**
 The notification dispatcher: first the renewal pass, which advances overdue
 subscriptions and replaces each one's pending reminder, then the dispatch of
 due pending notifications to the Telegram worker.
 */
module Dispatcher {
  import opened Wrappers
  import opened Calendar
  import opened Text
  import opened TimeZones
  import opened BillingCycles
  import opened Tables
  import opened Requests
  import opened Reminders
  import opened TelegramWorker

  const RenewalBatch := 50
  const DispatchBatch := 100

  /**
   The overdue query `next_payment_date <= now`: the database compares the
   `date` column with the instant's UTC date, that is, the date's midnight in
   UTC with now.
   */
  predicate Overdue(tz: TzDb, s: Subscription, now: Millis) {
    tz.midnight("UTC", s.nextPaymentDate) <= now
  }

  /**
   `DateTime.fromISO(date, { zone: timezone || 'UTC' }).isValid`: the zone is
   known and the stored date is a real date.
   */
  predicate Renewable(tz: TzDb, s: Subscription) {
    tz.knows(ZoneOrUtc(s.timezone)) && ValidDate(s.nextPaymentDate)
  }

  /** The subscription with its payment date advanced to the first future occurrence. */
  function Renewed(tz: TzDb, s: Subscription, now: Millis): (r: Subscription)
    requires Sound(tz) && Renewable(tz, s)
    ensures r == s.(nextPaymentDate := r.nextPaymentDate) && ValidDate(r.nextPaymentDate)
    ensures KnownCycle(s.billingCycle) ==> now < tz.midnight(ZoneOrUtc(s.timezone), r.nextPaymentDate)
    ensures !KnownCycle(s.billingCycle) ==> r == s
  {
    s.(nextPaymentDate := FirstFuture(tz, ZoneOrUtc(s.timezone), s.billingCycle, s.nextPaymentDate, now))
  }

  /**
   The reminder the renewal pass inserts for a (renewed) subscription:
   pending, due at local midnight of the payment date minus the offset, with
   `next_attempt_at` equal to `scheduled_at`.
   */
  function RenewalRow(tz: TzDb, id: SubId, s: Subscription): (n: Notification)
    requires Sound(tz) && Renewable(tz, s)
    ensures n.status == Pending && n.subscriptionId == id
    ensures n.scheduledAt.Some? && n.nextAttemptAt == n.scheduledAt
    ensures n.scheduledAt.value == ReminderAt(tz, ZoneOrUtc(s.timezone), s.nextPaymentDate, ShiftOf(s.reminderOffset))
  {
    var zone := ZoneOrUtc(s.timezone);
    var at := LocalReminder(tz, zone, s.nextPaymentDate, s.reminderOffset);
    PendingRow(id, s.createdBy, ReminderTitle(s.name), ZonedBody(s.name, s.nextPaymentDate, zone), at, at)
  }

  /** The overdue query `lte('next_payment_date', today)`, before its `limit`. */
  function OverdueIds(tz: TzDb, subs: map<SubId, Subscription>, now: Millis): set<SubId> {
    set id | id in subs && Overdue(tz, subs[id], now)
  }

  /** The part of the store the renewal pass reads and writes, with the loop's `renewedCount`. */
  datatype RenewalState = RenewalState(
    subs: map<SubId, Subscription>,
    notifs: map<NotifId, Notification>,
    nextNotifId: NotifId,
    renewed: nat)

  ghost function State(db: Database, renewed: nat): RenewalState
    reads db
  {
    RenewalState(db.subscriptions, db.notifications, db.nextNotifId, renewed)
  }

  /** What the loop body writes for one subscription: its new payment date and its new reminder. */
  datatype Renewal = Renewal(date: Date, row: Notification)

  /**
   What the loop body would write for each row the query returned, computed
   from that row as read: only rows in a known zone whose update succeeds
   are written.
   */
  function Plan(tz: TzDb, now: Millis, subs: map<SubId, Subscription>, updateFails: set<SubId>): (plan: map<SubId, Renewal>)
    requires Sound(tz)
    ensures forall id :: id in plan <==> id in subs && Renewable(tz, subs[id]) && id !in updateFails
  {
    map id | id in subs && Renewable(tz, subs[id]) && id !in updateFails ::
      Renewal(Renewed(tz, subs[id], now).nextPaymentDate, RenewalRow(tz, id, Renewed(tz, subs[id], now)))
  }

  /** Each planned reminder is a pending row of its own subscription. */
  ghost predicate RowsOwned(plan: map<SubId, Renewal>) {
    forall id :: id in plan ==> plan[id].row.subscriptionId == id && plan[id].row.status == Pending
  }

  /**
   One pass of the loop body for subscription `id`: when it is planned,
   set its payment date, delete its pending rows, insert the new one and
   count it; otherwise change nothing.
   */
  ghost function RenewStep(st: RenewalState, id: SubId, plan: map<SubId, Renewal>): (r: RenewalState)
    ensures r.subs.Keys == st.subs.Keys && r.nextNotifId >= st.nextNotifId
  {
    if id in plan then
      RenewalState(
        if id in st.subs then st.subs[id := st.subs[id].(nextPaymentDate := plan[id].date)] else st.subs,
        DropPending(st.notifs, id)[st.nextNotifId := plan[id].row],
        st.nextNotifId + 1, st.renewed + 1)
    else st
  }

  /** The store after the loop body ran for the first `i` ids of the batch. */
  ghost function RenewPrefix(st: RenewalState, batch: seq<SubId>, i: nat, plan: map<SubId, Renewal>): (r: RenewalState)
    requires i <= |batch|
    ensures r.subs.Keys == st.subs.Keys && r.nextNotifId >= st.nextNotifId
  {
    if i == 0 then st else RenewStep(RenewPrefix(st, batch, i - 1, plan), batch[i - 1], plan)
  }

  /** One iteration of the renewal loop on the row `sub` the query returned for `id`, `renewedCount++` included. */
  method RenewOne(db: Database, tz: TzDb, now: Millis, ghost subs0: map<SubId, Subscription>, id: SubId,
                  sub: Subscription, updateFails: set<SubId>, count: nat)
    returns (count': nat)
    requires db.Valid() && Sound(tz) && id in subs0 && subs0[id] == sub && id in db.subscriptions
    modifies db
    ensures db.Valid()
    ensures State(db, count') == RenewStep(old(State(db, count)), id, Plan(tz, now, subs0, updateFails))
    ensures db.contacts == old(db.contacts) && db.linkTokens == old(db.linkTokens) && db.nextSubId == old(db.nextSubId)
  {
    count' := count;
    var zone := ZoneOrUtc(sub.timezone);
    if !tz.knows(zone) || !ValidDate(sub.nextPaymentDate) {
      return;
    }
    var next := NextPaymentDate(tz, zone, sub.billingCycle, sub.nextPaymentDate, now);
    if id in updateFails {
      return;
    }
    ghost var plan := Plan(tz, now, subs0, updateFails);
    var renewed := sub.(nextPaymentDate := next);
    var row := RenewalRow(tz, id, renewed);
    assert plan[id] == Renewal(next, row);
    db.UpdateSubscription(id, db.subscriptions[id].(nextPaymentDate := next));
    var _ := db.ReplacePendingRow(id, row);
    count' := count + 1;
  }

  /** The subscriptions of `batch` the renewal pass actually advanced. */
  ghost function RenewedIds(tz: TzDb, subs: map<SubId, Subscription>, batch: seq<SubId>, updateFails: set<SubId>): set<SubId> {
    set id | id in batch && id in subs && Renewable(tz, subs[id]) && id !in updateFails
  }

  /** After a delete-then-insert for `sub`, the pending rows of every other subscription are as before. */
  lemma PendingElsewhere(m: map<NotifId, Notification>, sub: SubId, k: NotifId, row: Notification, other: SubId)
    requires k !in m && row.subscriptionId == sub && other != sub
    ensures PendingFor(DropPending(m, sub)[k := row], other) == PendingFor(m, other)
  {
  }

  /** The first `i` steps advance exactly the planned subscriptions among the first `i` ids. */
  lemma {:induction false} PrefixSubs(st0: RenewalState, batch: seq<SubId>, i: nat, plan: map<SubId, Renewal>)
    requires i <= |batch|
    ensures forall id :: id in st0.subs ==>
      RenewPrefix(st0, batch, i, plan).subs[id] ==
        if id in Chosen(batch, plan.Keys, i) then st0.subs[id].(nextPaymentDate := plan[id].date) else st0.subs[id]
  {
    if i > 0 {
      PrefixSubs(st0, batch, i - 1, plan);
      ChosenStep(batch, plan.Keys, i - 1);
    }
  }

  /** The counter counts the planned ids met so far. */
  lemma {:induction false} PrefixCount(st0: RenewalState, batch: seq<SubId>, i: nat, plan: map<SubId, Renewal>)
    requires i <= |batch|
    ensures RenewPrefix(st0, batch, i, plan).renewed == st0.renewed + CountChosen(batch, plan.Keys, i)
  {
    if i > 0 {
      PrefixCount(st0, batch, i - 1, plan);
      ChosenStep(batch, plan.Keys, i - 1);
    }
  }

  /** Every notification id is below the next id to hand out. */
  ghost predicate Fresh(st: RenewalState) {
    forall k :: k in st.notifs ==> k < st.nextNotifId
  }

  /** The loop keeps notification ids below the next id to hand out. */
  lemma {:induction false} PrefixFresh(st0: RenewalState, batch: seq<SubId>, i: nat, plan: map<SubId, Renewal>)
    requires i <= |batch| && Fresh(st0)
    ensures Fresh(RenewPrefix(st0, batch, i, plan))
  {
    if i > 0 {
      PrefixFresh(st0, batch, i - 1, plan);
      var prev := RenewPrefix(st0, batch, i - 1, plan);
      var id := batch[i - 1];
      if id in plan {
        assert forall k :: k in DropPending(prev.notifs, id) ==> k in prev.notifs;
      }
    }
  }

  /** Each subscription renewed so far has exactly one pending notification: its planned reminder. */
  lemma {:induction false} PrefixPending(st0: RenewalState, batch: seq<SubId>, i: nat, plan: map<SubId, Renewal>)
    requires i <= |batch| && RowsOwned(plan)
    requires Fresh(st0)
    ensures var st := RenewPrefix(st0, batch, i, plan);
      forall id :: id in Chosen(batch, plan.Keys, i) ==>
        exists k :: PendingFor(st.notifs, id) == {k} && k in st.notifs && st.notifs[k] == plan[id].row
  {
    if i > 0 {
      PrefixPending(st0, batch, i - 1, plan);
      PrefixFresh(st0, batch, i - 1, plan);
      ChosenStep(batch, plan.Keys, i - 1);
      var prev := RenewPrefix(st0, batch, i - 1, plan);
      var st := RenewPrefix(st0, batch, i, plan);
      var id := batch[i - 1];
      if id in plan {
        ReplacePending(prev.notifs, id, prev.nextNotifId, plan[id].row);
        forall x | x in Chosen(batch, plan.Keys, i)
          ensures exists k :: PendingFor(st.notifs, x) == {k} && k in st.notifs && st.notifs[k] == plan[x].row
        {
          if x == id {
            assert prev.nextNotifId in PendingFor(st.notifs, x);
          } else {
            var k :| PendingFor(prev.notifs, x) == {k} && k in prev.notifs && prev.notifs[k] == plan[x].row;
            PendingElsewhere(prev.notifs, id, prev.nextNotifId, plan[id].row, x);
            assert k in PendingFor(prev.notifs, x);
          }
        }
      }
    }
  }

  /**
   Rows of subscriptions not renewed so far, and rows that are no longer
   pending, are left as they were; every new row belongs to a renewed
   subscription.
   */
  lemma {:induction false} PrefixKeeps(st0: RenewalState, batch: seq<SubId>, i: nat, plan: map<SubId, Renewal>)
    requires i <= |batch| && RowsOwned(plan)
    requires Fresh(st0)
    ensures var st := RenewPrefix(st0, batch, i, plan);
      forall k :: k in st0.notifs && st0.notifs[k].subscriptionId !in Chosen(batch, plan.Keys, i) ==>
        k in st.notifs && st.notifs[k] == st0.notifs[k]
    ensures var st := RenewPrefix(st0, batch, i, plan);
      forall k :: k in st0.notifs && st0.notifs[k].status != Pending ==> k in st.notifs && st.notifs[k] == st0.notifs[k]
    ensures var st := RenewPrefix(st0, batch, i, plan);
      forall k :: k in st.notifs && k !in st0.notifs ==> st.notifs[k].subscriptionId in Chosen(batch, plan.Keys, i)
  {
    if i > 0 {
      PrefixKeeps(st0, batch, i - 1, plan);
      ChosenStep(batch, plan.Keys, i - 1);
    }
  }

  /** No subscription gains a second pending notification. */
  lemma {:induction false} PrefixAtMostOne(st0: RenewalState, batch: seq<SubId>, i: nat, plan: map<SubId, Renewal>)
    requires i <= |batch| && RowsOwned(plan) && AtMostOnePending(st0.notifs)
    requires Fresh(st0)
    ensures AtMostOnePending(RenewPrefix(st0, batch, i, plan).notifs)
  {
    if i > 0 {
      PrefixAtMostOne(st0, batch, i - 1, plan);
      PrefixFresh(st0, batch, i - 1, plan);
      var prev := RenewPrefix(st0, batch, i - 1, plan);
      var id := batch[i - 1];
      if id in plan {
        ReplacePending(prev.notifs, id, prev.nextNotifId, plan[id].row);
      }
    }
  }

  /** The planned subscriptions met in the whole batch are the renewed ones. */
  lemma RenewedArePlanned(tz: TzDb, now: Millis, subs: map<SubId, Subscription>, batch: seq<SubId>, updateFails: set<SubId>)
    requires Sound(tz)
    ensures Chosen(batch, Plan(tz, now, subs, updateFails).Keys, |batch|) == RenewedIds(tz, subs, batch, updateFails)
  {
    ChosenIsPrefix(batch, Plan(tz, now, subs, updateFails).Keys, |batch|);
    assert batch[..|batch|] == batch;
  }

  /** The plan's reminders are pending rows of their own subscriptions. */
  lemma PlanRowsOwned(tz: TzDb, now: Millis, subs: map<SubId, Subscription>, updateFails: set<SubId>)
    requires Sound(tz)
    ensures RowsOwned(Plan(tz, now, subs, updateFails))
  {
  }

  /**
   What the renewal pass writes, for a batch without repeats: the counter is
   the number of renewed subscriptions; exactly those are advanced to their
   first future payment date; and each of them has exactly one pending
   reminder, the one for its new date.
   */
  lemma RenewalWrites(tz: TzDb, now: Millis, st0: RenewalState, batch: seq<SubId>, updateFails: set<SubId>)
    requires Sound(tz) && Distinct(batch)
    requires Fresh(st0)
    ensures var st := RenewPrefix(st0, batch, |batch|, Plan(tz, now, st0.subs, updateFails));
      st.renewed == st0.renewed + |RenewedIds(tz, st0.subs, batch, updateFails)|
    ensures var st := RenewPrefix(st0, batch, |batch|, Plan(tz, now, st0.subs, updateFails));
      forall id :: id in st0.subs ==>
        st.subs[id] == if id in RenewedIds(tz, st0.subs, batch, updateFails)
                       then Renewed(tz, st0.subs[id], now) else st0.subs[id]
    ensures var st := RenewPrefix(st0, batch, |batch|, Plan(tz, now, st0.subs, updateFails));
      forall id :: id in RenewedIds(tz, st0.subs, batch, updateFails) ==>
        exists k :: PendingFor(st.notifs, id) == {k} && k in st.notifs &&
                    st.notifs[k] == RenewalRow(tz, id, Renewed(tz, st0.subs[id], now))
  {
    var plan := Plan(tz, now, st0.subs, updateFails);
    PlanRowsOwned(tz, now, st0.subs, updateFails);
    RenewedArePlanned(tz, now, st0.subs, batch, updateFails);
    PrefixCount(st0, batch, |batch|, plan);
    CountChosenIsSize(batch, plan.Keys, |batch|);
    PrefixSubs(st0, batch, |batch|, plan);
    PrefixPending(st0, batch, |batch|, plan);
  }

  /**
   What the renewal pass leaves alone: the notifications of subscriptions it
   did not renew, and every sent or failed row; every new row belongs to a
   renewed subscription, and no subscription gains a second pending reminder.
   */
  lemma RenewalKeeps(tz: TzDb, now: Millis, st0: RenewalState, batch: seq<SubId>, updateFails: set<SubId>)
    requires Sound(tz)
    requires Fresh(st0)
    ensures var st := RenewPrefix(st0, batch, |batch|, Plan(tz, now, st0.subs, updateFails));
      forall k :: k in st0.notifs && st0.notifs[k].subscriptionId !in RenewedIds(tz, st0.subs, batch, updateFails) ==>
        k in st.notifs && st.notifs[k] == st0.notifs[k]
    ensures var st := RenewPrefix(st0, batch, |batch|, Plan(tz, now, st0.subs, updateFails));
      forall k :: k in st0.notifs && st0.notifs[k].status != Pending ==> k in st.notifs && st.notifs[k] == st0.notifs[k]
    ensures var st := RenewPrefix(st0, batch, |batch|, Plan(tz, now, st0.subs, updateFails));
      forall k :: k in st.notifs && k !in st0.notifs ==>
        st.notifs[k].subscriptionId in RenewedIds(tz, st0.subs, batch, updateFails)
    ensures AtMostOnePending(st0.notifs) ==>
      AtMostOnePending(RenewPrefix(st0, batch, |batch|, Plan(tz, now, st0.subs, updateFails)).notifs)
  {
    var plan := Plan(tz, now, st0.subs, updateFails);
    PlanRowsOwned(tz, now, st0.subs, updateFails);
    RenewedArePlanned(tz, now, st0.subs, batch, updateFails);
    PrefixKeeps(st0, batch, |batch|, plan);
    if AtMostOnePending(st0.notifs) {
      PrefixAtMostOne(st0, batch, |batch|, plan);
    }
  }

  /**
   `handleSubscriptionRenewal`: take at most 50 overdue subscriptions and run
   the loop body on each row the query returned, in turn. A failed query
   renews nothing.
   */
  method RenewOverdue(db: Database, tz: TzDb, now: Millis, queryFails: bool, updateFails: set<SubId>)
    returns (renewedCount: nat, batch: seq<SubId>)
    requires db.Valid() && Sound(tz)
    modifies db
    ensures db.Valid()
    ensures db.contacts == old(db.contacts) && db.linkTokens == old(db.linkTokens) && db.nextSubId == old(db.nextSubId)
    ensures queryFails ==> batch == []
    ensures |batch| <= RenewalBatch && Distinct(batch)
    ensures forall i :: 0 <= i < |batch| ==> batch[i] in OverdueIds(tz, old(db.subscriptions), now)
    ensures !queryFails && |OverdueIds(tz, old(db.subscriptions), now)| <= RenewalBatch ==>
      forall id :: id in OverdueIds(tz, old(db.subscriptions), now) ==> id in batch
    ensures State(db, renewedCount) ==
      RenewPrefix(old(State(db, 0)), batch, |batch|, Plan(tz, now, old(db.subscriptions), updateFails))
    ensures forall k :: k in old(db.notifications) && old(db.notifications)[k].status == Sent ==>
      k in db.notifications && db.notifications[k] == old(db.notifications)[k]
    ensures AtMostOnePending(old(db.notifications)) ==> AtMostOnePending(db.notifications)
  {
    renewedCount, batch := 0, [];
    if queryFails {
      return;
    }
    var rows := db.subscriptions;
    batch := Select(OverdueIds(tz, rows, now), RenewalBatch);
    ghost var st0 := State(db, 0);
    ghost var plan := Plan(tz, now, rows, updateFails);
    var i := 0;
    while i < |batch|
      invariant 0 <= i <= |batch|
      invariant db.Valid()
      invariant db.contacts == old(db.contacts) && db.linkTokens == old(db.linkTokens) && db.nextSubId == old(db.nextSubId)
      invariant State(db, renewedCount) == RenewPrefix(st0, batch, i, plan)
    {
      var id := batch[i];
      renewedCount := RenewOne(db, tz, now, rows, id, rows[id], updateFails, renewedCount);
      i := i + 1;
    }
    RenewalKeeps(tz, now, st0, batch, updateFails);
  }

  /** The delivery the worker would make for row `k` of `m`. */
  function DeliveryFor(m: map<NotifId, Notification>, k: NotifId, contacts: seq<Contact>, lookupFails: bool,
                       net: NotifId -> nat -> SendOutcome): Delivery
    requires k in m
  {
    DeliveryOf(m[k].payload, contacts, lookupFails, net(k))
  }

  /** What the worker answers a POST for row `k` of `m`. */
  function JobReply(m: map<NotifId, Notification>, k: NotifId, fetchFails: bool, botToken: string,
                    contacts: seq<Contact>, lookupFails: bool, net: NotifId -> nat -> SendOutcome): Response {
    if fetchFails || k !in m then Response(500, "Failed to fetch notification")
    else if m[k].status == Sent then Response(200, "Notification already sent")
    else if botToken == "" then Response(500, "No telegram token configured")
    else if DeliveryFor(m, k, contacts, lookupFails, net).Delivered? then Response(200, "Notification sent via Telegram")
    else Response(500, "Telegram delivery failed")
  }

  /** The store after the worker handled row `k`: settled when it made an attempt, unchanged otherwise. */
  function JobStep(m: map<NotifId, Notification>, k: NotifId, fetchFails: set<NotifId>, botToken: string,
                   contacts: seq<Contact>, lookupFails: bool, net: NotifId -> nat -> SendOutcome, now: Millis)
    : (r: map<NotifId, Notification>)
    ensures r.Keys == m.Keys
  {
    if Attempts(m, "POST", Some(k), k in fetchFails, botToken)
    then m[k := Settle(m[k], DeliveryFor(m, k, contacts, lookupFails, net), now)]
    else m
  }

  /** The store after the worker handled the first `i` dispatched rows, one after the other. */
  function DispatchPrefix(m: map<NotifId, Notification>, dispatched: seq<NotifId>, i: nat, fetchFails: set<NotifId>,
                          botToken: string, contacts: seq<Contact>, lookupFails: bool,
                          net: NotifId -> nat -> SendOutcome, now: Millis): (r: map<NotifId, Notification>)
    requires i <= |dispatched|
    ensures r.Keys == m.Keys
  {
    if i == 0 then m
    else JobStep(DispatchPrefix(m, dispatched, i - 1, fetchFails, botToken, contacts, lookupFails, net, now),
                 dispatched[i - 1], fetchFails, botToken, contacts, lookupFails, net, now)
  }

  /** The ids the due query may return: pending rows with `next_attempt_at <= now`. */
  function DueIds(m: map<NotifId, Notification>, now: Millis): set<NotifId> {
    set k | k in m && DueForDispatch(m[k], now)
  }

  /** The rows of `m` on which the worker makes a delivery attempt. */
  function Tried(m: map<NotifId, Notification>, fetchFails: set<NotifId>, botToken: string): set<NotifId> {
    set k | k in m && k !in fetchFails && m[k].status != Sent && botToken != ""
  }

  /**
   For a hand-over without repeats, each row handled so far is settled with
   its own delivery when the worker attempts it, and every other row is as
   it was.
   */
  lemma {:induction false} DispatchPrefixRows(m: map<NotifId, Notification>, dispatched: seq<NotifId>, i: nat,
                                              fetchFails: set<NotifId>, botToken: string, contacts: seq<Contact>,
                                              lookupFails: bool, net: NotifId -> nat -> SendOutcome, now: Millis)
    requires i <= |dispatched| && Distinct(dispatched)
    ensures forall k :: k in m ==>
      DispatchPrefix(m, dispatched, i, fetchFails, botToken, contacts, lookupFails, net, now)[k] ==
        if k in Chosen(dispatched, Tried(m, fetchFails, botToken), i)
        then Settle(m[k], DeliveryFor(m, k, contacts, lookupFails, net), now) else m[k]
  {
    if i > 0 {
      DispatchPrefixRows(m, dispatched, i - 1, fetchFails, botToken, contacts, lookupFails, net, now);
      var tried := Tried(m, fetchFails, botToken);
      NotChosenYet(dispatched, tried, i - 1, i - 1);
      ChosenStep(dispatched, tried, i - 1);
    }
  }

  /** For a hand-over without repeats, the worker sees each row as it was before the hand-over began. */
  lemma ReplySeesOriginal(m: map<NotifId, Notification>, dispatched: seq<NotifId>, j: nat,
                          fetchFails: set<NotifId>, botToken: string, contacts: seq<Contact>,
                          lookupFails: bool, net: NotifId -> nat -> SendOutcome, now: Millis)
    requires j < |dispatched| && Distinct(dispatched) && dispatched[j] in m
    ensures DispatchPrefix(m, dispatched, j, fetchFails, botToken, contacts, lookupFails, net, now)[dispatched[j]] ==
            m[dispatched[j]]
  {
    DispatchPrefixRows(m, dispatched, j, fetchFails, botToken, contacts, lookupFails, net, now);
    NotChosenYet(dispatched, Tried(m, fetchFails, botToken), j, j);
  }

  /** `simulateWorkerCall`: the worker handler called directly with a POST naming row `k`. */
  method SimulateWorkerCall(db: Database, k: NotifId, fetchFails: set<NotifId>, botToken: string, lookupFails: bool,
                            net: NotifId -> nat -> SendOutcome, now: Millis)
    returns (reply: Response, sends: seq<Outbound>)
    requires db.Valid()
    modifies db
    ensures db.Valid()
    ensures db.subscriptions == old(db.subscriptions) && db.contacts == old(db.contacts)
    ensures db.linkTokens == old(db.linkTokens)
    ensures db.nextSubId == old(db.nextSubId) && db.nextNotifId == old(db.nextNotifId)
    ensures reply == JobReply(old(db.notifications), k, k in fetchFails, botToken, db.contacts, lookupFails, net)
    ensures db.notifications == JobStep(old(db.notifications), k, fetchFails, botToken, db.contacts, lookupFails, net, now)
  {
    reply, sends := HandleJob(db, "POST", Some(k), k in fetchFails, botToken, lookupFails, net(k), now);
  }

  /** What the worker answers for one due (hence pending) row, given its delivery. */
  function WorkerReply(fetchFails: bool, botToken: string, d: Delivery): Response {
    if fetchFails then Response(500, "Failed to fetch notification")
    else if botToken == "" then Response(500, "No telegram token configured")
    else if d.Delivered? then Response(200, "Notification sent via Telegram")
    else Response(500, "Telegram delivery failed")
  }

  /**
   The dispatch step: select at most 100 due rows and hand each one to the
   worker, in order.
   */
  method DispatchDue(db: Database, now: Millis, queryFails: bool, botToken: string, lookupFails: bool,
                     fetchFails: set<NotifId>, net: NotifId -> nat -> SendOutcome)
    returns (dispatched: seq<NotifId>, results: seq<Response>, outbox: seq<Outbound>)
    requires db.Valid()
    modifies db
    ensures db.Valid()
    ensures db.subscriptions == old(db.subscriptions) && db.contacts == old(db.contacts)
    ensures db.linkTokens == old(db.linkTokens)
    ensures db.nextSubId == old(db.nextSubId) && db.nextNotifId == old(db.nextNotifId)
    ensures queryFails ==> dispatched == []
    ensures |dispatched| <= DispatchBatch && Distinct(dispatched) && |results| == |dispatched|
    ensures forall i :: 0 <= i < |dispatched| ==> dispatched[i] in DueIds(old(db.notifications), now)
    ensures !queryFails && |DueIds(old(db.notifications), now)| <= DispatchBatch ==>
      forall k :: k in DueIds(old(db.notifications), now) ==> k in dispatched
    ensures db.notifications ==
      DispatchPrefix(old(db.notifications), dispatched, |dispatched|, fetchFails, botToken, db.contacts, lookupFails, net, now)
    ensures forall j :: 0 <= j < |dispatched| ==>
      var m := DispatchPrefix(old(db.notifications), dispatched, j, fetchFails, botToken, db.contacts, lookupFails, net, now);
      results[j] == JobReply(m, dispatched[j], dispatched[j] in fetchFails, botToken, db.contacts, lookupFails, net)
  {
    dispatched, results, outbox := [], [], [];
    if queryFails {
      return;
    }
    dispatched := Select(DueIds(db.notifications, now), DispatchBatch);
    results, outbox := HandOver(db, dispatched, now, botToken, lookupFails, fetchFails, net);
  }

  /** Each answer so far is the worker's reply to its row, in the store as the earlier calls left it. */
  ghost predicate Replied(m: map<NotifId, Notification>, dispatched: seq<NotifId>, results: seq<Response>,
                          fetchFails: set<NotifId>, botToken: string, contacts: seq<Contact>, lookupFails: bool,
                          net: NotifId -> nat -> SendOutcome, now: Millis)
  {
    |results| <= |dispatched| &&
    forall j :: 0 <= j < |results| ==>
      results[j] == JobReply(DispatchPrefix(m, dispatched, j, fetchFails, botToken, contacts, lookupFails, net, now),
                             dispatched[j], dispatched[j] in fetchFails, botToken, contacts, lookupFails, net)
  }

  lemma RepliedExtend(m: map<NotifId, Notification>, dispatched: seq<NotifId>, results: seq<Response>, reply: Response,
                      fetchFails: set<NotifId>, botToken: string, contacts: seq<Contact>, lookupFails: bool,
                      net: NotifId -> nat -> SendOutcome, now: Millis)
    requires Replied(m, dispatched, results, fetchFails, botToken, contacts, lookupFails, net, now)
    requires |results| < |dispatched|
    requires reply == JobReply(DispatchPrefix(m, dispatched, |results|, fetchFails, botToken, contacts, lookupFails, net, now),
                               dispatched[|results|], dispatched[|results|] in fetchFails, botToken, contacts, lookupFails, net)
    ensures Replied(m, dispatched, results + [reply], fetchFails, botToken, contacts, lookupFails, net, now)
  {
    var r := results + [reply];
    forall j | 0 <= j < |r|
      ensures r[j] == JobReply(DispatchPrefix(m, dispatched, j, fetchFails, botToken, contacts, lookupFails, net, now),
                               dispatched[j], dispatched[j] in fetchFails, botToken, contacts, lookupFails, net)
    {
      if j < |results| {
        assert r[j] == results[j];
      }
    }
  }

  /** The `Promise.all` over the selected rows, taken one worker call at a time. */
  method HandOver(db: Database, dispatched: seq<NotifId>, now: Millis, botToken: string, lookupFails: bool,
                  fetchFails: set<NotifId>, net: NotifId -> nat -> SendOutcome)
    returns (results: seq<Response>, outbox: seq<Outbound>)
    requires db.Valid()
    modifies db
    ensures db.Valid()
    ensures db.subscriptions == old(db.subscriptions) && db.contacts == old(db.contacts)
    ensures db.linkTokens == old(db.linkTokens)
    ensures db.nextSubId == old(db.nextSubId) && db.nextNotifId == old(db.nextNotifId)
    ensures |results| == |dispatched|
    ensures db.notifications ==
      DispatchPrefix(old(db.notifications), dispatched, |dispatched|, fetchFails, botToken, db.contacts, lookupFails, net, now)
    ensures forall j :: 0 <= j < |dispatched| ==>
      var m := DispatchPrefix(old(db.notifications), dispatched, j, fetchFails, botToken, db.contacts, lookupFails, net, now);
      results[j] == JobReply(m, dispatched[j], dispatched[j] in fetchFails, botToken, db.contacts, lookupFails, net)
  {
    results, outbox := [], [];
    var i := 0;
    while i < |dispatched|
      invariant 0 <= i <= |dispatched| && |results| == i
      invariant db.Valid()
      invariant db.subscriptions == old(db.subscriptions) && db.contacts == old(db.contacts)
      invariant db.linkTokens == old(db.linkTokens)
      invariant db.nextSubId == old(db.nextSubId) && db.nextNotifId == old(db.nextNotifId)
      invariant db.notifications ==
        DispatchPrefix(old(db.notifications), dispatched, i, fetchFails, botToken, db.contacts, lookupFails, net, now)
      invariant Replied(old(db.notifications), dispatched, results, fetchFails, botToken, db.contacts, lookupFails, net, now)
    {
      var k := dispatched[i];
      var reply, sends := SimulateWorkerCall(db, k, fetchFails, botToken, lookupFails, net, now);
      RepliedExtend(old(db.notifications), dispatched, results, reply, fetchFails, botToken, db.contacts, lookupFails, net, now);
      results := results + [reply];
      outbox := outbox + sends;
      i := i + 1;
    }
  }

  /**
   What the hand-over does, for rows the due query returned: each
   dispatched row leaves `pending`, settled with its own delivery, unless its
   fetch failed or no bot token is set; every other row is untouched; and the
   worker's answer for each is the one for a pending row.
   */
  lemma DispatchOutcome(m: map<NotifId, Notification>, dispatched: seq<NotifId>, now: Millis,
                        fetchFails: set<NotifId>, botToken: string, contacts: seq<Contact>,
                        lookupFails: bool, net: NotifId -> nat -> SendOutcome)
    requires Distinct(dispatched)
    requires forall i :: 0 <= i < |dispatched| ==> dispatched[i] in m && DueForDispatch(m[dispatched[i]], now)
    ensures forall k :: k in m ==>
      DispatchPrefix(m, dispatched, |dispatched|, fetchFails, botToken, contacts, lookupFails, net, now)[k] ==
        if k in dispatched && k !in fetchFails && botToken != ""
        then Settle(m[k], DeliveryFor(m, k, contacts, lookupFails, net), now) else m[k]
    ensures forall j :: 0 <= j < |dispatched| ==>
      var mj := DispatchPrefix(m, dispatched, j, fetchFails, botToken, contacts, lookupFails, net, now);
      JobReply(mj, dispatched[j], dispatched[j] in fetchFails, botToken, contacts, lookupFails, net) ==
      WorkerReply(dispatched[j] in fetchFails, botToken, DeliveryFor(m, dispatched[j], contacts, lookupFails, net))
  {
    var tried := Tried(m, fetchFails, botToken);
    DispatchPrefixRows(m, dispatched, |dispatched|, fetchFails, botToken, contacts, lookupFails, net, now);
    ChosenIsPrefix(dispatched, tried, |dispatched|);
    assert dispatched[..|dispatched|] == dispatched;
    forall k | k in m
      ensures k in Chosen(dispatched, tried, |dispatched|) <==> k in dispatched && k !in fetchFails && botToken != ""
    {
      if k in dispatched {
        var j :| 0 <= j < |dispatched| && dispatched[j] == k;
        assert k in m && DueForDispatch(m[k], now);
      }
    }
    forall j | 0 <= j < |dispatched|
      ensures var mj := DispatchPrefix(m, dispatched, j, fetchFails, botToken, contacts, lookupFails, net, now);
        JobReply(mj, dispatched[j], dispatched[j] in fetchFails, botToken, contacts, lookupFails, net) ==
        WorkerReply(dispatched[j] in fetchFails, botToken, DeliveryFor(m, dispatched[j], contacts, lookupFails, net))
    {
      assert DueForDispatch(m[dispatched[j]], now);
      ReplySeesOriginal(m, dispatched, j, fetchFails, botToken, contacts, lookupFails, net, now);
    }
  }

  /** Settling rows never adds a pending row: every row the hand-over changes leaves `pending`. */
  lemma {:induction false} DispatchPrefixSettles(m: map<NotifId, Notification>, dispatched: seq<NotifId>, i: nat,
                                                 fetchFails: set<NotifId>, botToken: string, contacts: seq<Contact>,
                                                 lookupFails: bool, net: NotifId -> nat -> SendOutcome, now: Millis)
    requires i <= |dispatched|
    ensures forall k :: k in m ==>
      var r := DispatchPrefix(m, dispatched, i, fetchFails, botToken, contacts, lookupFails, net, now);
      r[k] == m[k] || r[k].status != Pending
    ensures AtMostOnePending(m) ==>
      AtMostOnePending(DispatchPrefix(m, dispatched, i, fetchFails, botToken, contacts, lookupFails, net, now))
  {
    if i > 0 {
      DispatchPrefixSettles(m, dispatched, i - 1, fetchFails, botToken, contacts, lookupFails, net, now);
      var prev := DispatchPrefix(m, dispatched, i - 1, fetchFails, botToken, contacts, lookupFails, net, now);
      var k := dispatched[i - 1];
      if Attempts(prev, "POST", Some(k), k in fetchFails, botToken) {
        SettleKeepsAtMostOne(prev, k, Settle(prev[k], DeliveryFor(prev, k, contacts, lookupFails, net), now));
      }
    }
  }

  /** The hand-over of due rows leaves sent rows as they were and adds no pending duplicate. */
  lemma DispatchKeeps(m: map<NotifId, Notification>, dispatched: seq<NotifId>, now: Millis,
                      fetchFails: set<NotifId>, botToken: string, contacts: seq<Contact>,
                      lookupFails: bool, net: NotifId -> nat -> SendOutcome)
    requires Distinct(dispatched)
    requires forall i :: 0 <= i < |dispatched| ==> dispatched[i] in m && DueForDispatch(m[dispatched[i]], now)
    ensures var r := DispatchPrefix(m, dispatched, |dispatched|, fetchFails, botToken, contacts, lookupFails, net, now);
      forall k :: k in m && m[k].status == Sent ==> k in r && r[k] == m[k]
    ensures AtMostOnePending(m) ==>
      AtMostOnePending(DispatchPrefix(m, dispatched, |dispatched|, fetchFails, botToken, contacts, lookupFails, net, now))
  {
    DispatchOutcome(m, dispatched, now, fetchFails, botToken, contacts, lookupFails, net);
    DispatchPrefixSettles(m, dispatched, |dispatched|, fetchFails, botToken, contacts, lookupFails, net, now);
    forall k | k in m && m[k].status == Sent
      ensures k !in dispatched
    {
      assert !DueForDispatch(m[k], now);
    }
  }

  /**
   The second half of the dispatcher endpoint: the due query, the hand-over
   and the response. At most 100 due rows are handed over, each once, and all
   of them when that many fit; the store afterwards is the worker's steps
   applied to them in order, and each answer is the worker's reply for a
   pending row. Sent rows are never touched, and no subscription gains a
   second pending reminder.
   */
  method DispatchPhase(db: Database, now: Millis, queryFails: bool, botToken: string, lookupFails: bool,
                       fetchFails: set<NotifId>, net: NotifId -> nat -> SendOutcome)
    returns (resp: Response, dispatched: seq<NotifId>, results: seq<Response>, outbox: seq<Outbound>)
    requires db.Valid()
    modifies db
    ensures db.Valid()
    ensures db.subscriptions == old(db.subscriptions) && db.contacts == old(db.contacts)
    ensures db.linkTokens == old(db.linkTokens)
    ensures db.nextSubId == old(db.nextSubId) && db.nextNotifId == old(db.nextNotifId)
    ensures queryFails ==> resp == Response(500, "Database query failed") && dispatched == []
    ensures !queryFails && results == [] ==> resp == Response(200, "No pending notifications found.")
    ensures results != [] ==> resp == Response(200, "Dispatched " + NatToString(|results|) + " notifications.")
    ensures |dispatched| <= DispatchBatch && Distinct(dispatched) && |results| == |dispatched|
    ensures forall i :: 0 <= i < |dispatched| ==> dispatched[i] in DueIds(old(db.notifications), now)
    ensures !queryFails && |DueIds(old(db.notifications), now)| <= DispatchBatch ==>
      forall k :: k in DueIds(old(db.notifications), now) ==> k in dispatched
    ensures db.notifications ==
      DispatchPrefix(old(db.notifications), dispatched, |dispatched|, fetchFails, botToken, db.contacts, lookupFails, net, now)
    ensures forall j :: 0 <= j < |dispatched| ==>
      results[j] == WorkerReply(dispatched[j] in fetchFails, botToken,
                                DeliveryFor(old(db.notifications), dispatched[j], db.contacts, lookupFails, net))
    ensures forall k :: k in old(db.notifications) && old(db.notifications)[k].status == Sent ==>
      k in db.notifications && db.notifications[k] == old(db.notifications)[k]
    ensures AtMostOnePending(old(db.notifications)) ==> AtMostOnePending(db.notifications)
  {
    dispatched, results, outbox := [], [], [];
    if queryFails {
      return Response(500, "Database query failed"), dispatched, results, outbox;
    }
    ghost var m := db.notifications;
    dispatched, results, outbox := DispatchDue(db, now, false, botToken, lookupFails, fetchFails, net);
    DispatchKeeps(m, dispatched, now, fetchFails, botToken, db.contacts, lookupFails, net);
    DispatchOutcome(m, dispatched, now, fetchFails, botToken, db.contacts, lookupFails, net);
    if results == [] {
      resp := Response(200, "No pending notifications found.");
    } else {
      resp := Response(200, "Dispatched " + NatToString(|results|) + " notifications.");
    }
  }

  /**
   The dispatcher endpoint (GET): the renewal pass over at most 50 overdue
   subscriptions, then the due query and the hand-over over the store the
   renewal left (`afterRenewal`). Sent rows are never touched, and no
   subscription ends up with a second pending reminder.
   */
  method Dispatch(db: Database, tz: TzDb, httpMethod: string, now: Millis,
                  renewalQueryFails: bool, updateFails: set<SubId>,
                  dueQueryFails: bool, botToken: string, lookupFails: bool,
                  fetchFails: set<NotifId>, net: NotifId -> nat -> SendOutcome)
    returns (resp: Response, renewed: nat, batch: seq<SubId>, dispatched: seq<NotifId>,
             results: seq<Response>, outbox: seq<Outbound>, ghost afterRenewal: RenewalState)
    requires db.Valid() && Sound(tz)
    modifies db
    ensures db.Valid()
    ensures db.contacts == old(db.contacts) && db.linkTokens == old(db.linkTokens)
    ensures httpMethod != "GET" ==> resp == MethodNotAllowed && batch == [] && dispatched == []
    ensures httpMethod != "GET" ==> db.subscriptions == old(db.subscriptions) && db.notifications == old(db.notifications)
    // the renewal pass
    ensures renewalQueryFails ==> batch == [] && renewed == 0
    ensures |batch| <= RenewalBatch && Distinct(batch)
    ensures forall i :: 0 <= i < |batch| ==> batch[i] in OverdueIds(tz, old(db.subscriptions), now)
    ensures httpMethod == "GET" && !renewalQueryFails && |OverdueIds(tz, old(db.subscriptions), now)| <= RenewalBatch ==>
      forall id :: id in OverdueIds(tz, old(db.subscriptions), now) ==> id in batch
    ensures afterRenewal ==
      RenewPrefix(old(State(db, 0)), batch, |batch|, Plan(tz, now, old(db.subscriptions), updateFails))
    ensures renewed == afterRenewal.renewed && db.subscriptions == afterRenewal.subs
    ensures db.nextNotifId == afterRenewal.nextNotifId
    // the dispatch, over the rows as the renewal left them
    ensures httpMethod == "GET" && dueQueryFails ==> resp == Response(500, "Database query failed") && dispatched == []
    ensures httpMethod == "GET" && !dueQueryFails && results == [] ==> resp == Response(200, "No pending notifications found.")
    ensures results != [] ==> resp == Response(200, "Dispatched " + NatToString(|results|) + " notifications.")
    ensures |dispatched| <= DispatchBatch && Distinct(dispatched) && |results| == |dispatched|
    ensures forall i :: 0 <= i < |dispatched| ==> dispatched[i] in DueIds(afterRenewal.notifs, now)
    ensures httpMethod == "GET" && !dueQueryFails && |DueIds(afterRenewal.notifs, now)| <= DispatchBatch ==>
      forall k :: k in DueIds(afterRenewal.notifs, now) ==> k in dispatched
    ensures db.notifications ==
      DispatchPrefix(afterRenewal.notifs, dispatched, |dispatched|, fetchFails, botToken, db.contacts, lookupFails, net, now)
    ensures forall j :: 0 <= j < |dispatched| ==>
      results[j] == WorkerReply(dispatched[j] in fetchFails, botToken,
                                DeliveryFor(afterRenewal.notifs, dispatched[j], db.contacts, lookupFails, net))
    ensures forall k :: k in old(db.notifications) && old(db.notifications)[k].status == Sent ==>
      k in db.notifications && db.notifications[k] == old(db.notifications)[k]
    ensures AtMostOnePending(old(db.notifications)) ==> AtMostOnePending(db.notifications)
  {
    renewed, batch, dispatched, results, outbox := 0, [], [], [], [];
    afterRenewal := State(db, 0);
    if httpMethod != "GET" {
      return MethodNotAllowed, renewed, batch, dispatched, results, outbox, afterRenewal;
    }
    renewed, batch := RenewOverdue(db, tz, now, renewalQueryFails, updateFails);
    afterRenewal := State(db, renewed);
    resp, dispatched, results, outbox := DispatchPhase(db, now, dueQueryFails, botToken, lookupFails, fetchFails, net);
  }
}
