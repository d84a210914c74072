/**
 The update handler: validate the form, check that the caller owns the
 subscription, overwrite its editable columns, then replace its pending
 reminder with one that the dispatcher's due query never selects.
 */
module UpdateSubscription {
  import opened Wrappers
  import opened Calendar
  import opened TimeZones
  import opened Tables
  import opened Requests
  import opened Reminders

  /** The fields the update form must carry, in the order they are checked. */
  const Required: seq<string> :=
    ["id", "user_id", "name", "next_payment_date", "billing_cycle", "renewal_price", "currency", "notification_mode"]

  function Presence(f: SubscriptionForm): string -> bool {
    field => Present(f, field)
  }

  function Missing(f: SubscriptionForm): Option<string> {
    FirstMissing(Required, Presence(f))
  }

  /** The ownership query `eq('id', id).eq('created_by', user)` finds the row. */
  predicate Owns(subs: map<SubId, Subscription>, id: SubId, user: UserId) {
    id in subs && subs[id].createdBy == user
  }

  /**
   The updated row: the editable columns from the form, optional texts nulled
   when empty, the zone `timezone || 'UTC'` (a previous zone is not kept);
   `user_id` and `created_by` are left as they were.
   */
  function UpdatedRow(before: Subscription, f: SubscriptionForm): (s: Subscription)
    requires Missing(f).None?
    ensures s.createdBy == before.createdBy && s.userId == before.userId
    ensures s.timezone == ZoneOrUtc(f.timezone)
    ensures Some(s.nextPaymentDate) == f.nextPaymentDate && Some(s.renewalPrice) == f.renewalPrice
    ensures s.name == f.name && s.billingCycle == f.billingCycle && s.currency == f.currency
    ensures s.notificationMode == f.notificationMode
    ensures s.reminderOffset == Normalize(f.reminderOffset)
    ensures s.logoUrl == Normalize(f.logoUrl)
    ensures s.serviceUrl == Normalize(f.serviceUrl)
    ensures s.category == Normalize(f.category)
    ensures s.paymentMethod == Normalize(f.paymentMethod)
    ensures s.notes == Normalize(f.notes)
    ensures s.validUntil == Normalize(f.validUntil)
  {
    assert Present(f, Required[3]) && Present(f, Required[5]);
    before.(name := f.name, nextPaymentDate := f.nextPaymentDate.value, billingCycle := f.billingCycle,
            renewalPrice := f.renewalPrice.value, currency := f.currency, notificationMode := f.notificationMode,
            timezone := ZoneOrUtc(f.timezone), reminderOffset := Normalize(f.reminderOffset),
            logoUrl := Normalize(f.logoUrl), serviceUrl := Normalize(f.serviceUrl), category := Normalize(f.category),
            paymentMethod := Normalize(f.paymentMethod), notes := Normalize(f.notes), validUntil := Normalize(f.validUntil))
  }

  /**
   `scheduled_at` of the replacement reminder. With one of the four offsets
   it is local midnight minus the offset (null when the zone is unknown);
   otherwise the bare date text is stored, which the timestamp column reads
   as midnight UTC.
   */
  function UpdateSchedule(tz: TzDb, s: Subscription): (at: Option<Millis>)
    requires Sound(tz)
    ensures ShiftOf(s.reminderOffset) != NoShift ==>
      at == LocalReminder(tz, ZoneOrUtc(s.timezone), s.nextPaymentDate, s.reminderOffset)
    ensures ShiftOf(s.reminderOffset) == NoShift ==> at == Some(tz.midnight("UTC", s.nextPaymentDate))
  {
    if ShiftOf(s.reminderOffset) != NoShift then
      LocalReminder(tz, ZoneOrUtc(s.timezone), s.nextPaymentDate, s.reminderOffset)
    else Some(tz.midnight("UTC", s.nextPaymentDate))
  }

  /** The replacement reminder: pending, addressed to the caller, and without `next_attempt_at`. */
  function UpdateReminder(tz: TzDb, id: SubId, s: Subscription, user: UserId): (n: Notification)
    requires Sound(tz)
    ensures n.status == Pending && n.subscriptionId == id && n.nextAttemptAt.None?
    ensures n.scheduledAt == UpdateSchedule(tz, s)
    ensures n.payload.to == user && n.payload.title == ReminderTitle(s.name)
  {
    PendingRow(id, user, ReminderTitle(s.name), PlainBody(s.name, s.nextPaymentDate), UpdateSchedule(tz, s), None)
  }

  /**
   A reminder written by the update handler is never selected by the
   dispatcher, whatever the time: its `next_attempt_at` is NULL, and NULL
   never compares less than or equal to now.
   */
  lemma UpdateReminderNeverDispatched(tz: TzDb, id: SubId, s: Subscription, user: UserId, now: Millis)
    requires Sound(tz)
    ensures !DueForDispatch(UpdateReminder(tz, id, s, user), now)
  {
  }

  /**
   For a subscription whose offset is none, the update handler's reminder is
   due at midnight UTC of the payment date, whatever the subscription's
   zone, while the creation handler and the renewal pass use the zone's
   local midnight.
   */
  lemma NoOffsetIgnoresZone(tz: TzDb, id: SubId, s: Subscription, user: UserId)
    requires Sound(tz) && s.reminderOffset.None?
    ensures UpdateReminder(tz, id, s, user).scheduledAt == Some(tz.midnight("UTC", s.nextPaymentDate))
  {
  }

  /** A POST whose form is complete and whose caller owns the named subscription. */
  predicate Authorized(httpMethod: string, f: SubscriptionForm, subs: map<SubId, Subscription>, fetchFails: bool) {
    httpMethod == "POST" && Missing(f).None? && !fetchFails && f.id.Some? && Owns(subs, f.id.value, f.userId)
  }

  /** The update and the pending-reminder replacement of an authorised, valid form. */
  method Reschedule(db: Database, tz: TzDb, id: SubId, row: Subscription, user: UserId)
    requires db.Valid() && Sound(tz) && id in db.subscriptions && ValidDate(row.nextPaymentDate)
    modifies db
    ensures db.Valid()
    ensures db.contacts == old(db.contacts) && db.linkTokens == old(db.linkTokens)
    ensures db.subscriptions == old(db.subscriptions)[id := row]
    ensures db.notifications ==
      DropPending(old(db.notifications), id)[old(db.nextNotifId) := UpdateReminder(tz, id, row, user)]
    ensures PendingFor(db.notifications, id) == {old(db.nextNotifId)}
    ensures AtMostOnePending(old(db.notifications)) ==> AtMostOnePending(db.notifications)
  {
    db.UpdateSubscription(id, row);
    var reminder := UpdateReminder(tz, id, row, user);
    var k := db.ReplacePendingRow(id, reminder);
    ReplacePending(old(db.notifications), id, k, reminder);
  }

  /**
   The handler. `fetchFails` is an error of the ownership query and
   `updateFails` one of the update; the `date` column also rejects a date
   that does not exist.
   */
  method Update(db: Database, tz: TzDb, httpMethod: string, f: SubscriptionForm, fetchFails: bool, updateFails: bool)
    returns (resp: Response)
    requires db.Valid() && Sound(tz)
    modifies db
    ensures db.Valid()
    ensures db.contacts == old(db.contacts) && db.linkTokens == old(db.linkTokens)
    ensures httpMethod != "POST" ==> resp == MethodNotAllowed
    ensures httpMethod == "POST" && Missing(f).Some? ==>
      resp == Response(400, "Missing required field " + Missing(f).value)
    ensures httpMethod == "POST" && Missing(f).None? && !Authorized(httpMethod, f, old(db.subscriptions), fetchFails) ==>
      resp == Response(404, "Subscription not found or unauthorized.")
    ensures Authorized(httpMethod, f, old(db.subscriptions), fetchFails) && (updateFails || !DateValid(f)) ==>
      resp == Response(500, "Failed to update subscription")
    ensures resp.status != 200 ==>
      db.subscriptions == old(db.subscriptions) && db.notifications == old(db.notifications)
    ensures resp.status == 200 <==>
      Authorized(httpMethod, f, old(db.subscriptions), fetchFails) && !updateFails && DateValid(f)
    ensures resp.status == 200 ==>
      var id := f.id.value;
      var row := UpdatedRow(old(db.subscriptions[id]), f);
      db.subscriptions == old(db.subscriptions)[id := row] &&
      db.notifications == DropPending(old(db.notifications), id)[old(db.nextNotifId) := UpdateReminder(tz, id, row, f.userId)] &&
      PendingFor(db.notifications, id) == {old(db.nextNotifId)} &&
      (AtMostOnePending(old(db.notifications)) ==> AtMostOnePending(db.notifications))
  {
    if httpMethod != "POST" {
      return MethodNotAllowed;
    }
    var missing := ScanRequired(Required, Presence(f));
    if missing.Some? {
      return Response(400, "Missing required field " + missing.value);
    }
    assert Present(f, Required[0]);
    var id := f.id.value;
    if fetchFails || !Owns(db.subscriptions, id, f.userId) {
      return Response(404, "Subscription not found or unauthorized.");
    }
    var row := UpdatedRow(db.subscriptions[id], f);
    if updateFails || !DateValid(f) {
      return Response(500, "Failed to update subscription");
    }
    Reschedule(db, tz, id, row, f.userId);
    resp := Response(200, "");
  }
}
