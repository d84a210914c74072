/**
 The creation handler: validate the form, insert the subscription with the
 owner's profile time zone, then insert its first pending reminder.
 */
module CreateSubscription {
  import opened Wrappers
  import opened Calendar
  import opened TimeZones
  import opened Tables
  import opened Requests
  import opened Reminders

  /** The fields the creation form must carry, in the order they are checked. */
  const Required: seq<string> :=
    ["name", "next_payment_date", "billing_cycle", "renewal_price", "currency", "notification_mode", "created_by"]

  /** The truthiness test of one form field, as a value the scan can take. */
  function Presence(f: SubscriptionForm): string -> bool {
    field => Present(f, field)
  }

  /** The first required field the form lacks, if any. */
  function Missing(f: SubscriptionForm): Option<string> {
    FirstMissing(Required, Presence(f))
  }

  /**
   `getUserTimezone`: the profile's zone; UTC when the lookup fails (`None`)
   or the stored zone is empty.
   */
  function UserTimezone(profile: Option<string>): (zone: string)
    ensures zone != ""
    ensures profile.Some? && profile.value != "" ==> zone == profile.value
    ensures profile.None? || profile.value == "" ==> zone == "UTC"
  {
    OrElse(profile, "UTC")
  }

  /**
   The row inserted: the form's values with every optional text nulled when
   empty, the profile zone, and `user_id` set to the form's `created_by`;
   `created_by` itself is not written, so the column default `owner` fills it.
   */
  function NewRow(f: SubscriptionForm, zone: string, owner: UserId): (s: Subscription)
    requires Missing(f).None?
    ensures s.userId == f.createdBy && s.createdBy == owner && s.timezone == zone
    ensures Some(s.nextPaymentDate) == f.nextPaymentDate && Some(s.renewalPrice) == f.renewalPrice
    ensures s.name == f.name && s.billingCycle == f.billingCycle && s.currency == f.currency
    ensures s.notificationMode == f.notificationMode
    ensures s.reminderOffset == Normalize(f.reminderOffset)
    ensures s.logoUrl == Normalize(f.logoUrl)
    ensures s.serviceUrl == Normalize(f.serviceUrl)
    ensures s.category == Normalize(f.category)
    ensures s.paymentMethod == Normalize(f.paymentMethod)
    ensures s.notes == Normalize(f.notes)
    ensures s.validUntil == Normalize(f.validUntil)
  {
    assert Present(f, Required[1]) && Present(f, Required[3]);
    Subscription(owner, f.createdBy, f.name, f.nextPaymentDate.value, f.billingCycle, f.renewalPrice.value,
                 f.currency, f.notificationMode, zone, Normalize(f.reminderOffset),
                 Normalize(f.logoUrl), Normalize(f.serviceUrl), Normalize(f.category),
                 Normalize(f.paymentMethod), Normalize(f.notes), Normalize(f.validUntil))
  }

  /**
   The first reminder of a new subscription: due at local midnight of the
   payment date in the subscription's zone minus the offset (null when the
   zone is unknown), with the first attempt at that same instant, sent to
   the user the form named.
   */
  function FirstReminder(tz: TzDb, id: SubId, s: Subscription): (n: Notification)
    requires Sound(tz)
    ensures n.status == Pending && n.subscriptionId == id && n.nextAttemptAt == n.scheduledAt
    ensures n.scheduledAt == LocalReminder(tz, ZoneOrUtc(s.timezone), s.nextPaymentDate, s.reminderOffset)
    ensures n.payload.to == s.userId && n.payload.title == ReminderTitle(s.name)
  {
    var zone := ZoneOrUtc(s.timezone);
    var at := LocalReminder(tz, zone, s.nextPaymentDate, s.reminderOffset);
    PendingRow(id, s.userId, ReminderTitle(s.name), ZonedBody(s.name, s.nextPaymentDate, zone), at, at)
  }

  /** A POST whose form carries every required field. */
  predicate Accepted(httpMethod: string, f: SubscriptionForm) {
    httpMethod == "POST" && Missing(f).None?
  }

  /**
   The two inserts of a valid form: the subscription row, then its first
   reminder, which is the only pending notification of the new id.
   */
  method InsertWithReminder(db: Database, tz: TzDb, row: Subscription) returns (id: SubId)
    requires db.Valid() && Sound(tz) && ValidDate(row.nextPaymentDate)
    modifies db
    ensures db.Valid()
    ensures db.contacts == old(db.contacts) && db.linkTokens == old(db.linkTokens)
    ensures id == old(db.nextSubId) && id !in old(db.subscriptions)
    ensures db.subscriptions == old(db.subscriptions)[id := row]
    ensures db.notifications == old(db.notifications)[old(db.nextNotifId) := FirstReminder(tz, id, row)]
    ensures PendingFor(db.notifications, id) == {old(db.nextNotifId)}
    ensures AtMostOnePending(old(db.notifications)) ==> AtMostOnePending(db.notifications)
  {
    id := db.InsertSubscription(row);
    var reminder := FirstReminder(tz, id, row);
    var k := db.InsertNotification(reminder);
    InsertFirstPending(old(db.notifications), id, k, reminder);
  }

  /**
   The handler. `profile` is what the profile lookup returned (None on an
   error), `owner` the `created_by` default, `insertFails` a database error
   on the insert; the `date` column also rejects a date that does not exist.
   */
  method Create(db: Database, tz: TzDb, httpMethod: string, f: SubscriptionForm, profile: Option<string>,
                owner: UserId, insertFails: bool)
    returns (resp: Response, created: Option<SubId>)
    requires db.Valid() && Sound(tz)
    modifies db
    ensures db.Valid()
    ensures db.contacts == old(db.contacts) && db.linkTokens == old(db.linkTokens)
    ensures httpMethod != "POST" ==> resp == MethodNotAllowed
    ensures httpMethod == "POST" && Missing(f).Some? ==> resp == Response(400, "Missing field " + Missing(f).value)
    ensures Accepted(httpMethod, f) && (insertFails || !DateValid(f)) ==>
      resp == Response(500, "Failed to insert subscription")
    ensures created.None? ==>
      db.subscriptions == old(db.subscriptions) && db.notifications == old(db.notifications)
    ensures created.Some? <==> Accepted(httpMethod, f) && !insertFails && DateValid(f)
    ensures created.Some? ==>
      var id := created.value;
      var row := NewRow(f, UserTimezone(profile), owner);
      resp == Response(201, "") && id == old(db.nextSubId) && id !in old(db.subscriptions) &&
      db.subscriptions == old(db.subscriptions)[id := row] &&
      db.notifications == old(db.notifications)[old(db.nextNotifId) := FirstReminder(tz, id, row)] &&
      PendingFor(db.notifications, id) == {old(db.nextNotifId)} &&
      (AtMostOnePending(old(db.notifications)) ==> AtMostOnePending(db.notifications))
  {
    created := None;
    if httpMethod != "POST" {
      return MethodNotAllowed, created;
    }
    var missing := ScanRequired(Required, Presence(f));
    if missing.Some? {
      return Response(400, "Missing field " + missing.value), created;
    }
    var row := NewRow(f, UserTimezone(profile), owner);
    if insertFails || !DateValid(f) {
      return Response(500, "Failed to insert subscription"), created;
    }
    var id := InsertWithReminder(db, tz, row);
    created := Some(id);
    resp := Response(201, "");
  }

  /**
   The worked case of the creation test: a form naming only its name stops
   at the second required field, `next_payment_date`.
   */
  lemma MissingDateFirst(f: SubscriptionForm)
    requires f.name != "" && f.nextPaymentDate.None?
    ensures Missing(f) == Some("next_payment_date")
  {
    assert Presence(f)(Required[0]) && !Presence(f)(Required[1]);
  }
}
