/**
 The pending notification rows the schedulers write: the renewal pass of the
 dispatcher and the create and update handlers all build the same payload
 shape (recipient, title, body) and differ in the body text and in whether
 `next_attempt_at` is set.
 */
module Reminders {
  import opened Wrappers
  import opened Calendar
  import opened Text
  import opened TimeZones
  import opened Tables

  /**
   The title prefix. The source text holds the three characters U+00E2 U+20AC
   U+201D here (an em dash whose UTF-8 bytes were read as Windows-1252), and
   that is what is stored.
   */
  const TitlePrefix: string := "Subscription renewal " + ['\U{00E2}', '\U{20AC}', '\U{201D}'] + " "

  /** The reminder title: the fixed prefix, then the subscription's name. */
  function ReminderTitle(name: string): (r: string)
    ensures TitlePrefix <= r && r[|TitlePrefix|..] == name
  {
    TitlePrefix + name
  }

  /** `toISODate()` / the text of a `date` column: YYYY-MM-DD. */
  function IsoDate(d: Date): string {
    var day := PadZeros(IntToString(d.day), 2);
    PadZeros(IntToString(d.year), 4) + "-" + PadZeros(IntToString(d.month), 2) + "-" + day
  }

  /** The body written by the renewal pass and the create handler: the date and the zone. */
  function ZonedBody(name: string, d: Date, zone: string): string {
    name + " renews on " + IsoDate(d) + " (" + zone + ")"
  }

  /** The body written by the update handler: the date only. */
  function PlainBody(name: string, d: Date): string {
    name + " renews on " + IsoDate(d)
  }

  /** `payload_json` of a scheduled reminder: sent `to` the owner, who is also `user_id`. */
  function ReminderPayload(user: UserId, title: string, body: string): (p: Payload)
    ensures p.to == user && p.userId == user && p.chatId == ""
    ensures p.title == title && p.body == body && p.metaUrl == ""
  {
    Payload("", user, user, title, "", body, "", "")
  }

  /** A fresh pending row; `nextAttemptAt` is what the dispatcher's due query reads. */
  function PendingRow(sub: SubId, user: UserId, title: string, body: string,
                      scheduledAt: Option<Millis>, nextAttemptAt: Option<Millis>): (n: Notification)
    ensures n.status == Pending && n.subscriptionId == sub
    ensures n.scheduledAt == scheduledAt && n.nextAttemptAt == nextAttemptAt
    ensures n.sentAt == None && n.lastError == None
  {
    Notification(sub, scheduledAt, Pending, ReminderPayload(user, title, body), nextAttemptAt, None, None)
  }

  /** The rows the dispatcher hands to the worker: pending, with `next_attempt_at <= now` (NULL never matches). */
  predicate DueForDispatch(n: Notification, now: Millis) {
    n.status == Pending && n.nextAttemptAt.Some? && n.nextAttemptAt.value <= now
  }

  /** The rows the batch sender processes: pending, with `scheduled_at <= now`. */
  predicate DueForBatch(n: Notification, now: Millis) {
    n.status == Pending && n.scheduledAt.Some? && n.scheduledAt.value <= now
  }
}
