/**
 The backup single sender: one POST of one notification to the notify
 endpoint, after which the row is `sent` or `failed`; a `sent` row is never
 sent again.
 */
module SingleSender {
  import opened Wrappers
  import opened Text
  import opened TimeZones
  import opened Tables
  import opened Requests

  /** The JSON body posted to the endpoint; `to` is null when the payload has none. */
  datatype NotifyBody = NotifyBody(
    to: Option<string>,
    subject: string,
    body: string,
    text: string,
    subscriptionId: SubId,
    notificationId: NotifId)

  /**
   The body built from a row: the subject is the title, and the text is the
   body, falling back to the title when the body is empty.
   */
  function BodyOf(id: NotifId, row: Notification): (b: NotifyBody)
    ensures b.to.None? <==> row.payload.to == ""
    ensures b.to.Some? ==> b.to.value == row.payload.to
    ensures b.subject == row.payload.title && b.body == row.payload.body
    ensures row.payload.body != "" ==> b.text == row.payload.body
    ensures row.payload.body == "" ==> b.text == row.payload.title
    ensures b.subscriptionId == row.subscriptionId && b.notificationId == id
  {
    var p := row.payload;
    NotifyBody(Normalize(p.to), p.title, p.body, if p.body != "" then p.body else p.title, row.subscriptionId, id)
  }

  /**
   The row after the one attempt. Success sets `sent` and `sent_at` but
   leaves `last_error` as it was; a thrown error stores `String(e)`, a
   non-2xx reply `http_<status>: <text>`.
   */
  function SingleSettle(row: Notification, o: SendOutcome, now: Millis): (r: Notification)
    ensures r.status != Pending
    ensures r.status == Sent <==> o.Accepted?
    ensures o.Accepted? ==> r.sentAt == Some(now) && r.lastError == row.lastError
    ensures o.Threw? ==> r.lastError == Some(ErrorString(o.name, o.message)) && r.sentAt == row.sentAt
    ensures o.Rejected? ==> r.lastError == Some("http_" + IntToString(o.status) + ": " + o.body) && r.sentAt == row.sentAt
    ensures r.subscriptionId == row.subscriptionId && r.payload == row.payload
    ensures r.scheduledAt == row.scheduledAt && r.nextAttemptAt == row.nextAttemptAt
  {
    match o
    case Accepted => row.(status := Sent, sentAt := Some(now))
    case Threw(name, message, _) => row.(status := Failed, lastError := Some(ErrorString(name, message)))
    case Rejected(status, text) => row.(status := Failed, lastError := Some("http_" + IntToString(status) + ": " + text))
  }

  /** The handler reaches the POST: a POST naming a stored, unsent row, with an endpoint configured. */
  predicate Sends(m: map<NotifId, Notification>, httpMethod: string, id: Option<NotifId>, fetchFails: bool, endpoint: string) {
    httpMethod == "POST" && id.Some? && !fetchFails && id.value in m && m[id.value].status != Sent && endpoint != ""
  }

  /**
   The handler. `fetchFails` is an error of the row query, `endpoint` the
   configured URL ("" when unset), and `outcome` what the POST got back;
   `outbox` holds the bodies posted.
   */
  method SendOne(db: Database, httpMethod: string, id: Option<NotifId>, fetchFails: bool, endpoint: string,
                 outcome: SendOutcome, now: Millis)
    returns (resp: Response, outbox: seq<NotifyBody>)
    requires db.Valid()
    modifies db
    ensures db.Valid()
    ensures db.subscriptions == old(db.subscriptions) && db.contacts == old(db.contacts)
    ensures db.linkTokens == old(db.linkTokens)
    ensures db.nextSubId == old(db.nextSubId) && db.nextNotifId == old(db.nextNotifId)
    ensures httpMethod != "POST" ==> resp == MethodNotAllowed
    ensures httpMethod == "POST" && id.None? ==> resp == Response(400, "notification_id required")
    ensures httpMethod == "POST" && id.Some? && (fetchFails || id.value !in old(db.notifications)) ==>
      resp == Response(500, "Failed to load notification")
    ensures httpMethod == "POST" && id.Some? && !fetchFails && id.value in old(db.notifications) &&
            old(db.notifications[id.value]).status == Sent ==>
      resp == Response(200, "already sent")
    ensures httpMethod == "POST" && id.Some? && !fetchFails && id.value in old(db.notifications) &&
            old(db.notifications[id.value]).status != Sent && endpoint == "" ==>
      resp == Response(500, "Notification endpoint not configured")
    ensures !Sends(old(db.notifications), httpMethod, id, fetchFails, endpoint) ==>
      db.notifications == old(db.notifications) && outbox == []
    ensures Sends(old(db.notifications), httpMethod, id, fetchFails, endpoint) ==>
      var k := id.value;
      outbox == [BodyOf(k, old(db.notifications[k]))] &&
      db.notifications == old(db.notifications)[k := SingleSettle(old(db.notifications[k]), outcome, now)] &&
      resp == (match outcome
               case Accepted => Response(200, "")
               case Threw(_, _, _) => Response(500, "Notify request failed")
               case Rejected(_, _) => Response(500, "notify returned non-200"))
  {
    outbox := [];
    if httpMethod != "POST" {
      return MethodNotAllowed, outbox;
    }
    if id.None? {
      return Response(400, "notification_id required"), outbox;
    }
    var k := id.value;
    // `.single()` reports a missing row as a query error, so the `!notif` 404 branch never runs.
    if fetchFails || k !in db.notifications {
      return Response(500, "Failed to load notification"), outbox;
    }
    var row := db.notifications[k];
    if row.status == Sent {
      return Response(200, "already sent"), outbox;
    }
    if endpoint == "" {
      return Response(500, "Notification endpoint not configured"), outbox;
    }
    outbox := [BodyOf(k, row)];
    db.notifications := db.notifications[k := SingleSettle(row, outcome, now)];
    match outcome
    case Accepted => resp := Response(200, "");
    case Threw(_, _, _) => resp := Response(500, "Notify request failed");
    case Rejected(_, _) => resp := Response(500, "notify returned non-200");
  }

  /**
   A sent row is final: a second call for it posts nothing and changes
   nothing, and a call never adds a second pending row for a subscription.
   */
  lemma SentIsFinal(m: map<NotifId, Notification>, k: NotifId, o: SendOutcome, now: Millis,
                    httpMethod: string, fetchFails: bool, endpoint: string)
    requires k in m
    ensures AtMostOnePending(m) ==> AtMostOnePending(m[k := SingleSettle(m[k], o, now)])
    ensures o.Accepted? ==> !Sends(m[k := SingleSettle(m[k], o, now)], httpMethod, Some(k), fetchFails, endpoint)
  {
    SettleKeepsAtMostOne(m, k, SingleSettle(m[k], o, now));
  }
}
