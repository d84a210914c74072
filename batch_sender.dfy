/**
 The older batch sender: every pending notification whose `scheduled_at` has
 passed gets exactly one POST to the notify endpoint, and ends `sent` or
 `failed` on that single attempt.
 */
module BatchSender {
  import opened Wrappers
  import opened Text
  import opened TimeZones
  import opened Tables
  import opened Requests
  import opened Reminders

  /** The per-row entry of the response's `results`. */
  datatype RowResult = RowResult(id: NotifId, sent: bool, error: string)

  /** `last_error` of a failed attempt: the HTTP status, or the thrown error's message. */
  function BatchError(o: SendOutcome): string
    requires !o.Accepted?
  {
    match o
    case Rejected(status, _) => "External API failed with status " + IntToString(status)
    case Threw(_, message, _) => "Fetch error: " + message
  }

  /**
   The row after its single attempt: `sent` with `sent_at` and a cleared
   error, or `failed` with the error. Failure is final here, since the
   sender only ever selects pending rows.
   */
  function BatchSettle(row: Notification, o: SendOutcome, now: Millis): (r: Notification)
    ensures r.status != Pending
    ensures r.status == Sent <==> o.Accepted?
    ensures o.Accepted? ==> r.sentAt == Some(now) && r.lastError == None
    ensures !o.Accepted? ==> r.lastError == Some(BatchError(o)) && r.sentAt == row.sentAt
    ensures r.subscriptionId == row.subscriptionId && r.payload == row.payload
    ensures r.scheduledAt == row.scheduledAt && r.nextAttemptAt == row.nextAttemptAt
  {
    if o.Accepted? then row.(status := Sent, sentAt := Some(now), lastError := None)
    else row.(status := Failed, lastError := Some(BatchError(o)))
  }

  function ResultOf(id: NotifId, o: SendOutcome): (r: RowResult)
    ensures r.id == id && (r.sent <==> o.Accepted?)
  {
    if o.Accepted? then RowResult(id, true, "") else RowResult(id, false, BatchError(o))
  }

  /** The rows the query `eq('status', 'pending').lte('scheduled_at', now)` returns, with no limit. */
  function BatchDue(m: map<NotifId, Notification>, now: Millis): set<NotifId> {
    set k | k in m && DueForBatch(m[k], now)
  }

  /** The table with the rows `ks` settled, each by its own outcome, and every other row as it was. */
  function SettleRows(m: map<NotifId, Notification>, ks: set<NotifId>, send: NotifId -> SendOutcome, now: Millis)
    : (r: map<NotifId, Notification>)
    ensures r.Keys == m.Keys
  {
    map k | k in m :: if k in ks then BatchSettle(m[k], send(k), now) else m[k]
  }

  /**
   The table after a run: each selected row settled by its own outcome, every
   other row as it was. It does not depend on the order the rows were sent in.
   */
  function AfterBatch(m: map<NotifId, Notification>, now: Millis, send: NotifId -> SendOutcome): (r: map<NotifId, Notification>)
    ensures r.Keys == m.Keys
  {
    SettleRows(m, BatchDue(m, now), send, now)
  }

  /**
   After a run no row is both pending and due any more, a `sent` row is left
   as it was (it is never sent twice), and no subscription gains a second
   pending row.
   */
  lemma AfterBatchSettles(m: map<NotifId, Notification>, now: Millis, send: NotifId -> SendOutcome)
    ensures forall k :: k in m ==> !DueForBatch(AfterBatch(m, now, send)[k], now)
    ensures forall k :: k in m && m[k].status == Sent ==> AfterBatch(m, now, send)[k] == m[k]
    ensures AtMostOnePending(m) ==> AtMostOnePending(AfterBatch(m, now, send))
  {
    var r := AfterBatch(m, now, send);
    forall k | k in m
      ensures !DueForBatch(r[k], now)
    {
      if !DueForBatch(m[k], now) {
        assert r[k] == m[k];
      }
    }
  }

  /**
   The per-row work: one POST for each selected row, then its status write.
   The rows are sent one after another here, where the source sends them
   all at once.
   */
  method SettleEach(db: Database, rows: seq<NotifId>, send: NotifId -> SendOutcome, now: Millis)
    returns (results: seq<RowResult>)
    requires db.Valid() && Distinct(rows)
    requires forall j :: 0 <= j < |rows| ==> rows[j] in db.notifications
    modifies db
    ensures db.Valid()
    ensures db.subscriptions == old(db.subscriptions) && db.contacts == old(db.contacts)
    ensures db.linkTokens == old(db.linkTokens)
    ensures db.nextSubId == old(db.nextSubId) && db.nextNotifId == old(db.nextNotifId)
    ensures db.notifications == SettleRows(old(db.notifications), set j | 0 <= j < |rows| :: rows[j], send, now)
    ensures |results| == |rows|
    ensures forall j :: 0 <= j < |rows| ==> results[j] == ResultOf(rows[j], send(rows[j]))
  {
    results := [];
    ghost var m0 := db.notifications;
    var i := 0;
    while i < |rows|
      invariant 0 <= i <= |rows|
      invariant db.Valid() && db.notifications.Keys == m0.Keys
      invariant db.subscriptions == old(db.subscriptions) && db.contacts == old(db.contacts)
      invariant db.linkTokens == old(db.linkTokens)
      invariant db.nextSubId == old(db.nextSubId) && db.nextNotifId == old(db.nextNotifId)
      invariant forall j :: 0 <= j < i ==> db.notifications[rows[j]] == BatchSettle(m0[rows[j]], send(rows[j]), now)
      invariant forall k :: k in m0 && (forall j :: 0 <= j < i ==> rows[j] != k) ==> db.notifications[k] == m0[k]
      invariant |results| == i
      invariant forall j :: 0 <= j < i ==> results[j] == ResultOf(rows[j], send(rows[j]))
    {
      var k := rows[i];
      var outcome := send(k);
      db.notifications := db.notifications[k := BatchSettle(db.notifications[k], outcome, now)];
      results := results + [ResultOf(k, outcome)];
      i := i + 1;
    }
    ghost var ks := set j | 0 <= j < |rows| :: rows[j];
    forall k | k in m0
      ensures db.notifications[k] == SettleRows(m0, ks, send, now)[k]
    {
      if k in ks {
        var j :| 0 <= j < |rows| && rows[j] == k;
      }
    }
  }

  /**
   The handler. `endpoint` is the configured notify URL ("" when unset),
   `queryFails` an error of the select, and `send(k)` what the POST for
   row `k` got back.
   */
  method SendBatch(db: Database, endpoint: string, queryFails: bool, send: NotifId -> SendOutcome, now: Millis)
    returns (resp: Response, results: seq<RowResult>)
    requires db.Valid()
    modifies db
    ensures db.Valid()
    ensures db.subscriptions == old(db.subscriptions) && db.contacts == old(db.contacts)
    ensures db.linkTokens == old(db.linkTokens)
    ensures db.nextSubId == old(db.nextSubId) && db.nextNotifId == old(db.nextNotifId)
    ensures endpoint == "" ==> resp == Response(500, "Notification endpoint not configured.")
    ensures endpoint != "" && queryFails ==> resp == Response(500, "Database query failed")
    ensures endpoint != "" && !queryFails && BatchDue(old(db.notifications), now) == {} ==>
      resp == Response(200, "No pending notifications found.")
    ensures endpoint == "" || queryFails || BatchDue(old(db.notifications), now) == {} ==>
      db.notifications == old(db.notifications) && results == []
    ensures endpoint != "" && !queryFails && BatchDue(old(db.notifications), now) != {} ==>
      var due := BatchDue(old(db.notifications), now);
      resp == Response(200, "Processed " + NatToString(|due|) + " notifications.") &&
      db.notifications == AfterBatch(old(db.notifications), now, send) &&
      |results| == |due| &&
      (forall j :: 0 <= j < |results| ==> results[j].id in due && results[j] == ResultOf(results[j].id, send(results[j].id))) &&
      (forall k :: k in due ==> exists j :: 0 <= j < |results| && results[j].id == k)
  {
    results := [];
    if endpoint == "" {
      return Response(500, "Notification endpoint not configured."), results;
    }
    if queryFails {
      return Response(500, "Database query failed"), results;
    }
    var due := BatchDue(db.notifications, now);
    if due == {} {
      return Response(200, "No pending notifications found."), results;
    }
    var rows := SelectAll(due);
    results := SettleEach(db, rows, send, now);
    assert (set j | 0 <= j < |rows| :: rows[j]) == due;
    assert forall j :: 0 <= j < |results| ==> results[j].id == rows[j];
    forall k | k in due
      ensures exists j :: 0 <= j < |results| && results[j].id == k
    {
      var j :| 0 <= j < |rows| && rows[j] == k;
      assert results[j].id == k;
    }
    resp := Response(200, "Processed " + NatToString(|due|) + " notifications.");
  }
}
