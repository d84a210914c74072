/**
 The Telegram delivery worker: resolve a chat id for one notification, render
 its message, try the Telegram send up to three times within the call, and
 write the outcome (`sent` or `failed`) back onto the notification row.
 */
module TelegramWorker {
  import opened Wrappers
  import opened Text
  import opened TimeZones
  import opened Tables
  import opened Requests
  import opened Reminders

  /** One `sendMessage` request: the chat and the text. */
  datatype Outbound = Outbound(chatId: string, text: string)

  /** How a delivery ended: accepted on some attempt, no chat id, or three failed attempts. */
  datatype Delivery = Delivered(attempt: nat) | NoChatId | Exhausted(lastError: string)

  const NoChatIdError := "deliver_exception: no_chat_id_resolved"
  const DefaultMessage := "Subscription reminder"
  const MaxAttempts := 3

  /** The `contact_id` of a user's telegram row in user_contacts, if there is one. */
  function TelegramContact(contacts: seq<Contact>, user: UserId): (r: Option<string>)
    ensures r.Some? ==> exists i :: 0 <= i < |contacts| && contacts[i].userId == user &&
                          contacts[i].provider == "telegram" && contacts[i].contactId == r.value
    ensures r.None? ==> forall i :: 0 <= i < |contacts| ==>
                          !(contacts[i].userId == user && contacts[i].provider == "telegram")
    ensures UniqueContacts(contacts) ==>
      forall i :: 0 <= i < |contacts| && contacts[i].userId == user && contacts[i].provider == "telegram" ==>
        r == Some(contacts[i].contactId)
  {
    if |contacts| == 0 then None
    else if contacts[0].userId == user && contacts[0].provider == "telegram" then Some(contacts[0].contactId)
    else
      var r := TelegramContact(contacts[1..], user);
      assert forall i :: 1 <= i < |contacts| ==> contacts[i] == contacts[1..][i - 1];
      assert UniqueContacts(contacts) ==> UniqueContacts(contacts[1..]);
      r
  }

  /**
   The chat id: `payload.chat_id`, else `payload.to`, else (when the payload
   names a user and the lookup succeeds) the user's telegram contact, which
   is the one row with that user and provider while the contacts keep their
   key unique. An empty result of any of these is falsy and does not count.
   */
  function ResolveChatId(p: Payload, contacts: seq<Contact>, lookupFails: bool): (r: Option<string>)
    ensures r.Some? ==> r.value != ""
    ensures p.chatId != "" ==> r == Some(p.chatId)
    ensures p.chatId == "" && p.to != "" ==> r == Some(p.to)
    ensures p.chatId == "" && p.to == "" && (p.userId == "" || lookupFails) ==> r.None?
    ensures p.chatId == "" && p.to == "" && r.Some? ==>
      exists i :: 0 <= i < |contacts| && contacts[i].userId == p.userId &&
        contacts[i].provider == "telegram" && contacts[i].contactId == r.value
    ensures UniqueContacts(contacts) && p.chatId == "" && p.to == "" && p.userId != "" && !lookupFails ==>
      forall i :: 0 <= i < |contacts| && contacts[i].userId == p.userId && contacts[i].provider == "telegram" ==>
        r == if contacts[i].contactId != "" then Some(contacts[i].contactId) else None
  {
    if p.chatId != "" then Some(p.chatId)
    else if p.to != "" then Some(p.to)
    else if p.userId == "" || lookupFails then None
    else
      var c := TelegramContact(contacts, p.userId);
      if c.Some? && c.value != "" then c else None
  }

  /** `payload.title || payload.subject || ''`. */
  function TitlePart(p: Payload): string {
    if p.title != "" then p.title else p.subject
  }

  /** `payload.body || payload.text || ''`. */
  function BodyPart(p: Payload): string {
    if p.body != "" then p.body else p.text
  }

  /** The link line, pushed when the payload carries `meta.url`. */
  function LinkLine(p: Payload): string {
    "Link: " + p.metaUrl
  }

  /** The lines the worker pushes: the title part, the body part and the link, each only when non-empty. */
  function MessageLines(p: Payload): seq<string> {
    (if TitlePart(p) != "" then [TitlePart(p)] else []) + (if BodyPart(p) != "" then [BodyPart(p)] else [])
    + (if p.metaUrl != "" then [LinkLine(p)] else [])
  }

  /** Nothing to say: title, subject, body and text blank and no url. */
  predicate NothingToSay(p: Payload) {
    Blank(TitlePart(p)) && Blank(BodyPart(p)) && p.metaUrl == ""
  }

  /** The joined and trimmed lines, before the default is applied. */
  function Joined(p: Payload): string {
    Trim(Join(MessageLines(p), "\n\n"))
  }

  /** Joining and trimming leaves nothing exactly when there is nothing to say, and otherwise a visible text. */
  lemma JoinedEmpty(p: Payload)
    ensures Joined(p) == "" <==> NothingToSay(p)
    ensures Joined(p) != "" ==> Visible(Joined(p))
  {
    var t, b, l := TitlePart(p), BodyPart(p), LinkLine(p);
    var lines := MessageLines(p);
    var joined := Join(lines, "\n\n");
    assert Blank("\n\n");
    if NothingToSay(p) {
      JoinBlank(lines, "\n\n");
      TrimBlank(joined);
    } else {
      assert l[0] == 'L';
      var k: nat :| k < |lines| && !Blank(lines[k]) by {
        if !Blank(t) {
          assert lines[0] == t;
        } else if !Blank(b) {
          assert lines[if t != "" then 1 else 0] == b;
        } else {
          assert lines[|lines| - 1] == l;
        }
      }
      JoinNotBlank(lines, "\n\n", k);
      if Trim(joined) == "" {
        TrimEmptyIsBlank(joined);
      }
    }
  }

  /** A visible title part opens the message. */
  lemma JoinedStartsWithTitle(p: Payload)
    ensures Visible(TitlePart(p)) ==> TitlePart(p) <= Joined(p)
  {
    if !Visible(TitlePart(p)) { return; }
    var t, lines := TitlePart(p), MessageLines(p);
    var joined := Join(lines, "\n\n");
    assert lines[0] == t;
    JoinEnds(lines, "\n\n");
    assert joined == t + joined[|t|..];
    TrimKeepsPrefix(t, joined[|t|..]);
  }

  /** The link line closes the message when the url ends in a visible character. */
  lemma JoinedEndsWithLink(p: Payload)
    ensures Visible(p.metaUrl) ==> EndsWith(Joined(p), LinkLine(p))
  {
    if !Visible(p.metaUrl) { return; }
    var l, lines := LinkLine(p), MessageLines(p);
    var joined := Join(lines, "\n\n");
    assert lines[|lines| - 1] == l;
    JoinEnds(lines, "\n\n");
    assert joined == joined[..|joined| - |l|] + l;
    TrimKeepsSuffix(joined[..|joined| - |l|], l);
  }

  /** Visible parts are separated by exactly one blank line. */
  lemma JoinedLayout(p: Payload)
    ensures Visible(TitlePart(p)) && Visible(BodyPart(p)) && p.metaUrl == "" ==>
      Joined(p) == TitlePart(p) + "\n\n" + BodyPart(p)
    ensures Visible(TitlePart(p)) && Visible(BodyPart(p)) && Visible(p.metaUrl) ==>
      Joined(p) == TitlePart(p) + "\n\n" + BodyPart(p) + "\n\n" + LinkLine(p)
  {
    if !(Visible(TitlePart(p)) && Visible(BodyPart(p))) { return; }
    var t, b, l := TitlePart(p), BodyPart(p), LinkLine(p);
    var lines := MessageLines(p);
    if p.metaUrl == "" {
      assert lines == [t, b] && lines[1..] == [b];
      var s := t + "\n\n" + b;
      assert Join(lines, "\n\n") == s;
      assert s[0] == t[0] && s[|s| - 1] == b[|b| - 1];
      TrimKeepsVisible(s);
    } else if Visible(p.metaUrl) {
      assert lines == [t, b, l] && lines[1..] == [b, l] && lines[1..][1..] == [l];
      var s := t + "\n\n" + b + "\n\n" + l;
      assert Join(lines[1..], "\n\n") == b + "\n\n" + l;
      assert Join(lines, "\n\n") == t + "\n\n" + (b + "\n\n" + l);
      assert Join(lines, "\n\n") == s;
      assert s[0] == t[0] && s[|s| - 1] == p.metaUrl[|p.metaUrl| - 1];
      TrimKeepsVisible(s);
    }
  }

  /** A visible body with a blank title and no link is sent alone. */
  lemma JoinedBodyOnly(p: Payload)
    ensures Blank(TitlePart(p)) && Visible(BodyPart(p)) && p.metaUrl == "" ==> Joined(p) == BodyPart(p)
  {
    if !(Blank(TitlePart(p)) && Visible(BodyPart(p)) && p.metaUrl == "") { return; }
    var t, b, lines := TitlePart(p), BodyPart(p), MessageLines(p);
    assert Blank("\n\n");
    if t == "" {
      assert lines == [b];
      TrimAround("", b, "");
      assert "" + b + "" == b;
    } else {
      assert lines == [t, b] && lines[1..] == [b];
      assert Join(lines, "\n\n") == (t + "\n\n") + b + "";
      BlankConcat(t, "\n\n");
      TrimAround(t + "\n\n", b, "");
    }
  }

  /** A visible title with a blank body and no link is sent alone. */
  lemma JoinedTitleOnly(p: Payload)
    ensures Visible(TitlePart(p)) && Blank(BodyPart(p)) && p.metaUrl == "" ==> Joined(p) == TitlePart(p)
  {
    if !(Visible(TitlePart(p)) && Blank(BodyPart(p)) && p.metaUrl == "") { return; }
    var t, b, lines := TitlePart(p), BodyPart(p), MessageLines(p);
    assert Blank("\n\n");
    if b == "" {
      assert lines == [t];
      TrimAround("", t, "");
      assert "" + t + "" == t;
    } else {
      assert lines == [t, b] && lines[1..] == [b];
      assert Join(lines, "\n\n") == "" + t + ("\n\n" + b);
      BlankConcat("\n\n", b);
      TrimAround("", t, "\n\n" + b);
    }
  }

  /** A visible body and link under a blank title: the body, a blank line and the link. */
  lemma JoinedBodyAndLink(p: Payload)
    ensures Blank(TitlePart(p)) && Visible(BodyPart(p)) && Visible(p.metaUrl) ==>
      Joined(p) == BodyPart(p) + "\n\n" + LinkLine(p)
  {
    if !(Blank(TitlePart(p)) && Visible(BodyPart(p)) && Visible(p.metaUrl)) { return; }
    var t, b, l, lines := TitlePart(p), BodyPart(p), LinkLine(p), MessageLines(p);
    var z := b + "\n\n" + l;
    assert z[0] == b[0] && z[|z| - 1] == p.metaUrl[|p.metaUrl| - 1];
    assert Blank("\n\n");
    if t == "" {
      assert lines == [b, l] && lines[1..] == [l];
      assert Join(lines, "\n\n") == "" + z + "";
      TrimAround("", z, "");
    } else {
      assert lines == [t, b, l] && lines[1..] == [b, l] && lines[1..][1..] == [l];
      assert Join(lines[1..], "\n\n") == z;
      assert Join(lines, "\n\n") == (t + "\n\n") + z + "";
      BlankConcat(t, "\n\n");
      TrimAround(t + "\n\n", z, "");
    }
  }

  /** A visible title and link with no body: the title, a blank line and the link. */
  lemma JoinedTitleAndLink(p: Payload)
    ensures Visible(TitlePart(p)) && BodyPart(p) == "" && Visible(p.metaUrl) ==>
      Joined(p) == TitlePart(p) + "\n\n" + LinkLine(p)
  {
    if !(Visible(TitlePart(p)) && BodyPart(p) == "" && Visible(p.metaUrl)) { return; }
    var t, l, lines := TitlePart(p), LinkLine(p), MessageLines(p);
    var z := t + "\n\n" + l;
    assert z[0] == t[0] && z[|z| - 1] == p.metaUrl[|p.metaUrl| - 1];
    assert lines == [t, l] && lines[1..] == [l];
    assert Join(lines, "\n\n") == z;
    TrimKeepsVisible(z);
  }

  /** A visible link under a blank title and body is sent alone. */
  lemma JoinedLinkOnly(p: Payload)
    ensures Blank(TitlePart(p)) && Blank(BodyPart(p)) && Visible(p.metaUrl) ==> Joined(p) == LinkLine(p)
  {
    if !(Blank(TitlePart(p)) && Blank(BodyPart(p)) && Visible(p.metaUrl)) { return; }
    var t, b, l, lines := TitlePart(p), BodyPart(p), LinkLine(p), MessageLines(p);
    assert l[0] == 'L' && l[|l| - 1] == p.metaUrl[|p.metaUrl| - 1];
    var sep := "\n\n";
    assert Blank(sep);
    BlankConcat(t, sep);
    BlankConcat(b, sep);
    BlankConcat(t + sep, b + sep);
    if t == "" && b == "" {
      assert lines == [l];
      TrimAround("", l, "");
      assert "" + l + "" == l;
    } else if t == "" {
      assert lines == [b, l] && lines[1..] == [l];
      assert Join(lines, sep) == (b + sep) + l + "";
      TrimAround(b + sep, l, "");
    } else if b == "" {
      assert lines == [t, l] && lines[1..] == [l];
      assert Join(lines, sep) == (t + sep) + l + "";
      TrimAround(t + sep, l, "");
    } else {
      assert lines == [t, b, l] && lines[1..] == [b, l] && lines[1..][1..] == [l];
      assert Join(lines[1..], sep) == b + sep + l;
      assert Join(lines, sep) == ((t + sep) + (b + sep)) + l + "";
      TrimAround((t + sep) + (b + sep), l, "");
    }
  }

  /**
   The message: the lines joined by blank lines and trimmed, or the default
   text when that leaves nothing. The default is sent exactly when there is
   nothing to say; otherwise the text is trimmed, starts with a visible title
   part, ends with a visible link, and visible parts are separated by a blank
   line.
   */
  function MessageText(p: Payload): (r: string)
    ensures NothingToSay(p) ==> r == DefaultMessage
    ensures !NothingToSay(p) ==> r != "" && Trim(r) == r
    ensures Visible(TitlePart(p)) ==> TitlePart(p) <= r
    ensures Visible(p.metaUrl) ==> EndsWith(r, LinkLine(p))
    ensures Visible(TitlePart(p)) && Visible(BodyPart(p)) && p.metaUrl == "" ==>
      r == TitlePart(p) + "\n\n" + BodyPart(p)
    ensures Visible(TitlePart(p)) && Visible(BodyPart(p)) && Visible(p.metaUrl) ==>
      r == TitlePart(p) + "\n\n" + BodyPart(p) + "\n\n" + LinkLine(p)
    ensures Blank(TitlePart(p)) && Visible(BodyPart(p)) && p.metaUrl == "" ==> r == BodyPart(p)
    ensures Visible(TitlePart(p)) && Blank(BodyPart(p)) && p.metaUrl == "" ==> r == TitlePart(p)
    ensures Blank(TitlePart(p)) && Visible(BodyPart(p)) && Visible(p.metaUrl) ==>
      r == BodyPart(p) + "\n\n" + LinkLine(p)
    ensures Visible(TitlePart(p)) && BodyPart(p) == "" && Visible(p.metaUrl) ==>
      r == TitlePart(p) + "\n\n" + LinkLine(p)
    ensures Blank(TitlePart(p)) && Blank(BodyPart(p)) && Visible(p.metaUrl) ==> r == LinkLine(p)
  {
    var joined := Joined(p);
    JoinedEmpty(p);
    JoinedStartsWithTitle(p);
    JoinedEndsWithLink(p);
    JoinedLayout(p);
    JoinedBodyOnly(p);
    JoinedTitleOnly(p);
    JoinedBodyAndLink(p);
    JoinedTitleAndLink(p);
    JoinedLinkOnly(p);
    if joined == "" then DefaultMessage else joined
  }

  /**
   A reminder written by a scheduler is sent as its title, a blank line and its
   body, exactly, whenever the body ends in a visible character.
   */
  lemma ReminderMessage(user: UserId, name: string, body: string)
    requires body != [] && !IsJsSpace(body[|body| - 1])
    ensures MessageText(ReminderPayload(user, ReminderTitle(name), body)) == ReminderTitle(name) + "\n\n" + body
  {
    var title := ReminderTitle(name);
    var s := title + "\n\n" + body;
    var lines := [title] + [body] + [];
    assert lines[1..] == [body];
    assert Join(lines, "\n\n") == s;
    assert s[0] == 'S' && s[|s| - 1] == body[|body| - 1];
    TrimKeepsVisible(s);
  }

  /**
   Rows written by the schedulers carry the owner's id in `to`, so the chat id
   is that user id and user_contacts is never consulted.
   */
  lemma ReminderChatIsOwner(user: UserId, title: string, body: string, contacts: seq<Contact>, lookupFails: bool)
    requires user != ""
    ensures ResolveChatId(ReminderPayload(user, title, body), contacts, lookupFails) == Some(user)
  {
  }

  /** `last_error` for a failed attempt: `telegram_<status>: <body>`, or the error's stack, else message, else `String(err)`. */
  function AttemptError(o: SendOutcome): string
    requires !o.Accepted?
  {
    match o
    case Rejected(status, body) => "telegram_" + IntToString(status) + ": " + body
    case Threw(name, message, stack) =>
      if stack != "" then stack else if message != "" then message else ErrorString(name, message)
  }

  /**
   Three attempts at most, stopping at the first accepted one; `send(k)` is
   what attempt k got back.
   */
  function SendRounds(send: nat -> SendOutcome): (d: Delivery)
    ensures !d.NoChatId?
    ensures d.Delivered? ==> 1 <= d.attempt <= MaxAttempts && send(d.attempt).Accepted? &&
                             forall j :: 1 <= j < d.attempt ==> !send(j).Accepted?
    ensures d.Exhausted? ==> (forall j :: 1 <= j <= MaxAttempts ==> !send(j).Accepted?) &&
                             d.lastError == AttemptError(send(MaxAttempts))
  {
    if send(1).Accepted? then Delivered(1)
    else if send(2).Accepted? then Delivered(2)
    else if send(3).Accepted? then Delivered(3)
    else Exhausted(AttemptError(send(3)))
  }

  /** What delivering a payload ends in. */
  function DeliveryOf(p: Payload, contacts: seq<Contact>, lookupFails: bool, send: nat -> SendOutcome): (d: Delivery)
    ensures d.NoChatId? <==> ResolveChatId(p, contacts, lookupFails).None?
  {
    if ResolveChatId(p, contacts, lookupFails).None? then NoChatId else SendRounds(send)
  }

  /** The number of sends a delivery made. */
  function AttemptCount(d: Delivery): (n: nat)
    ensures n <= MaxAttempts
  {
    match d
    case Delivered(k) => if k <= MaxAttempts then k else MaxAttempts
    case NoChatId => 0
    case Exhausted(_) => MaxAttempts
  }

  /**
   The row after a delivery: `sent` with `sent_at` and a cleared error, or
   `failed` with the error; nothing else in the row changes.
   */
  function Settle(row: Notification, d: Delivery, now: Millis): (r: Notification)
    ensures r.status != Pending
    ensures r.status == Sent <==> d.Delivered?
    ensures d.Delivered? ==> r.sentAt == Some(now) && r.lastError == None
    ensures d.NoChatId? ==> r.lastError == Some(NoChatIdError) && r.sentAt == row.sentAt
    ensures d.Exhausted? ==> r.lastError == Some(d.lastError) && r.sentAt == row.sentAt
    ensures r.subscriptionId == row.subscriptionId && r.payload == row.payload
    ensures r.scheduledAt == row.scheduledAt && r.nextAttemptAt == row.nextAttemptAt
  {
    match d
    case Delivered(_) => row.(status := Sent, sentAt := Some(now), lastError := None)
    case NoChatId => row.(status := Failed, lastError := Some(NoChatIdError))
    case Exhausted(e) => row.(status := Failed, lastError := Some(e))
  }

  /** The chat-id lookup of the worker: `chat_id || to`, then the user_contacts query. */
  method FindChatId(contacts: seq<Contact>, payload: Payload, lookupFails: bool) returns (chatId: string)
    ensures chatId == "" <==> ResolveChatId(payload, contacts, lookupFails).None?
    ensures chatId != "" ==> chatId == ResolveChatId(payload, contacts, lookupFails).value
  {
    chatId := if payload.chatId != "" then payload.chatId else payload.to;
    if chatId == "" && payload.userId != "" && !lookupFails {
      var found := TelegramContact(contacts, payload.userId);
      if found.Some? {
        chatId := found.value;
      }
    }
  }

  /** The send loop: at most three attempts, leaving at the first accepted one. */
  method SendAttempts(chatId: string, text: string, send: nat -> SendOutcome)
    returns (d: Delivery, outbox: seq<Outbound>)
    ensures d == SendRounds(send)
    ensures |outbox| == AttemptCount(d)
    ensures forall i :: 0 <= i < |outbox| ==> outbox[i] == Outbound(chatId, text)
  {
    var attempt := 0;
    var lastErr := "";
    outbox := [];
    while attempt < MaxAttempts
      invariant 0 <= attempt <= MaxAttempts
      invariant |outbox| == attempt
      invariant forall i :: 0 <= i < attempt ==> outbox[i] == Outbound(chatId, text)
      invariant forall j :: 1 <= j <= attempt ==> !send(j).Accepted?
      invariant attempt > 0 ==> lastErr == AttemptError(send(attempt))
    {
      attempt := attempt + 1;
      outbox := outbox + [Outbound(chatId, text)];
      var result := send(attempt);
      if result.Accepted? {
        return Delivered(attempt), outbox;
      }
      lastErr := AttemptError(result);
    }
    d := Exhausted(lastErr);
  }

  /**
   `deliverNotificationViaTelegram`: resolve the chat id, build the text, then
   up to three sends; the row ends `sent` or `failed`.
   */
  method Deliver(db: Database, id: NotifId, lookupFails: bool, send: nat -> SendOutcome, now: Millis)
    returns (d: Delivery, outbox: seq<Outbound>)
    requires db.Valid() && id in db.notifications
    modifies db
    ensures db.Valid()
    ensures d == DeliveryOf(old(db.notifications[id].payload), old(db.contacts), lookupFails, send)
    ensures db.notifications == old(db.notifications)[id := Settle(old(db.notifications[id]), d, now)]
    ensures |outbox| == AttemptCount(d)
    ensures forall i :: 0 <= i < |outbox| ==>
      outbox[i] == Outbound(ResolveChatId(old(db.notifications[id].payload), old(db.contacts), lookupFails).value,
                            MessageText(old(db.notifications[id].payload)))
    ensures db.subscriptions == old(db.subscriptions) && db.contacts == old(db.contacts)
    ensures db.linkTokens == old(db.linkTokens)
    ensures db.nextSubId == old(db.nextSubId) && db.nextNotifId == old(db.nextNotifId)
  {
    var row := db.notifications[id];
    var chatId := FindChatId(db.contacts, row.payload, lookupFails);
    if chatId == "" {
      d, outbox := NoChatId, [];
    } else {
      var text := MessageText(row.payload);
      d, outbox := SendAttempts(chatId, text, send);
    }
    db.notifications := db.notifications[id := Settle(row, d, now)];
  }

  /** The handler goes on to a delivery: a POST naming a stored row that is not yet sent, with a bot token set. */
  predicate Attempts(m: map<NotifId, Notification>, httpMethod: string, notificationId: Option<NotifId>,
                     fetchFails: bool, botToken: string)
  {
    httpMethod == "POST" && notificationId.Some? && !fetchFails &&
    notificationId.value in m && m[notificationId.value].status != Sent && botToken != ""
  }

  /**
   The worker endpoint. A `sent` row is answered 200 and never re-sent; a
   `failed` or `pending` row is delivered again. The row query ends in
   `.single()`, which reports an unknown id as an error, so it is answered
   500 like a failed query.
   */
  method HandleJob(db: Database, httpMethod: string, notificationId: Option<NotifId>, fetchFails: bool,
                   botToken: string, lookupFails: bool, send: nat -> SendOutcome, now: Millis)
    returns (resp: Response, outbox: seq<Outbound>)
    requires db.Valid()
    modifies db
    ensures db.Valid()
    ensures db.subscriptions == old(db.subscriptions) && db.contacts == old(db.contacts)
    ensures db.linkTokens == old(db.linkTokens)
    ensures db.nextSubId == old(db.nextSubId) && db.nextNotifId == old(db.nextNotifId)
    ensures httpMethod != "POST" ==> resp == MethodNotAllowed
    ensures httpMethod == "POST" && notificationId.None? ==> resp == Response(400, "Missing notification_id in body")
    ensures httpMethod == "POST" && notificationId.Some? && (fetchFails || notificationId.value !in old(db.notifications)) ==>
      resp == Response(500, "Failed to fetch notification")
    ensures httpMethod == "POST" && notificationId.Some? && !fetchFails && notificationId.value in old(db.notifications) &&
            old(db.notifications[notificationId.value]).status == Sent ==>
      resp == Response(200, "Notification already sent")
    ensures httpMethod == "POST" && notificationId.Some? && !fetchFails && notificationId.value in old(db.notifications) &&
            old(db.notifications[notificationId.value]).status != Sent && botToken == "" ==>
      resp == Response(500, "No telegram token configured")
    ensures !Attempts(old(db.notifications), httpMethod, notificationId, fetchFails, botToken) ==>
      db.notifications == old(db.notifications) && outbox == []
    ensures Attempts(old(db.notifications), httpMethod, notificationId, fetchFails, botToken) ==>
      var id := notificationId.value;
      var d := DeliveryOf(old(db.notifications[id].payload), old(db.contacts), lookupFails, send);
      db.notifications == old(db.notifications)[id := Settle(old(db.notifications[id]), d, now)] &&
      |outbox| == AttemptCount(d) &&
      resp == (if d.Delivered? then Response(200, "Notification sent via Telegram")
               else Response(500, "Telegram delivery failed"))
  {
    outbox := [];
    if httpMethod != "POST" {
      return MethodNotAllowed, outbox;
    }
    if notificationId.None? {
      return Response(400, "Missing notification_id in body"), outbox;
    }
    var id := notificationId.value;
    // `.single()` reports a missing row as a query error, so the `!notif` 404 branch never runs.
    if fetchFails || id !in db.notifications {
      return Response(500, "Failed to fetch notification"), outbox;
    }
    if db.notifications[id].status == Sent {
      return Response(200, "Notification already sent"), outbox;
    }
    if botToken != "" {
      var d;
      d, outbox := Deliver(db, id, lookupFails, send, now);
      if d.Delivered? {
        resp := Response(200, "Notification sent via Telegram");
      } else {
        resp := Response(500, "Telegram delivery failed");
      }
      return;
    }
    resp := Response(500, "No telegram token configured");
  }

  /** A worker call never adds a second pending row for a subscription. */
  lemma HandleJobKeepsAtMostOne(m: map<NotifId, Notification>, id: NotifId, d: Delivery, now: Millis)
    requires id in m
    ensures AtMostOnePending(m) ==> AtMostOnePending(m[id := Settle(m[id], d, now)])
  {
    SettleKeepsAtMostOne(m, id, Settle(m[id], d, now));
  }
}
