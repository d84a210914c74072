/**
 The database tables the core reads and writes — subscriptions,
 notifications, user_contacts and telegram_link_tokens — as an in-memory
 store, with the rows each table holds and the keyed deletes the handlers
 issue. Row ids that the database generates are drawn from counters.
 */
module Tables {
  import opened Wrappers
  import opened Calendar
  import opened TimeZones

  type SubId = nat
  type NotifId = nat
  type UserId = string

  /**
   A row of `subscriptions`. Text columns that may be NULL are `Option`s; the
   empty string stands for a missing required text or a NULL time zone.
   `createdBy` is the owner column the handlers filter on; `userId` is the
   separate `user_id` column that the creation handler writes.
   */
  datatype Subscription = Subscription(
    createdBy: UserId,
    userId: UserId,
    name: string,
    nextPaymentDate: Date,
    billingCycle: string,
    renewalPrice: real,
    currency: string,
    notificationMode: string,
    timezone: string,
    reminderOffset: Option<string>,
    logoUrl: Option<string>,
    serviceUrl: Option<string>,
    category: Option<string>,
    paymentMethod: Option<string>,
    notes: Option<string>,
    validUntil: Option<string>)

  datatype Status = Pending | Sent | Failed

  /** `payload_json` of a notification; an absent key is the empty string. */
  datatype Payload = Payload(
    chatId: string,
    to: string,
    userId: string,
    title: string,
    subject: string,
    body: string,
    text: string,
    metaUrl: string)  // `payload.meta.url`

  /** A row of `notifications`. */
  datatype Notification = Notification(
    subscriptionId: SubId,
    scheduledAt: Option<Millis>,
    status: Status,
    payload: Payload,
    nextAttemptAt: Option<Millis>,
    sentAt: Option<Millis>,
    lastError: Option<string>)

  /** A row of `user_contacts`. */
  datatype Contact = Contact(userId: UserId, provider: string, contactType: string, contactId: string)

  /** A row of `telegram_link_tokens`. */
  datatype LinkToken = LinkToken(token: string, userId: UserId, expiresAt: Millis)

  /** What one outbound HTTP call produced: a 2xx reply, another reply, or a thrown error. */
  datatype SendOutcome =
    | Accepted
    | Rejected(status: int, body: string)
    | Threw(name: string, message: string, stack: string)

  /** `String(e)` of a thrown Error: `Error.prototype.toString`. */
  function ErrorString(name: string, message: string): string {
    if message == "" then name else if name == "" then message else name + ": " + message
  }

  /** The pending notifications of one subscription. */
  function PendingFor(m: map<NotifId, Notification>, sub: SubId): set<NotifId> {
    set k | k in m && m[k].subscriptionId == sub && m[k].status == Pending
  }

  /** No subscription has two pending notifications. */
  predicate AtMostOnePending(m: map<NotifId, Notification>) {
    forall a, b ::
      (a in m && b in m && m[a].status == Pending && m[b].status == Pending &&
       m[a].subscriptionId == m[b].subscriptionId) ==> a == b
  }

  /** `delete().eq('subscription_id', sub).eq('status', 'pending')`. */
  function DropPending(m: map<NotifId, Notification>, sub: SubId): (r: map<NotifId, Notification>)
    ensures PendingFor(r, sub) == {}
    ensures forall k :: k in m && !(m[k].subscriptionId == sub && m[k].status == Pending) ==> k in r && r[k] == m[k]
    ensures forall k :: k in r ==> k in m
  {
    map k | k in m && !(m[k].subscriptionId == sub && m[k].status == Pending) :: m[k]
  }

  /** `delete().eq('subscription_id', sub)`: every notification of the subscription, in any status. */
  function DropAllFor(m: map<NotifId, Notification>, sub: SubId): (r: map<NotifId, Notification>)
    ensures forall k :: k in r ==> r[k].subscriptionId != sub
    ensures forall k :: k in m && m[k].subscriptionId != sub ==> k in r && r[k] == m[k]
    ensures forall k :: k in r ==> k in m
  {
    map k | k in m && m[k].subscriptionId != sub :: m[k]
  }

  /**
   Deleting a subscription's pending rows and inserting one fresh row leaves
   that row as its only pending notification, and keeps every subscription
   at one pending notification at most.
   */
  lemma ReplacePending(m: map<NotifId, Notification>, sub: SubId, k: NotifId, row: Notification)
    requires k !in m && row.subscriptionId == sub && row.status == Pending
    ensures PendingFor(DropPending(m, sub)[k := row], sub) == {k}
    ensures AtMostOnePending(m) ==> AtMostOnePending(DropPending(m, sub)[k := row])
  {
    var r := DropPending(m, sub)[k := row];
    assert k in PendingFor(r, sub);
  }

  /**
   A pending row inserted for a subscription that no notification refers to
   yet becomes its only pending notification.
   */
  lemma InsertFirstPending(m: map<NotifId, Notification>, sub: SubId, k: NotifId, row: Notification)
    requires k !in m && row.subscriptionId == sub && row.status == Pending
    requires forall j :: j in m ==> m[j].subscriptionId != sub
    ensures PendingFor(m[k := row], sub) == {k}
    ensures AtMostOnePending(m) ==> AtMostOnePending(m[k := row])
  {
    assert k in PendingFor(m[k := row], sub);
  }

  /** Rewriting one row with a status other than pending cannot add a pending duplicate. */
  lemma SettleKeepsAtMostOne(m: map<NotifId, Notification>, k: NotifId, row: Notification)
    requires row.status != Pending
    ensures AtMostOnePending(m) ==> AtMostOnePending(m[k := row])
  {
  }

  /** The user_contacts key (user_id, provider) is unique. */
  predicate UniqueContacts(cs: seq<Contact>) {
    forall i, j :: 0 <= i < j < |cs| ==>
      cs[i].userId != cs[j].userId || cs[i].provider != cs[j].provider
  }

  /**
   A query with `.limit(limit)` over an unordered table: some of the matching
   rows, each once, at most `limit` of them, and all of them when they fit.
   */
  method Select<K(==)>(candidates: set<K>, limit: nat) returns (batch: seq<K>)
    ensures |batch| <= limit
    ensures forall i :: 0 <= i < |batch| ==> batch[i] in candidates
    ensures Distinct(batch)
    ensures |candidates| <= limit ==> forall x :: x in candidates ==> x in batch
  {
    batch := [];
    var rest := candidates;
    while rest != {} && |batch| < limit
      invariant |batch| <= limit && rest <= candidates
      invariant |batch| + |rest| == |candidates|
      invariant forall i :: 0 <= i < |batch| ==> batch[i] in candidates && batch[i] !in rest
      invariant forall i, j :: 0 <= i < j < |batch| ==> batch[i] != batch[j]
      invariant forall x :: x in candidates ==> x in rest || x in batch
      decreases rest
    {
      var x :| x in rest;
      batch := batch + [x];
      rest := rest - {x};
    }
  }

  /** A query without `.limit`: every matching row, each once, in some order. */
  method SelectAll<K(==)>(candidates: set<K>) returns (batch: seq<K>)
    ensures |batch| == |candidates|
    ensures forall i :: 0 <= i < |batch| ==> batch[i] in candidates
    ensures forall x :: x in candidates ==> x in batch
    ensures Distinct(batch)
  {
    batch := [];
    var rest := candidates;
    while rest != {}
      invariant rest <= candidates && |batch| + |rest| == |candidates|
      invariant forall x :: x in batch <==> x in candidates && x !in rest
      invariant Distinct(batch)
      decreases rest
    {
      var x :| x in rest;
      batch := batch + [x];
      rest := rest - {x};
    }
  }

  /** No element occurs twice, as with the rows of a query over a primary key. */
  predicate Distinct<K(==)>(s: seq<K>) {
    forall a, b :: 0 <= a < b < |s| ==> s[a] != s[b]
  }

  /** The picked elements among the first `i` of `batch`. */
  ghost function Chosen<K>(batch: seq<K>, pick: set<K>, i: nat): (r: set<K>)
    requires i <= |batch|
    ensures r <= pick
  {
    if i == 0 then {}
    else Chosen(batch, pick, i - 1) + (if batch[i - 1] in pick then {batch[i - 1]} else {})
  }

  /** A counter bumped once for each picked element among the first `i`. */
  ghost function CountChosen<K>(batch: seq<K>, pick: set<K>, i: nat): nat
    requires i <= |batch|
  {
    if i == 0 then 0 else CountChosen(batch, pick, i - 1) + (if batch[i - 1] in pick then 1 else 0)
  }

  /** One more element of the batch: it joins the picked set exactly when it is picked. */
  lemma ChosenStep<K>(batch: seq<K>, pick: set<K>, i: nat)
    requires i < |batch|
    ensures batch[i] in pick ==> Chosen(batch, pick, i + 1) == Chosen(batch, pick, i) + {batch[i]}
    ensures batch[i] in pick ==> CountChosen(batch, pick, i + 1) == CountChosen(batch, pick, i) + 1
    ensures batch[i] !in pick ==> Chosen(batch, pick, i + 1) == Chosen(batch, pick, i)
    ensures batch[i] !in pick ==> CountChosen(batch, pick, i + 1) == CountChosen(batch, pick, i)
  {
  }

  /** An element not yet reached is not among those picked so far (the batch has no repeats). */
  lemma {:induction false} NotChosenYet<K>(batch: seq<K>, pick: set<K>, i: nat, j: nat)
    requires i <= j < |batch|
    requires Distinct(batch)
    ensures batch[j] !in Chosen(batch, pick, i)
  {
    if i > 0 {
      NotChosenYet(batch, pick, i - 1, j);
    }
  }

  /** Adding an element not yet present grows a set by one. */
  lemma CardinalityAddNew<K>(s: set<K>, x: K)
    requires x !in s
    ensures |s + {x}| == |s| + 1
  {
  }

  /** Over a batch without repeats the counter is the number of picked elements. */
  lemma {:induction false} CountChosenIsSize<K>(batch: seq<K>, pick: set<K>, i: nat)
    requires i <= |batch|
    requires Distinct(batch)
    ensures CountChosen(batch, pick, i) == |Chosen(batch, pick, i)|
  {
    if i > 0 {
      CountChosenIsSize(batch, pick, i - 1);
      NotChosenYet(batch, pick, i - 1, i - 1);
      var before, x := Chosen(batch, pick, i - 1), batch[i - 1];
      if x in pick {
        CardinalityAddNew(before, x);
      }
    }
  }

  /** The picked elements so far, as a set over the prefix. */
  lemma {:induction false} ChosenIsPrefix<K>(batch: seq<K>, pick: set<K>, i: nat)
    requires i <= |batch|
    ensures Chosen(batch, pick, i) == set x | x in batch[..i] && x in pick
  {
    if i > 0 {
      ChosenIsPrefix(batch, pick, i - 1);
      assert batch[..i] == batch[..i - 1] + [batch[i - 1]];
    }
  }
  /** The rows of telegram_link_tokens that belong to `user`, in table order. */
  function TokensOf(ts: seq<LinkToken>, user: UserId): (r: seq<LinkToken>)
    ensures forall x :: x in r <==> x in ts && x.userId == user
    ensures |r| <= |ts|
  {
    if |ts| == 0 then []
    else (if ts[0].userId == user then [ts[0]] else []) + TokensOf(ts[1..], user)
  }

  /** `delete().eq('user_id', user)` on telegram_link_tokens. */
  function DropTokensOf(ts: seq<LinkToken>, user: UserId): (r: seq<LinkToken>)
    ensures forall x :: x in r <==> x in ts && x.userId != user
  {
    if |ts| == 0 then []
    else (if ts[0].userId != user then [ts[0]] else []) + DropTokensOf(ts[1..], user)
  }

  /** `delete().eq('token', token)` on telegram_link_tokens: every row holding that token value. */
  function DropToken(ts: seq<LinkToken>, token: string): (r: seq<LinkToken>)
    ensures forall x :: x in r <==> x in ts && x.token != token
  {
    if |ts| == 0 then []
    else (if ts[0].token != token then [ts[0]] else []) + DropToken(ts[1..], token)
  }

  /** The tokens of a user are those of each part of the table. */
  lemma {:induction false} TokensOfAppend(a: seq<LinkToken>, b: seq<LinkToken>, user: UserId)
    ensures TokensOf(a + b, user) == TokensOf(a, user) + TokensOf(b, user)
  {
    if |a| == 0 {
      assert a + b == b;
    } else {
      assert (a + b)[0] == a[0] && (a + b)[1..] == a[1..] + b;
      TokensOfAppend(a[1..], b, user);
    }
  }

  /**
   Deleting one user's tokens leaves that user none and every other user's
   tokens exactly as they were, in the same order.
   */
  lemma {:induction false} DropTokensOfSelects(ts: seq<LinkToken>, user: UserId, other: UserId)
    ensures TokensOf(DropTokensOf(ts, user), user) == []
    ensures other != user ==> TokensOf(DropTokensOf(ts, user), other) == TokensOf(ts, other)
  {
    if |ts| > 0 {
      var head := if ts[0].userId != user then [ts[0]] else [];
      DropTokensOfSelects(ts[1..], user, other);
      TokensOfAppend(head, DropTokensOf(ts[1..], user), user);
      TokensOfAppend(head, DropTokensOf(ts[1..], user), other);
    }
  }

  /** The index of the first row of user_contacts with key (user, provider), from `from` on. */
  function KeyIndex(cs: seq<Contact>, user: UserId, provider: string, from: nat): (r: Option<nat>)
    requires from <= |cs|
    ensures r.Some? ==> from <= r.value < |cs| && cs[r.value].userId == user && cs[r.value].provider == provider
    ensures r.None? ==> forall i :: from <= i < |cs| ==> cs[i].userId != user || cs[i].provider != provider
    decreases |cs| - from
  {
    if from == |cs| then None
    else if cs[from].userId == user && cs[from].provider == provider then Some(from)
    else KeyIndex(cs, user, provider, from + 1)
  }

  /**
   `upsert(row, { onConflict: 'user_id, provider' })` on user_contacts: the
   row holding the same key is overwritten, or the row is appended when
   there is none.
   */
  function Upsert(cs: seq<Contact>, c: Contact): (r: seq<Contact>)
    ensures c in r
    ensures forall x :: x in r ==> x == c || x in cs
  {
    var at := KeyIndex(cs, c.userId, c.provider, 0);
    if at.Some? then
      var r := cs[at.value := c];
      assert r[at.value] == c;
      r
    else cs + [c]
  }

  /**
   On a table whose key is unique, the upsert keeps the key unique, keeps
   every row of another key, and leaves the row it wrote as the only one
   with its (user_id, provider).
   */
  lemma UpsertKeepsUnique(cs: seq<Contact>, c: Contact)
    requires UniqueContacts(cs)
    ensures UniqueContacts(Upsert(cs, c))
    ensures forall x :: x in cs && (x.userId != c.userId || x.provider != c.provider) ==> x in Upsert(cs, c)
    ensures forall x :: x in Upsert(cs, c) && x.userId == c.userId && x.provider == c.provider ==> x == c
  {
    var r := Upsert(cs, c);
    var at := KeyIndex(cs, c.userId, c.provider, 0);
    forall x | x in cs && (x.userId != c.userId || x.provider != c.provider)
      ensures x in r
    {
      var j :| 0 <= j < |cs| && cs[j] == x;
      assert r[j] == x;
    }
    forall x | x in r && x.userId == c.userId && x.provider == c.provider
      ensures x == c
    {
      var j :| 0 <= j < |r| && r[j] == x;
    }
  }

  /** The store: one field per table, plus the id counters standing in for generated uuids. */
  class Database {
    var subscriptions: map<SubId, Subscription>
    var notifications: map<NotifId, Notification>
    var contacts: seq<Contact>
    var linkTokens: seq<LinkToken>
    var nextSubId: SubId
    var nextNotifId: NotifId

    /**
     Integrity the database itself enforces: ids are unused above the
     counters, a `date` column holds a real date, a notification points at a
     subscription id that was handed out, and user_contacts has its unique key.
     */
    ghost predicate Valid()
      reads this
    {
      (forall id :: id in subscriptions ==> id < nextSubId && ValidDate(subscriptions[id].nextPaymentDate)) &&
      (forall id :: id in notifications ==> id < nextNotifId && notifications[id].subscriptionId < nextSubId) &&
      UniqueContacts(contacts)
    }

    constructor ()
      ensures Valid()
      ensures subscriptions == map[] && notifications == map[] && contacts == [] && linkTokens == []
    {
      subscriptions, notifications := map[], map[];
      contacts, linkTokens := [], [];
      nextSubId, nextNotifId := 0, 0;
    }

    /** `insert(row)` into subscriptions, which generates a fresh id. */
    method InsertSubscription(row: Subscription) returns (id: SubId)
      requires Valid() && ValidDate(row.nextPaymentDate)
      modifies this
      ensures Valid()
      ensures id == old(nextSubId) && id !in old(subscriptions) && nextSubId == old(nextSubId) + 1
      ensures subscriptions == old(subscriptions)[id := row]
      ensures notifications == old(notifications) && nextNotifId == old(nextNotifId)
      ensures contacts == old(contacts) && linkTokens == old(linkTokens)
      ensures forall k :: k in notifications ==> notifications[k].subscriptionId != id
    {
      id := nextSubId;
      subscriptions := subscriptions[id := row];
      nextSubId := nextSubId + 1;
    }

    /** `update(row).eq('id', id)` on subscriptions. */
    method UpdateSubscription(id: SubId, row: Subscription)
      requires Valid() && id in subscriptions && ValidDate(row.nextPaymentDate)
      modifies this
      ensures Valid()
      ensures subscriptions == old(subscriptions)[id := row] && nextSubId == old(nextSubId)
      ensures notifications == old(notifications) && nextNotifId == old(nextNotifId)
      ensures contacts == old(contacts) && linkTokens == old(linkTokens)
    {
      subscriptions := subscriptions[id := row];
    }

    /** `delete()` of the subscription's pending rows followed by `insert([row])`. */
    method ReplacePendingRow(sub: SubId, row: Notification) returns (id: NotifId)
      requires Valid() && row.subscriptionId == sub && sub < nextSubId
      modifies this
      ensures Valid()
      ensures id == old(nextNotifId) && nextNotifId == old(nextNotifId) + 1
      ensures notifications == DropPending(old(notifications), sub)[id := row]
      ensures subscriptions == old(subscriptions) && nextSubId == old(nextSubId)
      ensures contacts == old(contacts) && linkTokens == old(linkTokens)
    {
      notifications := DropPending(notifications, sub);
      id := InsertNotification(row);
    }

    /** `delete().eq('subscription_id', sub)` on notifications: its rows in every status. */
    method DeleteNotificationsOf(sub: SubId)
      requires Valid()
      modifies this
      ensures Valid()
      ensures notifications == DropAllFor(old(notifications), sub) && nextNotifId == old(nextNotifId)
      ensures subscriptions == old(subscriptions) && nextSubId == old(nextSubId)
      ensures contacts == old(contacts) && linkTokens == old(linkTokens)
    {
      notifications := DropAllFor(notifications, sub);
    }

    /** `delete().eq('id', id)` on subscriptions. */
    method DeleteSubscription(id: SubId)
      requires Valid()
      modifies this
      ensures Valid()
      ensures subscriptions == old(subscriptions) - {id} && nextSubId == old(nextSubId)
      ensures notifications == old(notifications) && nextNotifId == old(nextNotifId)
      ensures contacts == old(contacts) && linkTokens == old(linkTokens)
    {
      subscriptions := subscriptions - {id};
    }

    /** `delete().eq('user_id', user)` on telegram_link_tokens. */
    method DeleteTokensOf(user: UserId)
      requires Valid()
      modifies this
      ensures Valid()
      ensures linkTokens == DropTokensOf(old(linkTokens), user) && contacts == old(contacts)
      ensures subscriptions == old(subscriptions) && notifications == old(notifications)
      ensures nextSubId == old(nextSubId) && nextNotifId == old(nextNotifId)
    {
      linkTokens := DropTokensOf(linkTokens, user);
    }

    /** `insert([row])` into telegram_link_tokens. */
    method InsertToken(row: LinkToken)
      requires Valid()
      modifies this
      ensures Valid()
      ensures linkTokens == old(linkTokens) + [row] && contacts == old(contacts)
      ensures subscriptions == old(subscriptions) && notifications == old(notifications)
      ensures nextSubId == old(nextSubId) && nextNotifId == old(nextNotifId)
    {
      linkTokens := linkTokens + [row];
    }

    /** `delete().eq('token', token)` on telegram_link_tokens. */
    method DeleteToken(token: string)
      requires Valid()
      modifies this
      ensures Valid()
      ensures linkTokens == DropToken(old(linkTokens), token) && contacts == old(contacts)
      ensures subscriptions == old(subscriptions) && notifications == old(notifications)
      ensures nextSubId == old(nextSubId) && nextNotifId == old(nextNotifId)
    {
      linkTokens := DropToken(linkTokens, token);
    }

    /** `upsert(row, { onConflict: 'user_id, provider' })` on user_contacts. */
    method UpsertContact(row: Contact)
      requires Valid()
      modifies this
      ensures Valid()
      ensures contacts == Upsert(old(contacts), row) && linkTokens == old(linkTokens)
      ensures subscriptions == old(subscriptions) && notifications == old(notifications)
      ensures nextSubId == old(nextSubId) && nextNotifId == old(nextNotifId)
    {
      UpsertKeepsUnique(contacts, row);
      contacts := Upsert(contacts, row);
    }

    /** `insert([row])` into notifications, which generates a fresh id. */
    method InsertNotification(row: Notification) returns (id: NotifId)
      requires Valid() && row.subscriptionId < nextSubId
      modifies this
      ensures Valid()
      ensures id == old(nextNotifId) && id !in old(notifications) && nextNotifId == old(nextNotifId) + 1
      ensures notifications == old(notifications)[id := row]
      ensures subscriptions == old(subscriptions) && nextSubId == old(nextSubId)
      ensures contacts == old(contacts) && linkTokens == old(linkTokens)
    {
      id := nextNotifId;
      notifications := notifications[id := row];
      nextNotifId := nextNotifId + 1;
    }
  }
}
