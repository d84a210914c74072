/**
 The Telegram linking handler, called by the bot: an unexpired token names a
 user, whose telegram contact becomes the given chat, and the token is spent.
 */
module LinkContact {
  import opened Wrappers
  import opened TimeZones
  import opened Tables
  import opened Requests
  import opened TelegramWorker

  /**
   The users an unexpired row with this token names: the query
   `eq('token', token).gte('expires_at', now)` (a token expiring exactly now
   is still accepted).
   */
  function TokenUsers(ts: seq<LinkToken>, token: string, now: Millis): (users: set<UserId>)
    ensures forall u :: u in users <==> exists x :: x in ts && x.token == token && x.expiresAt >= now && x.userId == u
  {
    set x | x in ts && x.token == token && x.expiresAt >= now :: x.userId
  }

  /** The contact row the handler upserts. */
  function TelegramRow(user: UserId, chatId: string): (c: Contact)
    ensures c.userId == user && c.provider == "telegram" && c.contactId == chatId
  {
    Contact(user, "telegram", "chat_id", chatId)
  }

  /** Once the token's rows are deleted, the same token names nobody: a token links once. */
  lemma TokenSingleUse(ts: seq<LinkToken>, token: string, now: Millis)
    ensures TokenUsers(DropToken(ts, token), token, now) == {}
  {
  }

  /**
   After a link, the worker's fallback finds the linked chat: a payload that
   names only the user resolves to it, whatever contacts the user had before.
   */
  lemma LinkedChatResolves(cs: seq<Contact>, user: UserId, chatId: string, p: Payload)
    requires UniqueContacts(cs) && chatId != ""
    requires p.chatId == "" && p.to == "" && p.userId == user && user != ""
    ensures ResolveChatId(p, Upsert(cs, TelegramRow(user, chatId)), false) == Some(chatId)
  {
    var row := TelegramRow(user, chatId);
    UpsertKeepsUnique(cs, row);
    var r := Upsert(cs, row);
    var j :| 0 <= j < |r| && r[j] == row;
  }

  /**
   The handler. `tokenFails` is a database error on the token query and
   `upsertFails` one on the contact upsert. `linked` is the user the token
   named; `.limit(1)` picks one of the matching rows, so when several match
   the model lets it be any of them.
   */
  method Link(db: Database, httpMethod: string, token: string, chatId: string, now: Millis,
              tokenFails: bool, upsertFails: bool)
    returns (resp: Response, linked: Option<UserId>)
    requires db.Valid()
    modifies db
    ensures db.Valid()
    ensures db.subscriptions == old(db.subscriptions) && db.notifications == old(db.notifications)
    ensures db.nextSubId == old(db.nextSubId) && db.nextNotifId == old(db.nextNotifId)
    ensures httpMethod != "POST" ==> resp == MethodNotAllowed
    ensures httpMethod == "POST" && (token == "" || chatId == "") ==> resp == Response(400, "Missing token or chat_id")
    ensures httpMethod == "POST" && token != "" && chatId != "" && (tokenFails || TokenUsers(old(db.linkTokens), token, now) == {})
      ==> resp == Response(401, "Invalid or expired token.")
    ensures linked.Some? <==>
      httpMethod == "POST" && token != "" && chatId != "" && !tokenFails && TokenUsers(old(db.linkTokens), token, now) != {}
    ensures linked.Some? ==> linked.value in TokenUsers(old(db.linkTokens), token, now)
    ensures (linked.None? || upsertFails) ==> db.contacts == old(db.contacts) && db.linkTokens == old(db.linkTokens)
    ensures linked.Some? && upsertFails ==> resp == Response(500, "Failed to link contact")
    ensures linked.Some? && !upsertFails ==>
      var user := linked.value;
      resp == Response(200, "Telegram contact linked successfully.") &&
      db.contacts == Upsert(old(db.contacts), TelegramRow(user, chatId)) &&
      db.linkTokens == DropToken(old(db.linkTokens), token) &&
      TokenUsers(db.linkTokens, token, now) == {} &&
      TelegramRow(user, chatId) in db.contacts &&
      (forall c :: c in db.contacts && c.userId == user && c.provider == "telegram" ==> c == TelegramRow(user, chatId)) &&
      (forall c :: c in old(db.contacts) && (c.userId != user || c.provider != "telegram") ==> c in db.contacts)
    ensures linked.Some? && !upsertFails && linked.value != "" ==>
      forall p: Payload :: p.chatId == "" && p.to == "" && p.userId == linked.value ==>
        ResolveChatId(p, db.contacts, false) == Some(chatId)
  {
    linked := None;
    if httpMethod != "POST" {
      return MethodNotAllowed, linked;
    }
    if token == "" || chatId == "" {
      return Response(400, "Missing token or chat_id"), linked;
    }
    if tokenFails {
      return Response(401, "Invalid or expired token."), linked;
    }
    var users := TokenUsers(db.linkTokens, token, now);
    if users == {} {
      return Response(401, "Invalid or expired token."), linked;
    }
    var user :| user in users;
    linked := Some(user);
    if upsertFails {
      return Response(500, "Failed to link contact"), linked;
    }
    var row := TelegramRow(user, chatId);
    UpsertKeepsUnique(db.contacts, row);
    ghost var before := db.contacts;
    db.UpsertContact(row);
    forall p: Payload | p.chatId == "" && p.to == "" && p.userId == user && user != ""
      ensures ResolveChatId(p, db.contacts, false) == Some(chatId)
    {
      LinkedChatResolves(before, user, chatId, p);
    }
    ghost var tokens := db.linkTokens;
    db.DeleteToken(token);
    TokenSingleUse(tokens, token, now);
    resp := Response(200, "Telegram contact linked successfully.");
  }
}
