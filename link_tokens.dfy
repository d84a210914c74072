/**
 The Telegram link-token handler: a user asks for a one-hour token, which
 replaces every token the user held before.
 */
module LinkTokens {
  import opened TimeZones
  import opened Tables
  import opened Requests

  /** `DateTime.now().plus({ hours: 1 })`: a fixed duration, so exactly one hour later. */
  function TokenExpiry(now: Millis): (t: Millis)
    ensures t - now == HourMs
  {
    now + HourMs
  }

  /**
   The handler. `token` is the fresh random value the handler draws and
   `insertFails` a database error on the insert. On success the response
   carries the token.
   */
  method Generate(db: Database, httpMethod: string, user: UserId, token: string, now: Millis, insertFails: bool)
    returns (resp: Response)
    requires db.Valid()
    modifies db
    ensures db.Valid()
    ensures db.subscriptions == old(db.subscriptions) && db.notifications == old(db.notifications)
    ensures db.contacts == old(db.contacts)
    ensures db.nextSubId == old(db.nextSubId) && db.nextNotifId == old(db.nextNotifId)
    ensures httpMethod != "POST" ==> resp == MethodNotAllowed && db.linkTokens == old(db.linkTokens)
    ensures httpMethod == "POST" && user == "" ==>
      resp == Response(400, "Missing user_id") && db.linkTokens == old(db.linkTokens)
    ensures httpMethod == "POST" && user != "" && insertFails ==>
      resp == Response(500, "Failed to generate token") &&
      db.linkTokens == DropTokensOf(old(db.linkTokens), user) && TokensOf(db.linkTokens, user) == []
    ensures httpMethod == "POST" && user != "" && !insertFails ==>
      resp == Response(200, token) &&
      db.linkTokens == DropTokensOf(old(db.linkTokens), user) + [LinkToken(token, user, TokenExpiry(now))] &&
      TokensOf(db.linkTokens, user) == [LinkToken(token, user, TokenExpiry(now))]
    ensures forall other :: other != user ==> TokensOf(db.linkTokens, other) == TokensOf(old(db.linkTokens), other)
  {
    if httpMethod != "POST" {
      return MethodNotAllowed;
    }
    if user == "" {
      return Response(400, "Missing user_id");
    }
    var expiresAt := TokenExpiry(now);
    ghost var before := db.linkTokens;
    db.DeleteTokensOf(user);
    DropTokensOfSelects(before, user, user);
    if insertFails {
      forall other | other != user
        ensures TokensOf(db.linkTokens, other) == TokensOf(before, other)
      {
        DropTokensOfSelects(before, user, other);
      }
      return Response(500, "Failed to generate token");
    }
    var row := LinkToken(token, user, expiresAt);
    db.InsertToken(row);
    TokensOfAppend(DropTokensOf(before, user), [row], user);
    forall other | other != user
      ensures TokensOf(db.linkTokens, other) == TokensOf(before, other)
    {
      DropTokensOfSelects(before, user, other);
      TokensOfAppend(DropTokensOf(before, user), [row], other);
    }
    resp := Response(200, token);
  }
}
