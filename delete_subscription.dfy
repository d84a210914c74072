/**
 The delete handler: check that the caller owns the subscription, delete all
 of its notifications, then the subscription itself.
 */
module DeleteSubscription {
  import opened Wrappers
  import opened Tables
  import opened Requests

  const Required: seq<string> := ["id", "user_id"]

  /** `!!payload[field]` for the delete body `{ id, user_id }`. */
  function Presence(id: Option<SubId>, user: UserId): string -> bool {
    field => if field == "id" then id.Some? else if field == "user_id" then user != "" else false
  }

  function Missing(id: Option<SubId>, user: UserId): Option<string> {
    FirstMissing(Required, Presence(id, user))
  }

  /** A POST naming a subscription the caller owns. */
  predicate Authorized(httpMethod: string, id: Option<SubId>, user: UserId,
                       subs: map<SubId, Subscription>, fetchFails: bool) {
    httpMethod == "POST" && id.Some? && user != "" && !fetchFails &&
    id.value in subs && subs[id.value].createdBy == user
  }

  /**
   The handler. `fetchFails` is an error of the ownership query and
   `deleteFails` one of the subscription delete. The notifications are
   deleted first, so they are gone even when the subscription delete fails.
   */
  method Delete(db: Database, httpMethod: string, id: Option<SubId>, user: UserId, fetchFails: bool, deleteFails: bool)
    returns (resp: Response)
    requires db.Valid()
    modifies db
    ensures db.Valid()
    ensures db.contacts == old(db.contacts) && db.linkTokens == old(db.linkTokens)
    ensures httpMethod != "POST" ==> resp == MethodNotAllowed
    ensures httpMethod == "POST" && Missing(id, user).Some? ==>
      resp == Response(400, "Missing required field: " + Missing(id, user).value)
    ensures httpMethod == "POST" && Missing(id, user).None? && !Authorized(httpMethod, id, user, old(db.subscriptions), fetchFails) ==>
      resp == Response(404, "Subscription not found or unauthorized.")
    ensures !Authorized(httpMethod, id, user, old(db.subscriptions), fetchFails) ==>
      db.subscriptions == old(db.subscriptions) && db.notifications == old(db.notifications)
    ensures Authorized(httpMethod, id, user, old(db.subscriptions), fetchFails) ==>
      db.notifications == DropAllFor(old(db.notifications), id.value) &&
      (forall k :: k in db.notifications ==> db.notifications[k].subscriptionId != id.value)
    ensures Authorized(httpMethod, id, user, old(db.subscriptions), fetchFails) && deleteFails ==>
      resp == Response(500, "Failed to delete subscription") && db.subscriptions == old(db.subscriptions)
    ensures Authorized(httpMethod, id, user, old(db.subscriptions), fetchFails) && !deleteFails ==>
      resp == Response(200, "Subscription deleted successfully") &&
      db.subscriptions == old(db.subscriptions) - {id.value}
  {
    if httpMethod != "POST" {
      return MethodNotAllowed;
    }
    var missing := ScanRequired(Required, Presence(id, user));
    if missing.Some? {
      return Response(400, "Missing required field: " + missing.value);
    }
    assert Presence(id, user)(Required[0]) && Presence(id, user)(Required[1]);
    var sub := id.value;
    if fetchFails || sub !in db.subscriptions || db.subscriptions[sub].createdBy != user {
      return Response(404, "Subscription not found or unauthorized.");
    }
    db.DeleteNotificationsOf(sub);
    if deleteFails {
      return Response(500, "Failed to delete subscription");
    }
    db.DeleteSubscription(sub);
    resp := Response(200, "Subscription deleted successfully");
  }

  /**
   The delete body is checked in order: without an id the error names `id`
   even when the user is missing too.
   */
  lemma MissingIdFirst(user: UserId)
    ensures Missing(None, user) == Some("id")
  {
    assert !Presence(None, user)(Required[0]);
  }
}
