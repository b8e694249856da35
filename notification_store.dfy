/** The server-backed notification provider: the list starts empty, is
    loaded from the server once a user is signed in, and can be extended and
    pruned locally. */
module Notifications {
  import opened Browser
  import opened Lists
  import Login

  /** A notification as the list endpoint returns it and as
      `addNotification` builds it. */
  datatype Notification = Notification(id: int, content: string, createdAt: string)

  /** The decoded reply of `GET /api/notification/list`. */
  datatype ListResponse = ListResponse(status: int, notification: seq<Notification>)

  /** The storage key of the user id the provider reads when it is created
      (next to `ACCESS_TOKEN_KEY`). */
  const USER_ID_KEY: string := "userId"

  /** The effect on mount: the list is fetched only for a signed-in user,
      that is with both a user id and an access token in storage. */
  predicate FetchesOnMount(userId: Option<string>, token: Option<string>)
  {
    Truthy(userId) && Truthy(token)
  }

  /** The login form stores the tokens but never a user id, so once it has
      signed a user in, the provider fetches exactly when a user id was
      already in storage before. */
  lemma FetchesAfterLogin(items: map<string, string>, email: string, remember: bool, r: Login.LoginResponse)
    requires Login.Succeeds(r)
    ensures var after := Login.StorageAfterLogin(items, email, remember, r);
      FetchesOnMount(StoredValue(after, USER_ID_KEY), StoredValue(after, ACCESS_TOKEN_KEY))
      <==> Truthy(StoredValue(items, USER_ID_KEY))
  {
    var after := Login.StorageAfterLogin(items, email, remember, r);
    assert USER_ID_KEY != ACCESS_TOKEN_KEY && USER_ID_KEY != Login.REFRESH_TOKEN_KEY && USER_ID_KEY != Login.SAVED_EMAIL_KEY;
    assert StoredValue(after, USER_ID_KEY) == StoredValue(items, USER_ID_KEY);
  }

  function IdOf(n: Notification): int
  {
    n.id
  }

  class NotificationProvider {
    var notifications: seq<Notification>

    constructor ()
      ensures notifications == []
    {
      notifications := [];
    }

    /** `fetchNotifications`: the reply replaces the list only when its
        status is 200; any other reply, or a failed request, keeps it. */
    method FetchNotifications(reply: FetchOutcome<ListResponse>)
      modifies this
      ensures reply.Fetched? && reply.data.status == 200 ==> notifications == reply.data.notification
      ensures !(reply.Fetched? && reply.data.status == 200) ==> notifications == old(notifications)
    {
      match reply
      case Fetched(data) =>
        if data.status == 200 {
          notifications := data.notification;
        }
      case FetchFailed =>
    }

    /** The mount effect, with `userId` and `token` as read from storage and
        `reply` what the list endpoint would answer. */
    method Mount(userId: Option<string>, token: Option<string>, reply: FetchOutcome<ListResponse>)
      returns (requested: bool)
      modifies this
      ensures requested <==> FetchesOnMount(userId, token)
      ensures requested && reply.Fetched? && reply.data.status == 200 ==> notifications == reply.data.notification
      ensures !(requested && reply.Fetched? && reply.data.status == 200) ==> notifications == old(notifications)
    {
      requested := FetchesOnMount(userId, token);
      if requested {
        FetchNotifications(reply);
      }
    }

    /** `addNotification(content)`; `now` and `isoNow` stand for the
        `Date.now()` id and the `new Date().toISOString()` timestamp. */
    method AddNotification(content: string, now: int, isoNow: string)
      modifies this
      ensures |notifications| == |old(notifications)| + 1
      ensures notifications[0] == Notification(now, content, isoNow)
      ensures notifications[1..] == old(notifications)
    {
      notifications := [Notification(now, content, isoNow)] + notifications;
    }

    /** `removeNotification(id)`. */
    method RemoveNotification(id: int)
      modifies this
      ensures notifications == WithoutId(old(notifications), id, IdOf)
      ensures forall i :: 0 <= i < |notifications| ==> notifications[i].id != id
    {
      notifications := WithoutId(notifications, id, IdOf);
    }
  }
}
