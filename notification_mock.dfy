/** The first notification provider: an in-memory list seeded with three
    sample notifications, where new-post notices are put on top and any
    notification can be dismissed by id. */
module MockNotifications {
  import opened Lists

  /** A friend request (`type: 'request'`) or a new-post notice
      (`type: 'post'`). */
  datatype MockNotification =
    | FriendRequest(id: int, name: string, status: string)
    | NewPost(id: int, name: string, postLink: string)

  const INITIAL_NOTIFICATIONS: seq<MockNotification> := [
    FriendRequest(1, "여행마스터", "pending"),
    NewPost(2, "제주도민", "/post/jejudomin"),
    FriendRequest(3, "캠핑조아", "pending")
  ]

  /** The `id` every notification carries, whatever its type. */
  function IdOf(n: MockNotification): int
  {
    n.id
  }

  class NotificationProvider {
    var notifications: seq<MockNotification>

    constructor ()
      ensures notifications == INITIAL_NOTIFICATIONS
      ensures |notifications| == 3
      ensures forall i :: 0 <= i < 3 ==> notifications[i].id == i + 1
    {
      notifications := INITIAL_NOTIFICATIONS;
    }

    /** `addNotification(friendName, postLink)`; `now` stands for the
        `Date.now()` that becomes the id. */
    method AddNotification(friendName: string, postLink: string, now: int)
      modifies this
      ensures |notifications| == |old(notifications)| + 1
      ensures notifications[0] == NewPost(now, friendName, postLink)
      ensures notifications[1..] == old(notifications)
    {
      notifications := [NewPost(now, friendName, postLink)] + notifications;
    }

    /** `removeNotification(id)`. */
    method RemoveNotification(id: int)
      modifies this
      ensures notifications == WithoutId(old(notifications), id, IdOf)
      ensures forall i :: 0 <= i < |notifications| ==> notifications[i].id != id
    {
      notifications := WithoutId(notifications, id, IdOf);
    }
  }
}
