/** The notification WebSocket consumer: one object per connection of a
    signed-in user. It joins `notifications_<user id>`, reports the unread
    count on connect, lets the client mark its own notifications read, and
    relays `notification` and `unread_count` events. */
module NotificationConsumers {
  import opened Common
  import opened Text
  import opened Channels
  import opened NotificationData

  /** The frames this consumer writes. */
  datatype NotificationFrame = NotificationFrame(notification: string) | UnreadCountFrame(count: nat)

  /** The outbound `type` key. */
  function NotificationFrameType(f: NotificationFrame): string {
    match f
    case NotificationFrame(_) => "notification"
    case UnreadCountFrame(_) => "unread_count"
  }

  /** A decoded inbound frame: `action` and `notification_id`, each `None`
      when absent; the id is the JSON value as the client sent it. */
  datatype ActionFrame = ActionFrame(action: Option<string>, notificationId: Option<IdValue>)

  /** `mark_notification_read(notification_id)` on the table: `None` for the
      `ValueError` that `get` raises on text `int()` rejects; an id naming no
      row of the user, a negative one included, changes nothing. */
  function MarkOwnedById(rows: map<nat, Notification>, v: IdValue, user: UserId, now: Timestamp)
    : (r: Option<map<nat, Notification>>)
    ensures r.None? <==> IdOf(v).None?
    ensures r.Some? && IdOf(v).value < 0 ==> r.value == rows
    ensures r.Some? && IdOf(v).value >= 0 ==> r.value == MarkOwnedRead(rows, IdOf(v).value as nat, user, now)
  {
    match IdOf(v)
    case None => None
    case Some(n) => Some(if n >= 0 then MarkOwnedRead(rows, n as nat, user, now) else rows)
  }

  /** The table after one inbound frame from `user`: `mark_read` with a truthy
      id marks that row if the user owns it, `mark_all_read` marks all the
      user's unread rows, and anything else changes nothing. `None` is the
      exception an id `int()` rejects makes `receive` raise, with the table
      unchanged. */
  function AfterAction(rows: map<nat, Notification>, user: UserId, data: ActionFrame, now: Timestamp)
    : (r: Option<map<nat, Notification>>)
    ensures r.None? <==>
              data.action == Some("mark_read") && GivenValue(data.notificationId) && IdOf(data.notificationId.value).None?
    ensures data.action != Some("mark_read") && data.action != Some("mark_all_read") ==> r == Some(rows)
    ensures data.action == Some("mark_read") && !GivenValue(data.notificationId) ==> r == Some(rows)
    ensures r.Some? ==> r.value.Keys == rows.Keys
    ensures r.Some? ==> forall k :: k in rows && rows[k].user != user ==> r.value[k] == rows[k]
  {
    if data.action == Some("mark_read") then
      if GivenValue(data.notificationId) then MarkOwnedById(rows, data.notificationId.value, user, now) else Some(rows)
    else if data.action == Some("mark_all_read") then Some(MarkAllRead(rows, user, now))
    else Some(rows)
  }

  /** The outbound handlers: `notification` and `unread_count` events are
      forwarded with their payload; other events have no handler here. */
  function NotificationDeliver(e: Event): (d: Delivery<NotificationFrame>)
    ensures d.Send? <==> e.NotificationEvent? || e.UnreadCountEvent?
    ensures d.Send? ==> NotificationFrameType(d.frame) == EventType(e)
    ensures e.NotificationEvent? ==> d == Send(NotificationFrame(e.notification))
    ensures e.UnreadCountEvent? ==> d == Send(UnreadCountFrame(e.count))
    ensures !d.Skip?
  {
    match e
    case NotificationEvent(n) => Send(NotificationFrame(n))
    case UnreadCountEvent(c) => Send(UnreadCountFrame(c))
    case _ => NoHandler
  }

  /** One WebSocket connection to the user's notifications. */
  class NotificationConsumer {
    const channelName: ConnId
    const layer: ChannelLayer
    const table: NotificationTable
    var user: Option<User>
    var groupName: Option<string>
    var accepted: bool
    var closed: bool
    var sent: seq<NotificationFrame>

    ghost predicate Joined()
      reads this
    {
      Authenticated(user) && groupName == Some(NotificationsGroup(user.value.id))
    }

    constructor (channelName: ConnId, layer: ChannelLayer, table: NotificationTable)
      ensures this.channelName == channelName && this.layer == layer && this.table == table
      ensures user.None? && groupName.None? && !accepted && !closed && sent == []
    {
      this.channelName := channelName;
      this.layer := layer;
      this.table := table;
      user := None;
      groupName := None;
      accepted := false;
      closed := false;
      sent := [];
    }

    /** `connect`: an absent or anonymous user is closed without joining;
        otherwise join `notifications_<id>`, accept, and send the unread count. */
    method Connect(scopeUser: Option<User>)
      modifies this, layer
      ensures user == scopeUser
      ensures !Authenticated(scopeUser) ==>
                closed && accepted == old(accepted) && groupName == old(groupName) && sent == old(sent) &&
                layer.groups == old(layer.groups) && layer.published == old(layer.published)
      ensures Authenticated(scopeUser) ==>
                Joined() && accepted && closed == old(closed) &&
                layer.groups == Join(old(layer.groups), NotificationsGroup(scopeUser.value.id), channelName) &&
                layer.published == old(layer.published) &&
                sent == old(sent) + [UnreadCountFrame(UnreadCount(table.rows, scopeUser.value.id))]
    {
      user := scopeUser;
      if !Authenticated(user) {
        closed := true;
        return;
      }
      var g := NotificationsGroup(user.value.id);
      groupName := Some(g);
      layer.GroupAdd(g, channelName);
      accepted := true;
      var count := GetUnreadCount();
      sent := sent + [UnreadCountFrame(count)];
    }

    /** `disconnect`: leave the group only if it was joined. */
    method Disconnect()
      modifies layer
      ensures groupName.None? ==> layer.groups == old(layer.groups)
      ensures groupName.Some? ==> layer.groups == Leave(old(layer.groups), groupName.value, channelName)
      ensures layer.published == old(layer.published)
    {
      if groupName.Some? {
        layer.GroupDiscard(groupName.value, channelName);
      }
    }

    /** `receive`: no frame is sent back; the table changes as `AfterAction`
        says, and `raised` reports the exception it stands for by `None`. */
    method Receive(data: ActionFrame, now: Timestamp) returns (raised: bool)
      requires Joined() && table.Valid()
      modifies table`rows
      ensures table.Valid()
      ensures var r := AfterAction(old(table.rows), user.value.id, data, now);
              raised == r.None? && table.rows == (if r.Some? then r.value else old(table.rows))
    {
      raised := false;
      if data.action == Some("mark_read") {
        if GivenValue(data.notificationId) {
          raised := MarkNotificationRead(data.notificationId.value, now);
        }
      } else if data.action == Some("mark_all_read") {
        MarkAllNotificationsRead(now);
      }
    }

    /** `get_unread_count` */
    method GetUnreadCount() returns (n: nat)
      requires Authenticated(user)
      ensures n == UnreadCount(table.rows, user.value.id)
    {
      n := UnreadCount(table.rows, user.value.id);
    }

    /** `mark_notification_read`: `raised` is the `ValueError` of an id
        `int()` rejects; otherwise the table becomes what `MarkOwnedById` gives. */
    method MarkNotificationRead(notificationId: IdValue, now: Timestamp) returns (raised: bool)
      requires Authenticated(user) && table.Valid()
      modifies table`rows
      ensures table.Valid()
      ensures var r := MarkOwnedById(old(table.rows), notificationId, user.value.id, now);
              raised == r.None? && table.rows == (if r.Some? then r.value else old(table.rows))
    {
      var n := IdOf(notificationId);
      if n.None? {
        return true;
      }
      raised := false;
      if n.value >= 0 {
        table.MarkReadFor(n.value as nat, user.value.id, now);
      }
    }

    /** `mark_all_notifications_read` */
    method MarkAllNotificationsRead(now: Timestamp)
      requires Authenticated(user) && table.Valid()
      modifies table`rows
      ensures table.Valid()
      ensures table.rows == MarkAllRead(old(table.rows), user.value.id, now)
      ensures UnreadCount(table.rows, user.value.id) == 0
    {
      table.MarkAllReadFor(user.value.id, now);
      MarkAllReadClearsOnlyThatUser(old(table.rows), user.value.id, user.value.id + 1, now);
    }

    /** A group event arriving at this connection. */
    method OnGroupEvent(e: Event) returns (handled: bool)
      modifies this`sent
      ensures handled == NotificationDeliver(e).Send?
      ensures sent == old(sent) + (if NotificationDeliver(e).Send? then [NotificationDeliver(e).frame] else [])
    {
      var d := NotificationDeliver(e);
      handled := d.Send?;
      if d.Send? {
        sent := sent + [d.frame];
      }
    }
  }
}
