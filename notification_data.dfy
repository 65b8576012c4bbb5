/** The notification table shared by the notification consumer, the
    notification REST views and the loan status trigger: rows by id, the unread
    count per user, and the read-marking updates. */
module NotificationData {
  import opened Common

  /** A notification row. `kind` is the type the REST filter and the loan
      trigger use; `loan` is the related loan. */
  datatype Notification = Notification(
    id: nat,
    user: UserId,
    kind: string,
    title: string,
    message: string,
    loan: Option<nat>,
    amount: Option<Cents>,
    isRead: bool,
    readAt: Option<Timestamp>,
    createdAt: Timestamp)

  /** The keyword arguments `Notification(...)` and `objects.create(...)`
      accept: each field's name, and `<name>_id` for each foreign key. */
  const NotificationKeywords: set<string> :=
    {"id", "user", "user_id", "notification_type", "title", "message", "loan", "loan_id",
     "conversation", "conversation_id", "amount", "is_read", "read_at", "action_text",
     "action_url", "created_at"}

  /** The ids of `user`'s unread rows: `filter(user=..., is_read=False)`.
      The user is the id as requested, so a negative one matches no row. */
  function UnreadIds(rows: map<nat, Notification>, user: int): set<nat> {
    set k | k in rows && rows[k].user == user && !rows[k].isRead
  }

  /** `filter(user=..., is_read=False).count()` */
  function UnreadCount(rows: map<nat, Notification>, user: int): nat {
    |UnreadIds(rows, user)|
  }

  /** A row after `is_read = True; read_at = now`. */
  function Read(n: Notification, now: Timestamp): Notification {
    n.(isRead := true, readAt := Some(now))
  }

  /** Marks one existing row read, refreshing `read_at` even if it was already read. */
  function MarkOneRead(rows: map<nat, Notification>, id: nat, now: Timestamp): (r: map<nat, Notification>)
    ensures r.Keys == rows.Keys
    ensures forall k :: k in rows && k != id ==> r[k] == rows[k]
    ensures id in rows ==> r[id].isRead && r[id].readAt == Some(now) && r[id].user == rows[id].user
  {
    if id in rows then rows[id := Read(rows[id], now)] else rows
  }

  /** `get(id=..., user=self.user)` then mark it read; a foreign or missing id
      changes nothing. */
  function MarkOwnedRead(rows: map<nat, Notification>, id: nat, user: UserId, now: Timestamp): (r: map<nat, Notification>)
    ensures r.Keys == rows.Keys
    ensures forall k :: k in rows && (k != id || rows[k].user != user) ==> r[k] == rows[k]
    ensures id in rows && rows[id].user == user ==> r[id].isRead && r[id].readAt == Some(now)
  {
    if id in rows && rows[id].user == user then MarkOneRead(rows, id, now) else rows
  }

  /** `filter(user=..., is_read=False).update(is_read=True, read_at=now)` */
  function MarkAllRead(rows: map<nat, Notification>, user: int, now: Timestamp): (r: map<nat, Notification>)
    ensures r.Keys == rows.Keys
    ensures forall k :: k in rows ==> r[k].user == rows[k].user && r[k].isRead == (rows[k].isRead || rows[k].user == user)
  {
    map k | k in rows :: if rows[k].user == user && !rows[k].isRead then Read(rows[k], now) else rows[k]
  }

  /** After marking all read, the user has no unread row, every other user's
      unread rows are the same, rows that were already read keep their
      `read_at`, and no row is added or removed. */
  lemma MarkAllReadClearsOnlyThatUser(rows: map<nat, Notification>, user: int, other: int, now: Timestamp)
    requires other != user
    ensures UnreadCount(MarkAllRead(rows, user, now), user) == 0
    ensures UnreadIds(MarkAllRead(rows, user, now), other) == UnreadIds(rows, other)
    ensures MarkAllRead(rows, user, now).Keys == rows.Keys
    ensures forall k :: k in rows && (rows[k].isRead || rows[k].user != user) ==> MarkAllRead(rows, user, now)[k] == rows[k]
  {
    var after := MarkAllRead(rows, user, now);
    assert UnreadIds(after, user) == {} by {
      forall k | k in after && after[k].user == user
        ensures after[k].isRead
      {
      }
    }
  }

  /** Marking one row read removes it from its owner's unread set if it was
      there and changes no other row; marking it again only moves `read_at`. */
  lemma MarkOneReadEffect(rows: map<nat, Notification>, id: nat, user: UserId, now: Timestamp, later: Timestamp)
    requires id in rows
    ensures UnreadIds(MarkOneRead(rows, id, now), user) == UnreadIds(rows, user) - {id}
    ensures MarkOneRead(rows, id, now)[id].readAt == Some(now)
    ensures MarkOneRead(MarkOneRead(rows, id, now), id, later) == MarkOneRead(rows, id, later)
    ensures forall k :: k in rows && k != id ==> MarkOneRead(rows, id, now)[k] == rows[k]
  {
    assert MarkOneRead(rows, id, now)[id := Read(rows[id], later)] == rows[id := Read(rows[id], later)];
  }

  /** An unread row for `user` under a fresh id raises that user's count by
      exactly one and leaves every other user's count as it was. */
  lemma InsertUnreadCounts(rows: map<nat, Notification>, n: Notification, other: UserId)
    requires n.id !in rows && !n.isRead && other != n.user
    ensures UnreadCount(rows[n.id := n], n.user) == UnreadCount(rows, n.user) + 1
    ensures UnreadCount(rows[n.id := n], other) == UnreadCount(rows, other)
  {
    assert UnreadIds(rows[n.id := n], n.user) == UnreadIds(rows, n.user) + {n.id};
    assert UnreadIds(rows[n.id := n], other) == UnreadIds(rows, other);
  }

  /** The notification table with its auto-increment id. */
  class NotificationTable {
    var rows: map<nat, Notification>
    var nextId: nat

    ghost predicate Valid()
      reads this
    {
      forall k :: k in rows ==> k < nextId && rows[k].id == k
    }

    constructor (rows: map<nat, Notification>, nextId: nat)
      requires forall k :: k in rows ==> k < nextId && rows[k].id == k
      ensures Valid() && this.rows == rows && this.nextId == nextId
    {
      this.rows := rows;
      this.nextId := nextId;
    }

    /** `Notification.objects.create(...)` of an unread row. */
    method Insert(user: UserId, kind: string, title: string, message: string, loan: Option<nat>, now: Timestamp)
      returns (id: nat)
      requires Valid()
      modifies this
      ensures Valid()
      ensures id == old(nextId) && id !in old(rows) && nextId == id + 1
      ensures rows == old(rows)[id := Notification(id, user, kind, title, message, loan, None, false, None, now)]
    {
      id := nextId;
      rows := rows[id := Notification(id, user, kind, title, message, loan, None, false, None, now)];
      nextId := nextId + 1;
    }

    /** Mark one row read, whoever owns it (the REST `mark_read`). */
    method MarkRead(id: nat, now: Timestamp)
      requires Valid()
      modifies this`rows
      ensures Valid()
      ensures rows == MarkOneRead(old(rows), id, now)
    {
      if id in rows {
        rows := rows[id := Read(rows[id], now)];
      }
    }

    /** Mark one row read if `user` owns it (the consumer's `mark_read`). */
    method MarkReadFor(id: nat, user: UserId, now: Timestamp)
      requires Valid()
      modifies this`rows
      ensures Valid()
      ensures rows == MarkOwnedRead(old(rows), id, user, now)
    {
      if id in rows && rows[id].user == user {
        rows := rows[id := Read(rows[id], now)];
      }
    }

    /** Mark all of `user`'s unread rows read. */
    method MarkAllReadFor(user: int, now: Timestamp)
      requires Valid()
      modifies this`rows
      ensures Valid()
      ensures rows == MarkAllRead(old(rows), user, now)
    {
      rows := MarkAllRead(rows, user, now);
    }
  }
}
