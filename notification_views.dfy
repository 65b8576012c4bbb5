/** The notification REST actions: a user's notifications with optional type
    and read-state filters, marking one or all read, and the unread count. */
module NotificationViews {
  import opened Common
  import opened Text
  import opened NotificationData

  /** `is_read.lower() == 'true'` */
  predicate IsTrueText(param: string) {
    LowerAscii(param) == "true"
  }

  /** Exactly the sixteen capitalisations of `true` select read rows; any
      other text (`'1'`, `'yes'`, `''`) selects unread ones. */
  lemma IsTrueTextExactly(param: string)
    ensures IsTrueText(param) <==>
              |param| == 4 && param[0] in {'t', 'T'} && param[1] in {'r', 'R'} &&
              param[2] in {'u', 'U'} && param[3] in {'e', 'E'}
  {
    if IsTrueText(param) {
      assert LowerChar(param[0]) == 't' && LowerChar(param[1]) == 'r';
      assert LowerChar(param[2]) == 'u' && LowerChar(param[3]) == 'e';
    } else if |param| == 4 {
      assert LowerAscii(param) != "true";
      var i :| 0 <= i < 4 && LowerAscii(param)[i] != "true"[i];
    }
  }

  /** Whether a row passes the optional filters of `user_notifications`. */
  predicate Selected(n: Notification, typeParam: Option<string>, isReadParam: Option<string>) {
    (Given(typeParam) ==> n.kind == typeParam.value) &&
    (isReadParam.Some? ==> n.isRead == IsTrueText(isReadParam.value))
  }

  /** `user_notifications` as intended, the type filter and the serializer's
      type field both on the model's `notification_type`: the ids of the user's rows that pass the filters;
      a missing `user_id` is a 400. */
  function UserNotifications(rows: map<nat, Notification>, userParam: Option<string>, typeParam: Option<string>,
                             isReadParam: Option<string>): (r: Result<set<nat>>)
    ensures !Given(userParam) ==> r == Err(BadRequest)
    ensures r.Ok? <==> RequiredId(userParam).Ok?
    ensures r.Ok? ==> forall k :: k in r.value <==>
              k in rows && rows[k].user == RequiredId(userParam).value && Selected(rows[k], typeParam, isReadParam)
    ensures r.Err? ==> RequiredId(userParam).Err? && r.error == RequiredId(userParam).error
  {
    match RequiredId(userParam)
    case Err(e) => Err(e)
    case Ok(uid) => Ok(set k | k in rows && rows[k].user == uid && Selected(rows[k], typeParam, isReadParam))
  }

  /** `user_notifications` as written. The type filter names `type`, which
      is not a field of the model, so building it raises `FieldError`, a 500.
      Without a type the selection is the intended one, but the serializer's
      field list names the same `type`, so only an empty selection renders. */
  function UserNotificationsAsWritten(rows: map<nat, Notification>, userParam: Option<string>,
                                      typeParam: Option<string>, isReadParam: Option<string>): (r: Result<set<nat>>)
    ensures r.Ok? ==> !Given(typeParam) && r == UserNotifications(rows, userParam, typeParam, isReadParam) && r.value == {}
    ensures !Given(typeParam) && UserNotifications(rows, userParam, typeParam, isReadParam).Err? ==>
              r == UserNotifications(rows, userParam, typeParam, isReadParam)
    ensures !Given(typeParam) && UserNotifications(rows, userParam, typeParam, isReadParam).Ok? ==>
              (r.Ok? <==> UserNotifications(rows, userParam, typeParam, isReadParam).value == {})
    ensures Given(typeParam) ==> r.Err? && (r.error == BadRequest <==> !Given(userParam))
  {
    match RequiredId(userParam)
    case Err(e) => Err(e)
    case Ok(_) =>
      if Given(typeParam) then Err(InternalError)
      else RenderedWithUnknownField(UserNotifications(rows, userParam, typeParam, isReadParam))
  }

  /** The discrepancy of the serializer: as written, a user with any
      notification that passes the read filter gets a 500, where the intended
      listing answers with that notification. */
  lemma ListingFailsOnAnyRow(rows: map<nat, Notification>, userParam: Option<string>, isReadParam: Option<string>,
                             k: nat)
    requires RequiredId(userParam).Ok?
    requires k in rows && rows[k].user == RequiredId(userParam).value && Selected(rows[k], None, isReadParam)
    ensures k in UserNotifications(rows, userParam, None, isReadParam).value
    ensures UserNotificationsAsWritten(rows, userParam, None, isReadParam) == Err(InternalError)
  {
  }

  /** The discrepancy: every type filter fails as written, where the
      intended listing answers with the user's rows of that type. */
  lemma TypeFilterAlwaysFails(rows: map<nat, Notification>, userParam: Option<string>, kind: string,
                              isReadParam: Option<string>)
    requires RequiredId(userParam).Ok? && kind != ""
    ensures UserNotificationsAsWritten(rows, userParam, Some(kind), isReadParam) == Err(InternalError)
    ensures UserNotifications(rows, userParam, Some(kind), isReadParam).Ok?
    ensures forall k :: k in UserNotifications(rows, userParam, Some(kind), isReadParam).value ==> rows[k].kind == kind
  {
  }

  /** `unread_count`: the number of the user's unread rows; a missing
      `user_id` is a 400. */
  function UnreadCountAction(rows: map<nat, Notification>, userParam: Option<string>): (r: Result<nat>)
    ensures !Given(userParam) ==> r == Err(BadRequest)
    ensures r.Ok? <==> RequiredId(userParam).Ok?
    ensures r.Ok? ==> r.value == |UnreadIds(rows, RequiredId(userParam).value)|
  {
    match RequiredId(userParam)
    case Err(e) => Err(e)
    case Ok(uid) => Ok(UnreadCount(rows, uid))
  }

  /** The unread count and the notification list agree: the count is the
      size of the list filtered to `is_read=false`. */
  lemma CountMatchesUnreadList(rows: map<nat, Notification>, userParam: Option<string>)
    ensures UserNotifications(rows, userParam, None, Some("false")).Ok? <==> UnreadCountAction(rows, userParam).Ok?
    ensures UnreadCountAction(rows, userParam).Ok? ==>
              UnreadCountAction(rows, userParam) == Ok(|UserNotifications(rows, userParam, None, Some("false")).value|)
  {
    if RequiredId(userParam).Ok? {
      var uid := RequiredId(userParam).value;
      assert !IsTrueText("false") by {
        assert LowerAscii("false") != "true";
      }
      assert UserNotifications(rows, userParam, None, Some("false")).value == UnreadIds(rows, uid);
    }
  }

  /** `mark_read` as intended, the serializer rendering the type from
      `notification_type`: `get_object` answers 404 for a missing id;
      otherwise the row is marked read, even if it was read already, and
      returned. */
  method MarkReadAction(table: NotificationTable, id: nat, now: Timestamp) returns (r: Result<Notification>)
    requires table.Valid()
    modifies table`rows
    ensures table.Valid()
    ensures table.rows == MarkOneRead(old(table.rows), id, now)
    ensures id !in old(table.rows) <==> r == Err(NotFound)
    ensures id in old(table.rows) <==> r.Ok?
    ensures r.Ok? ==> r.value == table.rows[id] && r.value.isRead && r.value.readAt == Some(now)
  {
    if id !in table.rows {
      return Err(NotFound);
    }
    table.MarkRead(id, now);
    r := Ok(table.rows[id]);
  }

  /** `mark_read` as written: the row is marked read and saved exactly as
      `MarkReadAction` does, then rendering it raises on the serializer's
      unknown `type` field, so every existing row is answered 500 while its
      read mark stays. */
  method MarkReadAsWritten(table: NotificationTable, id: nat, now: Timestamp) returns (r: Result<Notification>)
    requires table.Valid()
    modifies table`rows
    ensures table.Valid()
    ensures table.rows == MarkOneRead(old(table.rows), id, now)
    ensures r == Err(if id in old(table.rows) then InternalError else NotFound)
    ensures id in old(table.rows) ==> table.rows[id].isRead && table.rows[id].readAt == Some(now)
  {
    var intended := MarkReadAction(table, id, now);
    r := if intended.Ok? then Err(InternalError) else intended;
  }

  /** `mark_all_read`: a missing or falsy body `user_id` (a JSON `0`
      included) is a 400 and changes nothing. */
  method MarkAllReadAction(table: NotificationTable, userParam: Option<IdValue>, now: Timestamp) returns (r: Result<string>)
    requires table.Valid()
    modifies table`rows
    ensures table.Valid()
    ensures RequiredIdValue(userParam).Ok? <==> r.Ok?
    ensures r.Err? ==> r.error == RequiredIdValue(userParam).error && table.rows == old(table.rows)
    ensures r.Ok? ==> RequiredIdValue(userParam).Ok? &&
                      table.rows == MarkAllRead(old(table.rows), RequiredIdValue(userParam).value, now) &&
                      UnreadCount(table.rows, RequiredIdValue(userParam).value) == 0
  {
    match RequiredIdValue(userParam)
    case Err(e) =>
      r := Err(e);
    case Ok(uid) =>
      table.MarkAllReadFor(uid, now);
      MarkAllReadClearsOnlyThatUser(old(table.rows), uid, uid + 1, now);
      r := Ok("All notifications marked as read");
  }
}
