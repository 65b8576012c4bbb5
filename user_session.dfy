/** A user's login sessions: the device label the serializer shows, the
    listing of a user's active sessions, and logging out one or all of them. */
module UserSessions {
  import opened Common
  import opened Text

  /** A session row with the device fields the label uses, each `None` when null. */
  datatype Session = Session(
    id: nat,
    user: UserId,
    deviceName: Option<string>,
    osName: Option<string>,
    browserName: Option<string>,
    isActive: bool)

  /** `get_device_display`: a non-empty device name as it is; else, when both
      are non-empty, `<os>, <browser>`; else `Unknown Device`. */
  function DeviceDisplay(s: Session): (r: string)
    ensures Given(s.deviceName) ==> r == s.deviceName.value
    ensures !Given(s.deviceName) && Given(s.osName) && Given(s.browserName) ==>
              r == s.osName.value + ", " + s.browserName.value
    ensures !Given(s.deviceName) && !(Given(s.osName) && Given(s.browserName)) ==> r == "Unknown Device"
  {
    if Given(s.deviceName) then s.deviceName.value
    else if Given(s.osName) && Given(s.browserName) then s.osName.value + ", " + s.browserName.value
    else "Unknown Device"
  }

  /** An empty device name is the same as none at all, and the label is never
      empty. */
  lemma EmptyDeviceNameIsMissing(s: Session)
    ensures DeviceDisplay(s.(deviceName := Some(""))) == DeviceDisplay(s.(deviceName := None))
    ensures |DeviceDisplay(s)| > 0
  {
    if Given(s.deviceName) {
    } else if Given(s.osName) && Given(s.browserName) {
      assert |s.osName.value + ", " + s.browserName.value| >= 2;
    }
  }

  /** The ids of `user`'s active sessions. */
  function ActiveIds(rows: map<nat, Session>, user: int): set<nat> {
    set k | k in rows && rows[k].user == user && rows[k].isActive
  }

  /** `user_sessions`: the user's active sessions; a missing `user_id` is a 400. */
  function UserSessionsAction(rows: map<nat, Session>, userParam: Option<string>): (r: Result<set<nat>>)
    ensures !Given(userParam) ==> r == Err(BadRequest)
    ensures r.Ok? <==> RequiredId(userParam).Ok?
    ensures r.Ok? ==> forall k :: k in r.value <==>
              k in rows && rows[k].user == RequiredId(userParam).value && rows[k].isActive
  {
    match RequiredId(userParam)
    case Err(e) => Err(e)
    case Ok(u) => Ok(ActiveIds(rows, u))
  }

  /** `filter(user_id=u, is_active=True).update(is_active=False)` */
  function LogoutAll(rows: map<nat, Session>, user: int): (r: map<nat, Session>)
    ensures r.Keys == rows.Keys
    ensures forall k :: k in rows ==> r[k].user == rows[k].user && r[k].isActive == (rows[k].isActive && rows[k].user != user)
  {
    map k | k in rows :: if rows[k].user == user && rows[k].isActive then rows[k].(isActive := false) else rows[k]
  }

  /** After logging out all of a user's sessions the user has none active,
      no session of another user changes, and no row is removed. */
  lemma LogoutAllEffect(rows: map<nat, Session>, user: int)
    ensures ActiveIds(LogoutAll(rows, user), user) == {}
    ensures LogoutAll(rows, user).Keys == rows.Keys
    ensures forall k :: k in rows && rows[k].user != user ==> LogoutAll(rows, user)[k] == rows[k]
    ensures forall other :: other != user ==> ActiveIds(LogoutAll(rows, user), other) == ActiveIds(rows, other)
  {
    var after := LogoutAll(rows, user);
    forall k | k in after && after[k].user == user
      ensures !after[k].isActive
    {
    }
  }

  /** Logging out one session removes exactly that session from its owner's
      active list and changes no other session. */
  lemma LogoutOneEffect(rows: map<nat, Session>, id: nat, user: UserId)
    requires id in rows
    ensures var after := rows[id := rows[id].(isActive := false)];
            ActiveIds(after, user) == ActiveIds(rows, user) - {id} &&
            forall k :: k in rows && k != id ==> after[k] == rows[k]
  {
  }

  /** The session table. */
  class SessionTable {
    var rows: map<nat, Session>

    constructor (rows: map<nat, Session>)
      ensures this.rows == rows
    {
      this.rows := rows;
    }

    /** `logout_session`: 404 for a missing session; otherwise only that
        session becomes inactive. */
    method LogoutSession(id: nat) returns (r: Result<string>)
      modifies this
      ensures id !in old(rows) <==> r == Err(NotFound)
      ensures r.Err? ==> rows == old(rows)
      ensures r.Ok? ==> rows == old(rows)[id := old(rows)[id].(isActive := false)]
    {
      if id !in rows {
        return Err(NotFound);
      }
      var session := rows[id];
      session := session.(isActive := false);
      rows := rows[id := session];
      r := Ok("Session logged out successfully");
    }

    /** `logout_all_sessions`: a missing or falsy body `user_id` (a JSON `0`
        included) is a 400 and changes nothing. */
    method LogoutAllSessions(userParam: Option<IdValue>) returns (r: Result<string>)
      modifies this
      ensures r.Ok? <==> RequiredIdValue(userParam).Ok?
      ensures r.Err? ==> r.error == RequiredIdValue(userParam).error && rows == old(rows)
      ensures r.Ok? ==> RequiredIdValue(userParam).Ok? && rows == LogoutAll(old(rows), RequiredIdValue(userParam).value) &&
                        ActiveIds(rows, RequiredIdValue(userParam).value) == {}
    {
      match RequiredIdValue(userParam)
      case Err(e) =>
        r := Err(e);
      case Ok(u) =>
        rows := LogoutAll(rows, u);
        LogoutAllEffect(old(rows), u);
        r := Ok("All sessions logged out successfully");
    }
  }
}
