/** Values shared by every part of the model: optional values, the HTTP error
    responses of the REST actions, the authenticated user of a connection,
    Python's truthiness of request values, and what a listing rendered by a
    serializer that names an unknown field answers. */
module Common {

  datatype Option<T> = None | Some(value: T) {
    /** `dict.get(key, default)` */
    function GetOr(default: T): T {
      if Some? then value else default
    }
  }

  /** The error responses the REST actions produce: 400, 404 and the 500 that
      an uncaught exception becomes. */
  datatype HttpError = BadRequest | NotFound | InternalError

  datatype Result<T> = Ok(value: T) | Err(error: HttpError)

  /** Database primary keys and user ids. */
  type UserId = nat

  /** An instant (`timezone.now()`), kept opaque. */
  type Timestamp = int

  /** A calendar date (`date.today()`, a `DateField`) as a day number. */
  type Day = int

  /** An exact two-place decimal (`DecimalField(decimal_places=2)`) in cents. */
  type Cents = int

  /** The user a connection's scope carries; an anonymous user has
      `isAuthenticated == false`. */
  datatype User = User(id: UserId, username: string, firstName: string, lastName: string, isAuthenticated: bool)

  /** `if not self.user or not self.user.is_authenticated` fails exactly when this does not hold. */
  predicate Authenticated(user: Option<User>) {
    user.Some? && user.value.isAuthenticated
  }

  /** Truthiness of an optional text value: `None` and `''` are falsy. */
  predicate Given(s: Option<string>) {
    s.Some? && s.value != ""
  }

  /** A listing rendered by a serializer whose field list names a field the
      model does not have: `ModelSerializer` raises `ImproperlyConfigured`
      when it builds the fields of the first row, so only an empty selection
      is answered, as `[]`, and any other is a 500. */
  function RenderedWithUnknownField(selection: Result<set<nat>>): (r: Result<set<nat>>)
    ensures r.Ok? <==> selection == Ok({})
    ensures r.Ok? ==> r == selection
    ensures selection.Err? ==> r == selection
    ensures selection.Ok? && selection.value != {} ==> r == Err(InternalError)
  {
    match selection
    case Err(_) => selection
    case Ok(rows) => if rows == {} then selection else Err(InternalError)
  }
}
