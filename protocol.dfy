/**
 * The handlers of backend/controllers/auth.controller.js as functions from
 * the shared state (user table and refresh-token cache) and a request to a
 * response and the next state. Each early `return` and each `catch` of the
 * source is a branch here; a `throw` inside a `try` becomes the 500 branch.
 */
module Protocol {
  import opened Wrappers
  import opened Jwt
  import opened Redis
  import opened TokenUtils
  import opened UserModel

  /** The options the refresh handler passes to `res.cookie`. */
  datatype CookieOptions = CookieOptions(httpOnly: bool, secure: bool, sameSite: string, maxAgeMs: nat)

  /** What a handler does to the response's cookies. */
  datatype CookieOp =
    | SetSession(accessToken: Token, refreshToken: Token)  // setCookies(res, accessToken, refreshToken)
    | SetCookie(name: string, value: Token, options: CookieOptions)  // res.cookie
    | ClearCookie(name: string)  // res.clearCookie

  /** The JSON bodies the handlers send. */
  datatype Body =
    | Message(message: string)
    | MessageWithError(message: string, error: string)
    | UserSummary(id: UserId, name: string, email: string, role: Role)
    | Profile(user: UserRecord)

  datatype Response = Response(status: nat, body: Body, cookies: seq<CookieOp>)

  datatype SignupRequest = SignupRequest(email: Option<string>, password: Option<string>, name: Option<string>)
  datatype LoginRequest = LoginRequest(email: Option<string>, password: Option<string>)
  /** `req.cookies`. */
  datatype RequestCookies = RequestCookies(accessToken: Option<Token>, refreshToken: Option<Token>)

  /** The user table, keyed by stored email, and the cache entries. */
  datatype State = State(users: map<string, UserRecord>, store: map<string, Entry>)
  datatype Outcome = Outcome(res: Response, next: State)

  const UserExists := "User already exists"
  const InvalidCredentials := "Invalid email or password"
  const LoggedOut := "Logged out successfully"
  const NoRefreshToken := "No refresh token provided"
  const InvalidRefreshToken := "Invalid refresh token"
  const Refreshed := "Token refreshed successfully"
  /** `15 * 60 * 1000`. */
  const AccessCookieMaxAgeMs: nat := 15 * 60 * 1000

  /** Every record sits under its own stored email, which is in normal form. */
  ghost predicate TableValid(users: map<string, UserRecord>)
  {
    forall e :: e in users ==> users[e].email == e && NormalizeEmail(e) == e
  }

  /** Inserting a record under its own normalised email keeps the table valid. */
  lemma InsertKeepsTableValid(users: map<string, UserRecord>, u: UserRecord)
    requires TableValid(users) && NormalizeEmail(u.email) == u.email
    ensures TableValid(users[u.email := u])
  {
    var t := users[u.email := u];
    forall e | e in t
      ensures t[e].email == e && NormalizeEmail(e) == e
    {
      if e != u.email {
        assert t[e] == users[e];
      }
    }
  }

  /** No two records share an id (the `_id` index of the database). */
  ghost predicate UniqueIds(users: map<string, UserRecord>)
  {
    forall e, f :: e in users && f in users && users[e].id == users[f].id ==> e == f
  }

  ghost predicate IdFresh(users: map<string, UserRecord>, id: UserId)
  {
    forall e :: e in users ==> users[e].id != id
  }

  /** A record with a fresh id keeps the ids unique wherever it is inserted. */
  lemma InsertKeepsUniqueIds(users: map<string, UserRecord>, key: string, u: UserRecord)
    requires UniqueIds(users) && IdFresh(users, u.id)
    ensures UniqueIds(users[key := u])
  {
  }

  /** `User.findOne({ email })`; the email setters apply to the query too. */
  function FindByEmail(users: map<string, UserRecord>, email: Option<string>): (r: Option<UserRecord>)
    ensures email.None? ==> r.None?
  {
    if email.Some? && NormalizeEmail(email.value) in users then Some(users[NormalizeEmail(email.value)])
    else None
  }

  /**
   * In a valid table, a lookup by any spelling of an email finds a record
   * exactly when one stores that email in normal form, and then that one.
   */
  lemma FindByEmailFinds(users: map<string, UserRecord>, email: string)
    requires TableValid(users)
    ensures FindByEmail(users, Some(email)).Some? <==>
      exists e :: e in users && users[e].email == NormalizeEmail(email)
    ensures FindByEmail(users, Some(email)).Some? ==>
      && FindByEmail(users, Some(email)).value in users.Values
      && FindByEmail(users, Some(email)).value.email == NormalizeEmail(email)
  {
    var key := NormalizeEmail(email);
    if key in users {
      assert users[key].email == key;
      assert users[key] in users.Values;
    } else {
      forall e | e in users
        ensures users[e].email != key
      {
        assert users[e].email == e;
      }
    }
  }

  /** A stored record is found again by its own stored email. */
  lemma StoredRecordFound(users: map<string, UserRecord>, e: string)
    requires TableValid(users) && e in users
    ensures FindByEmail(users, Some(users[e].email)) == Some(users[e])
  {
  }

  /** `if (refreshToken)`: an absent cookie and the empty string are both falsy. */
  predicate Present(cookie: Option<Token>)
  {
    cookie.Some? && cookie.value != Opaque("")
  }

  function Summary(u: UserRecord): Body
  {
    UserSummary(u.id, u.name, u.email, u.role)
  }

  function AccessCookieOptions(production: bool): CookieOptions
  {
    CookieOptions(true, production, "strict", AccessCookieMaxAgeMs)
  }

  function ClearBoth(): seq<CookieOp>
  {
    [ClearCookie("accessToken"), ClearCookie("refreshToken")]
  }

  function SignupInput(req: SignupRequest): UserInput
  {
    UserInput(req.name, req.email, req.password, None, [])
  }

  /** `signup`; `newId` is the `_id` the database assigns, `salt` bcrypt's salt. */
  function Signup(s: State, req: SignupRequest, newId: UserId, salt: nat, nowMs: nat): (o: Outcome)
    ensures o.res.status in {201, 400, 500}
    ensures o.res.status != 201 ==> o.next == s && o.res.cookies == []
    ensures o.res.status == 201 ==> s.users.Keys < o.next.users.Keys && |o.res.cookies| == 1
  {
    if FindByEmail(s.users, req.email).Some? then
      Outcome(Response(400, Message(UserExists), []), s)
    else
      match Create(SignupInput(req), newId, salt)
      case Failure(errors) => Outcome(Response(500, Message(ValidationMessage(errors)), []), s)
      case Success(user) =>
        var pair := GenerateTokens(user.id, nowMs);
        Outcome(Response(201, Summary(user), [SetSession(pair.accessToken, pair.refreshToken)]),
          State(s.users[user.email := user], Stored(s.store, user.id, pair.refreshToken, nowMs)))
  }

  /** `login`. */
  function Login(s: State, req: LoginRequest, nowMs: nat): (o: Outcome)
    ensures o.res.status in {200, 400, 500}
    ensures o.next.users == s.users
    ensures o.res.status != 200 ==> o.next == s && o.res.cookies == []
    ensures o.res.status == 200 ==>
      o.res.body.UserSummary? && o.next.store.Keys == s.store.Keys + {RefreshKey(o.res.body.id)}
  {
    match FindByEmail(s.users, req.email)
    case None => Outcome(Response(400, Message(InvalidCredentials), []), s)
    case Some(user) =>
      match ComparePassword(user, req.password)
      case Failure(msg) => Outcome(Response(500, Message(msg), []), s)
      case Success(ok) =>
        if !ok then Outcome(Response(400, Message(InvalidCredentials), []), s)
        else
          var pair := GenerateTokens(user.id, nowMs);
          Outcome(Response(200, Summary(user), [SetSession(pair.accessToken, pair.refreshToken)]),
            State(s.users, Stored(s.store, user.id, pair.refreshToken, nowMs)))
  }

  /** `logout`. */
  function Logout(s: State, cookies: RequestCookies, nowMs: nat): (o: Outcome)
    ensures o.res.status in {200, 500}
    ensures o.next.users == s.users && o.next.store.Keys <= s.store.Keys
    ensures o.res.status == 200 <==> o.res.cookies == ClearBoth()
    ensures o.res.status == 500 ==> o.next == s && o.res.cookies == []
    ensures !Present(cookies.refreshToken) ==> o.next == s
  {
    if !Present(cookies.refreshToken) then
      Outcome(Response(200, Message(LoggedOut), ClearBoth()), s)
    else
      match Verify(cookies.refreshToken.value, Refresh, nowMs)
      case Failure(e) => Outcome(Response(500, Message("Server error: " + ErrorMessage(e)), []), s)
      case Success(c) =>
        Outcome(Response(200, Message(LoggedOut), ClearBoth()),
          State(s.users, s.store - {RefreshKey(c.userId)}))
  }

  /** `refreshAccessToken`; `production` is `NODE_ENV === "production"`. */
  function RefreshAccessToken(s: State, cookies: RequestCookies, nowMs: nat, production: bool): (o: Outcome)
    ensures o.res.status in {200, 401, 500}
    ensures o.res.status != 200 ==> o.res.cookies == []
    ensures o.res.status == 200 ==>
      |o.res.cookies| == 1 && o.res.cookies[0].SetCookie? && o.res.cookies[0].name == "accessToken"
  {
    if !Present(cookies.refreshToken) then
      Outcome(Response(401, Message(NoRefreshToken), []), s)
    else
      var token := cookies.refreshToken.value;
      match Verify(token, Refresh, nowMs)
      case Failure(e) => Outcome(Response(500, MessageWithError("Server error", ErrorMessage(e)), []), s)
      case Success(c) =>
        if Lookup(s.store, RefreshKey(c.userId), nowMs) != Some(token) then
          Outcome(Response(401, Message(InvalidRefreshToken), []), s)
        else
          var access := Sign(Access, c.userId, AccessLifetime, nowMs);
          Outcome(Response(200, Message(Refreshed),
            [SetCookie("accessToken", access, AccessCookieOptions(production))]), s)
  }
}
