/**
 * Properties of the session protocol, stated over the handler functions of
 * module Protocol: what each failure leaves unchanged, what each success
 * writes, and how logins, refreshes and logouts interact over time.
 */
module SessionProperties {
  import opened Wrappers
  import opened Jwt
  import opened Redis
  import opened TokenUtils
  import opened UserModel
  import opened Protocol

  function RefreshWith(token: Token): RequestCookies
  {
    RequestCookies(None, Some(token))
  }

  // ---- signup ----

  /** An email already in use is refused and nothing is written. */
  lemma SignupExistingEmail(s: State, req: SignupRequest, newId: UserId, salt: nat, nowMs: nat)
    requires FindByEmail(s.users, req.email).Some?
    ensures Signup(s, req, newId, salt, nowMs) == Outcome(Response(400, Message(UserExists), []), s)
  {
  }

  /** Fields the schema rejects give a 500 with the ValidationError's text and no write. */
  lemma SignupInvalid(s: State, req: SignupRequest, newId: UserId, salt: nat, nowMs: nat)
    requires FindByEmail(s.users, req.email).None?
    requires !Acceptable(SignupInput(req))
    ensures var o := Signup(s, req, newId, salt, nowMs);
      && o.next == s
      && o.res == Response(500, Message(ValidationMessage(Errors(SignupInput(req)))), [])
  {
  }

  /**
   * A fresh, valid signup adds exactly one customer under the normalised
   * email, whose stored password matches the one given, stores the issued
   * refresh token under the new id and answers 201 with the public fields.
   */
  lemma SignupCreatesOneUser(s: State, req: SignupRequest, newId: UserId, salt: nat, nowMs: nat)
    requires FindByEmail(s.users, req.email).None?
    requires Acceptable(SignupInput(req))
    ensures var o := Signup(s, req, newId, salt, nowMs);
      var e := NormalizeEmail(req.email.value);
      var pair := GenerateTokens(newId, nowMs);
      && e !in s.users
      && o.next.users.Keys == s.users.Keys + {e}
      && |o.next.users| == |s.users| + 1
      && (forall f :: f in s.users ==> o.next.users[f] == s.users[f])
      && o.next.users[e].id == newId
      && o.next.users[e].name == req.name.value
      && o.next.users[e].role == Customer
      && o.next.users[e].cartItems == []
      && Matches(req.password.value, o.next.users[e].password)
      && o.next.store == Stored(s.store, newId, pair.refreshToken, nowMs)
      && Lookup(o.next.store, RefreshKey(newId), nowMs) == Some(pair.refreshToken)
      && o.res == Response(201, UserSummary(newId, req.name.value, e, Customer),
                           [SetSession(pair.accessToken, pair.refreshToken)])
  {
    SignupAddsRecord(s, req, newId, salt, nowMs);
    SignupIssuesSession(s, req, newId, salt, nowMs);
  }

  /** The user-table half of SignupCreatesOneUser. */
  lemma SignupAddsRecord(s: State, req: SignupRequest, newId: UserId, salt: nat, nowMs: nat)
    requires FindByEmail(s.users, req.email).None?
    requires Acceptable(SignupInput(req))
    ensures var o := Signup(s, req, newId, salt, nowMs);
      var e := NormalizeEmail(req.email.value);
      && e !in s.users
      && o.next.users.Keys == s.users.Keys + {e}
      && |o.next.users| == |s.users| + 1
      && (forall f :: f in s.users ==> o.next.users[f] == s.users[f])
      && o.next.users[e].id == newId
      && o.next.users[e].name == req.name.value
      && o.next.users[e].role == Customer
      && o.next.users[e].cartItems == []
      && Matches(req.password.value, o.next.users[e].password)
  {
    var e := NormalizeEmail(req.email.value);
    var u := Create(SignupInput(req), newId, salt).value;
    assert u.email == e && u.id == newId && u.role == Customer && u.cartItems == [];
    assert e !in s.users;
    assert Signup(s, req, newId, salt, nowMs).next.users == s.users[e := u];
    InsertNewKey(s.users, e, u);
  }

  /** Inserting under a new key adds exactly that key and keeps every other entry. */
  lemma InsertNewKey<K, V>(m: map<K, V>, k: K, v: V)
    requires k !in m
    ensures m[k := v].Keys == m.Keys + {k}
    ensures |m[k := v]| == |m| + 1
    ensures forall f :: f in m ==> m[k := v][f] == m[f]
  {
  }

  /** The cache-and-response half of SignupCreatesOneUser. */
  lemma SignupIssuesSession(s: State, req: SignupRequest, newId: UserId, salt: nat, nowMs: nat)
    requires FindByEmail(s.users, req.email).None?
    requires Acceptable(SignupInput(req))
    ensures var o := Signup(s, req, newId, salt, nowMs);
      var pair := GenerateTokens(newId, nowMs);
      && o.next.store == Stored(s.store, newId, pair.refreshToken, nowMs)
      && Lookup(o.next.store, RefreshKey(newId), nowMs) == Some(pair.refreshToken)
      && o.res == Response(201, UserSummary(newId, req.name.value, NormalizeEmail(req.email.value), Customer),
                           [SetSession(pair.accessToken, pair.refreshToken)])
  {
    var u := Create(SignupInput(req), newId, salt).value;
    assert u.email == NormalizeEmail(req.email.value) && u.id == newId && u.role == Customer;
    var pair := GenerateTokens(newId, nowMs);
    StoredLookup(s.store, newId, pair.refreshToken, nowMs, newId, nowMs);
  }

  /** Signup keeps the table keyed by email and, given a fresh `_id`, the ids distinct. */
  lemma SignupKeepsTableInvariants(s: State, req: SignupRequest, newId: UserId, salt: nat, nowMs: nat)
    requires TableValid(s.users) && UniqueIds(s.users) && IdFresh(s.users, newId)
    ensures var o := Signup(s, req, newId, salt, nowMs);
      TableValid(o.next.users) && UniqueIds(o.next.users)
  {
    if FindByEmail(s.users, req.email).None? && Acceptable(SignupInput(req)) {
      var u := Create(SignupInput(req), newId, salt).value;
      assert u.email == NormalizeEmail(req.email.value) && u.id == newId;
      NormalizeEmailIdempotent(req.email.value);
      InsertKeepsTableValid(s.users, u);
      InsertKeepsUniqueIds(s.users, u.email, u);
    }
  }

  /** A signup never changes what the cache holds for any user other than the new one. */
  lemma SignupLeavesOtherSessions(s: State, req: SignupRequest, newId: UserId, salt: nat, nowMs: nat,
                                  other: UserId, laterMs: nat)
    requires nowMs <= laterMs && other != newId
    ensures Lookup(Signup(s, req, newId, salt, nowMs).next.store, RefreshKey(other), laterMs)
      == Lookup(s.store, RefreshKey(other), laterMs)
  {
    StoredLookup(s.store, newId, GenerateTokens(newId, nowMs).refreshToken, nowMs, other, laterMs);
  }

  /** A refresh with the token signup issued succeeds for as long as that token is valid. */
  lemma SignupThenRefresh(s: State, req: SignupRequest, newId: UserId, salt: nat, nowMs: nat,
                          laterMs: nat, production: bool)
    requires FindByEmail(s.users, req.email).None?
    requires Acceptable(SignupInput(req))
    requires nowMs <= laterMs < Deadline(GenerateTokens(newId, nowMs).refreshToken)
    ensures var o := Signup(s, req, newId, salt, nowMs);
      var r := RefreshAccessToken(o.next, RefreshWith(GenerateTokens(newId, nowMs).refreshToken), laterMs, production);
      && r.res.status == 200
      && r.res.cookies[0].SetCookie?
      && Verify(r.res.cookies[0].value, Access, laterMs) == Success(r.res.cookies[0].value.claims)
      && r.res.cookies[0].value.claims.userId == newId
  {
    var t := GenerateTokens(newId, nowMs).refreshToken;
    var o := Signup(s, req, newId, salt, nowMs);
    VerifySigned(Refresh, Refresh, newId, RefreshLifetime, nowMs, laterMs);
    StoreOutlivesToken(s.store, newId, nowMs, laterMs);
    RefreshSucceeds(o.next, RefreshWith(t), laterMs, production);
  }

  // ---- login ----

  /** An unknown email or a wrong password: 400, no cookie, nothing written. */
  lemma LoginRejected(s: State, req: LoginRequest, nowMs: nat)
    requires
      || FindByEmail(s.users, req.email).None?
      || (req.password.Some? && !Matches(req.password.value, FindByEmail(s.users, req.email).value.password))
    ensures Login(s, req, nowMs) == Outcome(Response(400, Message(InvalidCredentials), []), s)
  {
  }

  /** A known email without a password makes bcrypt throw: 500 and nothing written. */
  lemma LoginWithoutPassword(s: State, req: LoginRequest, nowMs: nat)
    requires FindByEmail(s.users, req.email).Some? && req.password.None?
    ensures Login(s, req, nowMs)
      == Outcome(Response(500, Message("Illegal arguments: undefined, string"), []), s)
  {
  }

  /**
   * Correct credentials: 200 with the public fields and both cookies, the
   * user table untouched, and the user's cache entry overwritten with the
   * refresh token just issued.
   */
  lemma LoginIssuesSession(s: State, req: LoginRequest, nowMs: nat)
    requires FindByEmail(s.users, req.email).Some? && req.password.Some?
    requires Matches(req.password.value, FindByEmail(s.users, req.email).value.password)
    ensures var u := FindByEmail(s.users, req.email).value;
      var pair := GenerateTokens(u.id, nowMs);
      var o := Login(s, req, nowMs);
      && o.res == Response(200, Summary(u), [SetSession(pair.accessToken, pair.refreshToken)])
      && o.next.users == s.users
      && o.next.store == Stored(s.store, u.id, pair.refreshToken, nowMs)
      && Lookup(o.next.store, RefreshKey(u.id), nowMs) == Some(pair.refreshToken)
  {
  }

  /** A login never changes what the cache holds for any other user. */
  lemma LoginLeavesOtherSessions(s: State, req: LoginRequest, nowMs: nat, other: UserId, laterMs: nat)
    requires nowMs <= laterMs
    requires FindByEmail(s.users, req.email).Some? ==> FindByEmail(s.users, req.email).value.id != other
    ensures Lookup(Login(s, req, nowMs).next.store, RefreshKey(other), laterMs) == Lookup(s.store, RefreshKey(other), laterMs)
  {
    if FindByEmail(s.users, req.email).Some? {
      var u := FindByEmail(s.users, req.email).value;
      StoredLookup(s.store, u.id, GenerateTokens(u.id, nowMs).refreshToken, nowMs, other, laterMs);
    }
  }

  /** Logging in and then refreshing with the issued token yields an access token for the same user. */
  lemma LoginThenRefresh(s: State, req: LoginRequest, nowMs: nat, laterMs: nat, production: bool)
    requires FindByEmail(s.users, req.email).Some? && req.password.Some?
    requires Matches(req.password.value, FindByEmail(s.users, req.email).value.password)
    requires var u := FindByEmail(s.users, req.email).value;
      nowMs <= laterMs < Deadline(GenerateTokens(u.id, nowMs).refreshToken)
    ensures var u := FindByEmail(s.users, req.email).value;
      var o := Login(s, req, nowMs);
      var r := RefreshAccessToken(o.next, RefreshWith(GenerateTokens(u.id, nowMs).refreshToken), laterMs, production);
      && r.res.status == 200
      && r.res.cookies[0].SetCookie?
      && r.res.cookies[0].value.claims.userId == u.id
  {
    var u := FindByEmail(s.users, req.email).value;
    var t := GenerateTokens(u.id, nowMs).refreshToken;
    VerifySigned(Refresh, Refresh, u.id, RefreshLifetime, nowMs, laterMs);
    StoreOutlivesToken(s.store, u.id, nowMs, laterMs);
    RefreshSucceeds(Login(s, req, nowMs).next, RefreshWith(t), laterMs, production);
  }

  /**
   * Rotation: after two successful logins of the same user in different
   * seconds, the first refresh token, although still valid as a token, is
   * refused with 401, and the second one is accepted.
   */
  lemma RotationInvalidatesOlderToken(s: State, first: LoginRequest, second: LoginRequest,
                                      t1: nat, t2: nat, t3: nat, production: bool)
    requires FindByEmail(s.users, first.email).Some?
    requires FindByEmail(s.users, second.email) == FindByEmail(s.users, first.email)
    requires first.password.Some? && second.password.Some?
    requires Matches(first.password.value, FindByEmail(s.users, first.email).value.password)
    requires Matches(second.password.value, FindByEmail(s.users, first.email).value.password)
    requires t1 <= t2 <= t3 && Seconds(t1) != Seconds(t2)
    requires var u := FindByEmail(s.users, first.email).value;
      t3 < Deadline(GenerateTokens(u.id, t1).refreshToken)
    ensures var u := FindByEmail(s.users, first.email).value;
      var s2 := Login(Login(s, first, t1).next, second, t2).next;
      && RefreshAccessToken(s2, RefreshWith(GenerateTokens(u.id, t1).refreshToken), t3, production).res
           == Response(401, Message(InvalidRefreshToken), [])
      && RefreshAccessToken(s2, RefreshWith(GenerateTokens(u.id, t2).refreshToken), t3, production).res.status == 200
  {
    var u := FindByEmail(s.users, first.email).value;
    var s1 := Login(s, first, t1).next;
    assert s1.users == s.users;
    var a := GenerateTokens(u.id, t1).refreshToken;
    var b := GenerateTokens(u.id, t2).refreshToken;
    var s2 := Login(s1, second, t2).next;
    assert s2.store == Stored(s1.store, u.id, b, t2);
    assert a != b;
    VerifySigned(Refresh, Refresh, u.id, RefreshLifetime, t1, t3);
    VerifySigned(Refresh, Refresh, u.id, RefreshLifetime, t2, t3);
    StoreOutlivesToken(s1.store, u.id, t2, t3);
    RefreshSucceeds(s2, RefreshWith(b), t3, production);
  }

  /**
   * Two logins of the same user within one second sign identical refresh
   * tokens (`iat` has whole-second precision), so the first one keeps working.
   */
  lemma SameSecondLoginsShareToken(s: State, first: LoginRequest, second: LoginRequest,
                                   t1: nat, t2: nat, t3: nat, production: bool)
    requires FindByEmail(s.users, first.email).Some?
    requires FindByEmail(s.users, second.email) == FindByEmail(s.users, first.email)
    requires second.password.Some?
    requires Matches(second.password.value, FindByEmail(s.users, first.email).value.password)
    requires t1 <= t2 <= t3 && Seconds(t1) == Seconds(t2)
    requires var u := FindByEmail(s.users, first.email).value;
      t3 < Deadline(GenerateTokens(u.id, t1).refreshToken)
    ensures var u := FindByEmail(s.users, first.email).value;
      var s2 := Login(Login(s, first, t1).next, second, t2).next;
      && GenerateTokens(u.id, t1) == GenerateTokens(u.id, t2)
      && RefreshAccessToken(s2, RefreshWith(GenerateTokens(u.id, t1).refreshToken), t3, production).res.status == 200
  {
    var u := FindByEmail(s.users, first.email).value;
    var s1 := Login(s, first, t1).next;
    var b := GenerateTokens(u.id, t2).refreshToken;
    VerifySigned(Refresh, Refresh, u.id, RefreshLifetime, t2, t3);
    StoreOutlivesToken(s1.store, u.id, t2, t3);
    RefreshSucceeds(Login(s1, second, t2).next, RefreshWith(b), t3, production);
  }

  // ---- refresh ----

  /** No refresh path writes the user table or the cache: there is no rotation on refresh. */
  lemma RefreshLeavesStateAlone(s: State, cookies: RequestCookies, nowMs: nat, production: bool)
    ensures RefreshAccessToken(s, cookies, nowMs, production).next == s
  {
  }

  /** A missing or empty refresh cookie: 401 before anything else is looked at. */
  lemma RefreshWithoutCookie(s: State, cookies: RequestCookies, nowMs: nat, production: bool)
    requires !Present(cookies.refreshToken)
    ensures RefreshAccessToken(s, cookies, nowMs, production).res == Response(401, Message(NoRefreshToken), [])
  {
  }

  /** A refresh cookie that fails `jwt.verify` makes it throw: 500, not 401, and no cookie. */
  lemma RefreshUnverifiable(s: State, cookies: RequestCookies, nowMs: nat, production: bool)
    requires Present(cookies.refreshToken)
    requires Verify(cookies.refreshToken.value, Refresh, nowMs).Failure?
    ensures RefreshAccessToken(s, cookies, nowMs, production).res
      == Response(500, MessageWithError("Server error",
           ErrorMessage(Verify(cookies.refreshToken.value, Refresh, nowMs).error)), [])
  {
  }

  /** A valid token that is not the one the cache holds for its user (or none is held): 401. */
  lemma RefreshMismatch(s: State, cookies: RequestCookies, nowMs: nat, production: bool)
    requires Present(cookies.refreshToken)
    requires var c := Verify(cookies.refreshToken.value, Refresh, nowMs);
      c.Success? && Lookup(s.store, RefreshKey(c.value.userId), nowMs) != Some(cookies.refreshToken.value)
    ensures RefreshAccessToken(s, cookies, nowMs, production).res == Response(401, Message(InvalidRefreshToken), [])
  {
  }

  /**
   * A refresh succeeds exactly when the cookie verifies as a refresh token
   * and equals the cache entry of its user; it then sets one cookie only,
   * `accessToken`, with the handler's options, holding a fresh access token
   * for the same user.
   */
  lemma RefreshSucceeds(s: State, cookies: RequestCookies, nowMs: nat, production: bool)
    ensures var o := RefreshAccessToken(s, cookies, nowMs, production);
      o.res.status == 200 <==>
        && Present(cookies.refreshToken)
        && Verify(cookies.refreshToken.value, Refresh, nowMs).Success?
        && Lookup(s.store, RefreshKey(cookies.refreshToken.value.claims.userId), nowMs)
             == Some(cookies.refreshToken.value)
    ensures var o := RefreshAccessToken(s, cookies, nowMs, production);
      o.res.status == 200 ==>
        && o.res.body == Message(Refreshed)
        && |o.res.cookies| == 1
        && o.res.cookies[0].SetCookie?
        && o.res.cookies[0].name == "accessToken"
        && o.res.cookies[0].options == CookieOptions(true, production, "strict", 900000)
        && Verify(o.res.cookies[0].value, Access, nowMs) == Success(o.res.cookies[0].value.claims)
        && Verify(o.res.cookies[0].value, Refresh, nowMs) == Failure(InvalidSignature)
        && o.res.cookies[0].value.claims.userId == cookies.refreshToken.value.claims.userId
  {
    if Present(cookies.refreshToken) && Verify(cookies.refreshToken.value, Refresh, nowMs).Success? {
      var c := cookies.refreshToken.value.claims;
      var access := Sign(Access, c.userId, AccessLifetime, nowMs);
      VerifySigned(Access, Access, c.userId, AccessLifetime, nowMs, nowMs);
      VerifySigned(Access, Refresh, c.userId, AccessLifetime, nowMs, nowMs);
    }
  }

  // ---- logout ----

  /** No refresh cookie: no cache call, both cookies cleared, 200. */
  lemma LogoutWithoutCookie(s: State, cookies: RequestCookies, nowMs: nat)
    requires !Present(cookies.refreshToken)
    ensures Logout(s, cookies, nowMs) == Outcome(Response(200, Message(LoggedOut), ClearBoth()), s)
  {
  }

  /** A refresh cookie that fails `jwt.verify`: 500, and the cookies are NOT cleared. */
  lemma LogoutUnverifiable(s: State, cookies: RequestCookies, nowMs: nat)
    requires Present(cookies.refreshToken)
    requires Verify(cookies.refreshToken.value, Refresh, nowMs).Failure?
    ensures var o := Logout(s, cookies, nowMs);
      && o.next == s
      && o.res.status == 500
      && o.res.cookies == []
  {
  }

  /**
   * A verifiable refresh cookie: exactly the cache key of the user it names
   * is deleted, both cookies are cleared, and a later refresh for that user
   * finds nothing.
   */
  lemma LogoutEndsSession(s: State, cookies: RequestCookies, nowMs: nat, laterMs: nat)
    requires Present(cookies.refreshToken)
    requires Verify(cookies.refreshToken.value, Refresh, nowMs).Success?
    ensures var u := cookies.refreshToken.value.claims.userId;
      var o := Logout(s, cookies, nowMs);
      && o.res == Response(200, Message(LoggedOut), ClearBoth())
      && o.next.users == s.users
      && o.next.store.Keys == s.store.Keys - {RefreshKey(u)}
      && (forall k :: k in o.next.store ==> o.next.store[k] == s.store[k])
      && Lookup(o.next.store, RefreshKey(u), laterMs) == None
  {
  }

  /** Logging out twice with the same cookie at the same instant gives the same answer and deletes nothing more. */
  lemma LogoutIdempotent(s: State, cookies: RequestCookies, nowMs: nat)
    ensures var o := Logout(s, cookies, nowMs);
      Logout(o.next, cookies, nowMs) == o
  {
    var o := Logout(s, cookies, nowMs);
    if Present(cookies.refreshToken) && Verify(cookies.refreshToken.value, Refresh, nowMs).Success? {
      var k := RefreshKey(cookies.refreshToken.value.claims.userId);
      assert o.next.store - {k} == o.next.store;
    }
  }

  /**
   * A second logout with the same cookie at any later time writes nothing:
   * whether or not the cookie has expired in between, the key it names is
   * already gone (the answer itself may turn into a 500).
   */
  lemma LogoutAgainWritesNothing(s: State, cookies: RequestCookies, nowMs: nat, laterMs: nat)
    requires nowMs <= laterMs
    ensures var o := Logout(s, cookies, nowMs);
      Logout(o.next, cookies, laterMs).next == o.next
  {
    var o := Logout(s, cookies, nowMs);
    if Present(cookies.refreshToken) && Verify(cookies.refreshToken.value, Refresh, laterMs).Success? {
      assert Seconds(nowMs) <= Seconds(laterMs);
      var k := RefreshKey(cookies.refreshToken.value.claims.userId);
      assert o.next.store - {k} == o.next.store;
    }
  }

  /** After a successful logout, refreshing with the same (still valid) token is refused with 401. */
  lemma RefreshAfterLogout(s: State, cookies: RequestCookies, nowMs: nat, laterMs: nat, production: bool)
    requires Present(cookies.refreshToken)
    requires Verify(cookies.refreshToken.value, Refresh, nowMs).Success?
    requires Verify(cookies.refreshToken.value, Refresh, laterMs).Success?
    ensures var o := Logout(s, cookies, nowMs);
      RefreshAccessToken(o.next, cookies, laterMs, production).res == Response(401, Message(InvalidRefreshToken), [])
  {
  }

  /**
   * Logout does not compare the cookie with the cache: a superseded but still
   * valid refresh token ends the user's current session, so the newer
   * refresh token is then refused.
   */
  lemma StaleLogoutEndsCurrentSession(s: State, first: LoginRequest, second: LoginRequest,
                                      t1: nat, t2: nat, t3: nat, t4: nat, production: bool)
    requires FindByEmail(s.users, first.email).Some?
    requires FindByEmail(s.users, second.email) == FindByEmail(s.users, first.email)
    requires first.password.Some? && second.password.Some?
    requires Matches(first.password.value, FindByEmail(s.users, first.email).value.password)
    requires Matches(second.password.value, FindByEmail(s.users, first.email).value.password)
    requires t1 <= t2 <= t3 <= t4
    requires var u := FindByEmail(s.users, first.email).value;
      t3 < Deadline(GenerateTokens(u.id, t1).refreshToken)
    ensures var u := FindByEmail(s.users, first.email).value;
      var s2 := Login(Login(s, first, t1).next, second, t2).next;
      var s3 := Logout(s2, RefreshWith(GenerateTokens(u.id, t1).refreshToken), t3);
      && s3.res.status == 200
      && RefreshAccessToken(s3.next, RefreshWith(GenerateTokens(u.id, t2).refreshToken), t4, production).res.status != 200
  {
    var u := FindByEmail(s.users, first.email).value;
    VerifySigned(Refresh, Refresh, u.id, RefreshLifetime, t1, t3);
  }
}
