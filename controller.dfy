/**
 * The handlers of backend/controllers/auth.controller.js as methods over the
 * user table and the shared cache, written with the source's early returns.
 * Every handler method except GetProfile is proved to follow the matching
 * function of module Protocol; GetProfile states its response directly.
 */
module Controller {
  import opened Wrappers
  import opened Jwt
  import opened Redis
  import opened TokenUtils
  import opened UserModel
  import opened Protocol

  class AuthController {
    /** The user collection, keyed by stored email (the unique index). */
    var users: map<string, UserRecord>
    /** The shared cache connection. */
    const cache: SessionCache

    ghost predicate Valid()
      reads this
    {
      TableValid(users)
    }

    function Snapshot(): State
      reads this, cache
    {
      State(users, cache.entries)
    }

    constructor (cache: SessionCache)
      ensures Valid() && this.cache == cache && users == map[]
    {
      users := map[];
      this.cache := cache;
    }

    method FindOne(email: Option<string>) returns (r: Option<UserRecord>)
      requires Valid()
      ensures r == FindByEmail(users, email)
      ensures email.Some? ==> (r.Some? <==> exists e :: e in users && users[e].email == NormalizeEmail(email.value))
      ensures r.Some? ==> r.value in users.Values && r.value.email == NormalizeEmail(email.value)
    {
      if email.Some? {
        FindByEmailFinds(users, email.value);
        var key := NormalizeEmail(email.value);
        if key in users {
          return Some(users[key]);
        }
      }
      return None;
    }

    method Signup(req: SignupRequest, newId: UserId, salt: nat, nowMs: nat) returns (res: Response)
      requires Valid()
      modifies this, cache
      ensures Valid()
      ensures Outcome(res, Snapshot()) == Protocol.Signup(old(Snapshot()), req, newId, salt, nowMs)
    {
      var userExists := FindOne(req.email);
      if userExists.Some? {
        return Response(400, Message(UserExists), []);
      }
      var validated := Validate(SignupInput(req), newId);
      if validated.Failure? {
        return Response(500, Message(ValidationMessage(validated.error)), []);
      }
      var doc := new UserDocument(validated.value);
      doc.PreSave(salt);
      var user := doc.Record();
      assert user == Create(SignupInput(req), newId, salt).value;
      NormalizeEmailIdempotent(SignupInput(req).email.value);
      InsertKeepsTableValid(users, user);
      users := users[user.email := user];
      var pair := GenerateTokens(user.id, nowMs);
      StoreRefreshToken(cache, user.id, pair.refreshToken, nowMs);
      res := Response(201, Summary(user), [SetSession(pair.accessToken, pair.refreshToken)]);
    }

    method Login(req: LoginRequest, nowMs: nat) returns (res: Response)
      requires Valid()
      modifies cache
      ensures Valid()
      ensures Outcome(res, Snapshot()) == Protocol.Login(old(Snapshot()), req, nowMs)
    {
      var user := FindOne(req.email);
      if user.None? {
        return Response(400, Message(InvalidCredentials), []);
      }
      var compared := ComparePassword(user.value, req.password);
      if compared.Failure? {
        return Response(500, Message(compared.error), []);
      }
      if !compared.value {
        return Response(400, Message(InvalidCredentials), []);
      }
      var pair := GenerateTokens(user.value.id, nowMs);
      StoreRefreshToken(cache, user.value.id, pair.refreshToken, nowMs);
      res := Response(200, Summary(user.value), [SetSession(pair.accessToken, pair.refreshToken)]);
    }

    method Logout(cookies: RequestCookies, nowMs: nat) returns (res: Response)
      requires Valid()
      modifies cache
      ensures Valid()
      ensures Outcome(res, Snapshot()) == Protocol.Logout(old(Snapshot()), cookies, nowMs)
    {
      var refreshToken := cookies.refreshToken;
      if Present(refreshToken) {
        var decoded := Verify(refreshToken.value, Refresh, nowMs);
        if decoded.Failure? {
          return Response(500, Message("Server error: " + ErrorMessage(decoded.error)), []);
        }
        cache.Del(RefreshKey(decoded.value.userId));
      }
      var cleared := [ClearCookie("accessToken")];
      cleared := cleared + [ClearCookie("refreshToken")];
      res := Response(200, Message(LoggedOut), cleared);
    }

    method RefreshAccessToken(cookies: RequestCookies, nowMs: nat, production: bool) returns (res: Response)
      requires Valid()
      ensures Outcome(res, Snapshot()) == Protocol.RefreshAccessToken(Snapshot(), cookies, nowMs, production)
    {
      var refreshToken := cookies.refreshToken;
      if !Present(refreshToken) {
        return Response(401, Message(NoRefreshToken), []);
      }
      var decoded := Verify(refreshToken.value, Refresh, nowMs);
      if decoded.Failure? {
        return Response(500, MessageWithError("Server error", ErrorMessage(decoded.error)), []);
      }
      var storedToken := cache.Get(RefreshKey(decoded.value.userId), nowMs);
      if storedToken != Some(refreshToken.value) {
        return Response(401, Message(InvalidRefreshToken), []);
      }
      var accessToken := Sign(Access, decoded.value.userId, AccessLifetime, nowMs);
      res := Response(200, Message(Refreshed),
        [SetCookie("accessToken", accessToken, AccessCookieOptions(production))]);
    }

    /** `getProfile`: echoes the user the route guard attached to the request. */
    method GetProfile(user: UserRecord) returns (res: Response)
      ensures res.status == 200 && res.body == Profile(user) && res.cookies == []
    {
      res := Response(200, Profile(user), []);
    }
  }
}
