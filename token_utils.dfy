/**
 * Token-pair construction and refresh-token persistence: `generateTokens`
 * and `storeRefreshToken` of backend/utils/tokenUtils.js.
 */
module TokenUtils {
  import opened Wrappers
  import opened Jwt
  import opened Redis

  /** `expiresIn: "15m"`, in seconds. */
  const AccessLifetime: nat := 15 * 60
  /** `expiresIn: "7d"`, in seconds. */
  const RefreshLifetime: nat := 7 * 24 * 60 * 60
  /** The `EX` argument of the cache write; Redis reads it as seconds. */
  const RefreshTtlSeconds: nat := 7 * 24 * 60 * 60

  const KeyPrefix: string := "refresh_token:"

  /** The cache key `refresh_token:<userId>`. */
  function RefreshKey(userId: UserId): string
  {
    KeyPrefix + userId
  }

  /** Distinct users never share a cache key. */
  lemma RefreshKeyInjective(u: UserId, v: UserId)
    ensures RefreshKey(u) == RefreshKey(v) <==> u == v
  {
    if RefreshKey(u) == RefreshKey(v) {
      assert u == RefreshKey(u)[|KeyPrefix|..];
      assert v == RefreshKey(v)[|KeyPrefix|..];
    }
  }

  datatype TokenPair = TokenPair(accessToken: Token, refreshToken: Token)

  /**
   * Both tokens carry `{ userId }`; the access token is signed with the
   * access secret for 15 minutes, the refresh token with the refresh secret
   * for 7 days, so neither verifies in place of the other.
   */
  function GenerateTokens(userId: UserId, nowMs: nat): (p: TokenPair)
    ensures p.accessToken.Signed? && p.refreshToken.Signed?
    ensures p.accessToken.claims.userId == userId && p.refreshToken.claims.userId == userId
    ensures p.accessToken.claims.exp - p.accessToken.claims.iat == 900
    ensures p.refreshToken.claims.exp - p.refreshToken.claims.iat == 604800
    ensures Verify(p.accessToken, Access, nowMs) == Success(p.accessToken.claims)
    ensures Verify(p.refreshToken, Refresh, nowMs) == Success(p.refreshToken.claims)
    ensures Verify(p.accessToken, Refresh, nowMs) == Failure(InvalidSignature)
    ensures Verify(p.refreshToken, Access, nowMs) == Failure(InvalidSignature)
    ensures p.accessToken != p.refreshToken
  {
    TokenPair(Sign(Access, userId, AccessLifetime, nowMs), Sign(Refresh, userId, RefreshLifetime, nowMs))
  }

  /** The cache contents after `storeRefreshToken(userId, token)` at `nowMs`. */
  function Stored(entries: map<string, Entry>, userId: UserId, token: Token, nowMs: nat): map<string, Entry>
  {
    entries[RefreshKey(userId) := Entry(token, nowMs + RefreshTtlSeconds * 1000)]
  }

  /** `storeRefreshToken(userId, refreshToken)`: one keyed overwrite with a TTL. */
  method StoreRefreshToken(cache: SessionCache, userId: UserId, token: Token, nowMs: nat)
    modifies cache
    ensures cache.entries == Stored(old(cache.entries), userId, token, nowMs)
  {
    cache.SetEx(RefreshKey(userId), token, RefreshTtlSeconds, nowMs);
  }

  /**
   * After storing `token` for `userId`, a lookup of that user's key yields
   * `token` until the TTL runs out, whatever was there before; the key of
   * every other user reads exactly as before.
   */
  lemma StoredLookup(entries: map<string, Entry>, userId: UserId, token: Token, nowMs: nat, other: UserId, laterMs: nat)
    requires nowMs <= laterMs
    ensures other == userId ==>
      Lookup(Stored(entries, userId, token, nowMs), RefreshKey(other), laterMs)
        == (if laterMs <= nowMs + 604800000 then Some(token) else None)
    ensures other != userId ==>
      Lookup(Stored(entries, userId, token, nowMs), RefreshKey(other), laterMs)
        == Lookup(entries, RefreshKey(other), laterMs)
  {
    RefreshKeyInjective(userId, other);
  }

  /** Storing changes no key other than `refresh_token:<userId>`. */
  lemma StoredFrame(entries: map<string, Entry>, userId: UserId, token: Token, nowMs: nat, key: string)
    requires key != RefreshKey(userId)
    ensures key in Stored(entries, userId, token, nowMs) <==> key in entries
    ensures key in entries ==> Stored(entries, userId, token, nowMs)[key] == entries[key]
  {
  }

  /**
   * The cache TTL covers the refresh token's whole validity window: while a
   * freshly issued refresh token still verifies, the entry written beside it
   * has not expired.
   */
  lemma StoreOutlivesToken(entries: map<string, Entry>, userId: UserId, nowMs: nat, laterMs: nat)
    requires nowMs <= laterMs
    requires Verify(GenerateTokens(userId, nowMs).refreshToken, Refresh, laterMs).Success?
    ensures var t := GenerateTokens(userId, nowMs).refreshToken;
      Lookup(Stored(entries, userId, t, nowMs), RefreshKey(userId), laterMs) == Some(t)
  {
    var t := GenerateTokens(userId, nowMs).refreshToken;
    assert laterMs / 1000 < nowMs / 1000 + RefreshLifetime;
    assert laterMs < (nowMs / 1000 + RefreshLifetime) * 1000;
    StoredLookup(entries, userId, t, nowMs, userId, laterMs);
  }
}
