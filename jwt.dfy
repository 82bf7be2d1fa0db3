/**
 * An abstract model of JSON Web Tokens (RFC 7519) as signed and checked by
 * the jsonwebtoken package. A token is an immutable value: which secret
 * signed it, and the claims it carries. Signatures, base64url and HMAC are
 * not modelled; a string that none of the two secrets signed is `Opaque`.
 */
module Jwt {
  import opened Wrappers

  /** A user identifier as it appears in a token payload and a cache key. */
  type UserId = string

  /** Which secret signed a token: ACCESS_TOKEN_SECRET or REFRESH_TOKEN_SECRET. */
  datatype Kind = Access | Refresh

  /**
   * The payload `{ userId }` plus the registered claims `iat` and `exp`
   * (sections 4.1.6 and 4.1.4 of RFC 7519), both in whole seconds.
   */
  datatype Claims = Claims(userId: UserId, iat: int, exp: int)

  /** A token string as it travels in a cookie or sits in the cache. */
  datatype Token =
    | Signed(kind: Kind, claims: Claims)
    | Opaque(text: string)  // any string that neither secret signed

  /** The errors `jwt.verify` throws. */
  datatype VerifyError = Malformed | InvalidSignature | Expired

  function ErrorMessage(e: VerifyError): string
  {
    match e
    case Malformed => "jwt malformed"
    case InvalidSignature => "invalid signature"
    case Expired => "jwt expired"
  }

  /** The clock jsonwebtoken reads: whole seconds since the epoch. */
  function Seconds(nowMs: nat): nat
  {
    nowMs / 1000
  }

  /** `jwt.sign({ userId }, secret, { expiresIn })` at time `nowMs`. */
  function Sign(kind: Kind, userId: UserId, lifetime: nat, nowMs: nat): (t: Token)
    ensures t.Signed? && t.kind == kind && t.claims.userId == userId
    ensures t.claims.iat * 1000 <= nowMs < t.claims.iat * 1000 + 1000
    ensures t.claims.exp == t.claims.iat + lifetime
  {
    Signed(kind, Claims(userId, Seconds(nowMs), Seconds(nowMs) + lifetime))
  }

  /**
   * `jwt.verify(token, secret)` at time `nowMs`: the signature is checked
   * first, then `exp`; a token is expired once the clock reaches `exp`.
   */
  function Verify(t: Token, kind: Kind, nowMs: nat): (r: Result<Claims, VerifyError>)
    ensures r.Success? <==> t.Signed? && t.kind == kind && Seconds(nowMs) < t.claims.exp
    ensures r.Success? ==> r.value == t.claims
    ensures r == Failure(Expired) <==> t.Signed? && t.kind == kind && t.claims.exp <= Seconds(nowMs)
    ensures r == Failure(Malformed) <==> t.Opaque?
  {
    match t
    case Opaque(_) => Failure(Malformed)
    case Signed(k, c) =>
      if k != kind then Failure(InvalidSignature)
      else if c.exp <= Seconds(nowMs) then Failure(Expired)
      else Success(c)
  }

  /** The first instant, in milliseconds, at which a signed token is expired. */
  function Deadline(t: Token): int
    requires t.Signed?
  {
    t.claims.exp * 1000
  }

  /**
   * Signing and verifying with the same secret gives back the payload
   * exactly while the clock is before the deadline, and `Expired` from the
   * deadline on; the wrong secret gives `InvalidSignature`, never `Expired`.
   */
  lemma VerifySigned(kind: Kind, secret: Kind, userId: UserId, lifetime: nat, issuedMs: nat, nowMs: nat)
    ensures var t := Sign(kind, userId, lifetime, issuedMs);
      && (secret != kind ==> Verify(t, secret, nowMs) == Failure(InvalidSignature))
      && (secret == kind && nowMs < Deadline(t) ==>
            Verify(t, secret, nowMs).Success? && Verify(t, secret, nowMs).value.userId == userId)
      && (secret == kind && Deadline(t) <= nowMs ==> Verify(t, secret, nowMs) == Failure(Expired))
  {
    var t := Sign(kind, userId, lifetime, issuedMs);
    assert nowMs < Deadline(t) <==> Seconds(nowMs) < t.claims.exp;
  }

  /**
   * A token signed at `issuedMs` with a lifetime of `lifetime` seconds is
   * accepted for at least `lifetime - 1` seconds and at most `lifetime`
   * seconds: jsonwebtoken rounds the issue time down to the second.
   */
  lemma LifetimeWindow(kind: Kind, userId: UserId, lifetime: nat, issuedMs: nat)
    ensures var t := Sign(kind, userId, lifetime, issuedMs);
      issuedMs + lifetime * 1000 - 1000 < Deadline(t) <= issuedMs + lifetime * 1000
  {
  }
}
