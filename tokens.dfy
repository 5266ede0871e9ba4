/**
 * Signed bearer tokens (jsonwebtoken in controllers/userController.js).
 *
 * A token is modelled by what `jwt.verify` can learn from it: its claims, its
 * issue and expiry times (whole seconds, as in the JWT `iat` and `exp`
 * fields) and whether its signature checks against the process secret. The
 * signing algorithm and the compact string encoding are not modelled.
 */
module Tokens {

  import opened Wrappers

  /** `expiresIn: "1h"`, the lifetime of a verification token. */
  const VerificationTtl: int := 60 * 60
  /** `expiresIn: "1d"`, the lifetime of a login token. */
  const SessionTtl: int := 24 * 60 * 60

  datatype Claims =
    | VerificationClaims(name: string, email: string)  // `{ name, email }`, signed at signup
    | SessionClaims(id: nat)                           // `{ id: user._id }`, signed at login

  datatype Jwt = Jwt(claims: Claims, iat: int, exp: int, authentic: bool)

  /** What `jwt.verify` reports: the claims, or which kind of error it threw. */
  datatype Decoded = Ok(claims: Claims) | Expired | Invalid

  /** `jwt.sign(claims, secret, { expiresIn: ttl })` at time `now`. */
  function Sign(claims: Claims, now: int, ttl: int): (t: Jwt)
    ensures t.authentic && t.claims == claims
    ensures t.exp - t.iat == ttl && t.iat == now
  {
    Jwt(claims, now, now + ttl, true)
  }

  /**
   * `jwt.verify(token, secret)` at time `now`. The signature is checked
   * before the expiry, so a forged token is `Invalid` even when it is also
   * out of date; a token is expired from the second its `exp` is reached.
   */
  function Decode(t: Jwt, now: int): (r: Decoded)
    ensures r.Ok? ==> r.claims == t.claims
    ensures !t.authentic <==> r == Invalid
  {
    if !t.authentic then Invalid
    else if now >= t.exp then Expired
    else Ok(t.claims)
  }

  /** The email a token's claims carry, if any (`decoded.email`). */
  function EmailClaim(c: Claims): (e: Option<string>)
    ensures e.Some? <==> c.VerificationClaims?
    ensures e.Some? ==> e.value == c.email
  {
    if c.VerificationClaims? then Some(c.email) else None
  }

  /** Round trip: a token this service signed decodes to its claims exactly
      while fewer than `ttl` seconds have passed since it was signed, and is
      reported expired from then on. */
  lemma DecodeSigned(claims: Claims, issued: int, ttl: int, now: int)
    ensures Decode(Sign(claims, issued, ttl), now) ==
              if now < issued + ttl then Ok(claims) else Expired
  {
  }
}
