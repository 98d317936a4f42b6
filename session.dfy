/** The session credential: what the server signs and how long it lives. */
module Session {

  /** The provider's reply from the token endpoint (`expires_in` in seconds). */
  datatype TokenResponse = TokenResponse(access_token: string, refresh_token: string, expires_in: int)

  /** What the signed credential carries: exactly the two provider tokens. */
  datatype Payload = Payload(access_token: string, refresh_token: string)

  /** The arguments of one `jwt.sign(payload, secret, {expiresIn})` call; the
      signing secret is process configuration and the signature itself is not
      modelled (see module Jwt). */
  datatype Credential = Credential(payload: Payload, expiresIn: int)

  /** `Math.floor(expires_in * 0.9)`, taken as exact arithmetic: Dafny's `/` by a
      positive divisor rounds toward negative infinity, as `Math.floor` does. */
  function Lifetime(expiresIn: int): (r: int)
    ensures 10 * r <= 9 * expiresIn < 10 * r + 10
    ensures 0 <= expiresIn ==> 0 <= r <= expiresIn
  {
    (expiresIn * 9) / 10
  }

  /** The cookie's `maxAge`, in milliseconds: the provider's own lifetime, not the
      shortened one of the credential. */
  function CookieMaxAge(expiresIn: int): int
  {
    expiresIn * 1000
  }

  /** The cookie never expires before the credential it carries. */
  lemma CookieOutlivesCredential(expiresIn: int)
    requires 0 <= expiresIn
    ensures Lifetime(expiresIn) * 1000 <= CookieMaxAge(expiresIn)
    ensures 1 <= expiresIn ==> Lifetime(expiresIn) * 1000 < CookieMaxAge(expiresIn)
  {
  }
}
