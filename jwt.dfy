/** An abstract model of the signed, self-expiring token produced by
    `jwt.sign` and checked by `jwt.verify`.  The HMAC, the base64url and JSON
    layers are not modelled: a token remembers the key it was signed with, and
    anything that was not produced by `Sign` is `Garbage`. */
module Jwt {
  import opened Wrappers
  import opened Session

  datatype Token =
    | Signed(payload: Payload, iat: int, exp: int, key: string)
    | Garbage(text: string)

  /** `jwt.sign(payload, key, {expiresIn})` at clock time `now` (seconds). */
  function Sign(key: string, now: int, cred: Credential): (t: Token)
    ensures t.Signed? && t.payload == cred.payload && t.key == key
    ensures t.exp - t.iat == cred.expiresIn
  {
    Signed(cred.payload, now, now + cred.expiresIn, key)
  }

  /** `jwt.verify(token, key)` at clock time `now`: the payload of a token signed
      with the same key whose expiry has not been reached; otherwise a failure
      (the callers do not tell the library's kinds of failure apart). */
  function Check(t: Token, key: string, now: int): Verify<Payload>
  {
    match t
    case Signed(p, _, exp, k) => if k == key && now < exp then Valid(p) else Invalid
    case Garbage(_) => Invalid
  }

  /** A credential verifies, with its own payload, exactly before its expiry. */
  lemma SignThenCheck(key: string, signedAt: int, cred: Credential, now: int)
    ensures Check(Sign(key, signedAt, cred), key, now)
         == if now < signedAt + cred.expiresIn then Valid(cred.payload) else Invalid
  {
  }

  /** A token signed with another key never verifies. */
  lemma OtherKeyFails(key: string, other: string, signedAt: int, cred: Credential, now: int)
    requires other != key
    ensures Check(Sign(other, signedAt, cred), key, now) == Invalid
  {
  }

  /** A session credential with the 90% lifetime is still accepted while
      `10 * (elapsed + 1) <= 9 * expiresIn` and refused from the moment the
      provider's own token would have expired at the latest. */
  lemma {:induction false} NinetyPercentMargin(key: string, signedAt: int, p: Payload, expiresIn: int, now: int)
    requires 0 <= expiresIn
    ensures var t := Sign(key, signedAt, Credential(p, Lifetime(expiresIn)));
            (Check(t, key, now).Valid? <==> 10 * (now - signedAt + 1) <= 9 * expiresIn)
    ensures var t := Sign(key, signedAt, Credential(p, Lifetime(expiresIn)));
            signedAt + expiresIn <= now ==> Check(t, key, now) == Invalid
  {
    var L := Lifetime(expiresIn);
    SignThenCheck(key, signedAt, Credential(p, L), now);
    assert now < signedAt + L <==> 10 * (now - signedAt + 1) <= 9 * expiresIn;
  }

  /** A forged token and an expired one end in the same failure, so the
      callers' bare `catch` blocks see no difference between them. */
  lemma FailuresIndistinguishable(key: string, text: string, signedAt: int, cred: Credential, now: int)
    requires signedAt + cred.expiresIn <= now
    ensures Check(Garbage(text), key, now) == Check(Sign(key, signedAt, cred), key, now)
  {
  }
}
