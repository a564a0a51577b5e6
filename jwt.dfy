/**
 * JSON Web Tokens (RFC 7519) as `jsonwebtoken` signs and verifies them with one shared
 * HMAC secret. The MAC is modelled as a value recording the key and the payload it covers:
 * a signature verifies under a key exactly when it was made with that key over that payload.
 * The compact string serialisation is not modelled here.
 */
module Jwt {
  import opened Wrappers

  /** The claims a caller chooses (the registered `iat` and `exp` claims are kept apart). */
  type Claims = map<string, string>

  /** `iat` and `exp` are NumericDate values, whole seconds (sections 4.1.6 and 4.1.4 of RFC 7519). */
  datatype Payload = Payload(claims: Claims, iat: int, exp: Option<int>)

  datatype Signature = Hs256(key: string, over: Payload)

  datatype Token = Token(payload: Payload, signature: Signature)

  /** `TokenExpiredError` versus every other `JsonWebTokenError`. */
  datatype VerifyError = Invalid | Expired

  /** `expiresIn: "1d"`, in seconds. */
  const OneDay: int := 86400

  /** The signature check `jwt.verify` performs before looking at any claim. */
  predicate SignedWith(t: Token, key: string)
  {
    t.signature == Hs256(key, t.payload)
  }

  /** jwt.sign(claims, key, {expiresIn: "1d"}) at clock `now` (seconds). */
  function Sign(claims: Claims, key: string, now: int): (t: Token)
    ensures SignedWith(t, key) && t.payload.claims == claims
    ensures t.payload.exp == Some(t.payload.iat + OneDay) && t.payload.iat == now
  {
    var p := Payload(claims, now, Some(now + OneDay));
    Token(p, Hs256(key, p))
  }

  /**
   * jwt.verify(token, key) at clock `now`: the signature first, then expiry, which holds
   * from the second `exp` itself onwards.
   */
  function Verify(t: Token, key: string, now: int): (r: Result<Payload, VerifyError>)
    ensures r.Ok? ==> r.value == t.payload && SignedWith(t, key)
    ensures r == Err(Expired) ==> SignedWith(t, key)
  {
    if !SignedWith(t, key) then Err(Invalid)
    else if t.payload.exp.Some? && now >= t.payload.exp.value then Err(Expired)
    else Ok(t.payload)
  }

  /** A token this service issued at `iat` is accepted strictly before `iat + 86400` and expired from then on. */
  lemma IssuedTokenLifetime(claims: Claims, key: string, iat: int, now: int)
    ensures now < iat + OneDay ==> Verify(Sign(claims, key, iat), key, now) == Ok(Sign(claims, key, iat).payload)
    ensures now >= iat + OneDay ==> Verify(Sign(claims, key, iat), key, now) == Err(Expired)
  {
  }

  /** One minute before the day is out the token works; one minute after, it is expired. */
  lemma ExpiryBoundary(claims: Claims, key: string, iat: int)
    ensures Verify(Sign(claims, key, iat), key, iat + OneDay - 60).Ok?
    ensures Verify(Sign(claims, key, iat), key, iat + OneDay + 60) == Err(Expired)
    ensures Verify(Sign(claims, key, iat), key, iat + OneDay) == Err(Expired)
  {
    IssuedTokenLifetime(claims, key, iat, iat + OneDay - 60);
    IssuedTokenLifetime(claims, key, iat, iat + OneDay + 60);
    IssuedTokenLifetime(claims, key, iat, iat + OneDay);
  }

  /** A token signed with another secret is invalid at every instant, expired or not. */
  lemma ForeignKeyInvalid(claims: Claims, signer: string, key: string, iat: int, now: int)
    requires signer != key
    ensures Verify(Sign(claims, signer, iat), key, now) == Err(Invalid)
  {
  }

  /** Changing the payload of a signed token (say, pushing `exp` back) makes it invalid. */
  lemma TamperedInvalid(t: Token, key: string, forged: Payload, now: int)
    requires SignedWith(t, key) && forged != t.payload
    ensures Verify(Token(forged, t.signature), key, now) == Err(Invalid)
  {
  }

}
