/** The game-session token (a JSON Web Token, RFC 7519, signed with HS256,
    section 3.2 of RFC 7518), abstracted to what decoding it with the server's
    key reveals. Signing and the HMAC itself are not modelled. */
module Jwt {
  import opened Wrappers

  /** The registered claims the application uses: "sub" (section 4.1.2 of
      RFC 7519), the private claim "type", and "exp" (section 4.1.4) in
      seconds since the epoch. A claim that is `None` is absent. */
  datatype Claims = Claims(sub: Option<string>, kind: Option<string>, exp: Option<int>)

  /** The token string a client presents: the empty string, a string that is
      not a signed JWT at all, or a compact JWT carrying `claims` whose HS256
      signature does or does not verify under the server's key. */
  datatype GameToken = Blank | Malformed | Signed(claims: Claims, verifies: bool)

  /** The three outcomes of `jwt.decode`: the claims, `ExpiredSignatureError`,
      or any other `PyJWTError`. */
  datatype Decoded = Valid(claims: Claims) | Expired | Invalid

  /** `jwt.encode(payload, SECRET_KEY, algorithm="HS256")`. */
  function Encode(claims: Claims): (t: GameToken)
    ensures t.Signed? && t.claims == claims && t.verifies
  {
    Signed(claims, true)
  }

  /** The token has an "exp" claim that is not after `now` (PyJWT rejects
      `exp <= now` with no leeway). */
  predicate ExpiredAt(c: Claims, now: int) {
    c.exp.Some? && c.exp.value <= now
  }

  /** `jwt.decode(token, SECRET_KEY, algorithms=["HS256"])` at time `now`: the
      signature is checked first, the expiry second. A missing token (`None`)
      is rejected like any malformed one. */
  function Decode(t: Option<GameToken>, now: int): (r: Decoded)
    ensures r.Valid? <==> t.Some? && t.value.Signed? && t.value.verifies && !ExpiredAt(t.value.claims, now)
    ensures r.Valid? ==> r.claims == t.value.claims
    ensures r.Expired? <==> t.Some? && t.value.Signed? && t.value.verifies && ExpiredAt(t.value.claims, now)
  {
    match t
    case Some(Signed(c, true)) => if ExpiredAt(c, now) then Expired else Valid(c)
    case _ => Invalid
  }

  /** Decoding what was encoded gives the claims back until they expire, and
      reports expiry afterwards; it is never reported as tampered. */
  lemma DecodeEncode(c: Claims, now: int)
    ensures Decode(Some(Encode(c)), now) == if ExpiredAt(c, now) then Expired else Valid(c)
  {
  }

  /** A token that does not verify under the server's key is rejected as
      invalid even when its claims are expired. */
  lemma ForgedIsInvalid(c: Claims, now: int)
    ensures Decode(Some(Signed(c, false)), now) == Invalid
  {
  }
}
