/**
 * A symbolic stand-in for HS256-signed JSON Web Tokens (section 3.2 of
 * RFC 7518). The signature over a claim set under a key is modelled as an
 * unforgeable tag naming both, so a token verifies under a key exactly when
 * it was signed with that key over exactly the claims it carries. Decoding
 * checks the signature before the `exp` claim (section 4.1.4 of RFC 7519):
 * a token whose signature fails is Invalid even when it has also expired.
 */
module Tokens {
  import opened Options

  /** The claim set the service puts in a token; `sub` or `exp` may be missing from a foreign one. */
  datatype Claims = Claims(sub: Option<string>, name: string, email: string, role: string, exp: Option<int>)

  /** HMAC-SHA256 of the claims under the key, symbolically. */
  datatype Tag = Tag(claims: Claims, key: string)

  /** A bearer token: a signed claim set, or text that does not parse as a token at all. */
  datatype Token = Signed(claims: Claims, tag: Tag) | Malformed(text: string)

  datatype Decoded = Expired | Invalid | Payload(claims: Claims)

  function Sign(c: Claims, key: string): Token {
    Signed(c, Tag(c, key))
  }

  /** The signature of the token is valid under the key. */
  predicate Authentic(t: Token, key: string) {
    t.Signed? && t.tag == Tag(t.claims, key)
  }

  /** The current instant is before the expiry instant, when there is one. */
  predicate Live(c: Claims, now: int) {
    c.exp.None? || now < c.exp.value
  }

  /** `jwt.decode(token, key)` at instant `now`. */
  function Decode(t: Token, key: string, now: int): (d: Decoded)
    ensures d.Payload? <==> Authentic(t, key) && Live(t.claims, now)
    ensures d.Payload? ==> t == Sign(d.claims, key)
    ensures d == Expired <==> Authentic(t, key) && !Live(t.claims, now)
    ensures d == Invalid <==> !Authentic(t, key)
  {
    if !Authentic(t, key) then Invalid
    else if !Live(t.claims, now) then Expired
    else Payload(t.claims)
  }

  /** A token signed with the key decodes to its claims until its expiry instant and is Expired from then on. */
  lemma DecodeSigned(c: Claims, key: string, now: int)
    ensures Decode(Sign(c, key), key, now) == if Live(c, now) then Payload(c) else Expired
  {
  }

  /** Replacing the claims of a signed token, or decoding it under another key, makes it Invalid. */
  lemma DecodeForged(c: Claims, c': Claims, key: string, key': string, now: int)
    requires c' != c || key' != key
    ensures Decode(Signed(c', Tag(c, key)), key', now) == Invalid
  {
  }
}
