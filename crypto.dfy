/**
 * The two hash primitives the signing protocol uses, taken as given:
 * `hash('sha1', m)` and `hash_hmac('sha1', m, key)`, both as lower-case hex.
 */
module Crypto {

  datatype Crypto = Crypto(sha1Hex: string -> string, hmacSha1Hex: (string, string) -> string)

  predicate IsLowerHexDigit(c: char) {
    '0' <= c <= '9' || 'a' <= c <= 'f'
  }

  /** A SHA-1 digest as PHP prints it: 40 lower-case hexadecimal characters. */
  predicate IsDigest(s: string) {
    |s| == 40 && forall j :: 0 <= j < |s| ==> IsLowerHexDigit(s[j])
  }

  /** The primitives produce digests in PHP's format. */
  ghost predicate Sound(c: Crypto) {
    (forall m :: IsDigest(c.sha1Hex(m))) &&
    (forall key, m :: IsDigest(c.hmacSha1Hex(key, m)))
  }
}
