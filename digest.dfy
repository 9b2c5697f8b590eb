/** Hashing and identifiers the service takes from libraries: HMAC-SHA256 (RFC 2104
    over FIPS 180-4 SHA-256) and SHA-256, both hex-encoded by `encoding/hex`, and the
    text form of a random UUID. The hash functions are not computed here: they are
    values supplied by the caller, constrained only by the shape of their output. */
module Digest {
  predicate IsLowerHexDigit(c: char) { '0' <= c <= '9' || 'a' <= c <= 'f' }

  /** `hex.EncodeToString` of a 32-byte digest: 64 hex characters. */
  type HexDigest = s: string | |s| == 64
    witness "0000000000000000000000000000000000000000000000000000000000000000"

  /** The two hash primitives: `hexHmac(secret, message)` and `hexSha256(data)`. */
  datatype Hashing = Hashing(hexHmac: (string, string) -> HexDigest, hexSha256: string -> HexDigest)

  /** `uuid.New().String()`: 36 characters, dashes at 8, 13, 18 and 23, lower-case hex
      elsewhere. */
  predicate IsUuidText(s: string)
  {
    |s| == 36 &&
    forall i :: 0 <= i < 36 ==>
      if i == 8 || i == 13 || i == 18 || i == 23 then s[i] == '-' else IsLowerHexDigit(s[i])
  }

  type UuidText = s: string | IsUuidText(s) witness "00000000-0000-0000-0000-000000000000"

  lemma UuidHasNoColon(id: UuidText)
    ensures ':' !in id
  {
  }
}
