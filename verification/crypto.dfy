/**
 * The cryptographic primitives of the signer backend, kept abstract. The
 * backend generates one RSA key pair at start-up and uses SHA-256,
 * PKCS#1 v1.5 signing and base64 from a foreign library; here they are the
 * fields of a `Suite` value, and the two properties the signing core relies
 * on are the predicate `Sound`, assumed of the suite by whoever needs them.
 */
module Crypto {

  newtype byte = x: int | 0 <= x < 256

  type Bytes = seq<byte>

  /** What the public-key check reports: a verdict, or an exception it threw
      (for instance on a signature block of the wrong length). */
  datatype CheckOutcome = Checked(valid: bool) | Threw(message: string)

  /** The key pair and primitives in use for the life of the process. */
  datatype Suite = Suite(
    sha256: string -> Bytes,                 // digest of the UTF-8 encoding of a text
    sign: Bytes -> Bytes,                    // private-key signature over a digest
    check: (Bytes, Bytes) -> CheckOutcome,   // public-key check of (digest, signature)
    encode64: Bytes -> string,               // base64 encoding
    decode64: string -> Bytes)               // base64 decoding

  /** A signature made with the private key passes the public-key check. */
  ghost predicate SignaturesCheck(k: Suite)
  {
    forall d: Bytes :: k.check(d, k.sign(d)) == Checked(true)
  }

  /** Base64 decoding undoes base64 encoding. */
  ghost predicate Base64RoundTrips(k: Suite)
  {
    forall b: Bytes :: k.decode64(k.encode64(b)) == b
  }

  /** The two properties of a correctly generated key pair and correct
      primitives that the signing core depends on. */
  ghost predicate Sound(k: Suite)
  {
    SignaturesCheck(k) && Base64RoundTrips(k)
  }
}
