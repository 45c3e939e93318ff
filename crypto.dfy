/** The cryptographic primitives the signing protocol relies on. Their
    internals are not modelled: each is a function value of a `Primitives`
    record, and `Lawful` states the only facts the proofs use about them. */
module Crypto {
  import opened Wrappers

  newtype byte = x: int | 0 <= x < 256
  type Bytes = seq<byte>

  /** Size of an Ed25519 seed and public key, and of a tweetnacl secret key
      (the seed followed by the public key). */
  const SeedSize := 32
  const SecretKeySize := 64

  datatype Primitives = Primitives(
    /** base64 encoding, RFC 4648 section 4 (standard alphabet, padded) */
    encode64: Bytes -> string,
    /** base64 decoding; an error carries the decoder's message */
    decode64: string -> Result<Bytes, string>,
    /** SHA-256, FIPS 180-4 */
    sha256: Bytes -> Bytes,
    /** the Ed25519 public key of a 32-byte seed, RFC 8032 section 5.1.5 */
    derivePublic: Bytes -> Bytes,
    /** a detached Ed25519 signature under a 64-byte secret key, RFC 8032 section 5.1.6 */
    sign: (Bytes, Bytes) -> Bytes,
    /** Ed25519 verification of (public key, message, signature), RFC 8032 section 5.1.7 */
    verify: (Bytes, Bytes, Bytes) -> bool,
    /** the UTF-8 bytes of a string */
    utf8: string -> Bytes)

  /** A secret key as `nacl.sign.keyPair()` makes it: a seed followed by the
      public key derived from that seed. */
  predicate WellFormedSecretKey(p: Primitives, sk: Bytes)
  {
    |sk| == SecretKeySize && sk[SeedSize..] == p.derivePublic(sk[..SeedSize])
  }

  /** The two laws: base64 decoding undoes encoding, and a signature made with
      a well-formed secret key verifies under the public half of that key. */
  ghost predicate Lawful(p: Primitives)
  {
    && (forall b :: p.decode64(p.encode64(b)) == Ok(b))
    && (forall sk, m :: WellFormedSecretKey(p, sk) ==> p.verify(sk[SeedSize..], m, p.sign(sk, m)))
  }
}
