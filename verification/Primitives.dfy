/** The cryptographic primitives, as arbitrary functions. Nothing is assumed of them here;
    a lemma that needs a fact (a key that cannot sign, a signature that verifies) says so. */
module Primitives {
  import opened ByteStrings
  import opened FieldHash

  datatype Primitives = Primitives(
    perm: Permutation,
    /** Derive-key hashing: context string, message. */
    blake3: (string, Bytes) -> Digest,
    /** Keyed hashing: message, key. */
    blake2b: (Bytes, Bytes) -> Digest,
    /** Does a 32-byte string parse as an x-only public key? */
    validKey: Digest -> bool,
    /** Signature, message digest, public key. */
    schnorr: (Bytes, Digest, Digest) -> bool)
}
