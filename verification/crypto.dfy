/**
 * The two cryptographic libraries the API calls, as oracles.
 *
 * bcrypt is a hash function plus a comparison; jsonwebtoken is a signer
 * plus a verifier. Neither is modelled internally: an oracle is any record
 * of total functions, and the laws below are the only facts the rest of
 * the model may use about them. The signing secret, the salt and the
 * issuance time are all folded into the oracle's choice of functions.
 */
module Crypto {
  import opened Wrappers

  datatype Crypto = Crypto(
    hash: string -> string,              // bcrypt.hash(password, 10)
    compare: (string, string) -> bool,   // bcrypt.compare(password, hashed)
    sign: int -> string,                 // jwt.sign({ userId }, secret), no expiry
    verify: string -> Option<int>,       // jwt.verify(token, secret).userId, or a thrown error
    truncate: string -> string)          // the part of a password bcrypt hashes (its first 72 bytes)

  /** A password always matches its own hash. */
  ghost predicate HashSound(c: Crypto) {
    forall p: string {:trigger c.hash(p)} :: c.compare(p, c.hash(p))
  }

  /**
   * A password matches only hashes of passwords that agree with it on the
   * part bcrypt reads: collision freedom up to the 72-byte truncation.
   */
  ghost predicate HashBinding(c: Crypto) {
    forall p: string, q: string {:trigger c.compare(p, c.hash(q))} ::
      c.compare(p, c.hash(q)) ==> c.truncate(p) == c.truncate(q)
  }

  /** A token signed for a subject verifies to exactly that subject. */
  ghost predicate TokenSound(c: Crypto) {
    forall id: int {:trigger c.sign(id)} :: c.verify(c.sign(id)) == Some(id)
  }

  /** Two subjects never share a token. */
  lemma SignInjective(c: Crypto, a: int, b: int)
    requires TokenSound(c)
    requires c.sign(a) == c.sign(b)
    ensures a == b
  {
  }
}
