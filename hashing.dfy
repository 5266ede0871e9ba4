/**
 * Password hashing (bcryptjs in controllers/userController.js).
 *
 * The cryptography is not modelled. A digest is a symbolic value that records
 * the cost factor, the salt it was made with and the password it was made
 * from; nothing outside this module reads the password back out of it, and a
 * `Digest` can never be mistaken for a plaintext `string`.
 */
module Hashing {

  /** `bcrypt.genSalt(10)`: the cost factor used at signup. */
  const SaltRounds: nat := 10

  datatype Digest = Digest(rounds: nat, salt: string, password: string)

  /** `bcrypt.hash(password, salt)`, the salt being an input (it is random in the service). */
  function Hash(password: string, salt: string): (d: Digest)
    ensures d.rounds == SaltRounds
    ensures Matches(password, d)
  {
    Digest(SaltRounds, salt, password)
  }

  /** `bcrypt.compare(password, digest)`. */
  predicate Matches(password: string, d: Digest)
  {
    d.password == password
  }

  /** Checking a password against a digest succeeds exactly for the password
      the digest was made from, whatever salt was used. */
  lemma MatchesHash(candidate: string, password: string, salt: string)
    ensures Matches(candidate, Hash(password, salt)) <==> candidate == password
  {
  }
}
