/** The password-hashing library, kept abstract: a digest is only ever made by
    `Hash` and only ever inspected by `Compare`. The random salt is a parameter. */
module Bcrypt {

  datatype Digest = Digest(salt: int, secret: string)

  /** `bcrypt.hash(password, rounds)` with the salt it drew. */
  function Hash(password: string, salt: int): Digest
  {
    Digest(salt, password)
  }

  /** `bcrypt.compare(password, digest)`. */
  predicate Compare(password: string, d: Digest)
  {
    d.secret == password
  }

  /** A digest matches the password it was made from and no other. */
  lemma CompareHash(password: string, other: string, salt: int)
    ensures Compare(other, Hash(password, salt)) <==> other == password
  {
  }
}
