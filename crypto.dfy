/** Stand-ins for the two foreign libraries the identity service calls: bcrypt (password
    hashing) and JSON Web Tokens (signing). Only the property each caller relies on is kept. */
module Crypto {

  /** A stored password credential. The model of bcrypt keeps a salt chosen by the caller and
      a digest that compares equal only for the password it was made from; irreversibility
      and the cost factor are not modelled. */
  datatype Credential = Bcrypt(salt: int, digest: string)

  /** `bcrypt.hash(password, SALT_ROUNDS)`, with the random salt passed in. */
  function Hash(password: string, salt: int): (c: Credential)
    ensures c.salt == salt
  {
    Bcrypt(salt, password)
  }

  /** `bcrypt.compare(password, hash)`. */
  predicate Compare(password: string, c: Credential)
  {
    c.digest == password
  }

  /** The hash accepts exactly the password it was made from, whatever the salt. */
  lemma HashThenCompare(password: string, attempt: string, salt: int)
    ensures Compare(attempt, Hash(password, salt)) <==> attempt == password
  {
  }

  /** The payload a signed token carries: `{ id, role }` (jwtUtils.js generateToken). */
  datatype Token = Signed(userId: int, role: string)

  /** `generateToken(userId, userRole)`: the signature and the one-hour expiry are not modelled. */
  function GenerateToken(userId: int, role: string): (t: Token)
    ensures t.userId == userId && t.role == role
  {
    Signed(userId, role)
  }
}
