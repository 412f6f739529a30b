/**
 * The two cryptographic collaborators the controllers call, kept abstract:
 * backend/src/utils/passwordUtils.js (bcrypt) and backend/src/utils/tokenUtils.js
 * (JWT). Each is a pair of functions passed in by the caller; the only facts
 * assumed of them are stated as predicates that lemmas take as hypotheses.
 */
module Security {
  import opened Wrappers

  /** The payload `generateToken` signs and `verifyToken` gives back. */
  datatype Claims = Claims(id: nat, email: string, username: string)

  /** `hashPassword` with its random salt made an input, and `comparePassword`. */
  datatype Hasher = Hasher(hash: (string, string) -> string, compare: (string, string) -> bool)

  /** A password always matches a hash made from it, whatever the salt. */
  ghost predicate HashSound(h: Hasher) {
    forall password, salt :: h.compare(password, h.hash(password, salt))
  }

  /** `generateToken` and `verifyToken` (which returns null on any failure). */
  datatype TokenService = TokenService(sign: Claims -> string, verify: string -> Option<Claims>)

  /**
   * A token verifies back to the claims it was issued for (signature and
   * expiry checks passing), and contains no space, as a JWT never does.
   */
  ghost predicate TokenSound(t: TokenService) {
    forall c :: t.verify(t.sign(c)) == Some(c) && ' ' !in t.sign(c)
  }
}
