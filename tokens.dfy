/**
 * Session tokens (`generateToken` and `jwt.verify`). The signing library and
 * the process secret are not modelled: a `Signer` stands for them, and
 * `Sound` says what the library is trusted to do.
 */
module Tokens {
  import opened Wrappers

  /** `expiresIn: '30d'`, in seconds. */
  const Lifetime: int := 30 * 24 * 60 * 60

  /** One day, in seconds. */
  const Day: int := 24 * 60 * 60

  /** The payload: subject, issued-at and expiry, in seconds since the epoch. */
  datatype Claims = Claims(id: nat, iat: int, exp: int)

  /** The library bound to the secret: signing, and decoding with the signature checked. */
  datatype Signer = Signer(sign: Claims -> string, decode: string -> Option<Claims>)

  /**
   * A signed token decodes to the claims it was signed with, and is a
   * non-empty word without spaces (the compact serialisation of a JWT).
   */
  ghost predicate Sound(s: Signer) {
    forall c :: s.decode(s.sign(c)) == Some(c) && s.sign(c) != "" && ' ' !in s.sign(c)
  }

  /** `generateToken(id)` called at time `now`. */
  function Issue(s: Signer, id: nat, now: int): (token: string)
    ensures Sound(s) ==> s.decode(token) == Some(Claims(id, now, now + Lifetime))
    ensures Sound(s) ==> token != "" && ' ' !in token
  {
    s.sign(Claims(id, now, now + Lifetime))
  }

  /**
   * `jwt.verify(token, secret)`: the subject of a token whose signature
   * checks and whose expiry has not been reached (`now >= exp` is expired).
   */
  function Verify(s: Signer, token: string, now: int): (subject: Option<nat>)
    ensures subject.Some? <==> s.decode(token).Some? && now < s.decode(token).value.exp
    ensures subject.Some? ==> subject.value == s.decode(token).value.id
  {
    match s.decode(token)
    case Some(c) => if now < c.exp then Some(c.id) else None
    case None => None
  }

  /** A token issued at `t0` verifies to its subject exactly until 30 days after `t0`. */
  lemma IssueVerify(s: Signer, id: nat, t0: int, now: int)
    requires Sound(s)
    ensures Verify(s, Issue(s, id, t0), now) == if now < t0 + Lifetime then Some(id) else None
  {
    assert s.decode(s.sign(Claims(id, t0, t0 + Lifetime))) == Some(Claims(id, t0, t0 + Lifetime));
  }

  /** Accepted 29 days after issuance, refused 31 days after. */
  lemma ExpiryBoundary(s: Signer, id: nat, t0: int)
    requires Sound(s)
    ensures Verify(s, Issue(s, id, t0), t0 + 29 * Day) == Some(id)
    ensures Verify(s, Issue(s, id, t0), t0 + 31 * Day) == None
  {
    IssueVerify(s, id, t0, t0 + 29 * Day);
    IssueVerify(s, id, t0, t0 + 31 * Day);
  }
}
