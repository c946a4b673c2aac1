/**
 * The identity guard `protect` (backend/middleware/auth.js): take the bearer
 * token from the Authorization header, verify it, look its subject up and
 * attach that user to the request, or answer 401.
 */
module Guard {
  import opened Wrappers
  import opened Text
  import Tokens
  import opened Accounts

  const NoToken := "Not authorized, no token"
  const TokenFailed := "Not authorized, token failed"
  const NoSuchUser := "Not authorized, user not found"

  /**
   * The token of an Authorization header: the header must start with
   * "Bearer", and the token is the second space-separated piece, which
   * must be non-empty.
   */
  function Bearer(authorization: Option<string>): (token: Option<string>)
    ensures token.Some? ==> authorization.Some? && StartsWith(authorization.value, "Bearer")
    ensures token.Some? ==> token.value != "" && ' ' !in token.value
    ensures token.Some? ==> |Split(authorization.value, ' ')| > 1 && token.value == Split(authorization.value, ' ')[1]
    ensures authorization.Some? && StartsWith(authorization.value, "Bearer") ==>
              var parts := Split(authorization.value, ' ');
              (token.None? <==> |parts| < 2 || parts[1] == "")
  {
    match authorization
    case None => None
    case Some(h) =>
      if StartsWith(h, "Bearer") then
        var parts := Split(h, ' ');
        if |parts| > 1 && parts[1] != "" then Some(parts[1]) else None
      else None
  }

  /** The header a client builds, "Bearer " followed by the token, yields that token. */
  lemma {:induction false} BearerRoundTrip(t: string)
    requires t != "" && ' ' !in t
    ensures Bearer(Some("Bearer " + t)) == Some(t)
  {
    var h := "Bearer " + t;
    assert h == "Bearer" + [' '] + t;
    SplitFirst("Bearer", ' ', t);
    SplitWhole(t, ' ');
    assert h[..6] == "Bearer";
  }

  /** A header that is the bare word "Bearer" holds no token. */
  lemma {:induction false} BareBearer()
    ensures Bearer(Some("Bearer")) == None
  {
    SplitWhole("Bearer", ' ');
  }

  /** Only the second space-separated piece counts: "Bearer " + t + " " + rest yields t, whatever follows. */
  lemma {:induction false} ExtraPieces(t: string, rest: string)
    requires t != "" && ' ' !in t
    ensures Bearer(Some("Bearer " + t + " " + rest)) == Some(t)
  {
    var h := "Bearer " + t + " " + rest;
    assert h == "Bearer" + [' '] + (t + [' '] + rest);
    SplitFirst(t, ' ', rest);
    SplitFirst("Bearer", ' ', t + [' '] + rest);
    assert Split(h, ' ')[1] == t;
    assert h[..6] == "Bearer";
  }

  /** "Bearer" need not be a whole word: "Bearer" + w + " " + t yields t for any word w without spaces. */
  lemma {:induction false} PrefixOnly(w: string, t: string)
    requires ' ' !in w
    requires t != "" && ' ' !in t
    ensures Bearer(Some("Bearer" + w + " " + t)) == Some(t)
  {
    var h := "Bearer" + w + " " + t;
    assert h == ("Bearer" + w) + [' '] + t;
    SplitWhole(t, ' ');
    SplitFirst("Bearer" + w, ' ', t);
    assert Split(h, ' ') == ["Bearer" + w, t];
    assert h[..6] == "Bearer";
  }

  /** The outcome of the guard: the user to attach, or the 401 message. */
  datatype Verdict = Admit(user: Profile) | Deny(message: string)

  /**
   * The guard's decision, in order: no token, a token that fails
   * verification, a subject that is not stored, or admission of the
   * stored user without its password.
   */
  function Authenticate(authorization: Option<string>, users: seq<User>, signer: Tokens.Signer, now: int)
    : (v: Verdict)
    ensures v == Deny(NoToken) <==> Bearer(authorization).None?
    ensures v == Deny(TokenFailed) <==>
              Bearer(authorization).Some? && Tokens.Verify(signer, Bearer(authorization).value, now).None?
    ensures v == Deny(NoSuchUser) <==>
              && Bearer(authorization).Some?
              && Tokens.Verify(signer, Bearer(authorization).value, now).Some?
              && FindById(users, Tokens.Verify(signer, Bearer(authorization).value, now).value).None?
    ensures v.Admit? ==>
              && Bearer(authorization).Some?
              && Tokens.Verify(signer, Bearer(authorization).value, now).Some?
              && exists i :: 0 <= i < |users| &&
                   users[i].id == Tokens.Verify(signer, Bearer(authorization).value, now).value &&
                   v.user == ProfileOf(users[i])
    ensures v.Admit? || v.message in {NoToken, TokenFailed, NoSuchUser}
  {
    match Bearer(authorization)
    case None => Deny(NoToken)
    case Some(token) =>
      match Tokens.Verify(signer, token, now)
      case None => Deny(TokenFailed)
      case Some(id) =>
        match FindById(users, id)
        case None => Deny(NoSuchUser)
        case Some(u) => Admit(ProfileOf(u))
  }

  /**
   * A token issued for a stored user, sent as "Bearer <token>", admits
   * that user until 30 days after issuance and is refused from then on.
   */
  lemma {:induction false} IssuedTokenAdmits(users: seq<User>, signer: Tokens.Signer, u: User, t0: int, now: int)
    requires Tokens.Sound(signer)
    requires FindById(users, u.id) == Some(u)
    ensures now < t0 + Tokens.Lifetime ==>
              Authenticate(Some("Bearer " + Tokens.Issue(signer, u.id, t0)), users, signer, now) == Admit(ProfileOf(u))
    ensures now >= t0 + Tokens.Lifetime ==>
              Authenticate(Some("Bearer " + Tokens.Issue(signer, u.id, t0)), users, signer, now) == Deny(TokenFailed)
  {
    var token := Tokens.Issue(signer, u.id, t0);
    assert signer.decode(signer.sign(Tokens.Claims(u.id, t0, t0 + Tokens.Lifetime)))
        == Some(Tokens.Claims(u.id, t0, t0 + Tokens.Lifetime));
    BearerRoundTrip(token);
    Tokens.IssueVerify(signer, u.id, t0, now);
  }

  /** An unexpired token whose subject is no longer stored is refused as "user not found". */
  lemma {:induction false} VanishedSubject(users: seq<User>, signer: Tokens.Signer, id: nat, t0: int, now: int)
    requires Tokens.Sound(signer)
    requires forall i :: 0 <= i < |users| ==> users[i].id != id
    requires now < t0 + Tokens.Lifetime
    ensures Authenticate(Some("Bearer " + Tokens.Issue(signer, id, t0)), users, signer, now) == Deny(NoSuchUser)
  {
    var token := Tokens.Issue(signer, id, t0);
    assert signer.decode(signer.sign(Tokens.Claims(id, t0, t0 + Tokens.Lifetime)))
        == Some(Tokens.Claims(id, t0, t0 + Tokens.Lifetime));
    BearerRoundTrip(token);
    Tokens.IssueVerify(signer, id, t0, now);
  }

  /** An incoming request as the guard sees it. */
  class Request {
    const authorization: Option<string>
    /** `req.user`. */
    var user: Option<Profile>
    /** How many times the guard called `next`. */
    var forwarded: nat

    constructor (authorization: Option<string>)
      ensures this.authorization == authorization && user == None && forwarded == 0
    {
      this.authorization := authorization;
      user := None;
      forwarded := 0;
    }
  }

  /**
   * `protect`: on admission `req.user` is the stored user and `next` is
   * called once; on every refusal the reply is a 401 with the verdict's
   * message and the request is left as it was. The store is only read.
   */
  method Protect(req: Request, store: UserStore, signer: Tokens.Signer, now: int) returns (refusal: Option<Reply>)
    modifies req
    ensures Authenticate(req.authorization, store.users, signer, now).Admit? ==>
              && refusal.None?
              && req.user == Some(Authenticate(req.authorization, store.users, signer, now).user)
              && req.forwarded == old(req.forwarded) + 1
    ensures Authenticate(req.authorization, store.users, signer, now).Deny? ==>
              && refusal == Some(Refused(401, Authenticate(req.authorization, store.users, signer, now).message))
              && req.user == old(req.user)
              && req.forwarded == old(req.forwarded)
  {
    var token := Bearer(req.authorization);
    if token.None? {
      return Some(Refused(401, NoToken));
    }
    var decoded := Tokens.Verify(signer, token.value, now);
    if decoded.None? {
      return Some(Refused(401, TokenFailed));
    }
    var found := FindById(store.users, decoded.value);
    if found.None? {
      return Some(Refused(401, NoSuchUser));
    }
    req.user := Some(ProfileOf(found.value));
    req.forwarded := req.forwarded + 1;
    refusal := None;
  }

  /**
   * A fresh registration's token admits the new user: the reply of a
   * successful `Register` carries a token that the guard resolves to the
   * user just stored.
   */
  lemma {:induction false} RegisteredTokenAdmits(users: seq<User>, nextId: nat, r: Registration, hash: string,
                                                 signer: Tokens.Signer, t0: int, now: int)
    requires Tokens.Sound(signer)
    requires forall i :: 0 <= i < |users| ==> users[i].id < nextId
    requires now < t0 + Tokens.Lifetime
    ensures Authenticate(Some("Bearer " + Tokens.Issue(signer, nextId, t0)),
                         users + [NewUser(nextId, r, hash)], signer, now)
         == Admit(ProfileOf(NewUser(nextId, r, hash)))
  {
    var all := users + [NewUser(nextId, r, hash)];
    var found := FindById(all, nextId);
    assert all[|users|].id == nextId;
    assert found.Some?;
    assert forall i :: 0 <= i < |all| && all[i].id == nextId ==> i == |users|;
    assert found == Some(NewUser(nextId, r, hash));
    IssuedTokenAdmits(all, signer, NewUser(nextId, r, hash), t0, now);
  }
}
