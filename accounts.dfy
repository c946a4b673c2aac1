/**
 * The account service (backend/controllers/auth.js): registration, login and
 * the profile lookup over a user store. The duplicate check of `register`
 * takes the store's answer as a parameter, since two different users may
 * clash with one registration; the other lookups match at most one stored
 * user under the store's invariants, so which match comes first does not
 * matter there.
 */
module Accounts {
  import opened Wrappers
  import opened Text
  import Tokens
  import opened Queries

  const MissingFields := "Please provide all required fields"
  const ShortPassword := "Password must be at least 6 characters long"
  const EmailTaken := "Email already registered"
  const UsernameTaken := "Username already taken"
  const AlreadyExists := "User already exists with this email or username"
  const MissingCredentials := "Please provide email and password"
  const InvalidCredentials := "Invalid credentials"
  const UserNotFound := "User not found"
  const MinPasswordLength := 6

  /** A stored user; `passwordHash` is what the model's pre-save hook stored. */
  datatype User = User(id: nat, username: string, email: string, passwordHash: string)

  /** A user as shown to clients and attached to requests: the password is not part of it. */
  datatype Profile = Profile(id: nat, username: string, email: string)

  function ProfileOf(u: User): Profile {
    Profile(u.id, u.username, u.email)
  }

  /** The body of a register request, every field taken as a string; "" stands for an absent or empty field. */
  datatype Registration = Registration(username: string, email: string, password: string)

  /** The body of a login request, every field taken as a string; "" stands for an absent or empty field. */
  datatype Credentials = Credentials(email: string, password: string)

  /** How `User.create` ends: it stores the user, or throws a duplicate-key error (code 11000), or throws another error. */
  datatype Fault = NoFault | DuplicateKey | StoreError(message: string)

  /** What a handler sends back. */
  datatype Reply =
    | Refused(status: nat, message: string)
    | Session(status: nat, profile: Profile, token: string)
    | Me(profile: Profile)
    | ServerError(error: string)

  /** `findById(id)`. */
  function FindById(users: seq<User>, id: nat): (r: Option<User>)
    ensures r.Some? ==> r.value.id == id && r.value in users
    ensures r.None? <==> forall i :: 0 <= i < |users| ==> users[i].id != id
  {
    First(users, (u: User) => u.id == id)
  }

  /** True for a user that shares the lower-cased email or username of `r`. */
  predicate Clashes(u: User, r: Registration) {
    u.email == Lower(r.email) || u.username == Lower(r.username)
  }

  /**
   * What `findOne({$or: [{email}, {username}]})` may return: no user
   * exactly when none clashes, otherwise some stored user that clashes.
   * Which of several clashing users comes back is up to the store.
   */
  predicate LookupAnswer(users: seq<User>, r: Registration, found: Option<User>) {
    && (found.None? <==> forall i :: 0 <= i < |users| ==> !Clashes(users[i], r))
    && (found.Some? ==> found.value in users && Clashes(found.value, r))
  }

  /** All three fields present and a password of at least 6 UTF-16 code units. */
  predicate FieldsValid(r: Registration) {
    r.username != "" && r.email != "" && r.password != "" && Utf16Length(r.password) >= MinPasswordLength
  }

  /**
   * The checks `register` makes before it writes: all three fields present,
   * then the password length as JavaScript counts it, then the user
   * `found` by the duplicate lookup, whose email decides between the two
   * duplicate messages. `None` means the user is created next.
   */
  function Precheck(r: Registration, found: Option<User>): (out: Option<Reply>)
    ensures r.username == "" || r.email == "" || r.password == "" ==>
              out == Some(Refused(400, MissingFields))
    ensures r.username != "" && r.email != "" && r.password != "" && Utf16Length(r.password) < MinPasswordLength ==>
              out == Some(Refused(400, ShortPassword))
    ensures out.None? <==> FieldsValid(r) && found.None?
    ensures out == Some(Refused(400, EmailTaken)) <==>
              FieldsValid(r) && found.Some? && found.value.email == Lower(r.email)
    ensures out == Some(Refused(400, UsernameTaken)) <==>
              FieldsValid(r) && found.Some? && found.value.email != Lower(r.email)
    ensures out.Some? ==> out.value.Refused? && out.value.status == 400
  {
    if r.username == "" || r.email == "" || r.password == "" then Some(Refused(400, MissingFields))
    else if Utf16Length(r.password) < MinPasswordLength then Some(Refused(400, ShortPassword))
    else
      match found
      case Some(u) =>
        if u.email == Lower(r.email) then Some(Refused(400, EmailTaken)) else Some(Refused(400, UsernameTaken))
      case None => None
  }

  /**
   * What holds whichever clashing user the store returns: the precheck
   * passes exactly when nobody clashes; "Email already registered" is only
   * said when someone holds the email, and always when every clashing user
   * does; "Username already taken" is only said when someone holds the
   * username, and always when nobody holds the email.
   */
  lemma {:induction false} ClashMessage(users: seq<User>, r: Registration, found: Option<User>)
    requires LookupAnswer(users, r, found)
    requires FieldsValid(r)
    ensures Precheck(r, found).None? <==> forall i :: 0 <= i < |users| ==> !Clashes(users[i], r)
    ensures Precheck(r, found) == Some(Refused(400, EmailTaken)) ==>
              exists i :: 0 <= i < |users| && users[i].email == Lower(r.email)
    ensures Precheck(r, found) == Some(Refused(400, UsernameTaken)) ==>
              exists i :: 0 <= i < |users| && users[i].username == Lower(r.username)
    ensures (exists i :: 0 <= i < |users| && Clashes(users[i], r)) &&
            (forall i :: 0 <= i < |users| && Clashes(users[i], r) ==> users[i].email == Lower(r.email)) ==>
              Precheck(r, found) == Some(Refused(400, EmailTaken))
    ensures (exists i :: 0 <= i < |users| && Clashes(users[i], r)) &&
            (forall i :: 0 <= i < |users| ==> users[i].email != Lower(r.email)) ==>
              Precheck(r, found) == Some(Refused(400, UsernameTaken))
  {
    if found.Some? {
      var k :| 0 <= k < |users| && users[k] == found.value;
      assert Clashes(users[k], r);
    }
  }

  /**
   * The password length is counted in UTF-16 code units: three emoji make
   * a 6-unit password, which passes the length check although it is only
   * three characters long.
   */
  lemma EmojiPassword(username: string, email: string, found: Option<User>)
    requires username != "" && email != ""
    ensures Precheck(Registration(username, email, "\U{1F600}\U{1F600}\U{1F600}"), found) != Some(Refused(400, ShortPassword))
  {
    EmojiLength();
  }

  /** The stored record for a successful registration: its id and hash, and the names lower-cased. */
  function NewUser(id: nat, r: Registration, passwordHash: string): (u: User)
    ensures u.id == id && u.passwordHash == passwordHash
    ensures u.username == Lower(r.username) && u.email == Lower(r.email)
    ensures Clashes(u, r)
    ensures |u.username| == |r.username| && |u.email| == |r.email|
    ensures forall i :: 0 <= i < |u.username| ==> !IsUpper(u.username[i])
    ensures forall i :: 0 <= i < |u.email| ==> !IsUpper(u.email[i])
  {
    User(id, Lower(r.username), Lower(r.email), passwordHash)
  }

  /**
   * The user store. Ids are handed out in increasing order; usernames and
   * emails are unique and stored lower-cased.
   */
  class UserStore {
    var users: seq<User>
    var nextId: nat

    ghost predicate Valid()
      reads this
    {
      && (forall i :: 0 <= i < |users| ==> users[i].id < nextId)
      && (forall i :: 0 <= i < |users| ==>
            Lower(users[i].username) == users[i].username && Lower(users[i].email) == users[i].email)
      && (forall i, j :: 0 <= i < j < |users| ==>
            users[i].id != users[j].id && users[i].email != users[j].email && users[i].username != users[j].username)
    }

    constructor ()
      ensures Valid() && users == []
    {
      users := [];
      nextId := 0;
    }

    /**
     * `register`: the checks of `Precheck` on the user `found` by the
     * duplicate lookup, then `User.create`, then a 201 reply carrying a
     * token for the new id. A failing create writes nothing; a
     * duplicate-key failure is a 400, any other a 500.
     */
    method Register(r: Registration, found: Option<User>, passwordHash: string, fault: Fault,
                    signer: Tokens.Signer, now: int)
      returns (reply: Reply)
      requires Valid()
      requires LookupAnswer(users, r, found)
      modifies this
      ensures Valid()
      ensures Precheck(r, found).Some? ==>
                reply == Precheck(r, found).value && users == old(users)
      ensures Precheck(r, found).None? && fault == DuplicateKey ==>
                reply == Refused(400, AlreadyExists) && users == old(users)
      ensures Precheck(r, found).None? && fault.StoreError? ==>
                reply == ServerError(fault.message) && users == old(users)
      ensures Precheck(r, found).None? && fault == NoFault ==>
                && users == old(users) + [NewUser(old(nextId), r, passwordHash)]
                && reply == Session(201, ProfileOf(NewUser(old(nextId), r, passwordHash)),
                                    Tokens.Issue(signer, old(nextId), now))
    {
      var refusal := Precheck(r, found);
      if refusal.Some? {
        return refusal.value;
      }
      match fault
      case DuplicateKey =>
        return Refused(400, AlreadyExists);
      case StoreError(message) =>
        return ServerError(message);
      case NoFault =>
        ClashMessage(users, r, found);
        var user := NewUser(nextId, r, passwordHash);
        LowerIdempotent(r.username);
        LowerIdempotent(r.email);
        users := users + [user];
        nextId := nextId + 1;
        reply := Session(201, ProfileOf(user), Tokens.Issue(signer, user.id, now));
    }

    /**
     * `login`: both fields present, then the user with the lower-cased
     * email, then the password check. An unknown email and a wrong
     * password give the same 401 reply. `fault` is the error the lookup
     * or the password check throws, answered with a 500. The store is
     * only read.
     */
    method Login(c: Credentials, matches: (string, string) -> bool, fault: Option<string>,
                 signer: Tokens.Signer, now: int)
      returns (reply: Reply)
      requires Valid()
      ensures c.email == "" || c.password == "" ==> reply == Refused(400, MissingCredentials)
      ensures c.email != "" && c.password != "" && fault.Some? ==> reply == ServerError(fault.value)
      ensures reply.Session? <==>
                && c.email != "" && c.password != "" && fault.None?
                && exists i :: 0 <= i < |users| && users[i].email == Lower(c.email) &&
                               matches(c.password, users[i].passwordHash)
      ensures reply.Session? ==>
                && reply.status == 200
                && exists i :: 0 <= i < |users| && users[i].email == Lower(c.email) &&
                               reply.profile == ProfileOf(users[i]) &&
                               reply.token == Tokens.Issue(signer, users[i].id, now)
      ensures c.email != "" && c.password != "" && fault.None? && !reply.Session? ==>
                reply == Refused(401, InvalidCredentials)
    {
      if c.email == "" || c.password == "" {
        return Refused(400, MissingCredentials);
      }
      if fault.Some? {
        return ServerError(fault.value);
      }
      var found := First(users, (u: User) => u.email == Lower(c.email));
      if found.None? {
        return Refused(401, InvalidCredentials);
      }
      var user := found.value;
      if !matches(c.password, user.passwordHash) {
        return Refused(401, InvalidCredentials);
      }
      reply := Session(200, ProfileOf(user), Tokens.Issue(signer, user.id, now));
    }

    /**
     * `getMe`: the profile of the requesting user, 404 when that id is no
     * longer stored, or a 500 when the lookup throws `fault`.
     */
    method GetMe(id: nat, fault: Option<string>) returns (reply: Reply)
      ensures fault.Some? ==> reply == ServerError(fault.value)
      ensures reply == Refused(404, UserNotFound) <==>
                fault.None? && forall i :: 0 <= i < |users| ==> users[i].id != id
      ensures reply.Me? ==> exists i :: 0 <= i < |users| && users[i].id == id && reply.profile == ProfileOf(users[i])
      ensures fault.None? ==> reply.Me? || reply == Refused(404, UserNotFound)
    {
      if fault.Some? {
        return ServerError(fault.value);
      }
      var found := FindById(users, id);
      if found.None? {
        return Refused(404, UserNotFound);
      }
      reply := Me(ProfileOf(found.value));
    }
  }

  /**
   * The lookup does not fix which clashing user comes back, and the
   * message depends on it: with bob/a@x.com and carol/bob@x.com stored,
   * registering bob/bob@x.com is told "Username already taken" when the
   * store returns bob and "Email already registered" when it returns carol.
   */
  lemma PickDecides()
    ensures var users := [User(1, "bob", "a@x.com", "h1"), User(2, "carol", "bob@x.com", "h2")];
            var r := Registration("bob", "bob@x.com", "secret1");
            && LookupAnswer(users, r, Some(users[0]))
            && LookupAnswer(users, r, Some(users[1]))
            && Precheck(r, Some(users[0])) == Some(Refused(400, UsernameTaken))
            && Precheck(r, Some(users[1])) == Some(Refused(400, EmailTaken))
  {
    var r := Registration("bob", "bob@x.com", "secret1");
    LowerKeeps("bob");
    LowerKeeps("bob@x.com");
    var users := [User(1, "bob", "a@x.com", "h1"), User(2, "carol", "bob@x.com", "h2")];
    assert Clashes(users[0], r) && Clashes(users[1], r);
    assert Utf16Length(r.password) == 7;
  }

  /**
   * Registration then login: once a registration has passed its checks and
   * its user is stored, and the stored hash matches the password it was
   * made from, logging in with the same email and password finds exactly
   * that user, so `Login` answers with its session.
   */
  lemma {:induction false} RegisteredCanLogIn(users: seq<User>, r: Registration, found: Option<User>, nextId: nat,
                                              hash: string, matches: (string, string) -> bool)
    requires LookupAnswer(users, r, found)
    requires Precheck(r, found).None?
    requires matches(r.password, hash)
    ensures var all := users + [NewUser(nextId, r, hash)];
            && (exists i :: 0 <= i < |all| && all[i].email == Lower(r.email) && matches(r.password, all[i].passwordHash))
            && (forall i :: 0 <= i < |all| && all[i].email == Lower(r.email) ==> all[i] == NewUser(nextId, r, hash))
  {
    ClashMessage(users, r, found);
    var all := users + [NewUser(nextId, r, hash)];
    assert all[|users|] == NewUser(nextId, r, hash);
    forall i | 0 <= i < |all| && all[i].email == Lower(r.email) ensures all[i] == NewUser(nextId, r, hash) {
      if i < |users| {
        assert Clashes(users[i], r);
      }
    }
  }
}
