/**
 * `POST /api/auth/register`: creates an account for a new, normalised e-mail
 * address with a bcrypt hash of its password. It opens no session.
 */
module RegisterRoute {
  import opened Wrappers
  import opened Primitives
  import opened Store
  import opened Http
  import opened Schema

  const MinPasswordLength: nat := 10
  const MaxPasswordLength: nat := 128

  /** The registration handler on a store snapshot; `newId` is the id the store assigns
      and `salt` the salt bcrypt draws. */
  ghost function Register(c: Crypto, s: DbState, body: Json, newId: string, salt: string): Outcome {
    match ParseCredentials(c, body, MinPasswordLength, Some(MaxPasswordLength))
    case Rejected(issue) => Outcome(Reply(400, ValidationError(issue)), s)
    case Accepted(credentials) =>
      if UserIdByEmail(s.users, credentials.email).Some? then
        Outcome(Reply(409, Error("User already exists")), s)
      else
        var user := User(credentials.email, c.hashPassword(credentials.password, salt), false, None, None);
        Outcome(Reply(200, Ok), s.(users := s.users[newId := user]))
  }

  /** The handler. */
  method Post(db: Database, body: Json, newId: string, salt: string) returns (response: Response)
    requires db.Valid() && newId != "" && newId !in db.users
    modifies db
    ensures db.Valid()
    ensures Outcome(response, db.State()) == Register(db.crypto, old(db.State()), body, newId, salt)
  {
    ghost var before := db.State();
    var parsed := ParseCredentials(db.crypto, body, MinPasswordLength, Some(MaxPasswordLength));
    if parsed.Rejected? {
      return Reply(400, ValidationError(parsed.issue));
    }
    var existing := FindUserByEmail(db.users, parsed.value.email);
    if existing.Some? {
      return Reply(409, Error("User already exists"));
    }
    var passwordHash := db.crypto.hashPassword(parsed.value.password, salt);
    var user := User(parsed.value.email, passwordHash, false, None, None);
    assert Register(db.crypto, before, body, newId, salt) == Outcome(Reply(200, Ok), before.(users := before.users[newId := user]));
    AddUserKeepsValid(before, newId, user);
    db.users := db.users[newId := user];
    assert db.State() == before.(users := before.users[newId := user]);
    response := Reply(200, Ok);
  }

  /** A password shorter than 10 or longer than 128 code units is refused with 400 and
      no user is created. */
  lemma PasswordBounds(c: Crypto, s: DbState, body: Json, newId: string, salt: string)
    requires body.Some? && FieldOf(body.value, "password").Text?
    requires var n := |FieldOf(body.value, "password").s|; n < 10 || n > 128
    ensures var o := Register(c, s, body, newId, salt);
      o.response.status == 400 && o.response.body.ValidationError? && o.after == s
  {
  }

  /** An address that is taken once trimmed and lower-cased is refused with 409 and
      nothing changes. */
  lemma ExistingAddressConflicts(c: Crypto, s: DbState, body: Json, newId: string, salt: string, id: string)
    requires ParseCredentials(c, body, 10, Some(128)).Accepted?
    requires id in s.users && s.users[id].email == NormalizeEmail(FieldOf(body.value, "email").s)
    ensures Register(c, s, body, newId, salt) == Outcome(Response(409, Error("User already exists"), Keep, Keep), s)
  {
  }

  /** A successful registration adds exactly one user, under the new id, with the
      normalised address, the bcrypt hash of the password (not the password), and
      two-factor authentication off; it creates no session and sets no cookie. */
  lemma RegistrationAddsOneUser(c: Crypto, s: DbState, body: Json, newId: string, salt: string)
    requires ValidState(s) && newId != "" && newId !in s.users
    requires Register(c, s, body, newId, salt).response.status == 200
    ensures var o := Register(c, s, body, newId, salt);
      && body.Some? && FieldOf(body.value, "email").Text? && FieldOf(body.value, "password").Text?
      && o.after == s.(users := s.users[newId := User(
           NormalizeEmail(FieldOf(body.value, "email").s),
           c.hashPassword(FieldOf(body.value, "password").s, salt), false, None, None)])
      && |o.after.users| == |s.users| + 1
      && o.response.sessionCookie == Keep && o.response.challengeCookie == Keep
      && ValidState(o.after)
  {
    var credentials := ParseCredentials(c, body, MinPasswordLength, Some(MaxPasswordLength)).value;
    var user := User(credentials.email, c.hashPassword(credentials.password, salt), false, None, None);
    assert Register(c, s, body, newId, salt) == Outcome(Reply(200, Ok), s.(users := s.users[newId := user]));
    AddUserKeepsValid(s, newId, user);
  }

  /** The registered user is found again by the address a login body with the same
      fields normalises to, and carries the bcrypt hash of that body's password. */
  lemma RegisteredUserFound(c: Crypto, s: DbState, body: Json, newId: string, salt: string)
    requires ValidState(s) && newId != "" && newId !in s.users
    requires Register(c, s, body, newId, salt).response.status == 200
    ensures ParseCredentials(c, body, 1, None).Accepted?
    ensures var credentials := ParseCredentials(c, body, 1, None).value;
      var after := Register(c, s, body, newId, salt).after;
      && newId in after.users
      && UserIdByEmail(after.users, credentials.email) == Some(newId)
      && after.users[newId] == User(credentials.email, c.hashPassword(credentials.password, salt), false, None, None)
  {
    RegistrationAddsOneUser(c, s, body, newId, salt);
    var after := Register(c, s, body, newId, salt).after;
    UserIdByEmailFinds(after.users, newId);
  }

  /** Once an address is registered, a second registration with any spelling that
      normalises to the same address conflicts. */
  lemma SecondRegistrationConflicts(c: Crypto, s: DbState, first: Json, second: Json, newId: string, otherId: string, salt: string, salt2: string)
    requires ValidState(s) && newId != "" && newId !in s.users
    requires Register(c, s, first, newId, salt).response.status == 200
    requires ParseCredentials(c, second, 10, Some(128)).Accepted?
    requires NormalizeEmail(FieldOf(second.value, "email").s) == NormalizeEmail(FieldOf(first.value, "email").s)
    ensures var after := Register(c, s, first, newId, salt).after;
      Register(c, after, second, otherId, salt2).response == Response(409, Error("User already exists"), Keep, Keep)
  {
    var after := Register(c, s, first, newId, salt).after;
    assert after.users[newId].email == NormalizeEmail(FieldOf(second.value, "email").s);
  }
}
