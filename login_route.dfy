/**
 * `POST /api/auth/login`: checks an e-mail address and a password, then either
 * opens a session or, for a user with two-factor authentication, issues a pre-2FA
 * challenge instead.
 */
module LoginRoute {
  import opened Wrappers
  import opened Primitives
  import opened Store
  import opened Auth
  import opened Http
  import opened Schema
  import opened SessionGuard

  /** The response to a failed login, whatever failed. */
  function InvalidCredentials(): Response {
    Reply(401, Error("Invalid credentials"))
  }

  /** The login handler on a store snapshot; `random` is what `randomBytes(32)` draws for
      a new session token. */
  ghost function Login(c: Crypto, s: DbState, body: Json, random: seq<Byte>, now: Millis): Outcome {
    match ParseCredentials(c, body, 1, None)
    case Rejected(issue) => Outcome(Reply(400, ValidationError(issue)), s)
    case Accepted(credentials) =>
      var found := UserIdByEmail(s.users, credentials.email);
      if found.None? || !c.verifyPassword(credentials.password, s.users[found.value].passwordHash) then
        Outcome(InvalidCredentials(), s)
      else if s.users[found.value].twoFactorEnabled then
        var challenge := CreatePre2FAChallenge(c, found.value, now);
        Outcome(Response(200, Requires2FA, DeleteCookie, SetCookie(challenge, ChallengeCookieMaxAge)), s)
      else
        var token := HexEncode(random);
        Outcome(Response(200, SignedIn, SetCookie(token, SessionCookieMaxAge), DeleteCookie),
                s.(sessions := s.sessions[c.hashToken(token) := NewSession(found.value, now)]))
  }

  /** The handler. */
  method Post(db: Database, body: Json, random: seq<Byte>, now: Millis) returns (response: Response)
    requires db.Valid()
    requires |random| == 32 && db.crypto.hashToken(HexEncode(random)) !in db.sessions
    modifies db
    ensures db.Valid()
    ensures Outcome(response, db.State()) == Login(db.crypto, old(db.State()), body, random, now)
  {
    var parsed := ParseCredentials(db.crypto, body, 1, None);
    if parsed.Rejected? {
      return Reply(400, ValidationError(parsed.issue));
    }
    var found := FindUserByEmail(db.users, parsed.value.email);
    if found.None? {
      return InvalidCredentials();
    }
    var user := db.users[found.value];
    var validPassword := db.crypto.verifyPassword(parsed.value.password, user.passwordHash);
    if !validPassword {
      return InvalidCredentials();
    }
    if user.twoFactorEnabled {
      var challenge := CreatePre2FAChallenge(db.crypto, found.value, now);
      return Response(200, Requires2FA, DeleteCookie, SetCookie(challenge, ChallengeCookieMaxAge));
    }
    var token := CreateSession(db, found.value, random, now);
    response := Response(200, SignedIn, SetCookie(token, SessionCookieMaxAge), DeleteCookie);
  }

  /** A body the schema rejects gives 400 with zod's first issue; nothing changes and no
      cookie is touched. */
  lemma MalformedBodyChangesNothing(c: Crypto, s: DbState, body: Json, random: seq<Byte>, now: Millis)
    requires ParseCredentials(c, body, 1, None).Rejected?
    ensures var o := Login(c, s, body, random, now);
      && o.response == Response(400, ValidationError(ParseCredentials(c, body, 1, None).issue), Keep, Keep)
      && o.after == s
  {
  }

  /** The user is looked up by the trimmed, lower-cased address. */
  lemma LooksUpNormalizedEmail(c: Crypto, s: DbState, body: Json, random: seq<Byte>, now: Millis)
    requires ValidState(s)
    requires Login(c, s, body, random, now).response.status == 200
    ensures body.Some? && FieldOf(body.value, "email").Text?
    ensures var id := UserIdByEmail(s.users, NormalizeEmail(FieldOf(body.value, "email").s));
      id.Some? && s.users[id.value].email == NormalizeEmail(FieldOf(body.value, "email").s)
  {
  }

  /** An unknown address and a wrong password give the same 401 and change nothing: the
      response does not tell which of the two was wrong. */
  lemma FailuresLookAlike(c: Crypto, s: DbState, body: Json, random: seq<Byte>, now: Millis)
    requires ParseCredentials(c, body, 1, None).Accepted?
    requires var credentials := ParseCredentials(c, body, 1, None).value;
      var found := UserIdByEmail(s.users, credentials.email);
      found.None? || !c.verifyPassword(credentials.password, s.users[found.value].passwordHash)
    ensures Login(c, s, body, random, now) == Outcome(Response(401, Error("Invalid credentials"), Keep, Keep), s)
  {
  }

  /** Password verification precedes every challenge and every session: whenever the
      response sets a cookie, the password matched the stored hash of the user found by
      the normalised address. */
  lemma PasswordCheckedFirst(c: Crypto, s: DbState, body: Json, random: seq<Byte>, now: Millis)
    requires var r := Login(c, s, body, random, now).response; r.sessionCookie.SetCookie? || r.challengeCookie.SetCookie?
    ensures ParseCredentials(c, body, 1, None).Accepted?
    ensures var credentials := ParseCredentials(c, body, 1, None).value;
      var found := UserIdByEmail(s.users, credentials.email);
      found.Some? && c.verifyPassword(credentials.password, s.users[found.value].passwordHash)
  {
  }

  /** With two-factor authentication enabled, a correct password yields only a challenge
      cookie valid for 300 seconds; the session cookie is deleted and no session is made. */
  lemma TwoFactorUserGetsChallenge(c: Crypto, s: DbState, body: Json, random: seq<Byte>, now: Millis)
    requires ParseCredentials(c, body, 1, None).Accepted?
    requires var credentials := ParseCredentials(c, body, 1, None).value;
      var found := UserIdByEmail(s.users, credentials.email);
      found.Some? && c.verifyPassword(credentials.password, s.users[found.value].passwordHash)
      && s.users[found.value].twoFactorEnabled
    ensures var o := Login(c, s, body, random, now);
      && o.response.body == Requires2FA
      && o.response.sessionCookie == DeleteCookie
      && o.response.challengeCookie.SetCookie? && o.response.challengeCookie.maxAge == 300
      && o.after == s
  {
  }

  /** The challenge cookie a two-factor login sets names the user, and the challenge
      verifies for that user during the next 299 seconds at least. */
  lemma ChallengeNamesUser(c: Crypto, s: DbState, body: Json, random: seq<Byte>, now: Millis, later: Millis)
    requires ValidState(s) && JoseSound(c)
    requires Login(c, s, body, random, now).response.body == Requires2FA
    requires now <= later <= now + 299000
    ensures var credentials := ParseCredentials(c, body, 1, None).value;
      var found := UserIdByEmail(s.users, credentials.email);
      && ParseCredentials(c, body, 1, None).Accepted? && found.Some?
      && VerifyPre2FAChallenge(c, Login(c, s, body, random, now).response.challengeCookie.value, later) == found
  {
    var credentials := ParseCredentials(c, body, 1, None).value;
    var found := UserIdByEmail(s.users, credentials.email);
    ChallengeLifetime(c, found.value, now, later);
  }

  /** A known address with the right password and no second factor signs in. */
  lemma PlainLoginOutcome(c: Crypto, s: DbState, body: Json, random: seq<Byte>, now: Millis, id: string)
    requires ParseCredentials(c, body, 1, None).Accepted?
    requires id in s.users && UserIdByEmail(s.users, ParseCredentials(c, body, 1, None).value.email) == Some(id)
    requires c.verifyPassword(ParseCredentials(c, body, 1, None).value.password, s.users[id].passwordHash)
    requires !s.users[id].twoFactorEnabled
    ensures Login(c, s, body, random, now)
      == Outcome(Response(200, SignedIn, SetCookie(HexEncode(random), SessionCookieMaxAge), DeleteCookie),
                 s.(sessions := s.sessions[c.hashToken(HexEncode(random)) := NewSession(id, now)]))
  {
  }

  /** The outcome of a login that answers `SignedIn`, spelled out. */
  lemma SignedInOutcome(c: Crypto, s: DbState, body: Json, random: seq<Byte>, now: Millis)
    requires Login(c, s, body, random, now).response.body == SignedIn
    ensures ParseCredentials(c, body, 1, None).Accepted?
    ensures UserIdByEmail(s.users, ParseCredentials(c, body, 1, None).value.email).Some?
    ensures var found := UserIdByEmail(s.users, ParseCredentials(c, body, 1, None).value.email);
      var token := HexEncode(random);
      Login(c, s, body, random, now)
        == Outcome(Response(200, SignedIn, SetCookie(token, SessionCookieMaxAge), DeleteCookie),
                   s.(sessions := s.sessions[c.hashToken(token) := NewSession(found.value, now)]))
  {
  }

  /** Without two-factor authentication, a correct password creates exactly one session
      and sets a session cookie for 604800 seconds; every other session is kept and the
      pre-2FA cookie is deleted. */
  lemma PlainUserGetsSession(c: Crypto, s: DbState, body: Json, random: seq<Byte>, now: Millis)
    requires c.hashToken(HexEncode(random)) !in s.sessions
    requires Login(c, s, body, random, now).response.body == SignedIn
    ensures var o := Login(c, s, body, random, now);
      && ParseCredentials(c, body, 1, None).Accepted?
      && UserIdByEmail(s.users, ParseCredentials(c, body, 1, None).value.email).Some?
      && o.response.sessionCookie == SetCookie(HexEncode(random), 604800)
      && o.response.challengeCookie == DeleteCookie
      && o.after == s.(sessions := o.after.sessions)
      && o.after.sessions.Keys == s.sessions.Keys + {c.hashToken(HexEncode(random))}
      && |o.after.sessions| == |s.sessions| + 1
      && (forall h :: h in s.sessions ==> o.after.sessions[h] == s.sessions[h])
  {
    SignedInOutcome(c, s, body, random, now);
    var found := UserIdByEmail(s.users, ParseCredentials(c, body, 1, None).value.email);
    AddSessionKeepsOthers(s.sessions, c.hashToken(HexEncode(random)), NewSession(found.value, now));
  }

  /** Storing a session under a new hash adds one entry and keeps the others. */
  lemma AddSessionKeepsOthers(sessions: map<string, Session>, tokenHash: string, session: Session)
    requires tokenHash !in sessions
    ensures var grown := sessions[tokenHash := session];
      && grown.Keys == sessions.Keys + {tokenHash}
      && |grown| == |sessions| + 1
      && (forall h :: h in sessions ==> grown[h] == sessions[h])
  {
  }

  /** The session cookie of a plain sign-in carries a token that the guard accepts as the
      signed-in user until the session expires. */
  lemma PlainSessionAccepted(c: Crypto, s: DbState, body: Json, random: seq<Byte>, now: Millis, later: Millis)
    requires |random| == 32
    requires Login(c, s, body, random, now).response.body == SignedIn
    requires later <= now + SessionTtlMs
    ensures ParseCredentials(c, body, 1, None).Accepted?
    ensures var found := UserIdByEmail(s.users, ParseCredentials(c, body, 1, None).value.email);
      && found.Some?
      && Guard(c, Login(c, s, body, random, now).after.sessions, Some(HexEncode(random)), later).access == Granted(found.value)
  {
    SignedInOutcome(c, s, body, random, now);
    var found := UserIdByEmail(s.users, ParseCredentials(c, body, 1, None).value.email);
    SessionTokenShape(random);
    NewSessionGranted(c, s.sessions, HexEncode(random), found.value, now, later);
  }
}
