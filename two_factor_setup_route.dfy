/**
 * `POST /api/auth/2fa/setup`: starts two-factor enrollment for the signed-in user by
 * storing a freshly generated secret as pending and returning it with its
 * provisioning URI.
 */
module TwoFactorSetupRoute {
  import opened Wrappers
  import opened Primitives
  import opened Store
  import opened Http
  import opened SessionGuard

  const Issuer := "BlackNodeVault"

  /** The setup handler on a store snapshot; `secret` is what `generateSecret()` draws. */
  ghost function Setup(c: Crypto, s: DbState, sessionCookie: Option<string>, secret: string, now: Millis): Outcome
    requires ValidState(s)
  {
    var g := Guard(c, s.sessions, sessionCookie, now);
    var s1 := s.(sessions := g.sessions);
    match g.access
    case Denied(refusal) => Outcome(refusal, s1)
    case Granted(userId) =>
      var user := s1.users[userId];
      var otpauthUrl := c.keyUri(secret, Issuer, user.email);
      Outcome(Reply(200, Enrollment(secret, otpauthUrl)),
              s1.(users := s1.users[userId := user.(twoFactorTempSecret := Some(secret))]))
  }

  /** The handler. */
  method Post(db: Database, sessionCookie: Option<string>, secret: string, now: Millis) returns (response: Response)
    requires db.Valid()
    modifies db
    ensures db.Valid()
    ensures Outcome(response, db.State()) == Setup(db.crypto, old(db.State()), sessionCookie, secret, now)
  {
    var access := RequireSession(db, sessionCookie, now);
    if access.Denied? {
      return access.response;
    }
    var user := db.users[access.userId];
    var otpauthUrl := db.crypto.keyUri(secret, Issuer, user.email);
    db.users := db.users[access.userId := user.(twoFactorTempSecret := Some(secret))];
    response := Reply(200, Enrollment(secret, otpauthUrl));
  }

  /** Without a valid session the guard's refusal is the response and only the session
      table may change (an expired session is removed). */
  lemma SetupGuarded(c: Crypto, s: DbState, sessionCookie: Option<string>, secret: string, now: Millis)
    requires ValidState(s)
    requires Guard(c, s.sessions, sessionCookie, now).access.Denied?
    ensures var g := Guard(c, s.sessions, sessionCookie, now);
      Setup(c, s, sessionCookie, secret, now) == Outcome(g.access.response, s.(sessions := g.sessions))
  {
  }

  /** With a valid session only the caller's pending secret changes, to the secret
      returned; the enabled flag and the committed secret are untouched; the URI is made
      for that secret with issuer "BlackNodeVault" and the caller's address as label. */
  lemma SetupStoresPendingSecret(c: Crypto, s: DbState, sessionCookie: Option<string>, secret: string, now: Millis)
    requires ValidState(s)
    requires Guard(c, s.sessions, sessionCookie, now).access.Granted?
    ensures var g := Guard(c, s.sessions, sessionCookie, now);
      var userId := g.access.userId;
      var o := Setup(c, s, sessionCookie, secret, now);
      && userId in s.users
      && o.response == Response(200, Enrollment(secret, c.keyUri(secret, "BlackNodeVault", s.users[userId].email)), Keep, Keep)
      && o.after == s.(sessions := g.sessions, users := s.users[userId := o.after.users[userId]])
      && o.after.users[userId].twoFactorTempSecret == Some(secret)
      && o.after.users[userId].twoFactorEnabled == s.users[userId].twoFactorEnabled
      && o.after.users[userId].twoFactorSecret == s.users[userId].twoFactorSecret
      && o.after.users[userId].email == s.users[userId].email
      && o.after.users[userId].passwordHash == s.users[userId].passwordHash
      && ValidState(o.after)
  {
  }

  /** Running setup twice leaves only the second secret pending. */
  lemma SetupTwice(c: Crypto, s: DbState, sessionCookie: Option<string>, first: string, second: string, now: Millis, later: Millis)
    requires ValidState(s)
    requires Setup(c, s, sessionCookie, first, now).response.status == 200
    ensures ValidState(Setup(c, s, sessionCookie, first, now).after)
    ensures var mid := Setup(c, s, sessionCookie, first, now).after;
      var userId := Guard(c, s.sessions, sessionCookie, now).access.userId;
      Setup(c, mid, sessionCookie, second, later).response.status == 200 ==>
        && Guard(c, mid.sessions, sessionCookie, later).access == Granted(userId)
        && Setup(c, mid, sessionCookie, second, later).after.users[userId].twoFactorTempSecret == Some(second)
  {
    SetupStoresPendingSecret(c, s, sessionCookie, first, now);
  }
}
