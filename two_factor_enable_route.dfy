/**
 * `POST /api/auth/2fa/enable`: completes two-factor enrollment. A code that the
 * pending secret accepts commits that secret and turns two-factor authentication on.
 */
module TwoFactorEnableRoute {
  import opened Wrappers
  import opened JsString
  import opened Primitives
  import opened Store
  import opened Http
  import opened Schema
  import opened SessionGuard

  /** The enable handler on a store snapshot. */
  ghost function Enable(c: Crypto, s: DbState, sessionCookie: Option<string>, body: Json, now: Millis): Outcome
    requires ValidState(s)
  {
    var g := Guard(c, s.sessions, sessionCookie, now);
    var s1 := s.(sessions := g.sessions);
    match g.access
    case Denied(refusal) => Outcome(refusal, s1)
    case Granted(userId) =>
      var code := ParseCode(body);
      var user := s1.users[userId];
      if code.None? then
        Outcome(Reply(400, Error("Invalid payload")), s1)
      else if !Truthy(user.twoFactorTempSecret) then
        Outcome(Reply(400, Error("No 2FA setup in progress")), s1)
      else if !c.verifyTotp(code.value, user.twoFactorTempSecret.value, now) then
        Outcome(Reply(401, Error("Invalid code")), s1)
      else
        var enabled := user.(twoFactorEnabled := true, twoFactorSecret := user.twoFactorTempSecret, twoFactorTempSecret := None);
        Outcome(Reply(200, Ok), s1.(users := s1.users[userId := enabled]))
  }

  /** The handler. */
  method Post(db: Database, sessionCookie: Option<string>, body: Json, now: Millis) returns (response: Response)
    requires db.Valid()
    modifies db
    ensures db.Valid()
    ensures Outcome(response, db.State()) == Enable(db.crypto, old(db.State()), sessionCookie, body, now)
  {
    var access := RequireSession(db, sessionCookie, now);
    if access.Denied? {
      return access.response;
    }
    var code := ParseCode(body);
    if code.None? {
      return Reply(400, Error("Invalid payload"));
    }
    var user := db.users[access.userId];
    if user.twoFactorTempSecret.None? || user.twoFactorTempSecret.value == "" {
      return Reply(400, Error("No 2FA setup in progress"));
    }
    var valid := db.crypto.verifyTotp(code.value, user.twoFactorTempSecret.value, now);
    if !valid {
      return Reply(401, Error("Invalid code"));
    }
    db.users := db.users[access.userId :=
      user.(twoFactorEnabled := true, twoFactorSecret := user.twoFactorTempSecret, twoFactorTempSecret := None)];
    response := Reply(200, Ok);
  }

  /** Without a valid session the guard's refusal is the response and only the session
      table may change. */
  lemma EnableGuarded(c: Crypto, s: DbState, sessionCookie: Option<string>, body: Json, now: Millis)
    requires ValidState(s)
    requires Guard(c, s.sessions, sessionCookie, now).access.Denied?
    ensures var g := Guard(c, s.sessions, sessionCookie, now);
      Enable(c, s, sessionCookie, body, now) == Outcome(g.access.response, s.(sessions := g.sessions))
  {
  }

  /** Refusals after the guard: a code of the wrong shape gives 400 "Invalid payload"
      whether or not enrollment is pending; no pending secret gives 400; a code the
      pending secret rejects gives 401. In each case no user changes and a pending
      enrollment stays pending. */
  lemma RefusalsKeepUser(c: Crypto, s: DbState, sessionCookie: Option<string>, body: Json, now: Millis)
    requires ValidState(s)
    requires Guard(c, s.sessions, sessionCookie, now).access.Granted?
    requires Enable(c, s, sessionCookie, body, now).response.status != 200
    ensures var g := Guard(c, s.sessions, sessionCookie, now);
      var user := s.users[g.access.userId];
      var r := Enable(c, s, sessionCookie, body, now).response;
      && Enable(c, s, sessionCookie, body, now).after == s.(sessions := g.sessions)
      && (ParseCode(body).None? ==> r == Reply(400, Error("Invalid payload")))
      && (ParseCode(body).Some? && !Truthy(user.twoFactorTempSecret) ==> r == Reply(400, Error("No 2FA setup in progress")))
      && (ParseCode(body).Some? && Truthy(user.twoFactorTempSecret) ==> r == Reply(401, Error("Invalid code")))
  {
  }

  /** Success commits the pending secret in one update: two-factor authentication on,
      the committed secret the former pending one, nothing pending; the code was accepted
      by that secret; no other user and no other field changes. */
  lemma EnableCommitsPendingSecret(c: Crypto, s: DbState, sessionCookie: Option<string>, body: Json, now: Millis)
    requires ValidState(s)
    requires Enable(c, s, sessionCookie, body, now).response.status == 200
    ensures var g := Guard(c, s.sessions, sessionCookie, now);
      var userId := g.access.userId;
      var before := s.users[userId];
      var o := Enable(c, s, sessionCookie, body, now);
      && g.access.Granted?
      && Truthy(before.twoFactorTempSecret)
      && c.verifyTotp(ParseCode(body).value, before.twoFactorTempSecret.value, now)
      && o.after == s.(sessions := g.sessions, users := s.users[userId :=
           before.(twoFactorEnabled := true, twoFactorSecret := before.twoFactorTempSecret, twoFactorTempSecret := None)])
      && o.response == Reply(200, Ok)
      && o.after.users[userId].twoFactorEnabled
      && Truthy(o.after.users[userId].twoFactorSecret)
      && o.after.users[userId].twoFactorTempSecret.None?
      && ValidState(o.after)
  {
  }
}
