/**
 * Properties that span several requests: what one route leaves in the store is what
 * the next one sees.
 */
module Scenarios {
  import opened Wrappers
  import opened JsString
  import opened Primitives
  import opened Store
  import opened Auth
  import opened Http
  import opened Schema
  import opened SessionGuard
  import LoginRoute
  import RegisterRoute
  import TwoFactorEnableRoute
  import TwoFactorVerifyRoute

  /** A fresh registration signs in with the same body: as long as bcrypt accepts the
      password it hashed, the login opens a session for the new user, without a second
      factor. */
  lemma RegisteredUserSignsIn(c: Crypto, s: DbState, body: Json, newId: string, salt: string, random: seq<Byte>, now: Millis)
    requires ValidState(s) && BcryptSound(c)
    requires newId != "" && newId !in s.users
    requires RegisterRoute.Register(c, s, body, newId, salt).response.status == 200
    requires |random| == 32
    ensures var registered := RegisterRoute.Register(c, s, body, newId, salt).after;
      var o := LoginRoute.Login(c, registered, body, random, now);
      && o.response == Response(200, SignedIn, SetCookie(HexEncode(random), 604800), DeleteCookie)
      && o.after.sessions == registered.sessions[c.hashToken(HexEncode(random)) := NewSession(newId, now)]
  {
    var registered := RegisterRoute.Register(c, s, body, newId, salt).after;
    RegisterRoute.RegisteredUserFound(c, s, body, newId, salt);
    var credentials := ParseCredentials(c, body, 1, None).value;
    assert c.verifyPassword(credentials.password, c.hashPassword(credentials.password, salt));
    LoginRoute.PlainLoginOutcome(c, registered, body, random, now, newId);
  }

  /** Once enrollment is confirmed, signing in takes two steps: the password alone
      yields only a challenge and changes nothing; that challenge, presented within 299
      seconds with a code the committed secret accepts (the secret that was pending
      during enrollment), opens a session for the same user. */
  lemma EnrolledLoginTakesTwoSteps(
    c: Crypto, s: DbState, sessionCookie: Option<string>, enableBody: Json, t0: Millis,
    loginBody: Json, random: seq<Byte>, t1: Millis,
    codeBody: Json, random': seq<Byte>, t2: Millis)
    requires ValidState(s) && JoseSound(c)
    requires TwoFactorEnableRoute.Enable(c, s, sessionCookie, enableBody, t0).response.status == 200
    requires var userId := Guard(c, s.sessions, sessionCookie, t0).access.userId;
      && ParseCredentials(c, loginBody, 1, None).Accepted?
      && userId in s.users
      && ParseCredentials(c, loginBody, 1, None).value.email == s.users[userId].email
      && c.verifyPassword(ParseCredentials(c, loginBody, 1, None).value.password, s.users[userId].passwordHash)
    requires var userId := Guard(c, s.sessions, sessionCookie, t0).access.userId;
      && ParseCode(codeBody).Some?
      && userId in s.users && s.users[userId].twoFactorTempSecret.Some?
      && c.verifyTotp(ParseCode(codeBody).value, s.users[userId].twoFactorTempSecret.value, t2)
    requires t1 <= t2 <= t1 + 299000
    requires |random'| == 32
    requires c.hashToken(HexEncode(random')) !in TwoFactorEnableRoute.Enable(c, s, sessionCookie, enableBody, t0).after.sessions
    ensures var enrolled := TwoFactorEnableRoute.Enable(c, s, sessionCookie, enableBody, t0).after;
      var login := LoginRoute.Login(c, enrolled, loginBody, random, t1);
      && login.response.body == Requires2FA
      && login.response.challengeCookie.SetCookie?
      && login.after == enrolled
    ensures var userId := Guard(c, s.sessions, sessionCookie, t0).access.userId;
      var enrolled := TwoFactorEnableRoute.Enable(c, s, sessionCookie, enableBody, t0).after;
      var login := LoginRoute.Login(c, enrolled, loginBody, random, t1);
      var verify := TwoFactorVerifyRoute.Verify(c, enrolled, codeBody, Some(login.response.challengeCookie.value), random', t2);
      && verify.response == Response(200, Ok, SetCookie(HexEncode(random'), 604800), DeleteCookie)
      && Guard(c, verify.after.sessions, Some(HexEncode(random')), t2).access == Granted(userId)
  {
    var g := Guard(c, s.sessions, sessionCookie, t0);
    var userId := g.access.userId;
    TwoFactorEnableRoute.EnableCommitsPendingSecret(c, s, sessionCookie, enableBody, t0);
    var enrolled := TwoFactorEnableRoute.Enable(c, s, sessionCookie, enableBody, t0).after;
    assert enrolled.users[userId].email == s.users[userId].email;
    assert enrolled.users[userId].passwordHash == s.users[userId].passwordHash;
    UserIdByEmailFinds(enrolled.users, userId);
    LoginRoute.TwoFactorUserGetsChallenge(c, enrolled, loginBody, random, t1);
    LoginRoute.ChallengeNamesUser(c, enrolled, loginBody, random, t1, t2);
    var login := LoginRoute.Login(c, enrolled, loginBody, random, t1);
    var challenge := login.response.challengeCookie.value;
    assert challenge == CreatePre2FAChallenge(c, userId, t1);
    assert Truthy(Some(challenge));
    assert VerifyPre2FAChallenge(c, challenge, t2) == Some(userId);
    assert TwoFactorVerifyRoute.TwoFactorReady(enrolled, userId);
    TwoFactorVerifyRoute.SuccessCreatesSession(c, enrolled, codeBody, Some(challenge), random', t2);
  }
}
