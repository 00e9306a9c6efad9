/**
 * `POST /api/auth/2fa/verify`: the second step of a two-factor login. It turns a
 * valid pre-2FA challenge and a code accepted for the user's committed secret into a
 * session.
 */
module TwoFactorVerifyRoute {
  import opened Wrappers
  import opened JsString
  import opened Primitives
  import opened Store
  import opened Auth
  import opened Http
  import opened Schema
  import opened SessionGuard

  /** The user a challenge may complete a login for: one that exists, has two-factor
      authentication enabled and a non-empty committed secret. */
  predicate TwoFactorReady(s: DbState, userId: string) {
    userId in s.users && s.users[userId].twoFactorEnabled && Truthy(s.users[userId].twoFactorSecret)
  }

  /** The verification handler on a store snapshot. */
  ghost function Verify(c: Crypto, s: DbState, body: Json, challengeCookie: Option<string>, random: seq<Byte>, now: Millis): Outcome {
    var code := ParseCode(body);
    if code.None? then
      Outcome(Reply(400, Error("Invalid payload")), s)
    else if !Truthy(challengeCookie) then
      Outcome(Reply(401, Error("Missing 2FA challenge")), s)
    else
      var userId := VerifyPre2FAChallenge(c, challengeCookie.value, now);
      if userId.None? then
        Outcome(Response(401, Error("Invalid challenge"), Keep, DeleteCookie), s)
      else if !TwoFactorReady(s, userId.value) then
        Outcome(Reply(401, Error("2FA is not enabled")), s)
      else if !c.verifyTotp(code.value, s.users[userId.value].twoFactorSecret.value, now) then
        Outcome(Reply(401, Error("Invalid 2FA code")), s)
      else
        var token := HexEncode(random);
        Outcome(Response(200, Ok, SetCookie(token, SessionCookieMaxAge), DeleteCookie),
                s.(sessions := s.sessions[c.hashToken(token) := NewSession(userId.value, now)]))
  }

  /** The handler. */
  method Post(db: Database, body: Json, challengeCookie: Option<string>, random: seq<Byte>, now: Millis) returns (response: Response)
    requires db.Valid()
    requires |random| == 32 && db.crypto.hashToken(HexEncode(random)) !in db.sessions
    modifies db
    ensures db.Valid()
    ensures Outcome(response, db.State()) == Verify(db.crypto, old(db.State()), body, challengeCookie, random, now)
  {
    var code := ParseCode(body);
    if code.None? {
      return Reply(400, Error("Invalid payload"));
    }
    if challengeCookie.None? || challengeCookie.value == "" {
      return Reply(401, Error("Missing 2FA challenge"));
    }
    var userId := VerifyPre2FAChallenge(db.crypto, challengeCookie.value, now);
    if userId.None? {
      return Response(401, Error("Invalid challenge"), Keep, DeleteCookie);
    }
    if userId.value !in db.users {
      return Reply(401, Error("2FA is not enabled"));
    }
    var user := db.users[userId.value];
    if !user.twoFactorEnabled || user.twoFactorSecret.None? || user.twoFactorSecret.value == "" {
      return Reply(401, Error("2FA is not enabled"));
    }
    var valid := db.crypto.verifyTotp(code.value, user.twoFactorSecret.value, now);
    if !valid {
      return Reply(401, Error("Invalid 2FA code"));
    }
    var token := CreateSession(db, userId.value, random, now);
    response := Response(200, Ok, SetCookie(token, SessionCookieMaxAge), DeleteCookie);
  }

  /** A code of the wrong shape is refused with 400 before any cookie is looked at: the
      outcome is the same whatever challenge cookie comes with it. */
  lemma CodeCheckedFirst(c: Crypto, s: DbState, body: Json, cookie1: Option<string>, cookie2: Option<string>, random: seq<Byte>, now: Millis)
    requires ParseCode(body).None?
    ensures Verify(c, s, body, cookie1, random, now) == Verify(c, s, body, cookie2, random, now)
    ensures Verify(c, s, body, cookie1, random, now) == Outcome(Response(400, Error("Invalid payload"), Keep, Keep), s)
  {
  }

  /** Every refusal leaves the store alone and creates no session. A missing cookie, a
      user without two-factor authentication and a wrong code keep the challenge cookie,
      so the user can retry; only a challenge that fails verification deletes it. */
  lemma RefusalsChangeNothing(c: Crypto, s: DbState, body: Json, challengeCookie: Option<string>, random: seq<Byte>, now: Millis)
    requires Verify(c, s, body, challengeCookie, random, now).response.status != 200
    ensures var o := Verify(c, s, body, challengeCookie, random, now);
      && o.after == s
      && o.response.sessionCookie == Keep
      && (o.response.challengeCookie == DeleteCookie <==> o.response.body == Error("Invalid challenge"))
      && (o.response.body == Error("Invalid challenge") <==>
            ParseCode(body).Some? && Truthy(challengeCookie) && VerifyPre2FAChallenge(c, challengeCookie.value, now).None?)
  {
  }

  /** The code is checked against the committed secret: a session is created only when
      the challenge names a user with two-factor authentication enabled whose committed
      secret accepts the code. */
  lemma SuccessNeedsCommittedSecret(c: Crypto, s: DbState, body: Json, challengeCookie: Option<string>, random: seq<Byte>, now: Millis)
    requires Verify(c, s, body, challengeCookie, random, now).response.status == 200
    ensures ParseCode(body).Some? && Truthy(challengeCookie)
    ensures var userId := VerifyPre2FAChallenge(c, challengeCookie.value, now);
      && userId.Some? && TwoFactorReady(s, userId.value)
      && c.verifyTotp(ParseCode(body).value, s.users[userId.value].twoFactorSecret.value, now)
  {
  }

  /** The pending secret plays no part: changing it changes nothing in the outcome
      except the stored value itself. */
  lemma IgnoresPendingSecret(c: Crypto, s: DbState, body: Json, challengeCookie: Option<string>, random: seq<Byte>, now: Millis, id: string, pending: Option<string>)
    requires id in s.users
    ensures var t := s.(users := s.users[id := s.users[id].(twoFactorTempSecret := pending)]);
      && Verify(c, t, body, challengeCookie, random, now).response == Verify(c, s, body, challengeCookie, random, now).response
      && Verify(c, t, body, challengeCookie, random, now).after.sessions == Verify(c, s, body, challengeCookie, random, now).after.sessions
  {
    var t := s.(users := s.users[id := s.users[id].(twoFactorTempSecret := pending)]);
    if ParseCode(body).Some? && Truthy(challengeCookie) {
      var userId := VerifyPre2FAChallenge(c, challengeCookie.value, now);
      if userId.Some? && userId.value in s.users {
        assert t.users[userId.value].twoFactorEnabled == s.users[userId.value].twoFactorEnabled;
        assert t.users[userId.value].twoFactorSecret == s.users[userId.value].twoFactorSecret;
      }
    }
  }

  /** On success exactly one session is created, for the challenge's user; the session
      cookie is set for 604800 seconds with a token the guard accepts as that user, and
      the pre-2FA cookie is deleted. */
  lemma SuccessCreatesSession(c: Crypto, s: DbState, body: Json, challengeCookie: Option<string>, random: seq<Byte>, now: Millis)
    requires ValidState(s)
    requires |random| == 32 && c.hashToken(HexEncode(random)) !in s.sessions
    requires Verify(c, s, body, challengeCookie, random, now).response.status == 200
    ensures var o := Verify(c, s, body, challengeCookie, random, now);
      var userId := VerifyPre2FAChallenge(c, challengeCookie.value, now).value;
      && o.response == Response(200, Ok, SetCookie(HexEncode(random), 604800), DeleteCookie)
      && o.after == s.(sessions := s.sessions[c.hashToken(HexEncode(random)) := NewSession(userId, now)])
      && |o.after.sessions| == |s.sessions| + 1
      && Guard(c, o.after.sessions, Some(HexEncode(random)), now).access == Granted(userId)
  {
    SessionTokenShape(random);
  }
}
