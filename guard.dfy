/**
 * The session guard every vault route and both enrollment routes open with: no
 * session cookie (or an empty one) is refused with 401 and no cookie change; a
 * cookie whose session is unknown or expired is refused with 401 and the session
 * cookie is deleted; otherwise the request proceeds as the session's user.
 */
module SessionGuard {
  import opened Wrappers
  import opened JsString
  import opened Primitives
  import opened Store
  import opened Auth
  import opened Http

  datatype Access = Granted(userId: string) | Denied(response: Response)

  /** The outcome of the guard, and the session table after it. */
  datatype Guarded = Guarded(access: Access, sessions: map<string, Session>)

  /** The response that refuses a request for want of a session. */
  function Unauthorized(sessionCookie: CookieAction): Response {
    Response(401, Error("Unauthorized"), sessionCookie, Keep)
  }

  /** `getSessionTokenFromRequest` followed by `getUserFromSessionToken`, as the route
      handlers chain them. */
  function Guard(c: Crypto, sessions: map<string, Session>, sessionCookie: Option<string>, now: Millis): (g: Guarded)
    ensures g.access.Granted? <==>
      Truthy(sessionCookie) && c.hashToken(sessionCookie.value) in sessions
      && !IsExpired(sessions[c.hashToken(sessionCookie.value)], now)
    ensures g.access.Granted? ==> g.access.userId == sessions[c.hashToken(sessionCookie.value)].userId
    ensures !Truthy(sessionCookie) ==> g == Guarded(Denied(Unauthorized(Keep)), sessions)
    ensures Truthy(sessionCookie) && g.access.Denied? ==> g.access.response == Unauthorized(DeleteCookie)
    ensures Truthy(sessionCookie) ==> g.sessions == Resolve(sessions, c.hashToken(sessionCookie.value), now).sessions
  {
    if !Truthy(sessionCookie) then
      Guarded(Denied(Unauthorized(Keep)), sessions)
    else
      var r := Resolve(sessions, c.hashToken(sessionCookie.value), now);
      if r.userId.None? then Guarded(Denied(Unauthorized(DeleteCookie)), r.sessions)
      else Guarded(Granted(r.userId.value), r.sessions)
  }

  /** The guard keeps the store's invariant, touches only the session table, and grants
      access only to an existing user. */
  lemma GuardKeepsValid(c: Crypto, s: DbState, sessionCookie: Option<string>, now: Millis)
    requires ValidState(s)
    ensures var g := Guard(c, s.sessions, sessionCookie, now);
      && ValidState(s.(sessions := g.sessions))
      && (g.access.Granted? ==> g.access.userId in s.users)
  {
  }

  /** A session stored under the hash of a non-empty token at `now` lets that token
      through the guard, as its user, until the session expires. */
  lemma NewSessionGranted(c: Crypto, sessions: map<string, Session>, token: string, userId: string, now: Millis, later: Millis)
    requires token != "" && later <= now + SessionTtlMs
    ensures Guard(c, sessions[c.hashToken(token) := NewSession(userId, now)], Some(token), later).access == Granted(userId)
  {
    FreshSessionResolves(sessions, c.hashToken(token), userId, now, later);
  }

  /** The guard as a method on the store. */
  method RequireSession(db: Database, sessionCookie: Option<string>, now: Millis) returns (access: Access)
    requires db.Valid()
    modifies db
    ensures db.Valid()
    ensures Guarded(access, db.sessions) == Guard(db.crypto, old(db.sessions), sessionCookie, now)
    ensures db.State() == old(db.State()).(sessions := db.sessions)
    ensures access.Granted? ==> access.userId in db.users
  {
    if sessionCookie.None? || sessionCookie.value == "" {
      return Denied(Response(401, Error("Unauthorized"), Keep, Keep));
    }
    var userId := GetUserFromSessionToken(db, sessionCookie.value, now);
    if userId.None? {
      return Denied(Response(401, Error("Unauthorized"), DeleteCookie, Keep));
    }
    access := Granted(userId.value);
  }
}
