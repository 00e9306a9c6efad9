/**
 * `POST /api/auth/logout`: ends the session the session cookie names, if any, and
 * deletes both cookies. It always succeeds.
 */
module LogoutRoute {
  import opened Wrappers
  import opened JsString
  import opened Primitives
  import opened Store
  import opened Auth
  import opened Http
  import opened SessionGuard

  /** The logout handler on a store snapshot. */
  function Logout(c: Crypto, s: DbState, sessionCookie: Option<string>): Outcome {
    var after := if Truthy(sessionCookie) then s.(sessions := Invalidate(s.sessions, c.hashToken(sessionCookie.value))) else s;
    Outcome(Response(200, Ok, DeleteCookie, DeleteCookie), after)
  }

  /** The handler. */
  method Post(db: Database, sessionCookie: Option<string>) returns (response: Response)
    requires db.Valid()
    modifies db
    ensures db.Valid()
    ensures Outcome(response, db.State()) == Logout(db.crypto, old(db.State()), sessionCookie)
  {
    if sessionCookie.Some? && sessionCookie.value != "" {
      InvalidateSession(db, sessionCookie.value);
    }
    response := Response(200, Ok, DeleteCookie, DeleteCookie);
  }

  /** Logout answers `{ ok: true }` and deletes both cookies whatever the request; with a
      session cookie it removes that token's session and no other, keeping the store's
      invariant; without one it changes nothing. */
  lemma LogoutEffect(c: Crypto, s: DbState, sessionCookie: Option<string>)
    requires ValidState(s)
    ensures var o := Logout(c, s, sessionCookie);
      && o.response == Response(200, Ok, DeleteCookie, DeleteCookie)
      && ValidState(o.after)
      && o.after == s.(sessions := o.after.sessions)
      && (!Truthy(sessionCookie) ==> o.after == s)
      && (Truthy(sessionCookie) ==>
            && o.after.sessions.Keys == s.sessions.Keys - {c.hashToken(sessionCookie.value)}
            && forall h :: h in o.after.sessions ==> o.after.sessions[h] == s.sessions[h])
  {
  }

  /** Logging out twice with the same cookie gives the same response and changes
      nothing more the second time. */
  lemma LogoutIdempotent(c: Crypto, s: DbState, sessionCookie: Option<string>)
    ensures var first := Logout(c, s, sessionCookie);
      Logout(c, first.after, sessionCookie) == first
  {
  }

  /** After logout the token no longer opens the vault, at any time. */
  lemma LogoutEndsSession(c: Crypto, s: DbState, token: string, now: Millis)
    requires token != ""
    ensures var after := Logout(c, s, Some(token)).after;
      Guard(c, after.sessions, Some(token), now).access == Denied(Unauthorized(DeleteCookie))
  {
  }
}
