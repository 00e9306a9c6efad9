/**
 * The edge middleware in front of the vault pages. Its matcher sends it the page
 * "/vault" and the paths under "/vault/"; of those, a request without a session cookie
 * is redirected to the sign-in page. Every other request passes. It only looks at
 * whether the cookie is there, never at the store.
 */
module VaultGate {
  import opened Wrappers
  import opened JsString
  import opened Primitives
  import opened Store
  import opened Auth
  import opened Http
  import opened SessionGuard

  datatype Decision = Next | Redirect(location: string)

  /** The `middleware` function on the request's path and its session cookie. */
  function Handler(path: string, sessionCookie: Option<string>): (d: Decision)
    ensures d.Redirect? <==> StartsWith(path, "/vault") && !Truthy(sessionCookie)
    ensures d.Redirect? ==> d.location == "/"
  {
    if StartsWith(path, "/vault") && !Truthy(sessionCookie) then Redirect("/") else Next
  }

  /** The paths `config.matcher` (`/vault/:path*`) runs the middleware for. */
  predicate Matched(path: string) {
    path == "/vault" || StartsWith(path, "/vault/")
  }

  /** What a request meets: the handler on matched paths, and nothing elsewhere. */
  function Middleware(path: string, sessionCookie: Option<string>): (d: Decision)
    ensures d.Redirect? <==> Matched(path) && !Truthy(sessionCookie)
    ensures d.Redirect? ==> d.location == "/"
    ensures !Matched(path) ==> d == Next
  {
    if Matched(path) then Handler(path, sessionCookie) else Next
  }

  /** On matched paths the handler's own prefix test always holds, and the matcher is
      the narrower of the two: "/vaultx" passes without a cookie, although the handler
      alone would redirect it. */
  lemma MatcherNarrowsPrefix(path: string, sessionCookie: Option<string>)
    ensures Matched(path) ==> StartsWith(path, "/vault") && Middleware(path, sessionCookie) == Handler(path, sessionCookie)
    ensures Middleware("/vaultx", None) == Next && Handler("/vaultx", None) == Redirect("/")
  {
    if StartsWith(path, "/vault/") {
      assert path[..6] == path[..7][..6];
    }
    var other := "/vaultx";
    assert other[..6] == "/vault";
    assert !(other == "/vault" || StartsWith(other, "/vault/")) by {
      assert other[6] != '/';
    }
  }

  /** The decision depends on the cookie's presence only: any two non-empty tokens are
      treated alike, valid or not. */
  lemma TokenContentIgnored(path: string, token: string, other: string)
    requires token != "" && other != ""
    ensures Middleware(path, Some(token)) == Middleware(path, Some(other)) == Next
  {
  }

  /** The gate is weaker than the session guard: every cookie the guard grants passes
      the gate, and a cookie with no session behind it passes the gate too, while the
      guard refuses it and deletes it. */
  lemma GateWeakerThanGuard(c: Crypto, sessions: map<string, Session>, path: string, sessionCookie: Option<string>, now: Millis)
    ensures Guard(c, sessions, sessionCookie, now).access.Granted? ==> Middleware(path, sessionCookie) == Next
    ensures Truthy(sessionCookie) && c.hashToken(sessionCookie.value) !in sessions ==>
      && Middleware(path, sessionCookie) == Next
      && Guard(c, sessions, sessionCookie, now).access == Denied(Unauthorized(DeleteCookie))
  {
  }
}
