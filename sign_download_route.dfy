/**
 * `POST /api/vault/sign-download`: a presigned GET URL for one of the caller's files.
 */
module SignDownloadRoute {
  import opened Wrappers
  import opened Primitives
  import opened Store
  import opened Http
  import opened Schema
  import opened SessionGuard
  import opened R2

  /** The handler on a store snapshot. */
  ghost function SignDownload(c: Crypto, s: DbState, sessionCookie: Option<string>, body: Json, now: Millis): Outcome
    requires ValidState(s)
  {
    var g := Guard(c, s.sessions, sessionCookie, now);
    var s1 := s.(sessions := g.sessions);
    match g.access
    case Denied(refusal) => Outcome(refusal, s1)
    case Granted(userId) =>
      var fileId := ParseDownload(body);
      if fileId.None? then
        Outcome(Reply(400, Error("Invalid payload")), s1)
      else if !OwnsFile(s1.files, fileId.value, userId) then
        Outcome(Reply(404, Error("Not found")), s1)
      else
        var url := CreateSignedDownloadUrl(c, s1.files[fileId.value].objectKey);
        Outcome(Reply(200, DownloadTicket(url, 120)), s1)
  }

  /** The handler. */
  method Post(db: Database, sessionCookie: Option<string>, body: Json, now: Millis) returns (response: Response)
    requires db.Valid()
    modifies db
    ensures db.Valid()
    ensures Outcome(response, db.State()) == SignDownload(db.crypto, old(db.State()), sessionCookie, body, now)
  {
    var access := RequireSession(db, sessionCookie, now);
    if access.Denied? {
      return access.response;
    }
    var fileId := ParseDownload(body);
    if fileId.None? {
      return Reply(400, Error("Invalid payload"));
    }
    if !(fileId.value in db.files && db.files[fileId.value].userId == access.userId) {
      return Reply(404, Error("Not found"));
    }
    var url := CreateSignedDownloadUrl(db.crypto, db.files[fileId.value].objectKey);
    response := Reply(200, DownloadTicket(url, SignedUrlSeconds));
  }

  /** Without a valid session the guard's refusal is the response and only the session
      table may change. */
  lemma SignDownloadGuarded(c: Crypto, s: DbState, sessionCookie: Option<string>, body: Json, now: Millis)
    requires ValidState(s)
    requires Guard(c, s.sessions, sessionCookie, now).access.Denied?
    ensures var g := Guard(c, s.sessions, sessionCookie, now);
      SignDownload(c, s, sessionCookie, body, now) == Outcome(g.access.response, s.(sessions := g.sessions))
  {
  }

  /** Signing a download changes nothing but the session table. A file id that is
      missing and one that is another user's get the same 404, so the answer does not
      reveal other users' files; a URL is signed only for the caller's own file, for a
      GET of its object key, valid 120 seconds. */
  lemma SignsOnlyOwnFiles(c: Crypto, s: DbState, sessionCookie: Option<string>, body: Json, now: Millis)
    requires ValidState(s)
    requires Guard(c, s.sessions, sessionCookie, now).access.Granted?
    ensures var g := Guard(c, s.sessions, sessionCookie, now);
      var o := SignDownload(c, s, sessionCookie, body, now);
      var fileId := ParseDownload(body);
      && o.after == s.(sessions := g.sessions)
      && (fileId.None? ==> o.response == Reply(400, Error("Invalid payload")))
      && (fileId.Some? && !OwnsFile(s.files, fileId.value, g.access.userId) ==> o.response == Reply(404, Error("Not found")))
      && (o.response.status == 200 <==> fileId.Some? && OwnsFile(s.files, fileId.value, g.access.userId))
      && (o.response.status == 200 ==>
            o.response == Reply(200, DownloadTicket(c.presign(PresignGet(s.files[fileId.value].objectKey, 120)), 120)))
  {
  }
}
