/**
 * `POST /api/vault/sign-upload`: reserves a file record and hands back a presigned PUT
 * URL for its object; the client then uploads the bytes to object storage directly.
 */
module SignUploadRoute {
  import opened Wrappers
  import opened JsString
  import opened Primitives
  import opened Store
  import opened Http
  import opened Schema
  import opened SessionGuard
  import opened R2

  /** The handler on a store snapshot; `newId` is the id the store assigns. */
  ghost function SignUpload(c: Crypto, s: DbState, sessionCookie: Option<string>, body: Json, newId: string, now: Millis): Outcome
    requires ValidState(s)
  {
    var g := Guard(c, s.sessions, sessionCookie, now);
    var s1 := s.(sessions := g.sessions);
    match g.access
    case Denied(refusal) => Outcome(refusal, s1)
    case Granted(userId) => SignUploadAs(c, s1, userId, body, newId, now)
  }

  /** The handler past the session guard, for the caller `userId`. */
  ghost function SignUploadAs(c: Crypto, s1: DbState, userId: string, body: Json, newId: string, now: Millis): Outcome {
    var request := ParseReservation(body);
    if request.None? then
      Outcome(Reply(400, Error("Invalid payload")), s1)
    else
      var r := request.value;
      var objectKey := BuildObjectKey(userId, now, r.filename);
      var url := CreateSignedUploadUrl(c, objectKey, r.contentType);
      var record := VaultFile(userId, None, objectKey, r.filename, r.contentType, r.sizeBytes, now);
      Outcome(Reply(200, UploadTicket(url, newId, objectKey, 120)), s1.(files := s1.files[newId := record]))
  }

  /** The handler. */
  method Post(db: Database, sessionCookie: Option<string>, body: Json, newId: string, now: Millis) returns (response: Response)
    requires db.Valid() && newId !in db.files
    modifies db
    ensures db.Valid()
    ensures Outcome(response, db.State()) == SignUpload(db.crypto, old(db.State()), sessionCookie, body, newId, now)
  {
    var access := RequireSession(db, sessionCookie, now);
    if access.Denied? {
      return access.response;
    }
    var request := ParseReservation(body);
    if request.None? {
      return Reply(400, Error("Invalid payload"));
    }
    var filename, contentType, sizeBytes := request.value.filename, request.value.contentType, request.value.sizeBytes;
    var objectKey := BuildObjectKey(access.userId, now, filename);
    var url := CreateSignedUploadUrl(db.crypto, objectKey, contentType);
    var record := VaultFile(access.userId, None, objectKey, filename, contentType, sizeBytes, now);
    PutFileKeepsValid(db.State(), newId, record);
    db.files := db.files[newId := record];
    response := Reply(200, UploadTicket(url, newId, objectKey, SignedUrlSeconds));
  }

  /** Without a valid session the guard's refusal is the response and only the session
      table may change. */
  lemma SignUploadGuarded(c: Crypto, s: DbState, sessionCookie: Option<string>, body: Json, newId: string, now: Millis)
    requires ValidState(s)
    requires Guard(c, s.sessions, sessionCookie, now).access.Denied?
    ensures var g := Guard(c, s.sessions, sessionCookie, now);
      SignUpload(c, s, sessionCookie, body, newId, now) == Outcome(g.access.response, s.(sessions := g.sessions))
  {
  }

  /** A body the reservation schema rejects gives 400 and reserves nothing. */
  lemma MalformedReservationReservesNothing(c: Crypto, s: DbState, sessionCookie: Option<string>, body: Json, newId: string, now: Millis)
    requires ValidState(s)
    requires Guard(c, s.sessions, sessionCookie, now).access.Granted?
    requires ParseReservation(body).None?
    ensures var g := Guard(c, s.sessions, sessionCookie, now);
      SignUpload(c, s, sessionCookie, body, newId, now) == Outcome(Reply(400, Error("Invalid payload")), s.(sessions := g.sessions))
  {
  }

  /** A reservation creates exactly one record at the root, owned by the caller, with the
      declared name, type and size (1 byte to 100 MiB), under a key that starts with the
      caller's id and "/"; no object is written yet, and the URL handed back signs a PUT
      of that very key with the declared type, valid 120 seconds. */
  lemma ReservationCreatesOneRecord(c: Crypto, s: DbState, sessionCookie: Option<string>, body: Json, newId: string, now: Millis)
    requires ValidState(s) && newId !in s.files
    requires SignUpload(c, s, sessionCookie, body, newId, now).response.status == 200
    ensures var g := Guard(c, s.sessions, sessionCookie, now);
      var o := SignUpload(c, s, sessionCookie, body, newId, now);
      var r := ParseReservation(body).value;
      var key := BuildObjectKey(g.access.userId, now, r.filename);
      && g.access.Granted? && ParseReservation(body).Some?
      && 0 < r.sizeBytes <= 104857600
      && StartsWith(key, g.access.userId + "/")
      && o.after == s.(sessions := g.sessions, files := s.files[newId := VaultFile(g.access.userId, None, key, r.filename, r.contentType, r.sizeBytes, now)])
      && o.after.objects == s.objects
      && |o.after.files| == |s.files| + 1
      && o.response == Reply(200, UploadTicket(c.presign(PresignPut(key, r.contentType, 120)), newId, key, 120))
  {
    var g := Guard(c, s.sessions, sessionCookie, now);
    var s1 := s.(sessions := g.sessions);
    assert g.access.Granted?;
    assert SignUpload(c, s, sessionCookie, body, newId, now) == SignUploadAs(c, s1, g.access.userId, body, newId, now);
  }

  /** Every outcome of the handler keeps the store's invariant, and a reservation, made
      at the root, keeps every file in one of its owner's folders. */
  lemma SignUploadKeepsInvariants(c: Crypto, s: DbState, sessionCookie: Option<string>, body: Json, newId: string, now: Millis)
    requires ValidState(s)
    ensures var o := SignUpload(c, s, sessionCookie, body, newId, now);
      && ValidState(o.after)
      && (FilesPlaced(s) ==> FilesPlaced(o.after))
  {
    var g := Guard(c, s.sessions, sessionCookie, now);
    GuardKeepsValid(c, s, sessionCookie, now);
    var s1 := s.(sessions := g.sessions);
    if g.access.Granted? && ParseReservation(body).Some? {
      assert SignUpload(c, s, sessionCookie, body, newId, now) == SignUploadAs(c, s1, g.access.userId, body, newId, now);
      var r := ParseReservation(body).value;
      var key := BuildObjectKey(g.access.userId, now, r.filename);
      var record := VaultFile(g.access.userId, None, key, r.filename, r.contentType, r.sizeBytes, now);
      assert SignUpload(c, s, sessionCookie, body, newId, now).after == s1.(files := s1.files[newId := record]);
      PutFileKeepsValid(s1, newId, record);
    }
  }
}
