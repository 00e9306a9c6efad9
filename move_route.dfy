/**
 * `PATCH /api/vault/files/move`: moves one of the caller's files into one of the
 * caller's folders, or to the root, and answers with the updated record.
 */
module MoveRoute {
  import opened Wrappers
  import opened JsString
  import opened Primitives
  import opened Store
  import opened Http
  import opened Schema
  import opened SessionGuard

  /** A file record as JSON, with the size rendered by `size`. `createdAt` stands for the
      record's `Date`, whose ISO rendering is not part of this model. */
  function FileJson(id: string, f: VaultFile, size: JsonValue): JsonValue {
    JObject([
      ("id", JString(id)),
      ("userId", JString(f.userId)),
      ("folderId", if f.folderId.Some? then JString(f.folderId.value) else JNull),
      ("objectKey", JString(f.objectKey)),
      ("filename", JString(f.filename)),
      ("mimeType", JString(f.mimeType)),
      ("sizeBytes", size),
      ("createdAt", JInt(f.createdAt))])
  }

  /** The updated record as the store returns it: `sizeBytes` is a BigInt column. */
  function FileRecordJson(id: string, f: VaultFile): JsonValue {
    FileJson(id, f, JBigInt(f.sizeBytes))
  }

  /** The updated record with its size as a decimal string, as the file listing renders
      it. */
  function SerializableFileJson(id: string, f: VaultFile): JsonValue {
    FileJson(id, f, JString(Decimal(f.sizeBytes)))
  }

  /** The part of the handler before the response is rendered: a refusal, or the moved
      file and the store after the update. */
  datatype MoveStep = Refused(outcome: Outcome) | Updated(fileId: string, file: VaultFile, after: DbState)

  ghost function MoveStepOf(c: Crypto, s: DbState, sessionCookie: Option<string>, body: Json, now: Millis): MoveStep
    requires ValidState(s)
  {
    var g := Guard(c, s.sessions, sessionCookie, now);
    var s1 := s.(sessions := g.sessions);
    match g.access
    case Denied(refusal) => Refused(Outcome(refusal, s1))
    case Granted(userId) => MoveStepAs(s1, userId, body)
  }

  /** The part of the handler past the session guard, for the caller `userId`. */
  function MoveStepAs(s1: DbState, userId: string, body: Json): MoveStep {
    var request := ParseMove(body);
    if request.None? then
      Refused(Outcome(Reply(400, Error("Invalid payload")), s1))
    else if !OwnsFile(s1.files, request.value.fileId, userId) then
      Refused(Outcome(Reply(404, Error("File not found")), s1))
    else if Truthy(request.value.folderId) && !OwnsFolder(s1.folders, request.value.folderId.value, userId) then
      Refused(Outcome(Reply(404, Error("Folder not found")), s1))
    else
      var moved := s1.files[request.value.fileId].(folderId := OrNull(request.value.folderId));
      Updated(request.value.fileId, moved, s1.(files := s1.files[request.value.fileId := moved]))
  }

  /** The handler as written: the update is committed, then rendering the record throws
      on the BigInt size, and the catch answers 500. */
  ghost function MoveFileAsWritten(c: Crypto, s: DbState, sessionCookie: Option<string>, body: Json, now: Millis): Outcome
    requires ValidState(s)
  {
    match MoveStepOf(c, s, sessionCookie, body, now)
    case Refused(o) => o
    case Updated(id, file, after) =>
      var json := FileRecordJson(id, file);
      if Stringifiable(json) then Outcome(Reply(200, Record(json)), after)
      else Outcome(Reply(500, Error("Failed to move file")), after)
  }

  /** The handler as intended: the updated record, with its size as a decimal string. */
  ghost function MoveFile(c: Crypto, s: DbState, sessionCookie: Option<string>, body: Json, now: Millis): Outcome
    requires ValidState(s)
  {
    Rendered(MoveStepOf(c, s, sessionCookie, body, now))
  }

  /** The response of the corrected handler for one step. */
  function Rendered(step: MoveStep): Outcome {
    match step
    case Refused(o) => o
    case Updated(id, file, after) => Outcome(Reply(200, Record(SerializableFileJson(id, file))), after)
  }

  /** Every move the handler allows, as written, answers 500 although the file has been
      moved: the client is told the move failed when it took place. */
  lemma MoveAsWrittenReportsFailure(c: Crypto, s: DbState, sessionCookie: Option<string>, body: Json, now: Millis)
    requires ValidState(s)
    requires MoveStepOf(c, s, sessionCookie, body, now).Updated?
    ensures var step := MoveStepOf(c, s, sessionCookie, body, now);
      var o := MoveFileAsWritten(c, s, sessionCookie, body, now);
      && o.response == Reply(500, Error("Failed to move file"))
      && o.after == step.after
      && o.after.files[step.fileId].folderId == OrNull(ParseMove(body).value.folderId)
  {
    var step := MoveStepOf(c, s, sessionCookie, body, now);
    var json := FileRecordJson(step.fileId, step.file);
    assert !Stringifiable(json.members[6].1);
    assert !Stringifiable(json);
  }

  /** The intended record renders: no BigInt occurs in it, and its size reads back as the
      stored size. */
  lemma SerializableFileJsonRenders(id: string, f: VaultFile)
    ensures Stringifiable(SerializableFileJson(id, f))
    ensures SerializableFileJson(id, f).members[6] == ("sizeBytes", JString(Decimal(f.sizeBytes)))
    ensures ParseInt(SerializableFileJson(id, f).members[6].1.s) == Some(f.sizeBytes)
  {
    ParseIntOfDecimal(f.sizeBytes);
  }

  /** The handler. */
  method Patch(db: Database, sessionCookie: Option<string>, body: Json, now: Millis) returns (response: Response)
    requires db.Valid()
    modifies db
    ensures db.Valid()
    ensures Outcome(response, db.State()) == MoveFile(db.crypto, old(db.State()), sessionCookie, body, now)
  {
    var access := RequireSession(db, sessionCookie, now);
    if access.Denied? {
      return access.response;
    }
    response := PatchAs(db, access.userId, body);
  }

  /** The handler past the session guard, for the caller `userId`. */
  method PatchAs(db: Database, userId: string, body: Json) returns (response: Response)
    requires db.Valid()
    modifies db
    ensures db.Valid()
    ensures Outcome(response, db.State()) == Rendered(MoveStepAs(old(db.State()), userId, body))
  {
    var request := ParseMove(body);
    if request.None? {
      return Reply(400, Error("Invalid payload"));
    }
    var fileId, folderId := request.value.fileId, request.value.folderId;
    if !(fileId in db.files && db.files[fileId].userId == userId) {
      return Reply(404, Error("File not found"));
    }
    if folderId.Some? && folderId.value != "" {
      if !(folderId.value in db.folders && db.folders[folderId.value].userId == userId) {
        return Reply(404, Error("Folder not found"));
      }
    }
    var moved := db.files[fileId].(folderId := OrNull(folderId));
    PutFileKeepsValid(db.State(), fileId, moved);
    db.files := db.files[fileId := moved];
    response := Reply(200, Record(SerializableFileJson(fileId, moved)));
  }

  /** Without a valid session the guard's refusal is the response and only the session
      table may change. */
  lemma MoveGuarded(c: Crypto, s: DbState, sessionCookie: Option<string>, body: Json, now: Millis)
    requires ValidState(s)
    requires Guard(c, s.sessions, sessionCookie, now).access.Denied?
    ensures var g := Guard(c, s.sessions, sessionCookie, now);
      MoveFile(c, s, sessionCookie, body, now) == Outcome(g.access.response, s.(sessions := g.sessions))
  {
  }

  /** After the guard: 400 for a malformed body; 404 "File not found" exactly when the
      file is missing or another user's; 404 "Folder not found" for a non-empty target
      the caller does not own. Refusals change nothing but the session table. */
  lemma MoveRefusals(c: Crypto, s: DbState, sessionCookie: Option<string>, body: Json, now: Millis)
    requires ValidState(s)
    requires Guard(c, s.sessions, sessionCookie, now).access.Granted?
    ensures var g := Guard(c, s.sessions, sessionCookie, now);
      var userId := g.access.userId;
      var o := MoveFile(c, s, sessionCookie, body, now);
      var request := ParseMove(body);
      && (request.None? ==> o == Outcome(Reply(400, Error("Invalid payload")), s.(sessions := g.sessions)))
      && (request.Some? ==>
            (o.response == Reply(404, Error("File not found")) <==> !OwnsFile(s.files, request.value.fileId, userId)))
      && (request.Some? && OwnsFile(s.files, request.value.fileId, userId)
          && Truthy(request.value.folderId) && !OwnsFolder(s.folders, request.value.folderId.value, userId) ==>
            o == Outcome(Reply(404, Error("Folder not found")), s.(sessions := g.sessions)))
      && (o.response.status != 200 ==> o.after == s.(sessions := g.sessions))
  {
  }

  /** A move changes only the moved file's folder: to the requested folder, or to the
      root when the folder id is absent or empty. It keeps the store's invariant and
      keeps every file in one of its owner's folders. */
  lemma MoveChangesOnlyFolder(c: Crypto, s: DbState, sessionCookie: Option<string>, body: Json, now: Millis)
    requires ValidState(s)
    requires MoveFile(c, s, sessionCookie, body, now).response.status == 200
    ensures var g := Guard(c, s.sessions, sessionCookie, now);
      var o := MoveFile(c, s, sessionCookie, body, now);
      var request := ParseMove(body).value;
      var moved := s.files[request.fileId].(folderId := OrNull(request.folderId));
      && g.access.Granted? && ParseMove(body).Some?
      && OwnsFile(s.files, request.fileId, g.access.userId)
      && o.after == s.(sessions := g.sessions, files := s.files[request.fileId := moved])
      && o.after.files.Keys == s.files.Keys
      && o.response == Reply(200, Record(SerializableFileJson(request.fileId, moved)))
      && ValidState(o.after)
      && (FilesPlaced(s) ==> FilesPlaced(o.after))
  {
  }
}
