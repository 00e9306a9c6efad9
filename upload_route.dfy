/**
 * `POST /api/vault/upload`: a multipart upload through the server. The file is
 * written to object storage first, then its record is created.
 */
module UploadRoute {
  import opened Wrappers
  import opened JsString
  import opened Primitives
  import opened Store
  import opened Http
  import opened SessionGuard
  import opened R2

  /** An entry of the submitted form: a text value or a file part. */
  datatype FormEntry = FormText(s: string) | FormBlob(name: string, mimeType: string, size: nat)

  /** How the two writes of a successful upload go: object storage refuses the object;
      the object is stored but the store refuses the record; or both are accepted. */
  datatype Writes = ObjectRefused | RecordRefused | BothAccepted

  /** The submitted form's entries by name; `None` when the body is not form data. */
  type Form = Option<map<string, FormEntry>>

  /** `formData?.get(key)`: nothing for a missing form or a missing entry. */
  function EntryOf(form: Form, key: string): Option<FormEntry> {
    if form.Some? && key in form.value then Some(form.value[key]) else None
  }

  const MaxUploadBytes: nat := 25 * 1024 * 1024
  const DefaultContentType := "application/octet-stream"
  const StorageFailure := "Upload failed. Check R2 credentials and bucket permissions."

  function TooLargeMessage(): string {
    "File too large. Max size is " + Decimal(MaxUploadBytes / (1024 * 1024)) + "MB."
  }

  /** The folder ownership check runs only for a non-empty text entry. */
  predicate FolderChecked(folderId: Option<FormEntry>) {
    folderId.Some? && folderId.value.FormText? && folderId.value.s != ""
  }

  /** `folderId ? String(folderId) : null`: any truthy entry is stored, and a file part
      converts to the string "[object File]". */
  function RecordFolderId(folderId: Option<FormEntry>): Option<string> {
    match folderId
    case None => None
    case Some(FormText(s)) => if s == "" then None else Some(s)
    case Some(FormBlob(_, _, _)) => Some("[object File]")
  }

  /** The upload handler on a store snapshot; `newId` is the id the store assigns and
      `writes` how the object and record writes go. */
  ghost function Upload(c: Crypto, s: DbState, sessionCookie: Option<string>, form: Form, newId: string, writes: Writes, now: Millis): Outcome
    requires ValidState(s)
  {
    var g := Guard(c, s.sessions, sessionCookie, now);
    var s1 := s.(sessions := g.sessions);
    match g.access
    case Denied(refusal) => Outcome(refusal, s1)
    case Granted(userId) => UploadAs(c, s1, userId, form, newId, writes, now)
  }

  /** The handler past the session guard, for the caller `userId`. */
  ghost function UploadAs(c: Crypto, s1: DbState, userId: string, form: Form, newId: string, writes: Writes, now: Millis): Outcome {
    var file := EntryOf(form, "file");
    if file.None? || !file.value.FormBlob? then
      Outcome(Reply(400, Error("Missing file")), s1)
    else if file.value.size == 0 then
      Outcome(Reply(400, Error("File is empty")), s1)
    else if file.value.size > MaxUploadBytes then
      Outcome(Reply(400, Error(TooLargeMessage())), s1)
    else
      var folderId := EntryOf(form, "folderId");
      if FolderChecked(folderId) && !OwnsFolder(s1.folders, folderId.value.s, userId) then
        Outcome(Reply(404, Error("Folder not found")), s1)
      else
        var contentType := if file.value.mimeType != "" then file.value.mimeType else DefaultContentType;
        var objectKey := BuildObjectKey(userId, now, file.value.name);
        match writes
        case ObjectRefused => Outcome(Reply(500, Error(StorageFailure)), s1)
        case RecordRefused => Outcome(Reply(500, Error(StorageFailure)), s1.(objects := s1.objects + {objectKey}))
        case BothAccepted =>
          var record := VaultFile(userId, RecordFolderId(folderId), objectKey, file.value.name, contentType, file.value.size, now);
          Outcome(Reply(200, Uploaded(newId, file.value.name)),
                  s1.(objects := s1.objects + {objectKey}, files := s1.files[newId := record]))
  }

  /** The handler. */
  method Post(db: Database, sessionCookie: Option<string>, form: Form, newId: string, writes: Writes, now: Millis) returns (response: Response)
    requires db.Valid() && newId !in db.files
    modifies db
    ensures db.Valid()
    ensures Outcome(response, db.State()) == Upload(db.crypto, old(db.State()), sessionCookie, form, newId, writes, now)
  {
    var access := RequireSession(db, sessionCookie, now);
    if access.Denied? {
      return access.response;
    }
    response := PostAs(db, access.userId, form, newId, writes, now);
  }

  /** The handler past the session guard, for the caller `userId`. */
  method PostAs(db: Database, userId: string, form: Form, newId: string, writes: Writes, now: Millis) returns (response: Response)
    requires db.Valid() && userId in db.users && newId !in db.files
    modifies db
    ensures db.Valid()
    ensures Outcome(response, db.State()) == UploadAs(db.crypto, old(db.State()), userId, form, newId, writes, now)
  {
    ghost var before := db.State();
    var file := EntryOf(form, "file");
    var folderId := EntryOf(form, "folderId");
    if file.None? || !file.value.FormBlob? {
      return Reply(400, Error("Missing file"));
    }
    if file.value.size <= 0 {
      return Reply(400, Error("File is empty"));
    }
    if file.value.size > MaxUploadBytes {
      return Reply(400, Error(TooLargeMessage()));
    }
    if folderId.Some? && folderId.value.FormText? && folderId.value.s != "" {
      if !(folderId.value.s in db.folders && db.folders[folderId.value.s].userId == userId) {
        return Reply(404, Error("Folder not found"));
      }
    }
    var contentType := if file.value.mimeType != "" then file.value.mimeType else DefaultContentType;
    var objectKey := BuildObjectKey(userId, now, file.value.name);
    if writes == ObjectRefused {
      return Reply(500, Error(StorageFailure));
    }
    db.objects := db.objects + {objectKey};
    assert db.State() == before.(objects := before.objects + {objectKey});
    if writes == RecordRefused {
      return Reply(500, Error(StorageFailure));
    }
    var record := VaultFile(userId, RecordFolderId(folderId), objectKey, file.value.name, contentType, file.value.size, now);
    PutFileKeepsValid(db.State(), newId, record);
    db.files := db.files[newId := record];
    response := Reply(200, Uploaded(newId, file.value.name));
    assert db.State() == before.(objects := before.objects + {objectKey}, files := before.files[newId := record]);
  }

  /** Without a valid session the guard's refusal is the response and only the session
      table may change. */
  lemma UploadGuarded(c: Crypto, s: DbState, sessionCookie: Option<string>, form: Form, newId: string, writes: Writes, now: Millis)
    requires ValidState(s)
    requires Guard(c, s.sessions, sessionCookie, now).access.Denied?
    ensures var g := Guard(c, s.sessions, sessionCookie, now);
      Upload(c, s, sessionCookie, form, newId, writes, now) == Outcome(g.access.response, s.(sessions := g.sessions))
  {
  }

  /** Refusals create no record, and only a refused record leaves an object behind:
      400 when the "file" entry is not a file part, is empty, or exceeds 25 MiB; 404 when
      a non-empty text folder id is not one of the caller's folders; 500 when a write is
      refused. */
  lemma RefusalsWriteNothing(c: Crypto, s: DbState, sessionCookie: Option<string>, form: Form, newId: string, writes: Writes, now: Millis)
    requires ValidState(s)
    requires Guard(c, s.sessions, sessionCookie, now).access.Granted?
    requires Upload(c, s, sessionCookie, form, newId, writes, now).response.status != 200
    ensures var g := Guard(c, s.sessions, sessionCookie, now);
      var file := EntryOf(form, "file");
      var folderId := EntryOf(form, "folderId");
      var r := Upload(c, s, sessionCookie, form, newId, writes, now).response;
      && Upload(c, s, sessionCookie, form, newId, writes, now).after.files == s.files
      && (writes != RecordRefused ==> Upload(c, s, sessionCookie, form, newId, writes, now).after == s.(sessions := g.sessions))
      && (r.status == 400 <==> file.None? || !file.value.FormBlob? || file.value.size == 0 || file.value.size > 26214400)
      && (r.status == 404 ==> FolderChecked(folderId) && !OwnsFolder(s.folders, folderId.value.s, g.access.userId))
      && (r.status == 500 <==> r == Reply(500, Error(StorageFailure)))
      && (r.status == 500 ==> writes != BothAccepted)
  {
  }

  /** Success: the file part holds 1 to 25 MiB; the object is written under a key that
      starts with the caller's id and "/", and exactly one record is created for it,
      carrying the caller, the stored folder id, that key, the part's name, its type (or
      "application/octet-stream" when it has none) and its size. */
  lemma UploadWritesObjectThenRecord(c: Crypto, s: DbState, sessionCookie: Option<string>, form: Form, newId: string, writes: Writes, now: Millis)
    requires ValidState(s) && newId !in s.files
    requires Upload(c, s, sessionCookie, form, newId, writes, now).response.status == 200
    ensures var g := Guard(c, s.sessions, sessionCookie, now);
      var o := Upload(c, s, sessionCookie, form, newId, writes, now);
      var file := EntryOf(form, "file").value;
      var key := BuildObjectKey(g.access.userId, now, file.name);
      && g.access.Granted? && writes == BothAccepted
      && file.FormBlob? && 1 <= file.size <= 26214400
      && StartsWith(key, g.access.userId + "/")
      && o.after.objects == s.objects + {key}
      && o.after.files == s.files[newId := VaultFile(g.access.userId, RecordFolderId(EntryOf(form, "folderId")), key, file.name,
           if file.mimeType == "" then "application/octet-stream" else file.mimeType, file.size, now)]
      && |o.after.files| == |s.files| + 1
      && o.response == Reply(200, Uploaded(newId, file.name))
      && ValidState(o.after)
  {
  }

  /** The object is written before the record: when the store refuses the record of an
      upload that passed every check, the object stays in storage with no record
      pointing at it, and the response is the storage failure. */
  lemma RefusedRecordLeavesObject(c: Crypto, s: DbState, sessionCookie: Option<string>, form: Form, newId: string, now: Millis)
    requires ValidState(s)
    requires Upload(c, s, sessionCookie, form, newId, BothAccepted, now).response.status == 200
    ensures var g := Guard(c, s.sessions, sessionCookie, now);
      var key := BuildObjectKey(g.access.userId, now, EntryOf(form, "file").value.name);
      var o := Upload(c, s, sessionCookie, form, newId, RecordRefused, now);
      && g.access.Granted? && EntryOf(form, "file").Some?
      && o.response == Reply(500, Error("Upload failed. Check R2 credentials and bucket permissions."))
      && o.after == s.(sessions := g.sessions, objects := s.objects + {key})
  {
  }

  /** A text folder id (or none) keeps every file in one of its owner's folders. */
  lemma TextFolderIdKeepsFilesPlaced(c: Crypto, s: DbState, sessionCookie: Option<string>, form: Form, newId: string, writes: Writes, now: Millis)
    requires ValidState(s) && FilesPlaced(s) && newId !in s.files
    requires EntryOf(form, "folderId").None? || EntryOf(form, "folderId").value.FormText?
    ensures FilesPlaced(Upload(c, s, sessionCookie, form, newId, writes, now).after)
  {
    var g := Guard(c, s.sessions, sessionCookie, now);
    if g.access.Granted? {
      UploadAsKeepsPlaced(c, s.(sessions := g.sessions), g.access.userId, form, newId, writes, now);
    }
  }

  /** Past the guard: a text folder id (or none) is stored only when it names one of the
      caller's folders. */
  lemma UploadAsKeepsPlaced(c: Crypto, s1: DbState, userId: string, form: Form, newId: string, writes: Writes, now: Millis)
    requires FilesPlaced(s1)
    requires EntryOf(form, "folderId").None? || EntryOf(form, "folderId").value.FormText?
    ensures FilesPlaced(UploadAs(c, s1, userId, form, newId, writes, now).after)
  {
    var o := UploadAs(c, s1, userId, form, newId, writes, now);
    if o.response.status == 200 {
      var folderId := EntryOf(form, "folderId");
      var record := o.after.files[newId];
      assert record.folderId == RecordFolderId(folderId) && record.userId == userId;
      assert record.folderId.Some? ==> FolderChecked(folderId) && OwnsFolder(s1.folders, folderId.value.s, userId);
      assert o.after == s1.(objects := o.after.objects, files := s1.files[newId := record]);
      PutFileKeepsPlaced(s1.(objects := o.after.objects), newId, record);
    }
  }

  /** As written, a folder id sent as a file part skips the ownership check, yet the
      record stores it as "[object File]": the upload succeeds whatever the caller's
      folders are, and may leave a file outside its owner's folders. */
  lemma FileValuedFolderIdSkipsCheck(c: Crypto, s: DbState, sessionCookie: Option<string>, form: Form, newId: string, now: Millis)
    requires ValidState(s) && newId !in s.files
    requires Guard(c, s.sessions, sessionCookie, now).access.Granted?
    requires var file := EntryOf(form, "file"); file.Some? && file.value.FormBlob? && 1 <= file.value.size <= 26214400
    requires EntryOf(form, "folderId").Some? && EntryOf(form, "folderId").value.FormBlob?
    ensures var o := Upload(c, s, sessionCookie, form, newId, BothAccepted, now);
      var userId := Guard(c, s.sessions, sessionCookie, now).access.userId;
      && !FolderChecked(EntryOf(form, "folderId"))
      && o.response.status == 200
      && o.after.files[newId].folderId == Some("[object File]")
      && (!OwnsFolder(s.folders, "[object File]", userId) ==> !FilesPlaced(o.after))
  {
  }
}
