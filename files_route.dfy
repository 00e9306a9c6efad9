/**
 * `GET /api/vault/files`: the caller's files in one folder, or at the root, newest
 * first, without their owner or object key and with their sizes as decimal strings.
 */
module FilesRoute {
  import opened Wrappers
  import opened JsString
  import opened Primitives
  import opened Store
  import opened Http
  import opened SessionGuard

  /** A file record as the listing selects it, its BigInt size as `toString()` renders it;
      the size reads back as the stored one. */
  function ListedFile(id: string, f: VaultFile): (item: FileItem)
    ensures item.id == id && item.filename == f.filename && item.mimeType == f.mimeType
    ensures item.createdAt == f.createdAt && item.folderId == f.folderId
    ensures ParseInt(item.sizeBytes) == Some(f.sizeBytes)
  {
    ParseIntOfDecimal(f.sizeBytes);
    FileItem(id, f.filename, f.mimeType, Decimal(f.sizeBytes), f.createdAt, f.folderId)
  }

  function FileIds(items: seq<FileItem>): (ids: seq<string>)
    ensures |ids| == |items| && forall i :: 0 <= i < |items| ==> ids[i] == items[i].id
  {
    seq(|items|, i requires 0 <= i < |items| => items[i].id)
  }

  /** The handler: after the guard, exactly the caller's files whose folder is the
      `folderId` query parameter (the root when it is missing or empty), each once,
      newest first, each as `ListedFile` renders it. Only the guard touches the store. */
  method Get(db: Database, sessionCookie: Option<string>, folderQuery: Option<string>, now: Millis) returns (response: Response)
    requires db.Valid()
    modifies db
    ensures db.Valid()
    ensures var g := Guard(db.crypto, old(db.sessions), sessionCookie, now);
      && db.State() == old(db.State()).(sessions := g.sessions)
      && (g.access.Denied? ==> response == g.access.response)
      && (g.access.Granted? ==>
            && response.status == 200 && response.sessionCookie == Keep && response.challengeCookie == Keep
            && response.body.FileList?
            && FileQuery(FileIds(response.body.files), db.files, g.access.userId, OrNull(folderQuery))
            && forall i :: 0 <= i < |response.body.files| ==>
                 response.body.files[i] == ListedFile(response.body.files[i].id, db.files[response.body.files[i].id]))
  {
    var access := RequireSession(db, sessionCookie, now);
    if access.Denied? {
      return access.response;
    }
    var files := db.files;
    var ids := FindFiles(files, access.userId, OrNull(folderQuery));
    var items := seq(|ids|, i requires 0 <= i < |ids| => ListedFile(ids[i], files[ids[i]]));
    assert FileIds(items) == ids;
    response := Reply(200, FileList(items));
  }
}
