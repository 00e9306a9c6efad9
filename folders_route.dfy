/**
 * `POST /api/vault/folders` creates a folder for the signed-in user, at the root or
 * under one of the user's own folders; `GET /api/vault/folders` lists the user's
 * folders in one location, by name.
 */
module FoldersRoute {
  import opened Wrappers
  import opened JsString
  import opened Primitives
  import opened Store
  import opened Http
  import opened Schema
  import opened SessionGuard

  const ConflictMessage := "Folder with this name already exists in this location"

  /** The creation handler on a store snapshot; `newId` is the id the store assigns. A
      clash with the (owner, parent, name) unique index is the store's P2002 error. */
  ghost function CreateFolder(c: Crypto, s: DbState, sessionCookie: Option<string>, body: Json, newId: string, now: Millis): Outcome
    requires ValidState(s)
  {
    var g := Guard(c, s.sessions, sessionCookie, now);
    var s1 := s.(sessions := g.sessions);
    match g.access
    case Denied(refusal) => Outcome(refusal, s1)
    case Granted(userId) => CreateFolderAs(s1, userId, body, newId, now)
  }

  /** The creation handler past the session guard, for the caller `userId`. */
  function CreateFolderAs(s1: DbState, userId: string, body: Json, newId: string, now: Millis): Outcome {
    var request := ParseNewFolder(body);
    if request.None? then
      Outcome(Reply(400, Error("Invalid payload")), s1)
    else if Truthy(request.value.parentId) && !OwnsFolder(s1.folders, request.value.parentId.value, userId) then
      Outcome(Reply(404, Error("Parent folder not found")), s1)
    else
      var folder := Folder(userId, request.value.name, OrNull(request.value.parentId), now);
      if SlotTaken(s1.folders, userId, folder.name, folder.parentId) then
        Outcome(Reply(409, Error(ConflictMessage)), s1)
      else
        Outcome(Reply(201, FolderRecord(newId, folder)), s1.(folders := s1.folders[newId := folder]))
  }

  /** The creation handler. */
  method Post(db: Database, sessionCookie: Option<string>, body: Json, newId: string, now: Millis) returns (response: Response)
    requires db.Valid() && newId !in db.folders
    modifies db
    ensures db.Valid()
    ensures Outcome(response, db.State()) == CreateFolder(db.crypto, old(db.State()), sessionCookie, body, newId, now)
  {
    var access := RequireSession(db, sessionCookie, now);
    if access.Denied? {
      return access.response;
    }
    response := PostAs(db, access.userId, body, newId, now);
  }

  /** The creation handler past the session guard, for the caller `userId`. */
  method PostAs(db: Database, userId: string, body: Json, newId: string, now: Millis) returns (response: Response)
    requires db.Valid() && userId in db.users && newId !in db.folders
    modifies db
    ensures db.Valid()
    ensures Outcome(response, db.State()) == CreateFolderAs(old(db.State()), userId, body, newId, now)
  {
    var request := ParseNewFolder(body);
    if request.None? {
      return Reply(400, Error("Invalid payload"));
    }
    var name, parentId := request.value.name, request.value.parentId;
    if parentId.Some? && parentId.value != "" {
      if !(parentId.value in db.folders && db.folders[parentId.value].userId == userId) {
        return Reply(404, Error("Parent folder not found"));
      }
    }
    var folder := Folder(userId, name, OrNull(parentId), now);
    var folders := db.folders;
    if exists f :: f in folders && SameSlot(folders[f], folder) {
      return Reply(409, Error(ConflictMessage));
    }
    AddFolderKeepsValid(db.State(), newId, folder);
    db.folders := db.folders[newId := folder];
    response := Reply(201, FolderRecord(newId, folder));
  }

  /** Without a valid session the guard's refusal is the response and only the session
      table may change. */
  lemma CreateFolderGuarded(c: Crypto, s: DbState, sessionCookie: Option<string>, body: Json, newId: string, now: Millis)
    requires ValidState(s)
    requires Guard(c, s.sessions, sessionCookie, now).access.Denied?
    ensures var g := Guard(c, s.sessions, sessionCookie, now);
      CreateFolder(c, s, sessionCookie, body, newId, now) == Outcome(g.access.response, s.(sessions := g.sessions))
  {
  }

  /** Refusals after the guard create nothing: 400 for a name outside 1..255 code units
      or a malformed body, 404 for a non-empty parent the caller does not own (missing
      or another user's, alike), 409 for a name already used in that location. */
  lemma RefusalsCreateNothing(c: Crypto, s: DbState, sessionCookie: Option<string>, body: Json, newId: string, now: Millis)
    requires ValidState(s)
    requires Guard(c, s.sessions, sessionCookie, now).access.Granted?
    requires CreateFolder(c, s, sessionCookie, body, newId, now).response.status != 201
    ensures var g := Guard(c, s.sessions, sessionCookie, now);
      var userId := g.access.userId;
      var o := CreateFolder(c, s, sessionCookie, body, newId, now);
      var request := ParseNewFolder(body);
      && o.after == s.(sessions := g.sessions)
      && (request.None? ==> o.response == Reply(400, Error("Invalid payload")))
      && (request.Some? && Truthy(request.value.parentId) && !OwnsFolder(s.folders, request.value.parentId.value, userId) ==>
            o.response == Reply(404, Error("Parent folder not found")))
      && (o.response.status == 409 ==>
            request.Some? && SlotTaken(s.folders, userId, request.value.name, OrNull(request.value.parentId)))
  {
  }

  /** Success adds exactly one folder, owned by the caller, under the requested parent,
      or at the root when the parent is absent or empty; it answers 201 with the record;
      the store's invariant holds, so the new folder's parent is the caller's own. */
  lemma CreateFolderAddsOne(c: Crypto, s: DbState, sessionCookie: Option<string>, body: Json, newId: string, now: Millis)
    requires ValidState(s) && newId !in s.folders
    requires CreateFolder(c, s, sessionCookie, body, newId, now).response.status == 201
    ensures var g := Guard(c, s.sessions, sessionCookie, now);
      var o := CreateFolder(c, s, sessionCookie, body, newId, now);
      var request := ParseNewFolder(body).value;
      var folder := Folder(g.access.userId, request.name, OrNull(request.parentId), now);
      && g.access.Granted? && ParseNewFolder(body).Some?
      && o.after == s.(sessions := g.sessions, folders := s.folders[newId := folder])
      && |o.after.folders| == |s.folders| + 1
      && o.response == Reply(201, FolderRecord(newId, folder))
      && (folder.parentId.None? <==> request.parentId.None? || request.parentId.value == "")
      && !SlotTaken(s.folders, g.access.userId, request.name, folder.parentId)
      && ValidState(o.after)
  {
    var g := Guard(c, s.sessions, sessionCookie, now);
    var request := ParseNewFolder(body).value;
    var folder := Folder(g.access.userId, request.name, OrNull(request.parentId), now);
    AddFolderKeepsValid(s.(sessions := g.sessions), newId, folder);
  }

  function FolderIds(list: seq<(string, Folder)>): (ids: seq<string>)
    ensures |ids| == |list| && forall i :: 0 <= i < |list| ==> ids[i] == list[i].0
  {
    seq(|list|, i requires 0 <= i < |list| => list[i].0)
  }

  /** The listing handler: after the guard, exactly the caller's folders whose parent is
      the `parentId` query parameter (the root when it is missing or empty), each once,
      ordered by name, with their records. Only the guard touches the store. */
  method Get(db: Database, sessionCookie: Option<string>, parentQuery: Option<string>, now: Millis) returns (response: Response)
    requires db.Valid()
    modifies db
    ensures db.Valid()
    ensures var g := Guard(db.crypto, old(db.sessions), sessionCookie, now);
      && db.State() == old(db.State()).(sessions := g.sessions)
      && (g.access.Denied? ==> response == g.access.response)
      && (g.access.Granted? ==>
            && response.status == 200 && response.sessionCookie == Keep && response.challengeCookie == Keep
            && response.body.FolderList?
            && FolderQuery(FolderIds(response.body.folders), db.folders, g.access.userId, OrNull(parentQuery))
            && forall i :: 0 <= i < |response.body.folders| ==>
                 response.body.folders[i].1 == db.folders[response.body.folders[i].0])
  {
    var access := RequireSession(db, sessionCookie, now);
    if access.Denied? {
      return access.response;
    }
    var folders := db.folders;
    var ids := FindFolders(folders, access.userId, OrNull(parentQuery));
    var list := seq(|ids|, i requires 0 <= i < |ids| => (ids[i], folders[ids[i]]));
    assert FolderIds(list) == ids;
    response := Reply(200, FolderList(list));
  }
}
