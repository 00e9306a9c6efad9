/**
 * The persistent record store (users, sessions, folders, files) and the set of keys
 * written to object storage, held in memory as one object. The store's queries
 * (`findUnique`, `findFirst`, `findMany` with `orderBy`) are modelled here once.
 */
module Store {
  import opened Wrappers
  import opened Primitives
  import opened JsString

  /** Milliseconds since the epoch. */
  type Millis = nat

  datatype User = User(
    email: string,
    passwordHash: string,
    twoFactorEnabled: bool,
    twoFactorSecret: Option<string>,
    twoFactorTempSecret: Option<string>)

  /** A session record; the store keys it by the hash of its token, never by the token. */
  datatype Session = Session(userId: string, expiresAt: Millis, lastSeenAt: Millis)

  datatype Folder = Folder(userId: string, name: string, parentId: Option<string>, createdAt: Millis)

  datatype VaultFile = VaultFile(
    userId: string,
    folderId: Option<string>,
    objectKey: string,
    filename: string,
    mimeType: string,
    sizeBytes: nat,
    createdAt: Millis)

  /** A snapshot of the whole store. */
  datatype DbState = DbState(
    users: map<string, User>,
    sessions: map<string, Session>,
    folders: map<string, Folder>,
    files: map<string, VaultFile>,
    objects: set<string>)

  /** A user with two-factor authentication enabled has a committed, non-empty secret. */
  predicate TwoFactorConsistent(u: User) {
    u.twoFactorEnabled ==> u.twoFactorSecret.Some? && u.twoFactorSecret.value != ""
  }

  /** The unique index on user e-mail addresses. */
  ghost predicate EmailsUnique(users: map<string, User>) {
    forall a, b :: a in users && b in users && users[a].email == users[b].email ==> a == b
  }

  /** Two folders that occupy the same name in the same location of the same owner. */
  predicate SameSlot(a: Folder, b: Folder) {
    a.userId == b.userId && a.parentId == b.parentId && a.name == b.name
  }

  /** The unique index on (owner, parent, name) of folders. */
  ghost predicate SlotsUnique(folders: map<string, Folder>) {
    forall a, b :: a in folders && b in folders && SameSlot(folders[a], folders[b]) ==> a == b
  }

  /** A folder's parent, when it has one, is a folder of the same owner. */
  ghost predicate ParentsOwned(folders: map<string, Folder>) {
    forall f :: f in folders && folders[f].parentId.Some? ==>
      folders[f].parentId.value in folders && folders[folders[f].parentId.value].userId == folders[f].userId
  }

  /** Every session belongs to an existing user. */
  ghost predicate SessionsOwned(s: DbState) {
    forall h :: h in s.sessions ==> s.sessions[h].userId in s.users
  }

  /** The store's invariant: the schema's unique indexes and foreign keys, and the
      two-factor state every route keeps. */
  ghost predicate ValidState(s: DbState) {
    && "" !in s.users
    && (forall id :: id in s.users ==> TwoFactorConsistent(s.users[id]))
    && EmailsUnique(s.users)
    && SessionsOwned(s)
    && (forall f :: f in s.folders ==> s.folders[f].userId in s.users)
    && SlotsUnique(s.folders)
    && ParentsOwned(s.folders)
    && (forall f :: f in s.files ==> s.files[f].userId in s.users)
  }

  /** `findFirst({ where: { id, userId } })` on folders finds a record. */
  predicate OwnsFolder(folders: map<string, Folder>, id: string, userId: string) {
    id in folders && folders[id].userId == userId
  }

  /** `findFirst({ where: { id, userId } })` on files finds a record. */
  predicate OwnsFile(files: map<string, VaultFile>, id: string, userId: string) {
    id in files && files[id].userId == userId
  }

  /** Every file that names a folder names one of its owner's folders. The routes keep
      this for folder ids sent as strings; it is not part of `ValidState` because the
      upload route can break it (see `UploadRoute.FileValuedFolderIdSkipsCheck`). */
  ghost predicate FilesPlaced(s: DbState) {
    forall f :: f in s.files && s.files[f].folderId.Some? ==>
      OwnsFolder(s.folders, s.files[f].folderId.value, s.files[f].userId)
  }

  /** Some folder of `userId` already has `name` under `parentId`. */
  predicate SlotTaken(folders: map<string, Folder>, userId: string, name: string, parentId: Option<string>) {
    exists f :: f in folders && SameSlot(folders[f], Folder(userId, name, parentId, 0))
  }

  /** Adding a folder keeps the invariant when its owner exists, its parent (if any) is
      one of the owner's folders, and its slot is free. */
  lemma AddFolderKeepsValid(s: DbState, id: string, folder: Folder)
    requires ValidState(s) && id !in s.folders && folder.userId in s.users
    requires folder.parentId.Some? ==> OwnsFolder(s.folders, folder.parentId.value, folder.userId)
    requires !SlotTaken(s.folders, folder.userId, folder.name, folder.parentId)
    ensures ValidState(s.(folders := s.folders[id := folder]))
  {
    var folders := s.folders[id := folder];
    assert SlotsUnique(folders);
    assert ParentsOwned(folders);
  }

  /** Writing a file record keeps the invariant when its owner exists. */
  lemma PutFileKeepsValid(s: DbState, id: string, file: VaultFile)
    requires ValidState(s) && file.userId in s.users
    ensures ValidState(s.(files := s.files[id := file]))
  {
  }

  /** Writing a file record at the root, or in one of its owner's folders, keeps every
      file in one of its owner's folders. */
  lemma PutFileKeepsPlaced(s: DbState, id: string, file: VaultFile)
    requires FilesPlaced(s)
    requires file.folderId.Some? ==> OwnsFolder(s.folders, file.folderId.value, file.userId)
    ensures FilesPlaced(s.(files := s.files[id := file]))
  {
  }

  /** Adding a user keeps the invariant when the id is new and non-empty, the address
      is free, and two-factor authentication is off. */
  lemma AddUserKeepsValid(s: DbState, id: string, user: User)
    requires ValidState(s) && id != "" && id !in s.users
    requires forall other :: other in s.users ==> s.users[other].email != user.email
    requires !user.twoFactorEnabled
    ensures ValidState(s.(users := s.users[id := user]))
  {
    var users := s.users[id := user];
    assert EmailsUnique(users);
  }

  /** The user whose e-mail address is `email`, if there is one. */
  ghost function UserIdByEmail(users: map<string, User>, email: string): (r: Option<string>)
    ensures r.Some? ==> r.value in users && users[r.value].email == email
    ensures r.None? ==> forall id :: id in users ==> users[id].email != email
  {
    if exists id :: id in users && users[id].email == email then
      var id :| id in users && users[id].email == email; Some(id)
    else
      None
  }

  /** Under the unique index, the lookup finds the one user with that address. */
  lemma UserIdByEmailFinds(users: map<string, User>, id: string)
    requires EmailsUnique(users) && id in users
    ensures UserIdByEmail(users, users[id].email) == Some(id)
  {
  }

  /** `user.findUnique({ where: { email } })`. */
  method FindUserByEmail(users: map<string, User>, email: string) returns (r: Option<string>)
    requires EmailsUnique(users)
    ensures r == UserIdByEmail(users, email)
  {
    if id :| id in users && users[id].email == email {
      r := Some(id);
    } else {
      r := None;
    }
  }

  /** Code-point lexicographic order on names: the database's `orderBy: "asc"`. */
  predicate LexLe(a: string, b: string)
    decreases |a|
  {
    a == [] || (b != [] && (a[0] < b[0] || (a[0] == b[0] && LexLe(a[1..], b[1..]))))
  }

  lemma {:induction false} LexLeTotal(a: string, b: string)
    ensures LexLe(a, b) || LexLe(b, a)
    decreases |a|
  {
    if a != [] && b != [] && a[0] == b[0] {
      LexLeTotal(a[1..], b[1..]);
    }
  }

  lemma {:induction false} LexLeTransitive(a: string, b: string, c: string)
    requires LexLe(a, b) && LexLe(b, c)
    ensures LexLe(a, c)
    decreases |a|
  {
    if a != [] && a[0] == b[0] && b[0] == c[0] {
      LexLeTransitive(a[1..], b[1..], c[1..]);
    }
  }

  predicate Distinct(ids: seq<string>) {
    forall i, j :: 0 <= i < j < |ids| ==> ids[i] != ids[j]
  }

  predicate FolderMatches(f: Folder, userId: string, parentId: Option<string>) {
    f.userId == userId && f.parentId == parentId
  }

  predicate NamesAscending(ids: seq<string>, folders: map<string, Folder>)
    requires forall i :: 0 <= i < |ids| ==> ids[i] in folders
  {
    forall i, j :: 0 <= i < j < |ids| ==> LexLe(folders[ids[i]].name, folders[ids[j]].name)
  }

  /** The result of `folder.findMany({ where: { userId, parentId }, orderBy: { name: "asc" } })`:
      each matching folder once, nothing else, ordered by name. */
  ghost predicate FolderQuery(ids: seq<string>, folders: map<string, Folder>, userId: string, parentId: Option<string>) {
    && (forall i :: 0 <= i < |ids| ==> ids[i] in folders && FolderMatches(folders[ids[i]], userId, parentId))
    && (forall id :: id in folders && FolderMatches(folders[id], userId, parentId) ==> id in ids)
    && Distinct(ids)
    && NamesAscending(ids, folders)
  }

  function InsertByName(ids: seq<string>, id: string, folders: map<string, Folder>): seq<string>
    requires id in folders && forall i :: 0 <= i < |ids| ==> ids[i] in folders
  {
    if ids == [] then [id]
    else if LexLe(folders[id].name, folders[ids[0]].name) then [id] + ids
    else [ids[0]] + InsertByName(ids[1..], id, folders)
  }

  lemma {:induction false} InsertByNameCorrect(ids: seq<string>, id: string, folders: map<string, Folder>)
    requires id in folders && forall i :: 0 <= i < |ids| ==> ids[i] in folders
    requires NamesAscending(ids, folders)
    ensures var r := InsertByName(ids, id, folders);
      && (forall x :: x in r <==> x in ids || x == id)
      && (forall i :: 0 <= i < |r| ==> r[i] in folders)
      && (Distinct(ids) && id !in ids ==> Distinct(r))
      && NamesAscending(r, folders)
    decreases |ids|
  {
    if ids != [] && !LexLe(folders[id].name, folders[ids[0]].name) {
      InsertByNameCorrect(ids[1..], id, folders);
      LexLeTotal(folders[id].name, folders[ids[0]].name);
      var r := InsertByName(ids, id, folders);
      assert r == [ids[0]] + InsertByName(ids[1..], id, folders);
      forall x | x in ids
        ensures x in r
      {
        if x != ids[0] {
          var k :| 0 <= k < |ids| && ids[k] == x;
          assert ids[1..][k - 1] == x;
        }
      }
      var t := InsertByName(ids[1..], id, folders);
      forall i | 0 <= i < |t|
        ensures LexLe(folders[ids[0]].name, folders[t[i]].name)
        ensures Distinct(ids) && id !in ids ==> ids[0] != t[i]
      {
        var x := t[i];
        assert x in t;
        if x != id {
          var k :| 0 <= k < |ids[1..]| && ids[1..][k] == x;
          assert ids[k + 1] == x;
        }
      }
      ConsNamesAscending(ids[0], t, folders);
      if Distinct(ids) && id !in ids {
        assert Distinct(ids[1..]) && id !in ids[1..];
        ConsDistinct(ids[0], t);
      }
    } else if ids != [] {
      var r := [id] + ids;
      forall i, j | 0 <= i < j < |r|
        ensures LexLe(folders[r[i]].name, folders[r[j]].name)
      {
        if i == 0 && j > 1 {
          LexLeTransitive(folders[id].name, folders[ids[0]].name, folders[ids[j - 1]].name);
        }
      }
    }
  }

  /** A head whose name is at most every later name extends an ascending list. */
  lemma ConsNamesAscending(y: string, t: seq<string>, folders: map<string, Folder>)
    requires y in folders && forall i :: 0 <= i < |t| ==> t[i] in folders
    requires NamesAscending(t, folders)
    requires forall i :: 0 <= i < |t| ==> LexLe(folders[y].name, folders[t[i]].name)
    ensures NamesAscending([y] + t, folders)
  {
    var r := [y] + t;
    assert forall i :: 1 <= i < |r| ==> r[i] == t[i - 1];
  }

  /** A head that occurs nowhere after it extends a list without repeats. */
  lemma ConsDistinct(y: string, t: seq<string>)
    requires Distinct(t) && forall i :: 0 <= i < |t| ==> y != t[i]
    ensures Distinct([y] + t)
  {
    var r := [y] + t;
    assert forall i :: 1 <= i < |r| ==> r[i] == t[i - 1];
  }

  /** `folder.findMany` by owner and parent, ordered by name. */
  method FindFolders(folders: map<string, Folder>, userId: string, parentId: Option<string>)
    returns (ids: seq<string>)
    ensures FolderQuery(ids, folders, userId, parentId)
  {
    ids := [];
    var pending := folders.Keys;
    while pending != {}
      invariant pending <= folders.Keys
      invariant forall x :: x in ids ==> x in folders && x !in pending && FolderMatches(folders[x], userId, parentId)
      invariant forall id :: id in folders && id !in pending && FolderMatches(folders[id], userId, parentId) ==> id in ids
      invariant Distinct(ids)
      invariant NamesAscending(ids, folders)
      decreases pending
    {
      var id :| id in pending;
      if FolderMatches(folders[id], userId, parentId) {
        InsertByNameCorrect(ids, id, folders);
        ids := InsertByName(ids, id, folders);
      }
      pending := pending - {id};
    }
  }

  predicate FileMatches(f: VaultFile, userId: string, folderId: Option<string>) {
    f.userId == userId && f.folderId == folderId
  }

  predicate NewestFirst(ids: seq<string>, files: map<string, VaultFile>)
    requires forall i :: 0 <= i < |ids| ==> ids[i] in files
  {
    forall i, j :: 0 <= i < j < |ids| ==> files[ids[i]].createdAt >= files[ids[j]].createdAt
  }

  /** The result of `vaultFile.findMany({ where: { userId, folderId }, orderBy: { createdAt: "desc" } })`:
      each matching file once, nothing else, newest first. */
  ghost predicate FileQuery(ids: seq<string>, files: map<string, VaultFile>, userId: string, folderId: Option<string>) {
    && (forall i :: 0 <= i < |ids| ==> ids[i] in files && FileMatches(files[ids[i]], userId, folderId))
    && (forall id :: id in files && FileMatches(files[id], userId, folderId) ==> id in ids)
    && Distinct(ids)
    && NewestFirst(ids, files)
  }

  function InsertByDate(ids: seq<string>, id: string, files: map<string, VaultFile>): seq<string>
    requires id in files && forall i :: 0 <= i < |ids| ==> ids[i] in files
  {
    if ids == [] then [id]
    else if files[id].createdAt >= files[ids[0]].createdAt then [id] + ids
    else [ids[0]] + InsertByDate(ids[1..], id, files)
  }

  lemma {:induction false} InsertByDateCorrect(ids: seq<string>, id: string, files: map<string, VaultFile>)
    requires id in files && forall i :: 0 <= i < |ids| ==> ids[i] in files
    requires NewestFirst(ids, files)
    ensures var r := InsertByDate(ids, id, files);
      && (forall x :: x in r <==> x in ids || x == id)
      && (forall i :: 0 <= i < |r| ==> r[i] in files)
      && (Distinct(ids) && id !in ids ==> Distinct(r))
      && NewestFirst(r, files)
    decreases |ids|
  {
    if ids != [] && files[id].createdAt < files[ids[0]].createdAt {
      InsertByDateCorrect(ids[1..], id, files);
      var r := InsertByDate(ids, id, files);
      assert r == [ids[0]] + InsertByDate(ids[1..], id, files);
      forall x | x in ids
        ensures x in r
      {
        if x != ids[0] {
          var k :| 0 <= k < |ids| && ids[k] == x;
          assert ids[1..][k - 1] == x;
        }
      }
      var t := InsertByDate(ids[1..], id, files);
      forall i | 0 <= i < |t|
        ensures files[ids[0]].createdAt >= files[t[i]].createdAt
        ensures Distinct(ids) && id !in ids ==> ids[0] != t[i]
      {
        var x := t[i];
        assert x in t;
        if x != id {
          var k :| 0 <= k < |ids[1..]| && ids[1..][k] == x;
          assert ids[k + 1] == x;
        }
      }
      ConsNewestFirst(ids[0], t, files);
      if Distinct(ids) && id !in ids {
        assert Distinct(ids[1..]) && id !in ids[1..];
        ConsDistinct(ids[0], t);
      }
    } else if ids != [] {
      assert InsertByDate(ids, id, files) == [id] + ids;
      assert forall i :: 0 <= i < |ids| ==> files[ids[0]].createdAt >= files[ids[i]].createdAt;
      ConsNewestFirst(id, ids, files);
      if Distinct(ids) && id !in ids {
        ConsDistinct(id, ids);
      }
    }
  }

  /** A head no older than anything after it extends a newest-first list. */
  lemma ConsNewestFirst(y: string, t: seq<string>, files: map<string, VaultFile>)
    requires y in files && forall i :: 0 <= i < |t| ==> t[i] in files
    requires NewestFirst(t, files)
    requires forall i :: 0 <= i < |t| ==> files[y].createdAt >= files[t[i]].createdAt
    ensures NewestFirst([y] + t, files)
  {
    var r := [y] + t;
    assert forall i :: 1 <= i < |r| ==> r[i] == t[i - 1];
  }

  /** `vaultFile.findMany` by owner and folder, newest first. */
  method FindFiles(files: map<string, VaultFile>, userId: string, folderId: Option<string>)
    returns (ids: seq<string>)
    ensures FileQuery(ids, files, userId, folderId)
  {
    ids := [];
    var pending := files.Keys;
    while pending != {}
      invariant pending <= files.Keys
      invariant forall x :: x in ids ==> x in files && x !in pending && FileMatches(files[x], userId, folderId)
      invariant forall id :: id in files && id !in pending && FileMatches(files[id], userId, folderId) ==> id in ids
      invariant Distinct(ids)
      invariant NewestFirst(ids, files)
      decreases pending
    {
      var id :| id in pending;
      if FileMatches(files[id], userId, folderId) {
        InsertByDateCorrect(ids, id, files);
        ids := InsertByDate(ids, id, files);
      }
      pending := pending - {id};
    }
  }

  /** The store: its tables as fields that the route handlers update in place, and the
      primitives it was configured with. */
  class Database {
    const crypto: Crypto
    var users: map<string, User>
    var sessions: map<string, Session>
    var folders: map<string, Folder>
    var files: map<string, VaultFile>
    var objects: set<string>

    function State(): DbState
      reads this
    {
      DbState(users, sessions, folders, files, objects)
    }

    ghost predicate Valid()
      reads this
    {
      ValidState(State())
    }

    constructor (crypto: Crypto)
      ensures this.crypto == crypto
      ensures Valid() && State() == DbState(map[], map[], map[], map[], {})
    {
      this.crypto := crypto;
      users, sessions, folders, files, objects := map[], map[], map[], map[], {};
    }
  }
}
