/**
 * What a route handler hands back: an HTTP status, the JSON body (as one tagged
 * value per shape the handlers produce), and what the response does to the two
 * cookies of the system, the session cookie and the pre-2FA challenge cookie.
 */
module Http {
  import opened Wrappers
  import opened Store

  /** A cookie is left alone, set to a value with a lifetime in seconds, or deleted. */
  datatype CookieAction = Keep | SetCookie(value: string, maxAge: nat) | DeleteCookie

  /** The first validation issue zod reports; its message text is zod's rendering. */
  datatype Issue =
    | NotAnObject
    | Required(path: string)
    | ExpectedString(path: string)
    | InvalidEmail(path: string)
    | TooSmall(path: string, minimum: nat)
    | TooBig(path: string, maximum: nat)

  /** A listed file as the listing exposes it: no owner, no object key, and the size as
      a decimal string. */
  datatype FileItem = FileItem(
    id: string,
    filename: string,
    mimeType: string,
    sizeBytes: string,
    createdAt: Millis,
    folderId: Option<string>)

  /** A JSON value before `JSON.stringify`, as far as the handlers need one. A BigInt is
      a JavaScript value that `JSON.stringify` refuses with a TypeError. */
  datatype JsonValue =
    | JString(s: string)
    | JInt(n: int)
    | JBigInt(b: nat)
    | JNull
    | JObject(members: seq<(string, JsonValue)>)

  /** `JSON.stringify` does not throw on `v`: no BigInt occurs anywhere in it. */
  predicate Stringifiable(v: JsonValue)
    decreases v
  {
    match v
    case JBigInt(_) => false
    case JObject(members) => forall i :: 0 <= i < |members| ==> Stringifiable(members[i].1)
    case _ => true
  }

  datatype Body =
    | Error(message: string)
    | ValidationError(issue: Issue)
    /** `{ ok: true }` */
    | Ok
    /** `{ ok: true, requires2FA: false }` */
    | SignedIn
    /** `{ requires2FA: true }` */
    | Requires2FA
    /** `{ secret, otpauthUrl }` */
    | Enrollment(secret: string, otpauthUrl: string)
    /** A folder record, with its id. */
    | FolderRecord(id: string, folder: Folder)
    /** `{ folders }` */
    | FolderList(folders: seq<(string, Folder)>)
    /** `{ ok: true, file: { id, filename } }` */
    | Uploaded(fileId: string, filename: string)
    /** A whole record, as `NextResponse.json` serialises it. */
    | Record(record: JsonValue)
    /** `{ downloadUrl, expiresInSeconds }` */
    | DownloadTicket(downloadUrl: string, expiresInSeconds: nat)
    /** `{ uploadUrl, fileId, objectKey, expiresInSeconds }` */
    | UploadTicket(uploadUrl: string, fileId: string, objectKey: string, expiresInSeconds: nat)
    /** `{ files }` */
    | FileList(files: seq<FileItem>)

  datatype Response = Response(status: nat, body: Body, sessionCookie: CookieAction, challengeCookie: CookieAction)

  /** What handling one request yields: the response and the store afterwards. */
  datatype Outcome = Outcome(response: Response, after: DbState)

  /** A JSON response that leaves both cookies alone. */
  function Reply(status: nat, body: Body): Response {
    Response(status, body, Keep, Keep)
  }

  /** `maxAge` of the session cookie: seven days in seconds. */
  const SessionCookieMaxAge: nat := 60 * 60 * 24 * 7
  /** `maxAge` of the pre-2FA cookie: five minutes in seconds. */
  const ChallengeCookieMaxAge: nat := 300
}
