/**
 * The request bodies the route handlers accept and their zod schemas. A body is
 * the JSON value `request.json()` produced, seen as an object from keys to field
 * values; anything that is not a JSON object (malformed JSON included, which the
 * handlers turn into `null`) is `None`.
 */
module Schema {
  import opened Wrappers
  import opened JsString
  import opened Primitives
  import opened Http

  /** A field of a JSON object: absent, a string, an integral number, or anything
      else (null, a boolean, a fractional number, an array, an object). */
  datatype Field = Missing | Text(s: string) | Whole(n: int) | OtherValue

  type Json = Option<map<string, Field>>

  function FieldOf(obj: map<string, Field>, key: string): Field {
    if key in obj then obj[key] else Missing
  }

  /** What `safeParse` yields: the first issue, or the parsed data. */
  datatype Parsed<T> = Rejected(issue: Issue) | Accepted(value: T)

  /** zod's `.trim().toLowerCase()` on an e-mail address. */
  function NormalizeEmail(s: string): string {
    Lower(Trim(s))
  }

  /** Normalising twice is normalising once, so a stored (normalised) address is found
      again by every spelling that normalises to it. */
  lemma NormalizeEmailIdempotent(s: string)
    ensures NormalizeEmail(NormalizeEmail(s)) == NormalizeEmail(s)
  {
    TrimLowerCommute(Trim(s));
    TrimIdempotent(s);
    LowerIdempotent(Trim(s));
  }

  /** Addresses that differ only in the case of ASCII letters collide, whatever white
      space surrounds them. */
  lemma NormalizeEmailCollides(a: string, b: string)
    requires Lower(a) == Lower(b)
    ensures NormalizeEmail(a) == NormalizeEmail(b)
  {
    TrimLowerCommute(a);
    TrimLowerCommute(b);
  }

  /** The issue zod reports for a field that must be a string, if it is not one. */
  function StringIssue(path: string, f: Field): (r: Option<Issue>)
    ensures r.None? <==> f.Text?
  {
    match f
    case Missing => Some(Required(path))
    case Text(_) => None
    case _ => Some(ExpectedString(path))
  }

  datatype Credentials = Credentials(email: string, password: string)

  /** The login and registration schemas: `email` a string that is an e-mail address
      once trimmed and lower-cased, `password` a string of `minPassword` to
      `maxPassword` (when given) UTF-16 code units. zod checks the fields in order,
      so an issue with the e-mail address is reported before one with the password. */
  function ParseCredentials(c: Crypto, body: Json, minPassword: nat, maxPassword: Option<nat>): (r: Parsed<Credentials>)
    ensures body.None? ==> r == Rejected(NotAnObject)
    ensures r.Accepted? <==>
      && body.Some?
      && FieldOf(body.value, "email").Text? && c.isEmail(NormalizeEmail(FieldOf(body.value, "email").s))
      && FieldOf(body.value, "password").Text?
      && minPassword <= |FieldOf(body.value, "password").s|
      && (maxPassword.Some? ==> |FieldOf(body.value, "password").s| <= maxPassword.value)
    ensures r.Accepted? ==>
      r.value == Credentials(NormalizeEmail(FieldOf(body.value, "email").s), FieldOf(body.value, "password").s)
    ensures body.Some? && !(FieldOf(body.value, "email").Text? && c.isEmail(NormalizeEmail(FieldOf(body.value, "email").s))) ==>
      r.Rejected? && !r.issue.NotAnObject? && r.issue.path == "email"
  {
    if body.None? then
      Rejected(NotAnObject)
    else
      var email := FieldOf(body.value, "email");
      var password := FieldOf(body.value, "password");
      var emailIssue :=
        if !email.Text? then StringIssue("email", email)
        else if !c.isEmail(NormalizeEmail(email.s)) then Some(InvalidEmail("email"))
        else None;
      var passwordIssue :=
        if !password.Text? then StringIssue("password", password)
        else if |password.s| < minPassword then Some(TooSmall("password", minPassword))
        else if maxPassword.Some? && |password.s| > maxPassword.value then Some(TooBig("password", maxPassword.value))
        else None;
      if emailIssue.Some? then Rejected(emailIssue.value)
      else if passwordIssue.Some? then Rejected(passwordIssue.value)
      else Accepted(Credentials(NormalizeEmail(email.s), password.s))
  }

  /** `z.string().min(lo).max(hi)` on one field. */
  predicate StringWithin(f: Field, lo: nat, hi: nat) {
    f.Text? && lo <= |f.s| <= hi
  }

  /** `z.string().min(1)` on one field. */
  predicate NonEmptyString(f: Field) {
    f.Text? && |f.s| >= 1
  }

  /** `z.string().optional()`: absent, or a string (possibly empty). */
  function OptionalString(f: Field): (r: Option<Option<string>>)
    ensures r.Some? <==> f.Missing? || f.Text?
    ensures r == Some(None) <==> f.Missing?
    ensures f.Text? ==> r == Some(Some(f.s))
  {
    match f
    case Missing => Some(None)
    case Text(s) => Some(Some(s))
    case _ => None
  }

  /** The second-factor code schema of verification and enrollment: a string of 6 to 8
      code units. */
  function ParseCode(body: Json): (r: Option<string>)
    ensures r.Some? <==> body.Some? && StringWithin(FieldOf(body.value, "code"), 6, 8)
    ensures r.Some? ==> r.value == FieldOf(body.value, "code").s && 6 <= |r.value| <= 8
  {
    if body.Some? && StringWithin(FieldOf(body.value, "code"), 6, 8) then Some(FieldOf(body.value, "code").s) else None
  }

  datatype NewFolder = NewFolder(name: string, parentId: Option<string>)

  /** The folder creation schema: `name` of 1 to 255 code units, optional string
      `parentId`. */
  function ParseNewFolder(body: Json): (r: Option<NewFolder>)
    ensures r.Some? <==>
      body.Some? && StringWithin(FieldOf(body.value, "name"), 1, 255) && OptionalString(FieldOf(body.value, "parentId")).Some?
    ensures r.Some? ==>
      && 1 <= |r.value.name| <= 255
      && r.value == NewFolder(FieldOf(body.value, "name").s, OptionalString(FieldOf(body.value, "parentId")).value)
  {
    if body.None? then None
    else
      var name := FieldOf(body.value, "name");
      var parentId := OptionalString(FieldOf(body.value, "parentId"));
      if StringWithin(name, 1, 255) && parentId.Some? then Some(NewFolder(name.s, parentId.value)) else None
  }

  datatype Move = Move(fileId: string, folderId: Option<string>)

  /** The move schema: non-empty string `fileId`, optional string `folderId`. */
  function ParseMove(body: Json): (r: Option<Move>)
    ensures r.Some? <==>
      body.Some? && NonEmptyString(FieldOf(body.value, "fileId")) && OptionalString(FieldOf(body.value, "folderId")).Some?
    ensures r.Some? ==>
      && r.value.fileId != ""
      && r.value == Move(FieldOf(body.value, "fileId").s, OptionalString(FieldOf(body.value, "folderId")).value)
  {
    if body.None? then None
    else
      var fileId := FieldOf(body.value, "fileId");
      var folderId := OptionalString(FieldOf(body.value, "folderId"));
      if NonEmptyString(fileId) && folderId.Some? then Some(Move(fileId.s, folderId.value)) else None
  }

  /** The download schema: non-empty string `fileId`. */
  function ParseDownload(body: Json): (r: Option<string>)
    ensures r.Some? <==> body.Some? && NonEmptyString(FieldOf(body.value, "fileId"))
    ensures r.Some? ==> r.value != "" && r.value == FieldOf(body.value, "fileId").s
  {
    if body.Some? && NonEmptyString(FieldOf(body.value, "fileId")) then Some(FieldOf(body.value, "fileId").s) else None
  }

  /** The largest size an upload reservation may declare: 100 MiB. */
  const MaxReservedBytes: nat := 100 * 1024 * 1024

  datatype Reservation = Reservation(filename: string, contentType: string, sizeBytes: nat)

  /** The upload reservation schema: `filename` and `contentType` of 1 to 255 code
      units; `sizeBytes` a positive integer of at most 100 MiB. */
  function ParseReservation(body: Json): (r: Option<Reservation>)
    ensures r.Some? <==>
      && body.Some?
      && StringWithin(FieldOf(body.value, "filename"), 1, 255)
      && StringWithin(FieldOf(body.value, "contentType"), 1, 255)
      && FieldOf(body.value, "sizeBytes").Whole?
      && 0 < FieldOf(body.value, "sizeBytes").n <= 104857600
    ensures r.Some? ==>
      && r.value.filename == FieldOf(body.value, "filename").s
      && r.value.contentType == FieldOf(body.value, "contentType").s
      && r.value.sizeBytes == FieldOf(body.value, "sizeBytes").n
      && 1 <= |r.value.filename| <= 255 && 1 <= |r.value.contentType| <= 255
      && 0 < r.value.sizeBytes <= 104857600
  {
    if body.None? then None
    else
      var filename := FieldOf(body.value, "filename");
      var contentType := FieldOf(body.value, "contentType");
      var size := FieldOf(body.value, "sizeBytes");
      if StringWithin(filename, 1, 255) && StringWithin(contentType, 1, 255) && size.Whole? && 0 < size.n <= MaxReservedBytes then
        Some(Reservation(filename.s, contentType.s, size.n))
      else
        None
  }

  /** An optional string as a client writes it: the key is left out when absent. */
  function Encoded(id: Option<string>): (f: Field)
    ensures OptionalString(f) == Some(id)
  {
    if id.Some? then Text(id.value) else Missing
  }

  // zod's object schemas strip the keys they do not name, so each parser below reads
  // its own fields and nothing else; a client's body for a request parses back to that
  // request; and a field of the wrong JSON type is refused.

  /** The credentials schema reads only `email` and `password`; a client body within
      the bounds parses back to the normalised credentials; and a number sent as the
      address is refused with a path "email". */
  lemma ParseCredentialsReadsItsFields(c: Crypto, obj: map<string, Field>, key: string, f: Field,
                                       email: string, password: string, n: int, minPassword: nat, maxPassword: Option<nat>)
    ensures key != "email" && key != "password" ==>
      ParseCredentials(c, Some(obj[key := f]), minPassword, maxPassword) == ParseCredentials(c, Some(obj), minPassword, maxPassword)
    ensures c.isEmail(NormalizeEmail(email)) && minPassword <= |password| && (maxPassword.Some? ==> |password| <= maxPassword.value) ==>
      ParseCredentials(c, Some(obj["email" := Text(email)]["password" := Text(password)]), minPassword, maxPassword)
        == Accepted(Credentials(NormalizeEmail(email), password))
    ensures ParseCredentials(c, Some(obj["email" := Whole(n)]), minPassword, maxPassword) == Rejected(ExpectedString("email"))
  {
    if key != "email" && key != "password" {
      assert FieldOf(obj[key := f], "email") == FieldOf(obj, "email");
      assert FieldOf(obj[key := f], "password") == FieldOf(obj, "password");
      CredentialsByFields(c, obj[key := f], obj, minPassword, maxPassword);
    }
    if c.isEmail(NormalizeEmail(email)) && minPassword <= |password| && (maxPassword.Some? ==> |password| <= maxPassword.value) {
      CredentialsReadBack(c, obj, email, password, minPassword, maxPassword);
    }
    CredentialsNumericEmail(c, obj, n, minPassword, maxPassword);
  }

  /** A client body within the bounds parses back to the normalised credentials. */
  lemma CredentialsReadBack(c: Crypto, obj: map<string, Field>, email: string, password: string, minPassword: nat, maxPassword: Option<nat>)
    requires c.isEmail(NormalizeEmail(email)) && minPassword <= |password| && (maxPassword.Some? ==> |password| <= maxPassword.value)
    ensures ParseCredentials(c, Some(obj["email" := Text(email)]["password" := Text(password)]), minPassword, maxPassword)
            == Accepted(Credentials(NormalizeEmail(email), password))
  {
    var sent := obj["email" := Text(email)]["password" := Text(password)];
    assert FieldOf(sent, "email") == Text(email) && FieldOf(sent, "password") == Text(password);
  }

  /** A number sent as the address is refused at path "email". */
  lemma CredentialsNumericEmail(c: Crypto, obj: map<string, Field>, n: int, minPassword: nat, maxPassword: Option<nat>)
    ensures ParseCredentials(c, Some(obj["email" := Whole(n)]), minPassword, maxPassword) == Rejected(ExpectedString("email"))
  {
    assert FieldOf(obj["email" := Whole(n)], "email") == Whole(n);
  }

  /** The credentials parse depends on the two fields alone. */
  lemma CredentialsByFields(c: Crypto, a: map<string, Field>, b: map<string, Field>, minPassword: nat, maxPassword: Option<nat>)
    requires FieldOf(a, "email") == FieldOf(b, "email") && FieldOf(a, "password") == FieldOf(b, "password")
    ensures ParseCredentials(c, Some(a), minPassword, maxPassword) == ParseCredentials(c, Some(b), minPassword, maxPassword)
  {
  }

  lemma ParseCodeReadsItsField(obj: map<string, Field>, key: string, f: Field, code: string, n: int)
    ensures key != "code" ==> ParseCode(Some(obj[key := f])) == ParseCode(Some(obj))
    ensures 6 <= |code| <= 8 ==> ParseCode(Some(obj["code" := Text(code)])) == Some(code)
    ensures ParseCode(Some(obj["code" := Whole(n)])).None?
  {
  }

  lemma ParseNewFolderReadsItsFields(obj: map<string, Field>, key: string, f: Field, folder: NewFolder)
    ensures key != "name" && key != "parentId" ==> ParseNewFolder(Some(obj[key := f])) == ParseNewFolder(Some(obj))
    ensures 1 <= |folder.name| <= 255 ==>
      ParseNewFolder(Some(obj["name" := Text(folder.name)]["parentId" := Encoded(folder.parentId)])) == Some(folder)
    ensures ParseNewFolder(Some(obj["parentId" := OtherValue])).None?
  {
  }

  lemma ParseMoveReadsItsFields(obj: map<string, Field>, key: string, f: Field, move: Move)
    ensures key != "fileId" && key != "folderId" ==> ParseMove(Some(obj[key := f])) == ParseMove(Some(obj))
    ensures move.fileId != "" ==>
      ParseMove(Some(obj["fileId" := Text(move.fileId)]["folderId" := Encoded(move.folderId)])) == Some(move)
    ensures ParseMove(Some(obj["folderId" := OtherValue])).None?
  {
  }

  lemma ParseDownloadReadsItsField(obj: map<string, Field>, key: string, f: Field, fileId: string)
    ensures key != "fileId" ==> ParseDownload(Some(obj[key := f])) == ParseDownload(Some(obj))
    ensures fileId != "" ==> ParseDownload(Some(obj["fileId" := Text(fileId)])) == Some(fileId)
    ensures ParseDownload(Some(obj["fileId" := OtherValue])).None?
  {
  }

  /** A size sent as a string such as "1024" is refused too. */
  lemma ParseReservationReadsItsFields(obj: map<string, Field>, key: string, f: Field, r: Reservation, size: string)
    ensures key != "filename" && key != "contentType" && key != "sizeBytes" ==>
      ParseReservation(Some(obj[key := f])) == ParseReservation(Some(obj))
    ensures 1 <= |r.filename| <= 255 && 1 <= |r.contentType| <= 255 && 0 < r.sizeBytes <= 104857600 ==>
      ParseReservation(Some(obj["filename" := Text(r.filename)]["contentType" := Text(r.contentType)]["sizeBytes" := Whole(r.sizeBytes)])) == Some(r)
    ensures ParseReservation(Some(obj["sizeBytes" := Text(size)])).None?
  {
  }
}
