/**
 * The object-key helpers of `src/lib/r2.ts`. The storage client, the presigner and
 * the object transfers are outside this model; the routes see them through the
 * store's object set and the configured presigner.
 */
module R2 {
  import opened JsString
  import opened Primitives

  /** The characters `[a-zA-Z0-9._-]` that a stored file name keeps. */
  predicate IsSafeChar(c: char) {
    'a' <= c <= 'z' || 'A' <= c <= 'Z' || '0' <= c <= '9' || c == '.' || c == '_' || c == '-'
  }

  const MaxSafeNameLength: nat := 120

  function SafeChar(c: char): char {
    if IsSafeChar(c) then c else '_'
  }

  /** `sanitizeFilename`: every unsafe code unit becomes "_" (a global regular-expression
      replace), then the first 120 code units are kept. */
  function SanitizeFilename(filename: string): (safe: string)
    ensures |safe| == if |filename| < 120 then |filename| else 120
    ensures forall i :: 0 <= i < |safe| ==> IsSafeChar(safe[i])
    ensures forall i :: 0 <= i < |safe| && IsSafeChar(filename[i]) ==> safe[i] == filename[i]
    ensures forall i :: 0 <= i < |safe| && !IsSafeChar(filename[i]) ==> safe[i] == '_'
  {
    var replaced := seq(|filename|, i requires 0 <= i < |filename| => SafeChar(filename[i]));
    if |replaced| <= MaxSafeNameLength then replaced else replaced[..MaxSafeNameLength]
  }

  /** A name that is already safe and short enough is kept as is; in particular
      sanitising twice is sanitising once. */
  lemma SanitizeKeepsSafeNames(filename: string)
    requires |filename| <= 120 && forall i :: 0 <= i < |filename| ==> IsSafeChar(filename[i])
    ensures SanitizeFilename(filename) == filename
  {
  }

  lemma SanitizeIdempotent(filename: string)
    ensures SanitizeFilename(SanitizeFilename(filename)) == SanitizeFilename(filename)
  {
    SanitizeKeepsSafeNames(SanitizeFilename(filename));
  }

  /** `buildObjectKey`, with `Date.now()` passed in as `now`: the owner's id, "/", the
      epoch milliseconds in decimal, "-", the sanitised name. */
  function BuildObjectKey(userId: string, now: nat, filename: string): (key: string)
    ensures StartsWith(key, userId + "/")
  {
    userId + "/" + Decimal(now) + "-" + SanitizeFilename(filename)
  }

  /** In `a + [sep] + b`, when `a` does not contain `sep`, its first `sep` is at `|a|`. */
  lemma FirstSeparator(a: string, b: string, sep: char)
    requires sep !in a
    ensures (a + [sep] + b)[|a|] == sep
    ensures forall i :: 0 <= i < |a| ==> (a + [sep] + b)[i] != sep
  {
  }

  /** Splitting `a + [sep] + b` at the first `sep`, when `a` does not contain it. */
  lemma SplitAtSeparator(a: string, b: string, a': string, b': string, sep: char)
    requires sep !in a && sep !in a'
    requires a + [sep] + b == a' + [sep] + b'
    ensures a == a' && b == b'
  {
    var k := a + [sep] + b;
    FirstSeparator(a, b, sep);
    FirstSeparator(a', b', sep);
    assert |a| == |a'|;
    assert a == k[..|a|] == a';
    assert b == k[|a| + 1..] == b';
  }

  /** An object key split at its two separators. */
  lemma KeyParts(userId: string, now: nat, filename: string)
    ensures '-' !in Decimal(now)
    ensures BuildObjectKey(userId, now, filename)
         == userId + ['/'] + (Decimal(now) + ['-'] + SanitizeFilename(filename))
  {
    var d := Decimal(now);
    assert forall i :: 0 <= i < |d| ==> d[i] != '-';
  }

  /** Keys of different owners never collide, as long as ids contain no "/"; one owner's
      keys collide only for the same millisecond and the same sanitised name. */
  lemma ObjectKeysSeparate(userId: string, now: nat, filename: string, userId': string, now': nat, filename': string)
    requires '/' !in userId && '/' !in userId'
    requires BuildObjectKey(userId, now, filename) == BuildObjectKey(userId', now', filename')
    ensures userId == userId' && now == now' && SanitizeFilename(filename) == SanitizeFilename(filename')
  {
    KeyParts(userId, now, filename);
    KeyParts(userId', now', filename');
    var rest, rest' := Decimal(now) + ['-'] + SanitizeFilename(filename), Decimal(now') + ['-'] + SanitizeFilename(filename');
    SplitAtSeparator(userId, rest, userId', rest', '/');
    SplitAtSeparator(Decimal(now), SanitizeFilename(filename), Decimal(now'), SanitizeFilename(filename'), '-');
    DecimalInjective(now, now');
  }

  /** Lifetime of every presigned URL, in seconds. */
  const SignedUrlSeconds: nat := 120

  /** `createSignedUploadUrl`: a PUT of `objectKey` with `contentType`. */
  function CreateSignedUploadUrl(c: Crypto, objectKey: string, contentType: string): string {
    c.presign(PresignPut(objectKey, contentType, SignedUrlSeconds))
  }

  /** `createSignedDownloadUrl`: a GET of `objectKey`. */
  function CreateSignedDownloadUrl(c: Crypto, objectKey: string): string {
    c.presign(PresignGet(objectKey, SignedUrlSeconds))
  }
}
