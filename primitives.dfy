/**
 * The cryptographic and library primitives the server calls, as opaque functions.
 * They are fixed once at process start (the server's configuration: JWT secret,
 * storage credentials) and held by the store; nothing here looks inside them.
 */
module Primitives {
  import opened Wrappers

  /** The claims of a pre-2FA challenge token: the user, the stage marker, and the
      issue and expiry times in epoch seconds. */
  datatype ChallengeClaims = ChallengeClaims(userId: string, stage: string, iat: nat, exp: nat)

  /** What verifying a challenge token yields: whether the signature and the expiry
      check out, and the payload's `userId` and `stage` when they are strings. */
  datatype Decoded = Decoded(verified: bool, userId: Option<string>, stage: Option<string>)

  /** A presigning request to the object store: a download or an upload of one key. */
  datatype Presign =
    | PresignGet(objectKey: string, expiresIn: nat)
    | PresignPut(objectKey: string, contentType: string, expiresIn: nat)

  datatype Crypto = Crypto(
    /** SHA-256 of a session token, hex-encoded. */
    hashToken: string -> string,
    /** bcrypt with cost 12 of a password, given the random salt. */
    hashPassword: (string, string) -> string,
    /** bcrypt.compare(password, passwordHash). */
    verifyPassword: (string, string) -> bool,
    /** zod's `.email()` check. */
    isEmail: string -> bool,
    /** otplib's verify of a code against a secret at a time in milliseconds. */
    verifyTotp: (string, string, nat) -> bool,
    /** otplib's key URI for (secret, issuer, label). */
    keyUri: (string, string, string) -> string,
    /** jose HS256 signing of challenge claims with the server's secret. */
    signChallenge: ChallengeClaims -> string,
    /** jose verification of a token with the server's secret at a time in epoch
        seconds; a malformed token decodes as unverified. */
    decodeChallenge: (string, nat) -> Decoded,
    /** The S3 presigner. */
    presign: Presign -> string
  )

  /** Distinct tokens have distinct SHA-256 digests. */
  ghost predicate HashInjective(c: Crypto) {
    forall a, b :: c.hashToken(a) == c.hashToken(b) ==> a == b
  }

  /** bcrypt accepts the password a hash was made from. */
  ghost predicate BcryptSound(c: Crypto) {
    forall password, salt :: c.verifyPassword(password, c.hashPassword(password, salt))
  }

  /** jose accepts a token signed with the server's secret exactly until its expiry
      (`exp` is exclusive: at `t == exp` the token is expired) and returns its claims;
      a signed token (three dot-separated parts) is never empty. */
  ghost predicate JoseSound(c: Crypto) {
    && (forall claims, t: nat :: c.decodeChallenge(c.signChallenge(claims), t)
          == Decoded(t < claims.exp, Some(claims.userId), Some(claims.stage)))
    && (forall claims :: c.signChallenge(claims) != "")
  }
}
