/**
 * The session manager and the pre-2FA challenge manager of `src/lib/auth.ts`.
 *
 * Sessions are bearer tokens of 32 random bytes in hex; the store keeps only the
 * SHA-256 of a token, with the owner and an absolute expiry seven days after creation.
 * Resolving a token deletes its session lazily once expired and otherwise records the
 * time it was last seen. A pre-2FA challenge is a signed, self-contained token with
 * the stage marker "pre2fa" and a five-minute expiry; nothing is stored for it.
 */
module Auth {
  import opened Wrappers
  import opened Primitives
  import opened Store

  type Byte = x: int | 0 <= x < 256

  const SessionTtlDays := 7
  /** The session lifetime in milliseconds: 604800000. */
  const SessionTtlMs := SessionTtlDays * 24 * 60 * 60 * 1000

  predicate IsLowerHex(c: char) {
    '0' <= c <= '9' || 'a' <= c <= 'f'
  }

  function HexDigit(n: nat): (c: char)
    requires n < 16
    ensures IsLowerHex(c)
  {
    if n < 10 then (n + '0' as int) as char else (n - 10 + 'a' as int) as char
  }

  /** `Buffer.toString("hex")`: two lower-case hex digits per byte, high nibble first. */
  function HexEncode(bytes: seq<Byte>): (hex: string)
    ensures |hex| == 2 * |bytes|
    ensures forall i :: 0 <= i < |hex| ==> IsLowerHex(hex[i])
  {
    if bytes == [] then [] else [HexDigit(bytes[0] / 16), HexDigit(bytes[0] % 16)] + HexEncode(bytes[1..])
  }

  /** Distinct random draws give distinct session tokens. */
  lemma {:induction false} HexEncodeInjective(a: seq<Byte>, b: seq<Byte>)
    requires HexEncode(a) == HexEncode(b)
    ensures a == b
    decreases |a|
  {
    if a != [] {
      var ha, hb := HexEncode(a), HexEncode(b);
      assert ha[0] == hb[0] && ha[1] == hb[1];
      assert a[0] / 16 == b[0] / 16 && a[0] % 16 == b[0] % 16;
      assert ha[2..] == HexEncode(a[1..]) && hb[2..] == HexEncode(b[1..]);
      HexEncodeInjective(a[1..], b[1..]);
    }
  }

  /** A session token as `randomBytes(32).toString("hex")` produces it. */
  lemma SessionTokenShape(random: seq<Byte>)
    requires |random| == 32
    ensures |HexEncode(random)| == 64
    ensures forall i :: 0 <= i < 64 ==> IsLowerHex(HexEncode(random)[i])
  {
  }

  /** The record `createSession` stores for a session created at `now`. */
  function NewSession(userId: string, now: Millis): Session {
    Session(userId, now + SessionTtlMs, now)
  }

  /** The expiry test of `getUserFromSessionToken`: strictly past `expiresAt`. */
  predicate IsExpired(s: Session, now: Millis) {
    s.expiresAt < now
  }

  /** The user a token resolves to, and the session table afterwards. */
  datatype Resolution = Resolution(userId: Option<string>, sessions: map<string, Session>)

  /** `getUserFromSessionToken` on the session table, for the hash of the token. */
  function Resolve(sessions: map<string, Session>, tokenHash: string, now: Millis): Resolution {
    if tokenHash !in sessions then
      Resolution(None, sessions)
    else if IsExpired(sessions[tokenHash], now) then
      Resolution(None, sessions - {tokenHash})
    else
      Resolution(Some(sessions[tokenHash].userId), sessions[tokenHash := sessions[tokenHash].(lastSeenAt := now)])
  }

  /** `invalidateSession`: `deleteMany` of the sessions with that hash. */
  function Invalidate(sessions: map<string, Session>, tokenHash: string): map<string, Session> {
    sessions - {tokenHash}
  }

  /** A fresh session resolves to its user at every instant up to and including its
      expiry, which is `SessionTtlMs` after creation; one millisecond later it is gone. */
  lemma FreshSessionResolves(sessions: map<string, Session>, tokenHash: string, userId: string, createdAt: Millis, now: Millis)
    ensures var r := Resolve(sessions[tokenHash := NewSession(userId, createdAt)], tokenHash, now);
      && (now <= createdAt + 604800000 ==> r.userId == Some(userId))
      && (now > createdAt + 604800000 ==> r.userId == None && tokenHash !in r.sessions)
  {
  }

  /** A token whose hash is unknown resolves to nobody and changes nothing. */
  lemma ResolveUnknown(sessions: map<string, Session>, tokenHash: string, now: Millis)
    requires tokenHash !in sessions
    ensures Resolve(sessions, tokenHash, now) == Resolution(None, sessions)
  {
  }

  /** An expired session is deleted, and only it; resolving the token again, at any
      time, still yields nobody and changes nothing more. */
  lemma ResolveExpired(sessions: map<string, Session>, tokenHash: string, now: Millis, later: Millis)
    requires tokenHash in sessions && IsExpired(sessions[tokenHash], now)
    ensures var r := Resolve(sessions, tokenHash, now);
      && r.userId == None
      && r.sessions.Keys == sessions.Keys - {tokenHash}
      && (forall h :: h in r.sessions ==> r.sessions[h] == sessions[h])
      && Resolve(r.sessions, tokenHash, later) == Resolution(None, r.sessions)
  {
  }

  /** A live session yields its user; only its `lastSeenAt` changes, to `now`. */
  lemma ResolveLive(sessions: map<string, Session>, tokenHash: string, now: Millis)
    requires tokenHash in sessions && !IsExpired(sessions[tokenHash], now)
    ensures var r := Resolve(sessions, tokenHash, now);
      && r.userId == Some(sessions[tokenHash].userId)
      && r.sessions.Keys == sessions.Keys
      && r.sessions[tokenHash] == sessions[tokenHash].(lastSeenAt := now)
      && (forall h :: h in sessions && h != tokenHash ==> r.sessions[h] == sessions[h])
  {
  }

  /** Resolution never extends a session: expiry is absolute, not sliding, and a token
      is honoured only up to its session's expiry. */
  lemma ResolveKeepsExpiry(sessions: map<string, Session>, tokenHash: string, now: Millis)
    ensures var r := Resolve(sessions, tokenHash, now);
      && r.sessions.Keys <= sessions.Keys
      && (forall h :: h in r.sessions ==>
            r.sessions[h].expiresAt == sessions[h].expiresAt && r.sessions[h].userId == sessions[h].userId)
      && (r.userId.Some? ==> tokenHash in sessions && now <= sessions[tokenHash].expiresAt)
  {
  }

  /** Invalidation removes the sessions with that hash and nothing else; repeating it
      changes nothing, and the token no longer resolves. */
  lemma InvalidateProperties(sessions: map<string, Session>, tokenHash: string, now: Millis)
    ensures Invalidate(sessions, tokenHash).Keys == sessions.Keys - {tokenHash}
    ensures forall h :: h in Invalidate(sessions, tokenHash) ==> Invalidate(sessions, tokenHash)[h] == sessions[h]
    ensures Invalidate(Invalidate(sessions, tokenHash), tokenHash) == Invalidate(sessions, tokenHash)
    ensures Resolve(Invalidate(sessions, tokenHash), tokenHash, now).userId == None
  {
  }

  /** `createSession`: stores one new session under the hash of a fresh token and
      returns the raw token. */
  method CreateSession(db: Database, userId: string, random: seq<Byte>, now: Millis) returns (token: string)
    requires db.Valid() && userId in db.users
    requires |random| == 32
    requires db.crypto.hashToken(HexEncode(random)) !in db.sessions
    modifies db
    ensures db.Valid()
    ensures token == HexEncode(random)
    ensures db.State() == old(db.State()).(sessions := old(db.sessions)[db.crypto.hashToken(token) := NewSession(userId, now)])
  {
    token := HexEncode(random);
    var tokenHash := db.crypto.hashToken(token);
    var expiresAt := now + SessionTtlDays * 24 * 60 * 60 * 1000;
    db.sessions := db.sessions[tokenHash := Session(userId, expiresAt, now)];
  }

  /** `invalidateSession`. */
  method InvalidateSession(db: Database, token: string)
    requires db.Valid()
    modifies db
    ensures db.Valid()
    ensures db.State() == old(db.State()).(sessions := Invalidate(old(db.sessions), db.crypto.hashToken(token)))
  {
    var tokenHash := db.crypto.hashToken(token);
    db.sessions := db.sessions - {tokenHash};
  }

  /** `getUserFromSessionToken`: the id of the token's user, with the session table
      updated as `Resolve` says and nothing else changed. */
  method GetUserFromSessionToken(db: Database, token: string, now: Millis) returns (userId: Option<string>)
    requires db.Valid()
    modifies db
    ensures db.Valid()
    ensures Resolution(userId, db.sessions) == Resolve(old(db.sessions), db.crypto.hashToken(token), now)
    ensures db.State() == old(db.State()).(sessions := db.sessions)
    ensures userId.Some? ==> userId.value in db.users
  {
    var tokenHash := db.crypto.hashToken(token);
    if tokenHash !in db.sessions {
      return None;
    }
    var session := db.sessions[tokenHash];
    if session.expiresAt < now {
      db.sessions := db.sessions - {tokenHash};
      return None;
    }
    db.sessions := db.sessions[tokenHash := session.(lastSeenAt := now)];
    userId := Some(session.userId);
  }

  const ChallengeStage := "pre2fa"
  const ChallengeTtlSeconds := 300

  /** The claims `createPre2FAChallenge` signs at `now`: issued at the current epoch
      second, expiring five minutes later. */
  function ChallengeClaimsFor(userId: string, now: Millis): (claims: ChallengeClaims)
    ensures claims.userId == userId && claims.stage == "pre2fa"
    ensures claims.exp == claims.iat + 300 && claims.iat * 1000 <= now < claims.iat * 1000 + 1000
  {
    var iat := now / 1000;
    ChallengeClaims(userId, ChallengeStage, iat, iat + ChallengeTtlSeconds)
  }

  /** `createPre2FAChallenge`. */
  function CreatePre2FAChallenge(c: Crypto, userId: string, now: Millis): string {
    c.signChallenge(ChallengeClaimsFor(userId, now))
  }

  /** The claim check of `verifyPre2FAChallenge`: a user id only for a verified token
      with stage "pre2fa" and a non-empty user id. */
  function ClaimedUserId(d: Decoded): (r: Option<string>)
    ensures r.Some? <==> d.verified && d.stage == Some("pre2fa") && d.userId.Some? && d.userId.value != ""
    ensures r.Some? ==> r == d.userId
  {
    if !d.verified then None
    else if d.stage != Some(ChallengeStage) || d.userId.None? || d.userId.value == "" then None
    else d.userId
  }

  /** `verifyPre2FAChallenge`: never fails, yields a user id or nothing. */
  function VerifyPre2FAChallenge(c: Crypto, token: string, now: Millis): Option<string> {
    ClaimedUserId(c.decodeChallenge(token, now / 1000))
  }

  /** Under sound signing, the claim check refuses a genuinely signed token whose stage
      is not "pre2fa" or whose user id is empty, at every time. */
  lemma ChallengeClaimsChecked(c: Crypto, claims: ChallengeClaims, now: Millis)
    requires JoseSound(c)
    requires claims.stage != "pre2fa" || claims.userId == ""
    ensures VerifyPre2FAChallenge(c, c.signChallenge(claims), now) == None
  {
    assert c.decodeChallenge(c.signChallenge(claims), now / 1000)
        == Decoded(now / 1000 < claims.exp, Some(claims.userId), Some(claims.stage));
  }

  /** A challenge the server issued, consumed at `now`, yields its user for as long as
      the current epoch second is before its expiry second and nothing afterwards. */
  lemma ChallengeRoundTrip(c: Crypto, userId: string, issuedAt: Millis, now: Millis)
    requires JoseSound(c) && userId != ""
    ensures VerifyPre2FAChallenge(c, CreatePre2FAChallenge(c, userId, issuedAt), now)
         == if now / 1000 < issuedAt / 1000 + 300 then Some(userId) else None
  {
    var claims := ChallengeClaimsFor(userId, issuedAt);
    assert c.decodeChallenge(c.signChallenge(claims), now / 1000)
        == Decoded(now / 1000 < claims.exp, Some(userId), Some("pre2fa"));
  }

  /** In milliseconds: a challenge is accepted for at least 299 seconds after issue and
      rejected from 300 seconds on. */
  lemma ChallengeLifetime(c: Crypto, userId: string, issuedAt: Millis, now: Millis)
    requires JoseSound(c) && userId != ""
    ensures now <= issuedAt + 299000 ==> VerifyPre2FAChallenge(c, CreatePre2FAChallenge(c, userId, issuedAt), now) == Some(userId)
    ensures now >= issuedAt + 300000 ==> VerifyPre2FAChallenge(c, CreatePre2FAChallenge(c, userId, issuedAt), now) == None
  {
    ChallengeRoundTrip(c, userId, issuedAt, now);
  }
}
