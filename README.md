# BlackNode vault: authentication and authorization model

BlackNode is a file vault built with Next.js. Its server side has two parts.

- Account routes: register, log in, log out, and a two-step login with time-based one-time codes (TOTP). The two steps are enrollment (setup, then enable) and verification of a short-lived pre-2FA challenge cookie.
- Vault routes: create and list folders, upload files through the server, reserve uploads for direct transfer, move files, sign download URLs, and list files.

Each route starts with the same session guard. A session is a row keyed by the SHA-256 hash of a random token. It expires lazily after seven days and is touched on every use.

This project models that server as one in-memory store. The store is `Store.Database`, a class whose map fields the handlers update in place. Each handler has two parts:

- A specification function on store snapshots. An example is `LoginRoute.Login(c, s, body, random, now)`, which yields the response and the store afterwards.
- A method on the `Database` that implements the handler step by step. The method is proved to yield the function's outcome.

Both route properties and cross-route properties are lemmas on the specification functions. A response is a status, a body and one action on each of the two cookies: keep, set with a lifetime, or delete.

The model also covers these pure parts:

- The object-key helpers of the storage module.
- The `/vault` gate of the middleware.
- The vault page's list logic: search filter, folders-first sort, total size, icon and preview rules, and the breadcrumb and preview navigation state.

Cryptography and library internals are fields of a `Primitives.Crypto` value:

- SHA-256;
- bcrypt;
- the e-mail check of the validator;
- TOTP;
- the otpauth URI builder;
- JWT signing and verification;
- the S3 presigner.

The few facts the model relies on about them are stated as explicit predicates (`HashInjective`, `BcryptSound`, `JoseSound`). A lemma needs one only when its statement requires it.

These values are parameters of the operations that use them: the clock (`now`, in epoch milliseconds), random bytes, generated ids and secrets, and bcrypt salts. Uniqueness of random tokens and generated ids is a precondition of every handler method that inserts a row.

## Model

| member | source | states |
|---|---|---|
| Auth.HexEncode | src/lib/auth.ts:29 | a hex token has two lower-case hex digits per byte |
| Auth.HexEncodeInjective | src/lib/auth.ts:29 | distinct random byte strings give distinct tokens (proved digit by digit) |
| Auth.SessionTokenShape | src/lib/auth.ts:29 | a session token from 32 random bytes is 64 lower-case hex characters |
| Auth.FreshSessionResolves | src/lib/auth.ts:28-71 | a session made at time t resolves to its user at every instant up to t + 604800000 ms inclusive (the expiry test is strict), and is gone after that |
| Auth.ResolveUnknown | src/lib/auth.ts:50-58 | a token whose hash is absent resolves to nobody and changes nothing |
| Auth.ResolveExpired | src/lib/auth.ts:60-63 | an expired session is deleted, it alone; resolving again at any time yields nobody and changes nothing more |
| Auth.ResolveLive | src/lib/auth.ts:65-70 | a live session yields its user, and only its lastSeenAt changes, to now |
| Auth.ResolveKeepsExpiry | src/lib/auth.ts:49-71 | resolution never extends or reassigns a session; a token is honoured only until its session's expiry |
| Auth.InvalidateProperties | src/lib/auth.ts:44-47 | invalidation removes the sessions with that hash and nothing else; repeating it is a no-op; the token no longer resolves |
| Auth.CreateSession | src/lib/auth.ts:28-42 | stores exactly one session under the hash of the returned token, for the user, expiring 7 days after now; nothing else changes |
| Auth.InvalidateSession | src/lib/auth.ts:44-47 | the session table becomes the invalidated table; nothing else changes |
| Auth.GetUserFromSessionToken | src/lib/auth.ts:49-71 | returns the user and the session table that resolving the token's hash yields; the user exists; nothing else changes |
| Auth.ChallengeClaimsFor | src/lib/auth.ts:77-83 | the challenge claims carry the user, stage "pre2fa", issue second now/1000 and expiry 300 seconds later |
| Auth.ChallengeClaimsChecked | src/lib/auth.ts:85-96 | under sound signing, a genuinely signed token whose stage is not "pre2fa" or whose user id is empty yields no user at any time |
| Auth.ChallengeRoundTrip | src/lib/auth.ts:77-96 | a challenge issued for a non-empty user id yields that id while the epoch second is before expiry, and nothing afterwards |
| Auth.ChallengeLifetime | src/lib/auth.ts:81-87 | a challenge is accepted for at least 299 s after issue and rejected from 300 s on |
| SessionGuard.Guard | src/app/api/vault/folders/route.ts:16-26 | access is granted iff the cookie is non-empty and names a live session, as its user; no cookie: 401 with no cookie change and no store change; otherwise 401 with the session cookie deleted |
| SessionGuard.GuardKeepsValid | src/app/api/vault/folders/route.ts:16-26 | the guard keeps the store invariant, touches only sessions, and grants only existing users |
| SessionGuard.NewSessionGranted | src/lib/auth.ts:28-71 | a session stored for a non-empty token lets that token through the guard, as its user, until the session expires |
| SessionGuard.RequireSession | src/app/api/vault/folders/route.ts:16-26 | the guard as a method on the store: its outcome is `Guard`'s and only the session table changes |
| Schema.ParseCredentials | src/app/api/auth/login/route.ts:12-15 | email is trimmed and lower-cased before the e-mail check; accepted iff both fields parse within the bounds; an e-mail issue is reported before a password issue |
| Schema.ParseCredentialsReadsItsFields | src/app/api/auth/login/route.ts:12-15 | only `email` and `password` are read; a client body within the bounds parses back to the trimmed, lower-cased address and the password; a numeric address is refused with an issue at "email" |
| Schema.NormalizeEmailIdempotent | src/app/api/auth/register/route.ts:8 | normalising an address twice is normalising it once |
| Schema.NormalizeEmailCollides | src/app/api/auth/register/route.ts:8 | two addresses that differ only in the case of ASCII letters normalise to the same address |
| Schema.ParseCodeReadsItsField | src/app/api/auth/2fa/verify/route.ts:12-14 | the code schema reads only `code`: other keys never change the parse; a 6..8-unit string code parses back to itself; a numeric code is refused |
| Schema.ParseNewFolderReadsItsFields | src/app/api/vault/folders/route.ts:8-11 | only `name` and `parentId` are read; a client body for a folder with a 1..255-unit name (parent omitted when absent) parses back to that folder; a non-string parentId is refused |
| Schema.ParseMoveReadsItsFields | src/app/api/vault/files/move/route.ts:8-11 | only `fileId` and `folderId` are read; a client body for a move with a non-empty fileId parses back to that move; a non-string folderId (such as null) is refused |
| Schema.ParseDownloadReadsItsField | src/app/api/vault/sign-download/route.ts:9-11 | only `fileId` is read; a non-empty fileId parses back to itself; a non-string fileId is refused |
| Schema.ParseReservationReadsItsFields | src/app/api/vault/sign-upload/route.ts:9-13 | only `filename`, `contentType` and `sizeBytes` are read; a client body for a reservation within the bounds parses back to it; a size sent as a string is refused |
| LoginRoute.Post | src/app/api/auth/login/route.ts:19-67 | the login handler's response and new store are those of `Login` |
| LoginRoute.MalformedBodyChangesNothing | src/app/api/auth/login/route.ts:20-28 | a rejected body gives 400 with the first issue, no cookie change and no store change |
| LoginRoute.LooksUpNormalizedEmail | src/app/api/auth/login/route.ts:12-31 | a successful login found the user by the trimmed, lower-cased address |
| LoginRoute.FailuresLookAlike | src/app/api/auth/login/route.ts:33-40 | an unknown address and a wrong password give the same 401 "Invalid credentials" and change nothing |
| LoginRoute.PasswordCheckedFirst | src/app/api/auth/login/route.ts:37-56 | whenever a cookie is set, the password matched the stored hash of the user found |
| LoginRoute.TwoFactorUserGetsChallenge | src/app/api/auth/login/route.ts:42-54 | with 2FA enabled: body requires2FA, challenge cookie set for 300 s, session cookie deleted, store unchanged |
| LoginRoute.ChallengeNamesUser | src/app/api/auth/login/route.ts:42-51 | the challenge cookie verifies as the logged-in user for the next 299 s |
| LoginRoute.PlainUserGetsSession | src/app/api/auth/login/route.ts:56-66 | without 2FA: exactly one new session, cookie set for 604800 s, other sessions unchanged, pre-2FA cookie deleted |
| LoginRoute.PlainSessionAccepted | src/app/api/auth/login/route.ts:56-66 | the cookie's token is accepted by the guard as the signed-in user until the session expires |
| RegisterRoute.Post | src/app/api/auth/register/route.ts:14-40 | the registration handler's outcome is that of `Register` |
| RegisterRoute.PasswordBounds | src/app/api/auth/register/route.ts:9-23 | a password outside 10..128 code units gives 400 and no user |
| RegisterRoute.ExistingAddressConflicts | src/app/api/auth/register/route.ts:25-29 | an address taken once normalised gives 409 and nothing changes |
| RegisterRoute.RegistrationAddsOneUser | src/app/api/auth/register/route.ts:31-39 | exactly one user is added, with the normalised address, the bcrypt hash (not the password) and 2FA off; no session, no cookie |
| RegisterRoute.RegisteredUserFound | src/app/api/auth/register/route.ts:31-37 | after a registration, the lookup by the normalised address finds the new user, who carries the bcrypt hash of the password |
| RegisterRoute.SecondRegistrationConflicts | src/app/api/auth/register/route.ts:25-37 | after a registration, any spelling of the same normalised address conflicts |
| LogoutRoute.Post | src/app/api/auth/logout/route.ts:8-17 | the logout handler's outcome is that of `Logout` |
| LogoutRoute.LogoutEffect | src/app/api/auth/logout/route.ts:8-17 | always ok with both cookies deleted; with a cookie only that token's session goes; without one nothing changes |
| LogoutRoute.LogoutIdempotent | src/app/api/auth/logout/route.ts:8-17 | a second logout with the same cookie gives the same response and changes nothing |
| LogoutRoute.LogoutEndsSession | src/app/api/auth/logout/route.ts:9-12 | after logout the token is refused by the guard at any time |
| TwoFactorVerifyRoute.Post | src/app/api/auth/2fa/verify/route.ts:18-63 | the verification handler's outcome is that of `Verify` |
| TwoFactorVerifyRoute.CodeCheckedFirst | src/app/api/auth/2fa/verify/route.ts:19-23 | a malformed code gives 400 whatever the challenge cookie |
| TwoFactorVerifyRoute.RefusalsChangeNothing | src/app/api/auth/2fa/verify/route.ts:25-49 | refusals change nothing; only an unverifiable challenge deletes the pre-2FA cookie, so other failures allow a retry |
| TwoFactorVerifyRoute.SuccessNeedsCommittedSecret | src/app/api/auth/2fa/verify/route.ts:37-49 | success needs a verified challenge naming a user with 2FA enabled and a committed secret that accepts the code |
| TwoFactorVerifyRoute.IgnoresPendingSecret | src/app/api/auth/2fa/verify/route.ts:42-45 | the pending secret never influences the response or the sessions |
| TwoFactorVerifyRoute.SuccessCreatesSession | src/app/api/auth/2fa/verify/route.ts:51-62 | success adds exactly one session for the challenge's user, sets the session cookie for 604800 s and deletes the pre-2FA cookie |
| TwoFactorSetupRoute.Post | src/app/api/auth/2fa/setup/route.ts:10-41 | the setup handler's outcome is that of `Setup` |
| TwoFactorSetupRoute.SetupGuarded | src/app/api/auth/2fa/setup/route.ts:11-21 | without a valid session the guard's 401 is the answer and only sessions may change |
| TwoFactorSetupRoute.SetupStoresPendingSecret | src/app/api/auth/2fa/setup/route.ts:23-40 | only the caller's pending secret changes, to the secret returned; the URI uses issuer "BlackNodeVault" and the caller's address |
| TwoFactorSetupRoute.SetupTwice | src/app/api/auth/2fa/setup/route.ts:30-35 | two setups leave only the second secret pending |
| TwoFactorEnableRoute.Post | src/app/api/auth/2fa/enable/route.ts:15-57 | the enable handler's outcome is that of `Enable` |
| TwoFactorEnableRoute.EnableGuarded | src/app/api/auth/2fa/enable/route.ts:16-26 | without a valid session the guard's 401 is the answer and only sessions may change |
| TwoFactorEnableRoute.RefusalsKeepUser | src/app/api/auth/2fa/enable/route.ts:28-45 | a malformed code gives 400 before the pending check; no pending secret gives 400; a rejected code gives 401; users are unchanged |
| TwoFactorEnableRoute.EnableCommitsPendingSecret | src/app/api/auth/2fa/enable/route.ts:47-56 | success sets enabled, commits the pending secret and clears it, in one update of the caller only |
| FoldersRoute.Post | src/app/api/vault/folders/route.ts:15-75 | the creation handler's outcome is that of `CreateFolder` |
| FoldersRoute.CreateFolderGuarded | src/app/api/vault/folders/route.ts:16-26 | without a valid session the guard's 401 is the answer and only sessions may change |
| FoldersRoute.RefusalsCreateNothing | src/app/api/vault/folders/route.ts:28-67 | 400 for a bad body, 404 for a non-empty parent the caller does not own, 409 for a taken name in that location; no folder is created |
| FoldersRoute.CreateFolderAddsOne | src/app/api/vault/folders/route.ts:50-59 | exactly one folder is added, owned by the caller, at the root when the parent is absent or empty; the invariant holds |
| FoldersRoute.Get | src/app/api/vault/folders/route.ts:77-103 | after the guard, exactly the caller's folders under the queried parent (root when absent or empty), once each, by name |
| UploadRoute.Post | src/app/api/vault/upload/route.ts:12-84 | the upload handler's outcome is that of `Upload` |
| UploadRoute.UploadGuarded | src/app/api/vault/upload/route.ts:13-23 | without a valid session the guard's 401 is the answer and only sessions may change |
| UploadRoute.RefusalsWriteNothing | src/app/api/vault/upload/route.ts:29-56 | 400 iff the file entry is missing, not a file, empty or over 25 MiB; 404 only for an unowned non-empty text folder; no record on any refusal |
| UploadRoute.UploadWritesObjectThenRecord | src/app/api/vault/upload/route.ts:58-80 | success writes the object under a key starting with the caller's id and "/", and adds one record with caller, folder, key, name, type (default application/octet-stream) and size |
| UploadRoute.RefusedRecordLeavesObject | src/app/api/vault/upload/route.ts:61-83 | a refused record after a stored object answers 500 and leaves the object in storage |
| UploadRoute.TextFolderIdKeepsFilesPlaced | src/app/api/vault/upload/route.ts:45-56 | with a text folder id, every file stays in one of its owner's folders |
| UploadRoute.FileValuedFolderIdSkipsCheck | src/app/api/vault/upload/route.ts:45-68 | a folder id sent as a file part skips the ownership check and is stored as "[object File]" |
| MoveRoute.Patch | src/app/api/vault/files/move/route.ts:15-76 | the handler implements the corrected move of the Findings row: its outcome is that of `MoveFile`, which answers 200 with the record rendered; the code as written, which answers 500 after committing the move, is `MoveFileAsWritten` |
| MoveRoute.MoveGuarded | src/app/api/vault/files/move/route.ts:16-26 | without a valid session the guard's 401 is the answer and only sessions may change |
| MoveRoute.MoveRefusals | src/app/api/vault/files/move/route.ts:28-60 | 400 for a bad body; 404 "File not found" iff the file is not the caller's; then 404 "Folder not found" for an unowned non-empty target; refusals change nothing |
| MoveRoute.MoveChangesOnlyFolder | src/app/api/vault/files/move/route.ts:62-66 | success changes only that file's folder, to the target or the root; invariant and placement are kept |
| MoveRoute.MoveAsWrittenReportsFailure | src/app/api/vault/files/move/route.ts:62-75 | as written, every allowed move answers 500 although the update was committed |
| MoveRoute.SerializableFileJsonRenders | src/app/api/vault/files/route.ts:40-43 | the record with its size as a decimal string renders, and the size reads back |
| SignDownloadRoute.Post | src/app/api/vault/sign-download/route.ts:15-50 | the handler's outcome is that of `SignDownload` |
| SignDownloadRoute.SignDownloadGuarded | src/app/api/vault/sign-download/route.ts:16-26 | without a valid session the guard's 401 is the answer and only sessions may change |
| SignDownloadRoute.SignsOnlyOwnFiles | src/app/api/vault/sign-download/route.ts:28-49 | the same 404 for a missing and another user's file; 200 iff the file is the caller's, with a GET URL for its own key valid 120 s; no record changes |
| SignUploadRoute.Post | src/app/api/vault/sign-upload/route.ts:17-60 | the handler's outcome is that of `SignUpload` |
| SignUploadRoute.SignUploadGuarded | src/app/api/vault/sign-upload/route.ts:18-28 | without a valid session the guard's 401 is the answer and only sessions may change |
| SignUploadRoute.MalformedReservationReservesNothing | src/app/api/vault/sign-upload/route.ts:30-34 | a rejected body gives 400 and creates nothing |
| SignUploadRoute.ReservationCreatesOneRecord | src/app/api/vault/sign-upload/route.ts:36-59 | one record at the root for the caller with the declared name, type and size; no object yet; the URL signs a PUT of the returned key, which starts with the caller's id and "/" |
| SignUploadRoute.SignUploadKeepsInvariants | src/app/api/vault/sign-upload/route.ts:36-59 | every outcome keeps the store invariant, and the root-level reservation keeps every file in one of its owner's folders |
| FilesRoute.ListedFile | src/app/api/vault/files/route.ts:26-43 | a listed item carries no owner and no key, and its size string reads back as the stored size |
| FilesRoute.Get | src/app/api/vault/files/route.ts:9-46 | after the guard, exactly the caller's files in the queried folder (root when absent or empty), once each, newest first |
| Store.FindFolders | src/app/api/vault/folders/route.ts:90-100 | the result is each matching folder exactly once, nothing else, in name order |
| Store.FindFiles | src/app/api/vault/files/route.ts:24-38 | the result is each matching file exactly once, nothing else, newest first |
| Store.AddFolderKeepsValid | src/app/api/vault/folders/route.ts:50-67 | a folder with an existing owner, an owned parent and a free slot keeps the store invariant |
| Store.AddUserKeepsValid | src/app/api/auth/register/route.ts:25-37 | a user with a new id, a free address and 2FA off keeps the store invariant |
| Store.UserIdByEmailFinds | src/app/api/auth/login/route.ts:31 | under unique addresses, the lookup by a user's address finds that user |
| R2.SanitizeFilename | src/lib/r2.ts:15-17 | length min(n, 120); every character in [A-Za-z0-9._-]; safe characters keep their place, others become "_" |
| R2.SanitizeKeepsSafeNames | src/lib/r2.ts:15-17 | a safe name of at most 120 code units is kept as is |
| R2.SanitizeIdempotent | src/lib/r2.ts:15-17 | sanitising twice is sanitising once |
| R2.BuildObjectKey | src/lib/r2.ts:19-22 | every key lies under its owner's prefix: it starts with the user id and "/" |
| R2.ObjectKeysSeparate | src/lib/r2.ts:19-22 | for ids without "/", equal keys mean the same owner, the same millisecond and the same sanitised name |
| VaultGate.Middleware | src/middleware.ts:6-19 | with the matcher `/vault/:path*`: redirect to "/" iff the path is "/vault" or lies under "/vault/" and the cookie is missing or empty; every other path passes |
| VaultGate.MatcherNarrowsPrefix | src/middleware.ts:7-19 | on matched paths the handler's prefix test always holds; "/vaultx" passes without a cookie although the handler alone would redirect it |
| VaultGate.TokenContentIgnored | src/middleware.ts:8-14 | any two non-empty tokens pass alike |
| VaultGate.GateWeakerThanGuard | src/middleware.ts:6-15 | every cookie the guard grants passes the gate, and a cookie with no session passes the gate while the guard refuses it |
| VaultView.FilterKeepsMatches | src/app/vault/page.tsx:336-345 | an item is kept iff it matches (folder by name, file by name or type, lower-cased); nothing is added; each matching item is kept exactly as often as it occurs |
| VaultView.EmptyQueryKeepsAll | src/app/vault/page.tsx:336-345 | an empty query keeps every item, in order |
| VaultView.SortPermutes | src/app/vault/page.tsx:346-370 | the sort returns a permutation of its input |
| VaultView.SortPutsFoldersFirst | src/app/vault/page.tsx:346-348 | after sorting, every folder precedes every file, for every field and all locale orderings |
| VaultView.SortDescendsByKey | src/app/vault/page.tsx:355-368 | by size or by date with readable values, larger or newer items come first within each kind |
| VaultView.FilteredItemsProperties | src/app/vault/page.tsx:331-370 | the shown list holds each matching item exactly as often as it is listed and no other item, with folders first |
| VaultView.FilteredItemsBySize | src/app/vault/page.tsx:346-357 | sorted by size with every size readable, larger files come first |
| VaultView.TotalSize | src/app/vault/page.tsx:372 | the total is NaN iff some size does not parse |
| VaultView.TotalOfParsed | src/app/vault/page.tsx:372 | when every size parses, the total is the sum of the parsed sizes |
| VaultView.TotalOfListing | src/app/vault/page.tsx:372 | for sizes rendered as decimals, the total is their sum |
| VaultView.PreviewMatchesIcon | src/app/vault/page.tsx:318-378 | image, video and PDF icons are previewable; any other previewable type is an audio type containing "pdf"; archive and generic never |
| VaultView.PreviewIndex | src/app/vault/page.tsx:279-281 | the first position of a file item with that id, or -1 iff there is none |
| VaultView.PreviewStepsToNeighbour | src/app/vault/page.tsx:277-289 | from a shown file, a step lands exactly on the neighbour in that direction when it is a file |
| VaultView.HiddenPreviewStepsToFirst | src/app/vault/page.tsx:279-286 | a preview no longer shown counts as index -1: stepping forward opens the first item if it is a file |
| VaultView.VaultPage.constructor | src/app/vault/page.tsx:43-46 | the trail starts as the single ROOT crumb, at the root |
| VaultView.VaultPage.OpenFolder | src/app/vault/page.tsx:380-383 | one crumb is appended and its folder becomes the current one |
| VaultView.VaultPage.NavigateToBreadcrumb | src/app/vault/page.tsx:385-389 | crumbs 0..index are kept and crumb index's folder becomes current; index 0 returns to the root |
| VaultView.VaultPage.NavigatePreview | src/app/vault/page.tsx:236-289 | the preview moves only to an in-range file item next to the previewed one, with the signed URL; a refusal shows its error message (or "PREVIEW_FAILED"); a request that rejects (failed fetch, non-JSON body) changes nothing |
| Scenarios.RegisteredUserSignsIn | src/app/api/auth/register/route.ts:31-37 | after registering, the same body logs in and opens a session for the new user |
| Scenarios.EnrolledLoginTakesTwoSteps | src/app/api/auth/2fa/enable/route.ts:47-54 | after enable, the password yields only a challenge; within 299 s the challenge with a code for the committed secret opens a session for that user |

## Left out

- Network, cookies and HTTP framing: requests arrive as the parsed body (or form), the cookie values and the query parameter. `getSessionTokenFromRequest` (src/lib/auth.ts:73-75) is this projection onto the session cookie parameter. Cookie attributes (httpOnly, sameSite, secure, path) are not modelled, only set, delete or keep with the maxAge.
- Cryptography and library internals are uninterpreted fields of `Crypto`: SHA-256, bcrypt with cost 12, randomBytes, jose HS256 JWTs, otplib secret generation, TOTP over RFC 6238 with its clock-skew window, the otpauth URI, the validator's e-mail regex and S3 presigning. The facts some lemmas use are the explicit predicates `HashInjective`, `BcryptSound` and `JoseSound`.
- Prisma and the object storage client are replaced by the maps and the object key set of `Store.Database`. src/lib/prisma.ts, src/lib/env.ts and src/lib/constants.ts are not part of this model. The cookie names are abstracted into the two cookie slots of a response.
- VaultView.VaultPage: the sidebar's root entry (src/app/vault/page.tsx:427) sets the current folder to null and keeps the breadcrumb trail; it is not an operation of the class, so `AtTrailEnd` holds after the modelled operations only.
- TOTP verification: `verifyTotp` is the boolean that the awaited otplib `verify` call yields in the verify and enable routes; this assumes the installed otplib version resolves `verify` to a boolean, since a result object would make `!valid` never hold.
- Generated values are parameters: record ids, session randomness, TOTP secrets and bcrypt salts. Their freshness is a precondition: an unused token hash, and an unused id (non-empty for users). The store's own unique-index failure on a colliding id or token is not modelled.
- Concurrency is not modelled. Each request runs alone against the store with a single `now`, so the check-then-insert of registration cannot race.
- Database defaults: `createdAt` and `lastSeenAt` are the request's `now`.
- Folder uniqueness is a store invariant (`SlotsUnique`) standing for the (owner, parent, name) unique index that the P2002 catch implies. SQL's rule that unique indexes treat NULL parents as distinct is not modelled: root folders with equal names are refused here too.
- FoldersRoute.Post: the generic 500 "Failed to create folder" path (src/app/api/vault/folders/route.ts:69-73) is not modelled. Only the unique-index conflict is.
- Both catch paths of the upload are modelled through `UploadRoute.Writes` (storage refuses the object, or the store refuses the record). Reading the file's bytes is not modelled.
- Strings are sequences of UTF-16 code units. `toLowerCase` maps ASCII letters only. `trim` uses the ECMAScript white-space set. `parseInt` reads leading decimal digits, without leading white space, sign or radix prefixes.
- Store.FindFolders orders by code-unit comparison, where Prisma uses the database collation.
- VaultView.Compare: `localeCompare` and `new Date(...).getTime()` are abstract parameters (`Orderings`). The browser's sort algorithm is represented by a stable insertion sort with the same comparator. For a comparator that is not a consistent ordering, the engine's result may differ.
- VaultView.SortDescendsByKey: the order is proved only when every size (or date) parses; with NaN values the comparator answers 0 and no order is promised.
- The page's rendering is not modelled: JSX, CSS, drag-and-drop, keyboard shortcuts, the fetch calls other than the preview signing, the 3-second delete confirmation and the KB/MB branches of `formatFileSize` (float division and `toFixed`).
- VaultView.VaultPage.NavigateToBreadcrumb requires an index of an existing crumb: the page calls it only for the crumbs it renders.
- The page's `previewFileHandler` request is the `Signing` parameter of `NavigatePreview`: a URL, a refusal with its optional error message ("PREVIEW_FAILED" when it has none), or `Unanswered` when the un-awaited request rejects.
- The JSON rendering of a record's `createdAt` (a `Date`, as an ISO string) is represented by its epoch milliseconds.

## Findings

| source | as written | input that shows it | evidently intended | confidence | as-written member | corrected member |
|---|---|---|---|---|---|---|
| src/app/api/vault/files/move/route.ts:62-75 | the updated record is passed to `NextResponse.json` with `sizeBytes` a BigInt; `JSON.stringify` throws on a BigInt, so the catch answers 500 "Failed to move file" after the update was committed | any move of an owned file, e.g. `{ "fileId": "<own file>" }` with a valid session | answer 200 with the record, its size as a decimal string, as the file listing renders it (src/app/api/vault/files/route.ts:40-43) | medium, not executed (a global BigInt serialiser in src/lib/prisma.ts, which is not part of this model, would avoid it) | MoveRoute.MoveAsWrittenReportsFailure | MoveRoute.SerializableFileJsonRenders |
