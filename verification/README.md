# Password-manager backend: credential store and session lifecycle

This project models the core of a password-manager backend written in TypeScript
over a Firestore document store. The model covers:

- the credential records of each user, under `data/{uid}/passwords/{id(pID)}`;
- the users, under `users/{id(email)}`;
- the sessions, under `sessions/{sid}`. A session caches the user's derived key and
  expires two minutes after it is created;
- the request handling on top of them: registration, login (which opens a session),
  the `Authorization: Session <id>` gate, and master-password change (which re-keys
  every record);
- the error table (`ERRORS`) that these operations throw from.

Firestore becomes the class `Store.Db`. It has three map fields and the set, update
and delete operations the core uses. A password sub-collection is a map from document
id to record, and a user id with no entry stands for an empty sub-collection
(`Store.Collection`). The operations of `src/data.ts` and `src/middlewares.ts` are
methods that change the store in place (``modifies db`users``, ``db`data``,
``db`sessions``), or functions and read-only methods for the queries.

The library calls are opaque. These are SHA-1 with base64url (the document id),
AES-GCM sealing and opening under a JSON Web Key, bcrypt hashing and comparison, and
base64url encoding of the stored hash. Each is a function-valued field of
`Crypto.Primitives`, so every result holds for every choice of them. Where a property
needs a library law (a sealed text opens under the same key, a password matches its
own hash, base64url decoding undoes encoding), it asks for `Crypto.Lawful`.

The wall clock is a `now` parameter. The random session id is a `sid` parameter that
must not be in use yet. The key `getKey` derives from a password (PBKDF2 with a random
salt) is a `key` or `newKey` parameter.

Modules: `Wrappers` (Option), `Errors` (`src/errorMap.ts`, plus the failure kinds),
`Crypto`, `Store`, `Data` (`src/data.ts`), `Middlewares` (`src/middlewares.ts`), and
`Flows`. `Flows` holds whole request sequences on a fresh store, each verified against the
contracts and definitions of what it calls.

Four behaviours of the code worth knowing, all kept in the model:

- `updatePid` overwrites an existing record at the destination id; it has no
  duplicate check;
- `changePassword` neither returns a count of re-encrypted records nor rebinds the
  session's key;
- the session gate attaches nothing for an unknown session id; it does not signal a
  missing session;
- the session lifetime is absolute: nothing extends `expireOn`, and `lastUsedOn` is
  never updated.

## Model

| member | source | states |
|---|---|---|
| `Errors.Code` | src/errorMap.ts:6-17 | every status code is 400, 401 or 500, and 401 belongs to `SESSION_EXPIRED` alone |
| `Errors.Message` | src/errorMap.ts:6-17 | every message is non-empty and differs from the bare string thrown on a failed decryption |
| `Errors.RecordAndAuthCodes` | src/errorMap.ts:7-14 | `PID_EXISTS` is 500 while `PID_NOT_EXISTS` is 400; the password-mismatch, user-exists, wrong-password and user-not-found errors are 400 |
| `Errors.MessageIdentifiesError` | src/errorMap.ts:6-17 | the twelve messages are pairwise distinct, so a message names its error |
| `Errors.DecryptingTextIsNotAMessage` | src/data.ts:72-73 | the string thrown on a failed decryption is no table message (it differs from `ERROR_DECRYPTING`'s by a full stop) |
| `Data.CreatePassword` | src/data.ts:19-36 | an existing document id in the user's sub-collection gives `PID_EXISTS` and changes nothing; otherwise exactly one record `{pID, seal(password, key)}` is added at `id(pID)` and nothing else changes |
| `Data.RetrievePassword` | src/data.ts:57-78 | a missing document gives `PID_NOT_EXISTS`; an envelope that does not open gives the bare "Error while decrypting." string, never `PID_NOT_EXISTS`; otherwise the opened password |
| `Data.RetrievePasswordById` | src/data.ts:38-55 | succeeds exactly when the document exists and opens, returning its id, pID and opened password; any other outcome is an unhandled rejection |
| `Data.RetrieveAllPasswords` | src/data.ts:80-92 | fails (fail-fast) exactly when some record of the user does not open; otherwise lists exactly the records `RetrievePasswordById` returns for the user's document ids |
| `Data.DeletePassword` | src/data.ts:94-101 | removes the pID's document from the user's sub-collection only; a missing document leaves the store unchanged |
| `Data.UpdatePassword` | src/data.ts:103-122 | a missing document gives `PID_NOT_EXISTS` and changes nothing; otherwise only the envelope is replaced, and the pID is kept |
| `Data.Renamed` | src/data.ts:138-144 | a present record moves to `id(updatedPid)` with the new pID and the same envelope, overwriting the destination; a missing source changes nothing; when both ids coincide the record ends up deleted; other users are untouched |
| `Data.UpdatePid` | src/data.ts:124-145 | the store afterwards is `Renamed` of the store before |
| `Data.CreateThenRetrieve` | src/data.ts:30-34 | a record created under a key reads back as its password under that key; other users' records are untouched |
| `Data.UpdateThenRetrieve` | src/data.ts:114-120 | after an update the pID reads back as the new password and keeps its pID |
| `Data.RenameMovesRecord` | src/data.ts:138-144 | renaming to a pID with another id moves the record: the new pID reads what the old one did, the old pID is not found |
| `Data.RenameToSameIdLosesRecord` | src/data.ts:138-144 | renaming to a pID with the same id leaves neither pID found |
| `Data.RenameKeepingSameIdKeepsRecord` | src/data.ts:138-144 | with the same-id case updated in place, a rename always keeps the record under the new pID |
| `Data.NewSession` | src/data.ts:153-160 | the session document carries the user id and key, is created and last used at `now`, and expires exactly 120000 ms after creation |
| `Data.CreateSession` | src/data.ts:147-164 | the new session is stored under the given id with the user id and key, `createdOn = lastUsedOn = now` and `expireOn = createdOn + 120000`, and that id and data are returned |
| `Data.GetSession` | src/data.ts:178-186 | returns the stored session exactly when its document exists, without looking at expiry |
| `Data.DeleteSession` | src/data.ts:188-192 | removes the session if present; no other session changes |
| `Data.Live` | src/data.ts:197-203 | a session survives a sweep at `now` exactly when `now <= expireOn`, and it survives unchanged |
| `Data.DeleteExpiredSessions` | src/data.ts:194-204 | the sessions afterwards are exactly `Live` of those before |
| `Data.LaterSweepSubsumes` | src/data.ts:194-204 | a sweep at an earlier time followed by one at a later time is the later sweep alone |
| `Data.SessionSurvivesSweepUntilTtl` | src/data.ts:153-159 | a session created at `T` survives a sweep at `t` exactly when `t <= T + 120000` |
| `Middlewares.Registered` | src/middlewares.ts:31-36 | the user document keeps the email, and under the library laws the registered password matches the decoded stored hash |
| `Middlewares.RegisterUser` | src/middlewares.ts:16-41 | a mismatched confirmation gives `PASSWORDS_DO_NOT_MATCH` and an existing user gives `USER_EXISTS`, both leaving the users unchanged; otherwise `{email, base64url(hash(password, 10))}` is written at `id(email)` and nothing else changes |
| `Middlewares.CheckCredentials` | src/middlewares.ts:58-77 | login succeeds with `id(email)` exactly when that user exists and the password matches the decoded stored hash; otherwise `USER_NOT_FOUND` for a missing user and `WRONG_PASSWORD` for a mismatch |
| `Middlewares.RegisterThenLogin` | src/middlewares.ts:68-77 | a registered user logs in with the registered password, and a password that does not match its hash is refused as wrong |
| `Middlewares.VerifyUser` | src/middlewares.ts:43-97 | a truthy `_sessionID` passes straight through; a missing email or password header is answered 400; a failed login is answered with its error; none of these creates a session; a success creates exactly one session for the user, whose id is the `Session` header and `_sessionID` |
| `Middlewares.Rekey` | src/middlewares.ts:121-126 | a re-keyed record keeps its pID; if it opened under the old key it opens to the same password under the new key; if it did not open, it is unchanged |
| `Middlewares.Rekeyed` | src/middlewares.ts:119-127 | re-keying a sub-collection keeps its document ids |
| `Middlewares.ReencryptAll` | src/middlewares.ts:117-128 | every record of the user's sub-collection is re-keyed, and no other sub-collection changes |
| `Middlewares.Rehash` | src/middlewares.ts:111-128 | a missing user gives `USER_NOT_FOUND` and changes nothing; otherwise only that user's hash is replaced and their records are re-keyed |
| `Middlewares.ChangePassword` | src/middlewares.ts:99-129 | as written: a missing `users/id(userId)` gives `USER_NOT_FOUND` and changes nothing; otherwise the hash of that user is replaced and the records under `id(userId)` are re-keyed |
| `Middlewares.ChangePasswordOfSessionUser` | src/middlewares.ts:99-129 | the same with the lookup at `users/userId` |
| `Middlewares.RekeyPreservesPasswords` | src/middlewares.ts:121-126 | after a re-key every pID that read back under the old key reads back the same password under the new key |
| `Middlewares.IsSessionScheme` | src/middlewares.ts:139 | a header is of the `Session` scheme exactly when it is `Session` followed by anything, with no word boundary required |
| `Middlewares.SessionIdOf` | src/middlewares.ts:140 | an id exists exactly when the header contains a space; it is the text from just after the first space up to the next space or the end, and it contains no space |
| `Middlewares.Split` | src/middlewares.ts:140 | the fields contain no separator, join back to the header, and number two or more exactly when the separator occurs |
| `Middlewares.SplitJoin` | src/middlewares.ts:140 | splitting undoes joining fields that contain no separator |
| `Middlewares.SessionHeaderNamesId` | src/middlewares.ts:139-140 | the header `Session <id>` is of the `Session` scheme and its second field is the id |
| `Middlewares.Session` | src/middlewares.ts:131-154 | another header passes on unchanged; a missing or empty id makes the middleware's promise reject; an unknown id is recorded and nothing attached; a session with `expireOn < now` is deleted and answered 401; a current one is attached unchanged |
| `Middlewares.CheckAgreesWithSweep` | src/middlewares.ts:144-145 | the gate rejects a session exactly when the sweep at the same time removes it, so a session with `expireOn == now` passes both |
| `Flows.LoginFlow` | src/middlewares.ts:57-87 | after registration, the right password opens exactly one session named in the body and the `Session` header; a wrong password and an unknown email are refused and create none |
| `Flows.SessionLifetimeFlow` | src/middlewares.ts:138-153 | a replayed session is attached unchanged up to two minutes after login; later it is answered 401 and is gone |
| `Flows.ChangePasswordAfterLogin` | src/middlewares.ts:106-112 | as written, a password change by a logged-in user fails with `USER_NOT_FOUND` whenever `id(id(email)) != id(email)` |
| `Flows.ChangePasswordOfSessionUserAfterLogin` | src/middlewares.ts:106-126 | with the session's user id used as it is, the change succeeds, and a stored record reads back under the new key and, when the old key cannot open it, not under the old key |
| `Flows.DuplicateGuardFlow` | src/data.ts:26-31 | a second record with the same pID is refused for the same user and accepted for another user |
| `Flows.RenameFlow` | src/data.ts:131-144 | after renaming, the old pID is not found and the new one reads back the password unchanged |

## Left out

- The cryptography: AES-GCM (NIST SP 800-38D), PBKDF2 (section 5.2 of RFC 8018), bcrypt, SHA-1 (FIPS 180-4) and base64url (section 5 of RFC 4648) are opaque functions. No cipher property is proved. The random IV of each seal and the random bcrypt salt are folded into the opaque functions, so `seal` and `hash` are deterministic in the model. `Data.Id` is only a name for the opaque `idOf` (SHA-1 then base64url): where a record lives is stated by `Data.CreatePassword`, and that the id of a pID does not depend on the user is shown by `Flows.DuplicateGuardFlow`.
- Key derivation: `getKey` draws a random salt on every call. Its result is the `key` or `newKey` parameter, so the model does not say how the key relates to the password.
- Randomness and the clock: the session id is a parameter that must be fresh, and the time is a parameter.
- `Data.DeleteExpiredSessions`: reads the clock once, while the source reads it again for each document.
- Asynchrony: the un-awaited `forEach` loops, the un-awaited `update` in `updatePassword`, and the un-awaited `set` in `registerUser` all become sequential steps. Their interleavings with other requests are not modelled.
- A store write that fails is not modelled. This covers the `CANT_CREATE_USER` path of `registerUser` (which never reaches the caller anyway) and an `update` of a document deleted between the read and the write.
- Middleware control flow: the model gives only the outcome and the store change. After answering an error, `verifyUser` still calls `next` through `.finally(next)`; that is not modelled.
- Header values sent as arrays are not modelled. Headers and `_sessionID` are absent or a string, and JavaScript truthiness is "present and non-empty".
- Session ids: the model reads any non-empty id as a document key. In the store, an id containing `/` addresses another path.
- `Data.RetrieveAllPasswords` returns a set of entries. The order in which the store lists documents is not modelled.
- `src/main.ts` (routing, CORS, status writing, the five-second sweep timer) and `src/crypt.ts` are not part of this model. One consequence: the `/register` route calls `registerUser` without a confirmation, so that route fails with `PASSWORDS_DO_NOT_MATCH` whenever the request body carries a `password`.
- The `./firebase` module is not part of this model; the store is the maps of `Store.Db`.

## Findings

| source | as written | input that shows it | evidently intended | confidence | as-written member | corrected member |
|---|---|---|---|---|---|---|
| src/middlewares.ts:106-112 | `changePassword` looks the user up at `users/id(userId)`, but the session's `userId` is already `id(email)` | register `e`, log in, change the password with the session's user id, for any `e` with `id(id(e)) != id(e)` | look the user up at `users/userId` and re-key `data/userId/passwords` | high; not executed | `Flows.ChangePasswordAfterLogin` | `Flows.ChangePasswordOfSessionUserAfterLogin` |
| src/data.ts:138-144 | `updatePid` deletes the old document after copying, even when the copy went to that same document | `updatePid(pid, userId, pid)` on an existing record | update the record in place when both ids coincide | high; not executed | `Data.RenameToSameIdLosesRecord` | `Data.RenameKeepingSameIdKeepsRecord` |
