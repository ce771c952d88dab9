/** The request handling on top of the store (src/middlewares.ts): registering a user,
    logging in (which opens a session), changing the master password (which re-keys
    every record) and resolving the session named by an `Authorization` header. */
module Middlewares {
  import opened Wrappers
  import opened Errors
  import opened Crypto
  import opened Store
  import opened Data

  /** The fields of `req.body` the middlewares read and set. */
  datatype Body = Body(sessionID: Option<string>, sessionData: Option<SessionData>)

  /** The headers the middlewares read (absent when not sent) and the body. */
  datatype Request = Request(
    email: Option<string>,
    password: Option<string>,
    authorization: Option<string>,
    body: Body)

  /** What a middleware does with a request. */
  datatype Reply =
    | Next(body: Body, sessionHeader: Option<string>) // passes it on, with the body and the `Session` response header
    | Respond(status: int, message: string)           // answers it with a status and message
    | Stalled                                         // its promise rejects: it neither answers nor passes on

  /** A header or body field that JavaScript treats as true: present and non-empty. */
  predicate Truthy(field: Option<string>)
  {
    field.Some? && field.value != ""
  }

  /** The answer for an entry of the error table. */
  function Answer(e: Error): Reply
  {
    Respond(Code(e), Message(e))
  }

  const MISSING_CREDENTIALS: string := "Missing credential header"

  // ---------------------------------------------------------------------------
  // Registration and login

  /** The user document `registerUser` writes: the email and the base64url form of the
      password's bcrypt hash. */
  function Registered(p: Primitives, email: string, password: string): (u: User)
    ensures u.email == email
    ensures Lawful(p) ==> p.compare(password, p.fromBase64Url(u.passwordHash))
  {
    User(email, p.toBase64Url(p.hash(password, BCRYPT_COST)))
  }

  /** `registerUser`: checks the confirmation before touching the store, refuses an
      email whose user document exists, and otherwise writes the user document. */
  method RegisterUser(db: Db, p: Primitives, email: string, password: string, confirmPassword: string)
    returns (r: Result<()>)
    modifies db`users
    ensures password != confirmPassword ==>
      r == Err(Api(PasswordsDoNotMatch)) && db.users == old(db.users)
    ensures password == confirmPassword && Id(p, email) in old(db.users) ==>
      r == Err(Api(UserExists)) && db.users == old(db.users)
    ensures password == confirmPassword && Id(p, email) !in old(db.users) ==>
      r == Ok(()) && db.users == old(db.users)[Id(p, email) := Registered(p, email, password)]
  {
    if password != confirmPassword {
      return Err(Api(PasswordsDoNotMatch));
    }
    var uid := Id(p, email);
    if uid in db.users {
      return Err(Api(UserExists));
    }
    db.SetUser(uid, Registered(p, email, password));
    return Ok(());
  }

  /** The login decision of `verifyUser`: the user id when the email's user exists and
      the password matches its stored hash, `USER_NOT_FOUND` or `WRONG_PASSWORD`
      otherwise. */
  function CheckCredentials(p: Primitives, users: map<string, User>, email: string, password: string): (r: Result<string>)
    ensures r.Ok? <==>
      Id(p, email) in users && p.compare(password, p.fromBase64Url(users[Id(p, email)].passwordHash))
    ensures r.Ok? ==> r.value == Id(p, email)
    ensures r.Err? ==> r.failure == Api(if Id(p, email) in users then WrongPassword else UserNotFound)
  {
    var uid := Id(p, email);
    if uid !in users then Err(Api(UserNotFound))
    else if !p.compare(password, p.fromBase64Url(users[uid].passwordHash)) then Err(Api(WrongPassword))
    else Ok(uid)
  }

  /** A registered user logs in with the password they registered with, and a password
      that does not match its hash is refused as wrong. */
  lemma RegisterThenLogin(p: Primitives, users: map<string, User>, email: string, password: string, other: string)
    requires Lawful(p)
    ensures CheckCredentials(p, users[Id(p, email) := Registered(p, email, password)], email, password) == Ok(Id(p, email))
    ensures !p.compare(other, p.hash(password, BCRYPT_COST)) ==>
      CheckCredentials(p, users[Id(p, email) := Registered(p, email, password)], email, other) == Err(Api(WrongPassword))
  {
  }

  /** `verifyUser`: passes a request that already names a session straight on; answers
      400 when the email or password header is missing; otherwise checks the
      credentials and, on success, creates a session under `sid` with the key derived
      from the password and records it in the body and the `Session` header. */
  method VerifyUser(db: Db, p: Primitives, req: Request, key: Key, sid: string, now: int)
    returns (reply: Reply)
    requires sid !in db.sessions
    modifies db`sessions
    ensures Truthy(req.body.sessionID) ==>
      reply == Next(req.body, None) && db.sessions == old(db.sessions)
    ensures !Truthy(req.body.sessionID) && !(Truthy(req.email) && Truthy(req.password)) ==>
      reply == Respond(400, MISSING_CREDENTIALS) && db.sessions == old(db.sessions)
    ensures !Truthy(req.body.sessionID) && Truthy(req.email) && Truthy(req.password) ==>
      var login := CheckCredentials(p, db.users, req.email.value, req.password.value);
      && (login.Err? ==> reply == Answer(login.failure.error) && db.sessions == old(db.sessions))
      && (login.Ok? ==>
            var s := NewSession(login.value, key, now);
            && reply == Next(req.body.(sessionID := Some(sid), sessionData := Some(s)), Some(sid))
            && db.sessions == old(db.sessions)[sid := s])
  {
    if Truthy(req.body.sessionID) {
      return Next(req.body, None);
    }
    if !(Truthy(req.email) && Truthy(req.password)) {
      return Respond(400, MISSING_CREDENTIALS);
    }
    var login := CheckCredentials(p, db.users, req.email.value, req.password.value);
    if login.Err? {
      return Answer(login.failure.error);
    }
    var sessionID, sessionData := CreateSession(db, sid, login.value, key, now);
    return Next(req.body.(sessionID := Some(sessionID), sessionData := Some(sessionData)), Some(sessionID));
  }

  // ---------------------------------------------------------------------------
  // Master-password change

  /** A record re-keyed by `changePassword`: an envelope that opens under the old key
      is resealed under the new one; one that does not is left as it was, because
      its failed decryption stops that record's chain before the update. */
  function Rekey(p: Primitives, r: Record, key: Key, newKey: Key): (r': Record)
    ensures r'.pID == r.pID
    ensures p.open(r.enc, key).None? ==> r' == r
    ensures Lawful(p) && p.open(r.enc, key).Some? ==> p.open(r'.enc, newKey) == p.open(r.enc, key)
  {
    match p.open(r.enc, key)
    case Some(text) => r.(enc := p.seal(text, newKey))
    case None => r
  }

  /** A sub-collection with every record re-keyed; the document ids do not change. */
  function Rekeyed(p: Primitives, coll: map<string, Record>, key: Key, newKey: Key): (c: map<string, Record>)
    ensures c.Keys == coll.Keys
  {
    map d | d in coll :: Rekey(p, coll[d], key, newKey)
  }

  /** The re-encryption loop of `changePassword` over the sub-collection of `uid`. */
  method ReencryptAll(db: Db, p: Primitives, uid: string, key: Key, newKey: Key)
    modifies db`data
    ensures Collection(db.data, uid) == Rekeyed(p, Collection(old(db.data), uid), key, newKey)
    ensures SameElsewhere(db.data, old(db.data), uid)
  {
    var coll := Collection(db.data, uid);
    var pending := coll.Keys;
    while pending != {}
      invariant pending <= coll.Keys
      invariant Collection(db.data, uid).Keys == coll.Keys
      invariant forall d :: d in pending ==> Collection(db.data, uid)[d] == coll[d]
      invariant forall d :: d in coll && d !in pending ==>
        Collection(db.data, uid)[d] == Rekey(p, coll[d], key, newKey)
      invariant SameElsewhere(db.data, old(db.data), uid)
      decreases pending
    {
      var d :| d in pending;
      var text := p.open(coll[d].enc, key);
      if text.Some? {
        db.UpdateEnc(uid, d, p.seal(text.value, newKey));
      }
      pending := pending - {d};
    }
  }

  /** `changePassword`, as written: it looks the user up at `id(userId)`, hashing the
      session's user id a second time; if that user exists it stores the new
      password's hash and re-keys the records under that same id. */
  method ChangePassword(db: Db, p: Primitives, userId: string, key: Key, newPassword: string, newKey: Key)
    returns (r: Result<()>)
    modifies db`users, db`data
    ensures Id(p, userId) !in old(db.users) ==>
      r == Err(Api(UserNotFound)) && db.users == old(db.users) && db.data == old(db.data)
    ensures Id(p, userId) in old(db.users) ==>
      && r == Ok(())
      && db.users == old(db.users)[Id(p, userId) := old(db.users)[Id(p, userId)].(passwordHash := p.toBase64Url(p.hash(newPassword, BCRYPT_COST)))]
      && Collection(db.data, Id(p, userId)) == Rekeyed(p, Collection(old(db.data), Id(p, userId)), key, newKey)
      && SameElsewhere(db.data, old(db.data), Id(p, userId))
  {
    r := Rehash(db, p, Id(p, userId), key, newPassword, newKey);
  }

  /** `changePassword` as evidently intended: the session's user id is already the
      user's document id and is used as it is. */
  method ChangePasswordOfSessionUser(db: Db, p: Primitives, userId: string, key: Key, newPassword: string, newKey: Key)
    returns (r: Result<()>)
    modifies db`users, db`data
    ensures userId !in old(db.users) ==>
      r == Err(Api(UserNotFound)) && db.users == old(db.users) && db.data == old(db.data)
    ensures userId in old(db.users) ==>
      && r == Ok(())
      && db.users == old(db.users)[userId := old(db.users)[userId].(passwordHash := p.toBase64Url(p.hash(newPassword, BCRYPT_COST)))]
      && Collection(db.data, userId) == Rekeyed(p, Collection(old(db.data), userId), key, newKey)
      && SameElsewhere(db.data, old(db.data), userId)
  {
    r := Rehash(db, p, userId, key, newPassword, newKey);
  }

  /** The body of `changePassword` once the user's document id is fixed. */
  method Rehash(db: Db, p: Primitives, uid: string, key: Key, newPassword: string, newKey: Key)
    returns (r: Result<()>)
    modifies db`users, db`data
    ensures uid !in old(db.users) ==>
      r == Err(Api(UserNotFound)) && db.users == old(db.users) && db.data == old(db.data)
    ensures uid in old(db.users) ==>
      && r == Ok(())
      && db.users == old(db.users)[uid := old(db.users)[uid].(passwordHash := p.toBase64Url(p.hash(newPassword, BCRYPT_COST)))]
      && Collection(db.data, uid) == Rekeyed(p, Collection(old(db.data), uid), key, newKey)
      && SameElsewhere(db.data, old(db.data), uid)
  {
    if uid !in db.users {
      return Err(Api(UserNotFound));
    }
    db.UpdatePasswordHash(uid, p.toBase64Url(p.hash(newPassword, BCRYPT_COST)));
    ReencryptAll(db, p, uid, key, newKey);
    return Ok(());
  }

  /** After a re-key every pID whose record opened under the old key reads back the
      same password under the new key, and no pID appears or disappears. */
  lemma RekeyPreservesPasswords(p: Primitives, data: Records, uid: string, key: Key, newKey: Key, rekeyed: Records, pid: string)
    requires Lawful(p)
    requires Collection(rekeyed, uid) == Rekeyed(p, Collection(data, uid), key, newKey)
    requires RetrievePassword(p, data, pid, uid, key).Ok?
    ensures RetrievePassword(p, rekeyed, pid, uid, newKey) == RetrievePassword(p, data, pid, uid, key)
  {
  }

  // ---------------------------------------------------------------------------
  // The session middleware

  /** `/^Session/`: the header starts with the word `Session`. */
  predicate IsSessionScheme(h: string)
    ensures IsSessionScheme(h) <==> exists rest: string :: h == "Session" + rest
  {
    assert |h| >= 7 ==> h == h[..7] + h[7..];
    |h| >= 7 && h[..7] == "Session"
  }

  /** The first position of `c` in `s`. */
  function IndexOf(s: string, c: char): (i: nat)
    requires c in s
    ensures i < |s| && s[i] == c && c !in s[..i]
  {
    if s[0] == c then 0 else 1 + IndexOf(s[1..], c)
  }

  /** The fields joined back with the separator between them. */
  function Join(fields: seq<string>, sep: char): string
    requires |fields| >= 1
  {
    if |fields| == 1 then fields[0] else fields[0] + [sep] + Join(fields[1..], sep)
  }

  /** `split(sep)`: the maximal runs without the separator, including empty ones. */
  function Split(s: string, sep: char): (fields: seq<string>)
    ensures |fields| >= 1
    ensures |fields| >= 2 <==> sep in s
    ensures forall i :: 0 <= i < |fields| ==> sep !in fields[i]
    ensures Join(fields, sep) == s
    decreases |s|
  {
    if sep !in s then [s]
    else
      var i := IndexOf(s, sep);
      var rest := Split(s[i + 1..], sep);
      assert s == s[..i] + [sep] + s[i + 1..];
      assert ([s[..i]] + rest)[1..] == rest;
      [s[..i]] + rest
  }

  /** Splitting undoes joining fields that do not contain the separator. */
  lemma {:induction false} SplitJoin(fields: seq<string>, sep: char)
    requires |fields| >= 1
    requires forall i :: 0 <= i < |fields| ==> sep !in fields[i]
    ensures Split(Join(fields, sep), sep) == fields
  {
    if |fields| > 1 {
      var s := Join(fields, sep);
      var tail := Join(fields[1..], sep);
      assert s == fields[0] + [sep] + tail;
      assert s[|fields[0]|] == sep;
      assert s[..|fields[0]|] == fields[0];
      var i := IndexOf(s, sep);
      assert i == |fields[0]|;
      assert s[i + 1..] == tail;
      SplitJoin(fields[1..], sep);
    }
  }

  /** The first field of a split is the text up to the first separator, or all of it. */
  lemma FirstField(s: string, sep: char)
    ensures |Split(s, sep)[0]| <= |s|
    ensures s[..|Split(s, sep)[0]|] == Split(s, sep)[0]
    ensures |Split(s, sep)[0]| == |s| || s[|Split(s, sep)[0]|] == sep
  {
  }

  /** The second field of a split starts just after the first separator and ends at the
      next one or at the end. */
  lemma SecondField(s: string, sep: char)
    requires sep in s
    ensures |Split(s, sep)| >= 2
    ensures var i, n := IndexOf(s, sep), |Split(s, sep)[1]|;
      i + 1 + n <= |s| && s[i + 1..i + 1 + n] == Split(s, sep)[1] &&
      (i + 1 + n == |s| || s[i + 1 + n] == sep)
  {
    var i := IndexOf(s, sep);
    var t := s[i + 1..];
    assert Split(s, sep) == [s[..i]] + Split(t, sep);
    FirstField(t, sep);
  }

  /** `authHeader.split(' ')[1]`: the second space-separated field, or nothing when
      there is none (`undefined`). */
  function SessionIdOf(h: string): (id: Option<string>)
    ensures id.Some? <==> ' ' in h
    ensures id.Some? ==> ' ' !in id.value
    ensures id.Some? ==> var i, n := IndexOf(h, ' '), |id.value|;
      i + 1 + n <= |h| && h[i + 1..i + 1 + n] == id.value && (i + 1 + n == |h| || h[i + 1 + n] == ' ')
  {
    var fields := Split(h, ' ');
    if |fields| >= 2 then
      SecondField(h, ' ');
      Some(fields[1])
    else None
  }

  /** The header a client sends back, `Session <id>`, names that id. */
  lemma SessionHeaderNamesId(sid: string)
    requires ' ' !in sid
    ensures IsSessionScheme("Session " + sid)
    ensures SessionIdOf("Session " + sid) == Some(sid)
  {
  }

  /** `session`: for an `Authorization` header of the `Session` scheme, records the
      session id in the body and looks the session up; an expired one is deleted and
      the request answered 401, a current one is attached to the body, a missing one
      attaches nothing. Any other request passes on unchanged. An id that is missing
      or empty cannot be looked up, and the middleware's promise rejects. */
  method Session(db: Db, req: Request, now: int) returns (reply: Reply)
    modifies db`sessions
    ensures !(req.authorization.Some? && IsSessionScheme(req.authorization.value)) ==>
      reply == Next(req.body, None) && db.sessions == old(db.sessions)
    ensures req.authorization.Some? && IsSessionScheme(req.authorization.value) ==>
      var id := SessionIdOf(req.authorization.value);
      && (!Truthy(id) ==> reply == Stalled && db.sessions == old(db.sessions))
      && (Truthy(id) && id.value !in old(db.sessions) ==>
            reply == Next(req.body.(sessionID := id), None) && db.sessions == old(db.sessions))
      && (Truthy(id) && id.value in old(db.sessions) && old(db.sessions)[id.value].expireOn < now ==>
            reply == Answer(SessionExpired) && db.sessions == old(db.sessions) - {id.value})
      && (Truthy(id) && id.value in old(db.sessions) && now <= old(db.sessions)[id.value].expireOn ==>
            && reply == Next(req.body.(sessionID := id, sessionData := Some(old(db.sessions)[id.value])), None)
            && db.sessions == old(db.sessions))
  {
    if !(req.authorization.Some? && IsSessionScheme(req.authorization.value)) {
      return Next(req.body, None);
    }
    var id := SessionIdOf(req.authorization.value);
    if !Truthy(id) {
      return Stalled;
    }
    var body := req.body.(sessionID := id);
    var found := GetSession(db.sessions, id.value);
    if found.None? {
      return Next(body, None);
    }
    if found.value.expireOn < now {
      DeleteSession(db, id.value);
      return Answer(SessionExpired);
    }
    return Next(body.(sessionData := found), None);
  }

  /** The middleware rejects a session exactly when the sweep at the same time would
      remove it; a session whose expiry is `now` itself passes both. */
  lemma CheckAgreesWithSweep(sessions: map<string, SessionData>, sid: string, now: int)
    requires sid in sessions
    ensures sessions[sid].expireOn < now <==> sid !in Live(sessions, now)
  {
  }
}
