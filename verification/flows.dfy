/** Whole request sequences run against a fresh store, each verified against the
    contracts and definitions of what it calls. */
module Flows {
  import opened Wrappers
  import opened Errors
  import opened Crypto
  import opened Store
  import opened Data
  import opened Middlewares

  /** A login request carrying the email and password headers. */
  function LoginRequest(email: string, password: string): Request
  {
    Request(Some(email), Some(password), None, Body(None, None))
  }

  /** Registration then login: the right password opens a session named in the body
      and the `Session` header, a wrong one is refused, an unknown email is not found,
      and neither failure creates a session. */
  method LoginFlow(p: Primitives, email: string, password: string, wrong: string, stranger: string,
                   key: Key, sid: string, now: int)
    returns (ok: Reply, bad: Reply, unknown: Reply, sessions: map<string, SessionData>)
    requires Lawful(p)
    requires email != "" && password != "" && wrong != "" && stranger != ""
    requires !p.compare(wrong, p.hash(password, BCRYPT_COST))
    requires Id(p, stranger) != Id(p, email)
    ensures bad == Answer(WrongPassword)
    ensures unknown == Answer(UserNotFound)
    ensures ok == Next(Body(Some(sid), Some(NewSession(Id(p, email), key, now))), Some(sid))
    ensures sessions == map[sid := NewSession(Id(p, email), key, now)]
  {
    var db := new Db();
    var registered := RegisterUser(db, p, email, password, password);
    RegisterThenLogin(p, map[], email, password, wrong);
    bad := VerifyUser(db, p, LoginRequest(email, wrong), key, sid, now);
    unknown := VerifyUser(db, p, LoginRequest(stranger, password), key, sid, now);
    ok := VerifyUser(db, p, LoginRequest(email, password), key, sid, now);
    sessions := db.sessions;
  }

  /** A session replayed as `Authorization: Session <id>` is attached unchanged up to
      two minutes after login; after that the request is answered 401 and the session
      is gone. */
  method SessionLifetimeFlow(p: Primitives, email: string, password: string, key: Key,
                             sid: string, loginTime: int, requestTime: int)
    returns (reply: Reply, after: Option<SessionData>)
    requires Lawful(p)
    requires email != "" && password != "" && sid != "" && ' ' !in sid
    ensures requestTime <= loginTime + SESSION_TTL ==>
      reply == Next(Body(Some(sid), Some(NewSession(Id(p, email), key, loginTime))), None)
      && after == Some(NewSession(Id(p, email), key, loginTime))
    ensures requestTime > loginTime + SESSION_TTL ==>
      reply == Answer(SessionExpired) && after == None
  {
    var db := new Db();
    var registered := RegisterUser(db, p, email, password, password);
    RegisterThenLogin(p, map[], email, password, password);
    var login := VerifyUser(db, p, LoginRequest(email, password), key, sid, loginTime);
    SessionHeaderNamesId(sid);
    reply := Session(db, Request(None, None, Some("Session " + sid), Body(None, None)), requestTime);
    after := GetSession(db.sessions, sid);
  }

  /** As written, `changePassword` cannot find the user who is logged in: the session
      holds `id(email)` and the lookup is at `id(id(email))`. */
  method ChangePasswordAfterLogin(p: Primitives, email: string, password: string, key: Key,
                                  sid: string, now: int, newPassword: string, newKey: Key)
    returns (r: Result<()>)
    requires Lawful(p)
    requires email != "" && password != ""
    requires Id(p, Id(p, email)) != Id(p, email)
    ensures r == Err(Api(UserNotFound))
  {
    var db := new Db();
    var registered := RegisterUser(db, p, email, password, password);
    RegisterThenLogin(p, map[], email, password, password);
    var login := VerifyUser(db, p, LoginRequest(email, password), key, sid, now);
    r := ChangePassword(db, p, login.body.sessionData.value.userId, key, newPassword, newKey);
  }

  /** With the session's user id used as it is, a password change after login succeeds,
      a record stored before it reads back the same under the new key, and, when the
      old key cannot open what the new key sealed, no longer under the old key. */
  method ChangePasswordOfSessionUserAfterLogin(p: Primitives, email: string, password: string, key: Key,
                                               sid: string, now: int, pid: string, secret: string,
                                               newPassword: string, newKey: Key)
    returns (changed: Result<()>, underNewKey: Result<string>, underOldKey: Result<string>)
    requires Lawful(p)
    requires email != "" && password != ""
    ensures changed == Ok(())
    ensures underNewKey == Ok(secret)
    ensures p.open(p.seal(secret, newKey), key).None? ==> underOldKey == Err(Plain(DECRYPTING_TEXT))
  {
    var db := new Db();
    var registered := RegisterUser(db, p, email, password, password);
    RegisterThenLogin(p, map[], email, password, password);
    var login := VerifyUser(db, p, LoginRequest(email, password), key, sid, now);
    var session := login.body.sessionData.value;
    var created := CreatePassword(db, p, pid, secret, session.key, session.userId);
    CreateThenRetrieve(p, map[], pid, secret, key, session.userId);
    ghost var before := db.data;
    changed := ChangePasswordOfSessionUser(db, p, session.userId, session.key, newPassword, newKey);
    RekeyPreservesPasswords(p, before, session.userId, key, newKey, db.data, pid);
    underNewKey := RetrievePassword(p, db.data, pid, session.userId, newKey);
    underOldKey := RetrievePassword(p, db.data, pid, session.userId, key);
    assert Collection(db.data, session.userId)[Id(p, pid)].enc == p.seal(secret, newKey);
  }

  /** The duplicate guard is per user: a second record with the same pID is refused for
      the same user and accepted for another. */
  method DuplicateGuardFlow(p: Primitives, pid: string, key: Key, alice: string, bob: string)
    returns (first: Result<()>, again: Result<()>, other: Result<()>)
    requires alice != bob
    ensures first == Ok(()) && again == Err(Api(PidExists)) && other == Ok(())
  {
    var db := new Db();
    first := CreatePassword(db, p, pid, "one", key, alice);
    again := CreatePassword(db, p, pid, "two", key, alice);
    other := CreatePassword(db, p, pid, "three", key, bob);
  }

  /** Renaming moves a record: the old pID is no longer found and the new one reads back
      the password unchanged. */
  method RenameFlow(p: Primitives, pid: string, newPid: string, secret: string, key: Key, userId: string)
    returns (oldName: Result<string>, newName: Result<string>)
    requires Lawful(p)
    requires Id(p, newPid) != Id(p, pid)
    ensures oldName == Err(Api(PidNotExists))
    ensures newName == Ok(secret)
  {
    var db := new Db();
    var created := CreatePassword(db, p, pid, secret, key, userId);
    CreateThenRetrieve(p, map[], pid, secret, key, userId);
    ghost var before := db.data;
    UpdatePid(db, p, pid, userId, newPid);
    RenameMovesRecord(p, before, pid, userId, newPid, key);
    oldName := RetrievePassword(p, db.data, pid, userId, key);
    newName := RetrievePassword(p, db.data, newPid, userId, key);
  }
}
