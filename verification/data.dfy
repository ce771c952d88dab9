/** The credential records and the sessions (src/data.ts): creating, reading,
    updating, renaming and deleting a user's records under
    `data/{userId}/passwords/{id(pID)}`, and creating, reading and expiring the
    sessions under `sessions/{sid}`. */
module Data {
  import opened Wrappers
  import opened Errors
  import opened Crypto
  import opened Store

  /** How long a session lives: two minutes, counted from its creation. */
  const SESSION_TTL: int := 120000

  /** `id`: the document id of a pID (also used on emails and user ids). It depends on
      the text alone, so the same pID has the same id under every user and records are
      told apart by the user's sub-collection. */
  function Id(p: Primitives, text: string): string
  {
    p.idOf(text)
  }

  // ---------------------------------------------------------------------------
  // Credential records

  /** `createPassword`: refuses a pID whose document already exists in the user's
      sub-collection; otherwise stores the pID with the password sealed under the key. */
  method CreatePassword(db: Db, p: Primitives, pid: string, password: string, key: Key, userId: string)
    returns (r: Result<()>)
    modifies db`data
    ensures Id(p, pid) in Collection(old(db.data), userId) ==>
      r == Err(Api(PidExists)) && db.data == old(db.data)
    ensures Id(p, pid) !in Collection(old(db.data), userId) ==>
      r == Ok(()) && db.data == Put(old(db.data), userId, Id(p, pid), Record(pid, p.seal(password, key)))
  {
    var docId := Id(p, pid);
    if docId in Collection(db.data, userId) {
      return Err(Api(PidExists));
    }
    db.SetRecord(userId, docId, Record(pid, p.seal(password, key)));
    return Ok(());
  }

  /** `retrievePassword`: the stored password of a pID, opened under the key. A missing
      document and an envelope that does not open are told apart: the first throws
      `PID_NOT_EXISTS`, the second a bare string. */
  function RetrievePassword(p: Primitives, data: Records, pid: string, userId: string, key: Key): (r: Result<string>)
    ensures r == Err(Api(PidNotExists)) <==> Id(p, pid) !in Collection(data, userId)
    ensures r == Err(Plain(DECRYPTING_TEXT)) <==>
      Id(p, pid) in Collection(data, userId) && p.open(Collection(data, userId)[Id(p, pid)].enc, key).None?
    ensures r.Ok? ==>
      Id(p, pid) in Collection(data, userId) && p.open(Collection(data, userId)[Id(p, pid)].enc, key) == Some(r.value)
    ensures Id(p, pid) in Collection(data, userId) && p.open(Collection(data, userId)[Id(p, pid)].enc, key).Some? ==>
      r == Ok(p.open(Collection(data, userId)[Id(p, pid)].enc, key).value)
  {
    var docId := Id(p, pid);
    var coll := Collection(data, userId);
    if docId in coll then
      match p.open(coll[docId].enc, key)
      case Some(text) => Ok(text)
      case None => Err(Plain(DECRYPTING_TEXT))
    else
      Err(Api(PidNotExists))
  }

  /** One entry of a listing: `{_id, pID, password}`. */
  datatype Listing = Listing(id: string, pID: string, password: string)

  /** `retrievePasswordById`: the record at a document id with its password opened. It
      has no existence check: a missing document, like an envelope that does not open,
      makes a library call reject, and the rejection is passed on. */
  function RetrievePasswordById(p: Primitives, data: Records, docId: string, userId: string, key: Key): (r: Result<Listing>)
    ensures r.Ok? <==>
      docId in Collection(data, userId) && p.open(Collection(data, userId)[docId].enc, key).Some?
    ensures r.Err? ==> r.failure == Uncaught
    ensures r.Ok? ==>
      && r.value.id == docId
      && r.value.pID == Collection(data, userId)[docId].pID
      && p.open(Collection(data, userId)[docId].enc, key) == Some(r.value.password)
  {
    var coll := Collection(data, userId);
    if docId !in coll then Err(Uncaught)
    else
      match p.open(coll[docId].enc, key)
      case Some(text) => Ok(Listing(docId, coll[docId].pID, text))
      case None => Err(Uncaught)
  }

  /** `retrieveAllPasswords`: every record of the user with its password opened. The
      listing waits for all of them, so one envelope that does not open fails it. */
  method RetrieveAllPasswords(db: Db, p: Primitives, userId: string, key: Key) returns (r: Result<set<Listing>>)
    ensures r.Ok? <==>
      forall d :: d in Collection(db.data, userId) ==> p.open(Collection(db.data, userId)[d].enc, key).Some?
    ensures r.Err? ==> r.failure == Uncaught
    ensures r.Ok? ==>
      forall l :: l in r.value <==> RetrievePasswordById(p, db.data, l.id, userId, key) == Ok(l)
  {
    var coll := Collection(db.data, userId);
    var pending := coll.Keys;
    var listed: set<Listing> := {};
    while pending != {}
      invariant pending <= coll.Keys
      invariant forall d :: d in coll && d !in pending ==> p.open(coll[d].enc, key).Some?
      invariant forall l :: l in listed <==>
        l.id in coll && l.id !in pending && RetrievePasswordById(p, db.data, l.id, userId, key) == Ok(l)
      decreases pending
    {
      var d :| d in pending;
      var text := p.open(coll[d].enc, key);
      if text.None? {
        return Err(Uncaught);
      }
      listed := listed + {Listing(d, coll[d].pID, text.value)};
      pending := pending - {d};
    }
    return Ok(listed);
  }

  /** `deletePassword`: deletes the pID's document; a missing one is not an error. */
  method DeletePassword(db: Db, p: Primitives, pid: string, userId: string)
    modifies db`data
    ensures db.data == Remove(old(db.data), userId, Id(p, pid))
  {
    db.DeleteRecord(userId, Id(p, pid));
  }

  /** `updatePassword`: reseals the password of an existing pID under the key and
      overwrites only the envelope. */
  method UpdatePassword(db: Db, p: Primitives, pid: string, userId: string, key: Key, updatedPassword: string)
    returns (r: Result<()>)
    modifies db`data
    ensures Id(p, pid) !in Collection(old(db.data), userId) ==>
      r == Err(Api(PidNotExists)) && db.data == old(db.data)
    ensures Id(p, pid) in Collection(old(db.data), userId) ==>
      && r == Ok(())
      && db.data == Put(old(db.data), userId, Id(p, pid),
                        Record(Collection(old(db.data), userId)[Id(p, pid)].pID, p.seal(updatedPassword, key)))
  {
    var docId := Id(p, pid);
    if docId !in Collection(db.data, userId) {
      return Err(Api(PidNotExists));
    }
    db.UpdateEnc(userId, docId, p.seal(updatedPassword, key));
    return Ok(());
  }

  /** The records after `updatePid`, as written: the record (if any) is copied to the
      new pID's id with its pID replaced and its envelope kept, overwriting whatever
      is there, and then the old id is deleted unconditionally. When both pIDs have
      the same id, the copy is the document that is then deleted. */
  function Renamed(p: Primitives, data: Records, pid: string, userId: string, updatedPid: string): (d: Records)
    ensures SameElsewhere(d, data, userId)
    ensures Id(p, pid) !in Collection(data, userId) ==> d == data
    ensures Id(p, pid) in Collection(data, userId) && Id(p, updatedPid) != Id(p, pid) ==>
      Collection(d, userId) ==
        (Collection(data, userId) - {Id(p, pid)})[Id(p, updatedPid) := Collection(data, userId)[Id(p, pid)].(pID := updatedPid)]
    ensures Id(p, updatedPid) == Id(p, pid) ==>
      Collection(d, userId) == Collection(data, userId) - {Id(p, pid)}
  {
    var docId, newDocId := Id(p, pid), Id(p, updatedPid);
    var coll := Collection(data, userId);
    var copied := if docId in coll then Put(data, userId, newDocId, coll[docId].(pID := updatedPid)) else data;
    Remove(copied, userId, docId)
  }

  /** `updatePid` with no collision check. */
  method UpdatePid(db: Db, p: Primitives, pid: string, userId: string, updatedPid: string)
    modifies db`data
    ensures db.data == Renamed(p, old(db.data), pid, userId, updatedPid)
  {
    var docId, newDocId := Id(p, pid), Id(p, updatedPid);
    var coll := Collection(db.data, userId);
    if docId in coll {
      db.SetRecord(userId, newDocId, coll[docId].(pID := updatedPid));
    }
    db.DeleteRecord(userId, docId);
  }

  /** The records after `updatePid` as evidently intended: when both pIDs have the same
      id the record is updated in place rather than deleted. */
  function RenamedKeepingSameId(p: Primitives, data: Records, pid: string, userId: string, updatedPid: string): Records
  {
    var docId, newDocId := Id(p, pid), Id(p, updatedPid);
    var coll := Collection(data, userId);
    if docId !in coll then data
    else
      var copied := Put(data, userId, newDocId, coll[docId].(pID := updatedPid));
      if newDocId == docId then copied else Remove(copied, userId, docId)
  }

  /** A record created under the key reads back as the password it was created with,
      and the store of every other user is untouched. */
  lemma CreateThenRetrieve(p: Primitives, data: Records, pid: string, password: string, key: Key, userId: string)
    requires Lawful(p)
    ensures var created := Put(data, userId, Id(p, pid), Record(pid, p.seal(password, key)));
      && RetrievePassword(p, created, pid, userId, key) == Ok(password)
      && SameElsewhere(created, data, userId)
  {
  }

  /** After an update the pID reads back as the new password and keeps its pID. */
  lemma UpdateThenRetrieve(p: Primitives, data: Records, pid: string, userId: string, key: Key, updatedPassword: string)
    requires Lawful(p)
    requires Id(p, pid) in Collection(data, userId)
    ensures var coll := Collection(data, userId);
      var updated := Put(data, userId, Id(p, pid), Record(coll[Id(p, pid)].pID, p.seal(updatedPassword, key)));
      && RetrievePassword(p, updated, pid, userId, key) == Ok(updatedPassword)
      && Collection(updated, userId)[Id(p, pid)].pID == coll[Id(p, pid)].pID
  {
  }

  /** Renaming to a pID with another id moves the record: the new pID reads back what
      the old one did, and the old pID is gone. */
  lemma RenameMovesRecord(p: Primitives, data: Records, pid: string, userId: string, updatedPid: string, key: Key)
    requires Id(p, pid) in Collection(data, userId)
    requires Id(p, updatedPid) != Id(p, pid)
    ensures RetrievePassword(p, Renamed(p, data, pid, userId, updatedPid), updatedPid, userId, key)
         == RetrievePassword(p, data, pid, userId, key)
    ensures RetrievePassword(p, Renamed(p, data, pid, userId, updatedPid), pid, userId, key) == Err(Api(PidNotExists))
    ensures Collection(Renamed(p, data, pid, userId, updatedPid), userId)[Id(p, updatedPid)].pID == updatedPid
  {
  }

  /** As written, renaming a pID to one with the same id (in particular to itself)
      loses the record: afterwards neither pID is found. */
  lemma RenameToSameIdLosesRecord(p: Primitives, data: Records, pid: string, userId: string, updatedPid: string, key: Key)
    requires Id(p, pid) in Collection(data, userId)
    requires Id(p, updatedPid) == Id(p, pid)
    ensures RetrievePassword(p, Renamed(p, data, pid, userId, updatedPid), updatedPid, userId, key) == Err(Api(PidNotExists))
    ensures RetrievePassword(p, Renamed(p, data, pid, userId, updatedPid), pid, userId, key) == Err(Api(PidNotExists))
  {
  }

  /** With the same-id case kept in place, a rename never loses the record: the new
      pID reads back what the old one did and carries the new pID. */
  lemma RenameKeepingSameIdKeepsRecord(p: Primitives, data: Records, pid: string, userId: string, updatedPid: string, key: Key)
    requires Id(p, pid) in Collection(data, userId)
    ensures RetrievePassword(p, RenamedKeepingSameId(p, data, pid, userId, updatedPid), updatedPid, userId, key)
         == RetrievePassword(p, data, pid, userId, key)
    ensures Collection(RenamedKeepingSameId(p, data, pid, userId, updatedPid), userId)[Id(p, updatedPid)]
         == Collection(data, userId)[Id(p, pid)].(pID := updatedPid)
    ensures SameElsewhere(RenamedKeepingSameId(p, data, pid, userId, updatedPid), data, userId)
  {
  }

  // ---------------------------------------------------------------------------
  // Sessions

  /** The session document `createSession` writes for a login at time `now`. */
  function NewSession(userId: string, key: Key, now: int): (s: SessionData)
    ensures s.userId == userId && s.key == key
    ensures s.createdOn == now && s.lastUsedOn == now
    ensures s.expireOn - s.createdOn == SESSION_TTL
  {
    SessionData(userId, key, now, now, now + SESSION_TTL)
  }

  /** `createSession`: stores a new session under a fresh random id and returns the
      id with the stored data. */
  method CreateSession(db: Db, sid: string, userId: string, key: Key, now: int)
    returns (id: string, data: SessionData)
    requires sid !in db.sessions
    modifies db`sessions
    ensures id == sid
    ensures data.userId == userId && data.key == key
    ensures data.createdOn == data.lastUsedOn == now && data.expireOn == data.createdOn + SESSION_TTL
    ensures db.sessions == old(db.sessions)[id := data]
  {
    data := NewSession(userId, key, now);
    db.SetSession(sid, data);
    id := sid;
  }

  /** `getSession`: the session document, or nothing. It does not look at expiry. */
  function GetSession(sessions: map<string, SessionData>, sid: string): (r: Option<SessionData>)
    ensures r.Some? <==> sid in sessions
    ensures r.Some? ==> r.value == sessions[sid]
  {
    if sid in sessions then Some(sessions[sid]) else None
  }

  /** `deleteSession`: removes the session; a missing one is not an error. */
  method DeleteSession(db: Db, sid: string)
    modifies db`sessions
    ensures db.sessions == old(db.sessions) - {sid}
  {
    db.DeleteSession(sid);
  }

  /** The sessions a sweep at time `now` leaves: those not past their expiry. */
  function Live(sessions: map<string, SessionData>, now: int): (live: map<string, SessionData>)
    ensures live.Keys <= sessions.Keys
    ensures forall sid :: sid in live ==> live[sid] == sessions[sid]
    ensures forall sid :: sid in sessions ==> (sid in live <==> now <= sessions[sid].expireOn)
  {
    map sid | sid in sessions && !(now > sessions[sid].expireOn) :: sessions[sid]
  }

  /** `deleteExpiredSessions`: goes over every session and deletes each one whose
      expiry is before `now`. */
  method DeleteExpiredSessions(db: Db, now: int)
    modifies db`sessions
    ensures db.sessions == Live(old(db.sessions), now)
  {
    var pending := db.sessions.Keys;
    while pending != {}
      invariant pending <= old(db.sessions).Keys
      invariant db.sessions.Keys <= old(db.sessions).Keys
      invariant forall sid :: sid in db.sessions ==> db.sessions[sid] == old(db.sessions)[sid]
      invariant forall sid :: sid in pending ==> sid in db.sessions
      invariant forall sid :: sid in old(db.sessions) && sid !in pending ==>
        (sid in db.sessions <==> now <= old(db.sessions)[sid].expireOn)
      decreases pending
    {
      var sid :| sid in pending;
      if now > db.sessions[sid].expireOn {
        db.DeleteSession(sid);
      }
      pending := pending - {sid};
    }
  }

  /** A later sweep removes everything an earlier one did, so sweeping twice is the
      same as sweeping once at the later time. */
  lemma LaterSweepSubsumes(sessions: map<string, SessionData>, earlier: int, later: int)
    requires earlier <= later
    ensures Live(Live(sessions, earlier), later) == Live(sessions, later)
  {
  }

  /** A session created at `createdOn` survives a sweep at `now` exactly when `now` is
      at most two minutes after its creation: the lifetime is absolute. */
  lemma SessionSurvivesSweepUntilTtl(sessions: map<string, SessionData>, sid: string, userId: string, key: Key, createdOn: int, now: int)
    ensures sid in Live(sessions[sid := NewSession(userId, key, createdOn)], now) <==> now <= createdOn + SESSION_TTL
  {
  }
}
