/** The document store the core reaches through get, set, update and delete on three
    hierarchies of paths: `users/{uid}`, `data/{uid}/passwords/{docId}` and
    `sessions/{sid}`. Each hierarchy is a map; the password sub-collections are a map
    from user id to a map from document id to record, where a user id with no entry
    stands for an empty sub-collection. */
module Store {
  import opened Crypto

  /** The document at `users/{uid}`. */
  datatype User = User(email: string, passwordHash: string)

  /** The document at `data/{uid}/passwords/{docId}`. */
  datatype Record = Record(pID: string, enc: Envelope)

  /** The document at `sessions/{sid}` (`sessionData`); times are epoch milliseconds. */
  datatype SessionData = SessionData(
    userId: string,
    key: Key,
    createdOn: int,
    lastUsedOn: int,
    expireOn: int)

  type Records = map<string, map<string, Record>>

  /** The sub-collection `data/{userId}/passwords`. */
  function Collection(data: Records, userId: string): map<string, Record>
  {
    if userId in data then data[userId] else map[]
  }

  /** Every sub-collection other than `userId`'s is the same in `a` and `b`. */
  ghost predicate SameElsewhere(a: Records, b: Records, userId: string)
  {
    forall u :: u != userId ==> Collection(a, u) == Collection(b, u)
  }

  /** The records after a `set` of `r` at `data/{userId}/passwords/{docId}`. */
  function Put(data: Records, userId: string, docId: string, r: Record): (d: Records)
    ensures Collection(d, userId) == Collection(data, userId)[docId := r]
    ensures SameElsewhere(d, data, userId)
  {
    data[userId := Collection(data, userId)[docId := r]]
  }

  /** The records after a `delete` of `data/{userId}/passwords/{docId}`; deleting a
      document that does not exist changes nothing. */
  function Remove(data: Records, userId: string, docId: string): (d: Records)
    ensures Collection(d, userId) == Collection(data, userId) - {docId}
    ensures SameElsewhere(d, data, userId)
    ensures docId !in Collection(data, userId) ==> d == data
  {
    if docId in Collection(data, userId) then data[userId := data[userId] - {docId}] else data
  }

  /** The store, updated in place by the core. */
  class Db {
    var users: map<string, User>
    var data: Records
    var sessions: map<string, SessionData>

    constructor ()
      ensures users == map[] && data == map[] && sessions == map[]
    {
      users, data, sessions := map[], map[], map[];
    }

    method SetUser(uid: string, u: User)
      modifies this`users
      ensures users == old(users)[uid := u]
    {
      users := users[uid := u];
    }

    /** `update({passwordHash})` on a user document; the store rejects an update of
        a document that does not exist. */
    method UpdatePasswordHash(uid: string, passwordHash: string)
      requires uid in users
      modifies this`users
      ensures users == old(users)[uid := old(users)[uid].(passwordHash := passwordHash)]
    {
      users := users[uid := users[uid].(passwordHash := passwordHash)];
    }

    method SetRecord(userId: string, docId: string, r: Record)
      modifies this`data
      ensures data == Put(old(data), userId, docId, r)
    {
      data := Put(data, userId, docId, r);
    }

    /** `update({enc})` on a record; the store rejects an update of a document that
        does not exist. */
    method UpdateEnc(userId: string, docId: string, enc: Envelope)
      requires docId in Collection(data, userId)
      modifies this`data
      ensures data == Put(old(data), userId, docId, Collection(old(data), userId)[docId].(enc := enc))
    {
      data := Put(data, userId, docId, Collection(data, userId)[docId].(enc := enc));
    }

    method DeleteRecord(userId: string, docId: string)
      modifies this`data
      ensures data == Remove(old(data), userId, docId)
    {
      data := Remove(data, userId, docId);
    }

    method SetSession(sid: string, s: SessionData)
      modifies this`sessions
      ensures sessions == old(sessions)[sid := s]
    {
      sessions := sessions[sid := s];
    }

    method DeleteSession(sid: string)
      modifies this`sessions
      ensures sessions == old(sessions) - {sid}
    {
      sessions := sessions - {sid};
    }
  }
}
