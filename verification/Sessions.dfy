/** The two session stores: the in-memory one, and the Redis one with a key per
    session and an index key per user, each with its own expiry. */
module Sessions {
  import opened Basics
  import opened Leases
  import opened RoutingTag
  import opened JobPayloads

  datatype SessionData = SessionData(id: string, user: string, data: Payload)

  // -------------------------------------------------------- in-memory store

  datatype FakeDb = FakeDb(sessions: map<string, Timed<SessionData>>, users: map<string, set<string>>)

  /** The per-user index is exact. */
  ghost predicate FakeOk(db: FakeDb) {
    && (forall id :: id in db.sessions ==>
          var user := db.sessions[id].value.user;
          db.sessions[id].value.id == id && user in db.users && id in db.users[user])
    && (forall u, id :: u in db.users && id in db.users[u] ==> id in db.sessions && db.sessions[id].value.user == u)
    && (forall u :: u in db.users ==> db.users[u] != {})
  }

  function Unindex(users: map<string, set<string>>, user: string, id: string): map<string, set<string>> {
    if user !in users then users
    else if users[user] - {id} == {} then users - {user}
    else users[user := users[user] - {id}]
  }

  function FakeRevoke(db: FakeDb, id: string): FakeDb {
    if id !in db.sessions then db
    else FakeDb(db.sessions - {id}, Unindex(db.users, db.sessions[id].value.user, id))
  }

  function FakeCreate(db: FakeDb, s: SessionData, now: real, ttl: real): FakeDb {
    var db1 := FakeRevoke(db, s.id);
    FakeDb(db1.sessions[s.id := Timed(s, now + ttl)],
           db1.users[s.user := (if s.user in db1.users then db1.users[s.user] else {}) + {s.id}])
  }

  function FakeGet(db: FakeDb, id: string, now: real): Option<SessionData> {
    match Alive(Find(db.sessions, id), now)
    case None => None
    case Some(stored) => Some(stored.value)
  }

  /** A read drops a session it finds expired. */
  function AfterFakeGet(db: FakeDb, id: string, now: real): FakeDb {
    if FakeGet(db, id, now).None? then FakeRevoke(db, id) else db
  }

  function FakeRefresh(db: FakeDb, id: string, now: real, ttl: real): FakeDb {
    match FakeGet(db, id, now)
    case None => FakeRevoke(db, id)
    case Some(s) => db.(sessions := db.sessions[id := Timed(s, now + ttl)])
  }

  function FakeRevokeUser(db: FakeDb, user: string): FakeDb {
    if user !in db.users then db else FakeDb(db.sessions - db.users[user], db.users - {user})
  }

  // ------------------------------------------------------------ Redis store

  datatype Item = Session(user: string, data: Payload) | Members(ids: set<string>)

  type Redis = map<string, Timed<Item>>

  function SK(id: string): string {
    if SessionKey(id).Some? then SessionKey(id).value else ""
  }

  function UK(user: string): string {
    if UserKey(user).Some? then UserKey(user).value else ""
  }

  function Live(r: Redis, key: string, now: real): Option<Timed<Item>> {
    Alive(Find(r, key), now)
  }

  function MembersAt(r: Redis, key: string, now: real): set<string> {
    match Live(r, key, now)
    case Some(Timed(Members(ids), _)) => ids
    case _ => {}
  }

  function Expire(r: Redis, key: string, now: real, ttl: real): Redis {
    if Live(r, key, now).Some? then r[key := Timed(r[key].value, now + ttl)] else r
  }

  /** Removing the last member removes the key. */
  function SRem(r: Redis, key: string, id: string, now: real): Redis {
    if Live(r, key, now).None? || !r[key].value.Members? then r
    else
      var rest := r[key].value.ids - {id};
      if rest == {} then r - {key} else r[key := Timed(Members(rest), r[key].until)]
  }

  function RedisCreate(r: Redis, s: SessionData, now: real, ttl: real): Redis {
    if !BelongsTo(s.id, s.user) then r
    else
      var r1 := r[SK(s.id) := Timed(Session(s.user, s.data), now + ttl)];
      r1[UK(s.user) := Timed(Members(MembersAt(r1, UK(s.user), now) + {s.id}), now + ttl)]
  }

  function RedisGet(r: Redis, id: string, now: real): Option<SessionData> {
    match Live(r, SK(id), now)
    case Some(Timed(Session(user, data), _)) => Some(SessionData(id, user, data))
    case _ => None
  }

  function RedisRefresh(r: Redis, id: string, now: real, ttl: real): Redis {
    match RedisGet(r, id, now)
    case None => r
    case Some(s) => Expire(Expire(r, SK(id), now, ttl), UK(s.user), now, ttl)
  }

  function RedisRevoke(r: Redis, id: string, now: real): Redis {
    match RedisGet(r, id, now)
    case None => r
    case Some(s) => SRem(r - {SK(id)}, UK(s.user), id, now)
  }

  function RedisRevokeUser(r: Redis, user: string, now: real): Redis {
    var ids := MembersAt(r, UK(user), now);
    if ids == {} then r else r - (set id | id in ids :: SK(id)) - {UK(user)}
  }

  // --------------------------------------------------------------- histories

  datatype Op =
    | Create(session: SessionData)
    | Get(id: string)
    | Refresh(id: string)
    | Revoke(id: string)
    | RevokeUser(user: string)

  datatype Call = Call(at: real, op: Op)

  function FakeApply(db: FakeDb, c: Call, ttl: real): FakeDb {
    match c.op
    case Create(s) => FakeCreate(db, s, c.at, ttl)
    case Get(id) => AfterFakeGet(db, id, c.at)
    case Refresh(id) => FakeRefresh(db, id, c.at, ttl)
    case Revoke(id) => FakeRevoke(db, id)
    case RevokeUser(user) => FakeRevokeUser(db, user)
  }

  function RedisApply(r: Redis, c: Call, ttl: real): Redis {
    match c.op
    case Create(s) => RedisCreate(r, s, c.at, ttl)
    case Get(id) => r
    case Refresh(id) => RedisRefresh(r, id, c.at, ttl)
    case Revoke(id) => RedisRevoke(r, id, c.at)
    case RevokeUser(user) => RedisRevokeUser(r, user, c.at)
  }

  function FakeRun(calls: seq<Call>, ttl: real): FakeDb {
    if calls == [] then FakeDb(map[], map[])
    else FakeApply(FakeRun(calls[..|calls| - 1], ttl), calls[|calls| - 1], ttl)
  }

  function RedisRun(calls: seq<Call>, ttl: real): Redis {
    if calls == [] then map[]
    else RedisApply(RedisRun(calls[..|calls| - 1], ttl), calls[|calls| - 1], ttl)
  }

  /** The id was made by `create_session_id` for some user. */
  ghost predicate IsSessionId(id: string) {
    exists u :: BelongsTo(id, u)
  }

  ghost predicate WellFormed(op: Op) {
    match op
    case Create(s) => BelongsTo(s.id, s.user)
    case Get(id) => IsSessionId(id)
    case Refresh(id) => IsSessionId(id)
    case Revoke(id) => IsSessionId(id)
    case RevokeUser(user) => user != ""
  }

  /** The clock never runs backwards, and ids are the service's own. */
  ghost predicate IsHistory(calls: seq<Call>) {
    && (forall i :: 0 <= i < |calls| ==> WellFormed(calls[i].op))
    && (forall i, j :: 0 <= i < j < |calls| ==> calls[i].at <= calls[j].at)
  }

  // ---------------------------------------------------- the stores, as coded

  class FakeSessionStore {
    const ttl: real
    var sessions: map<string, Timed<SessionData>>
    var users: map<string, set<string>>

    ghost function Db(): FakeDb
      reads this
    {
      FakeDb(sessions, users)
    }

    constructor (ttl: real)
      requires ttl > 0.0
      ensures this.ttl == ttl && Db() == FakeDb(map[], map[]) && FakeOk(Db())
    {
      this.ttl := ttl;
      sessions := map[];
      users := map[];
    }

    method RevokeSession(id: string) returns (revoked: bool)
      modifies this
      ensures Db() == FakeRevoke(old(Db()), id)
      ensures revoked <==> id in old(sessions)
    {
      if id !in sessions {
        return false;
      }
      var user := sessions[id].value.user;
      sessions := sessions - {id};
      if user in users {
        users := users[user := users[user] - {id}];
        if users[user] == {} {
          users := users - {user};
        }
      }
      assert users == Unindex(old(users), user, id);
      return true;
    }

    method CreateSession(s: SessionData, now: real)
      modifies this
      ensures Db() == FakeCreate(old(Db()), s, now, ttl)
    {
      var _ := RevokeSession(s.id);
      sessions := sessions[s.id := Timed(s, now + ttl)];
      users := users[s.user := (if s.user in users then users[s.user] else {}) + {s.id}];
    }

    method GetSession(id: string, now: real) returns (s: Option<SessionData>)
      modifies this
      ensures s == FakeGet(old(Db()), id, now)
      ensures Db() == AfterFakeGet(old(Db()), id, now)
    {
      if id !in sessions {
        return None;
      }
      if sessions[id].until <= now {
        var _ := RevokeSession(id);
        return None;
      }
      return Some(sessions[id].value);
    }

    method RefreshSession(id: string, now: real) returns (refreshed: bool)
      modifies this
      ensures refreshed <==> FakeGet(old(Db()), id, now).Some?
      ensures Db() == FakeRefresh(old(Db()), id, now, ttl)
    {
      var s := GetSession(id, now);
      if s.None? {
        return false;
      }
      sessions := sessions[id := Timed(s.value, now + ttl)];
      return true;
    }

    /** Revoking one by one empties exactly the user's part of the store. */
    method RevokeUserSessions(user: string) returns (count: nat)
      requires FakeOk(Db())
      modifies this
      ensures Db() == FakeRevokeUser(old(Db()), user)
      ensures count == if user in old(users) then |old(users)[user]| else 0
    {
      var ids := if user in users then users[user] else {};
      var todo := ids;
      while todo != {}
        invariant todo <= ids
        invariant sessions == old(sessions) - (ids - todo)
        invariant users == if todo == {} then old(users) - {user} else old(users)[user := todo]
      {
        var id :| id in todo;
        var _ := RevokeSession(id);
        todo := todo - {id};
      }
      assert sessions == old(sessions) - ids;
      assert user !in old(users) ==> sessions == old(sessions) && users == old(users);
      return |ids|;
    }
  }

  datatype Lookup = Refused | Missing | Found(session: SessionData)

  class RedisSessionStore {
    const ttl: real
    var redis: Redis

    constructor (ttl: real)
      ensures this.ttl == ttl && redis == map[]
    {
      this.ttl := ttl;
      redis := map[];
    }

    /** Refuses an id that is not the user's own. */
    method CreateSession(s: SessionData, now: real) returns (created: bool)
      modifies this
      ensures created <==> BelongsTo(s.id, s.user)
      ensures redis == RedisCreate(old(redis), s, now, ttl)
    {
      if SessionTag(s.id).None? || UserTag(s.user).None? || SessionTag(s.id) != UserTag(s.user) {
        return false;
      }
      var key, index := SessionKey(s.id).value, UserKey(s.user).value;
      redis := redis[key := Timed(Session(s.user, s.data), now + ttl)];
      redis := redis[index := Timed(Members(MembersAt(redis, index, now) + {s.id}), now + ttl)];
      return true;
    }

    method GetSession(id: string, now: real) returns (answer: Lookup)
      ensures answer.Refused? <==> SessionTag(id).None?
      ensures !answer.Refused? ==>
        answer == match RedisGet(redis, id, now) case None => Missing case Some(s) => Found(s)
    {
      if SessionKey(id).None? {
        return Refused;
      }
      match Live(redis, SessionKey(id).value, now) {
        case Some(Timed(Session(user, data), _)) => return Found(SessionData(id, user, data));
        case _ => return Missing;
      }
    }

    /** `None` where a malformed id raises. */
    method RefreshSession(id: string, now: real) returns (refreshed: Option<bool>)
      modifies this
      ensures refreshed.None? <==> SessionTag(id).None?
      ensures refreshed.None? ==> redis == old(redis)
      ensures refreshed.Some? ==>
        && (refreshed.value <==> RedisGet(old(redis), id, now).Some?)
        && redis == RedisRefresh(old(redis), id, now, ttl)
    {
      var s := GetSession(id, now);
      if s.Refused? {
        return None;
      }
      if s.Missing? {
        return Some(false);
      }
      redis := Expire(redis, SK(id), now, ttl);
      redis := Expire(redis, UK(s.session.user), now, ttl);
      return Some(true);
    }

    method RevokeSession(id: string, now: real) returns (revoked: Option<bool>)
      modifies this
      ensures revoked.None? <==> SessionTag(id).None?
      ensures revoked.None? ==> redis == old(redis)
      ensures revoked.Some? ==>
        && (revoked.value <==> RedisGet(old(redis), id, now).Some?)
        && redis == RedisRevoke(old(redis), id, now)
    {
      var s := GetSession(id, now);
      if s.Refused? {
        return None;
      }
      if s.Missing? {
        return Some(false);
      }
      redis := redis - {SK(id)};
      redis := SRem(redis, UK(s.session.user), id, now);
      return Some(true);
    }

    method RevokeUserSessions(user: string, now: real) returns (count: Option<nat>)
      modifies this
      ensures count.None? <==> user == ""
      ensures count.None? ==> redis == old(redis)
      ensures count.Some? ==>
        && count.value == |MembersAt(old(redis), UK(user), now)|
        && redis == RedisRevokeUser(old(redis), user, now)
    {
      if user == "" {
        return None;
      }
      var ids := MembersAt(redis, UK(user), now);
      if ids == {} {
        return Some(0);
      }
      redis := redis - (set id | id in ids :: SK(id)) - {UK(user)};
      return Some(|ids|);
    }
  }
}
