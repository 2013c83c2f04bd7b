/** The Redis session store agrees with the in-memory one. */
module SessionRefinement {
  import opened Basics
  import opened Leases
  import opened RoutingTag
  import opened Sessions

  // --------------------------------------------------------------- coupling

  function View(item: Option<Timed<Item>>, id: string): Option<Timed<SessionData>> {
    match item
    case Some(Timed(Session(user, data), until)) => Some(Timed(SessionData(id, user, data), until))
    case _ => None
  }

  /** What the in-memory entry `f` of a session, its Redis item `s` and the index
      item `x` of its user `u` have to do with each other: a session is alive in
      both stores alike, and while it is, it is in its user's index, which expires
      no earlier. Nothing outlives a full time to live. */
  ghost predicate PairOk(f: Option<Timed<SessionData>>, s: Option<Timed<Item>>, x: Option<Timed<Item>>,
                         id: string, u: string, now: real, ttl: real) {
    && (f.Some? ==> f.value.value.id == id && f.value.value.user == u)
    && (s.Some? ==> s.value.value.Session? && s.value.value.user == u && s.value.until <= now + ttl)
    && (x.Some? ==> x.value.value.Members?)
    && View(Alive(s, now), id) == Alive(f, now)
    && (Alive(s, now).Some? ==>
          Alive(x, now).Some? && id in x.value.value.ids && s.value.until <= x.value.until)
  }

  ghost predicate IndexOk(x: Option<Timed<Item>>, u: string) {
    x.Some? ==> x.value.value.Members? && forall id :: id in x.value.value.ids ==> BelongsTo(id, u)
  }

  ghost predicate Paired(f: FakeDb, r: Redis, id: string, u: string, now: real, ttl: real) {
    PairOk(Find(f.sessions, id), Find(r, SK(id)), Find(r, UK(u)), id, u, now, ttl)
  }

  ghost predicate Coupled(f: FakeDb, r: Redis, now: real, ttl: real) {
    && FakeOk(f)
    && (forall id, u :: BelongsTo(id, u) ==> Paired(f, r, id, u, now, ttl))
    && (forall u :: u != "" ==> IndexOk(Find(r, UK(u)), u))
  }

  lemma Later(f: FakeDb, r: Redis, now: real, later: real, ttl: real)
    requires Coupled(f, r, now, ttl) && now <= later
    ensures Coupled(f, r, later, ttl)
  {
    forall id, u | BelongsTo(id, u) ensures Paired(f, r, id, u, later, ttl) {
      assert Paired(f, r, id, u, now, ttl);
    }
  }

  // ------------------------------------------------------------------- keys

  /** Keys collide only where they must. */
  lemma KeysApart(id: string, u: string, id': string, u': string)
    requires BelongsTo(id, u) && BelongsTo(id', u')
    ensures SK(id) == SK(id') <==> id == id'
    ensures UK(u) == UK(u') <==> u == u'
    ensures SK(id) != UK(u') && SK(id') != UK(u)
    ensures id == id' ==> u == u'
  {
    KeysShareHashTag(id, u);
    KeysShareHashTag(id', u');
    if SK(id) == SK(id') {
      SessionKeyInjective(id, u, id', u');
    }
    if UK(u) == UK(u') {
      UserKeyInjective(u, u');
    }
    SessionKeyIsNoUserKey(id, u, u');
    SessionKeyIsNoUserKey(id', u', u);
    if id == id' {
      OneOwner(id, u, u');
    }
  }

  lemma IndexKeysApart(id: string, u: string, v: string)
    requires BelongsTo(id, u) && v != ""
    ensures SK(id) != UK(v)
    ensures UK(u) == UK(v) <==> u == v
  {
    CreatedIdBelongs(v, "x", v);
    KeysApart(id, u, CreateSessionId(v, "x").value, v);
  }

  // --------------------------------------------- the in-memory store's index

  lemma RevokeKeepsFake(f: FakeDb, id: string)
    requires FakeOk(f)
    ensures FakeOk(FakeRevoke(f, id))
    ensures forall k :: Find(FakeRevoke(f, id).sessions, k) == if k == id then None else Find(f.sessions, k)
  {
  }

  /** Adding a session that is not there to its user's index. */
  lemma AddKeepsFake(f: FakeDb, s: SessionData, until: real, f': FakeDb)
    requires FakeOk(f) && s.id !in f.sessions
    requires f'.sessions == f.sessions[s.id := Timed(s, until)]
    requires f'.users == f.users[s.user := (if s.user in f.users then f.users[s.user] else {}) + {s.id}]
    ensures FakeOk(f')
  {
    forall u, id | u in f'.users && id in f'.users[u] ensures id in f'.sessions && f'.sessions[id].value.user == u {
      if !(u == s.user && id == s.id) {
        IndexedOwner(f, u, id);
      }
    }
  }

  lemma IndexedOwner(f: FakeDb, u: string, id: string)
    requires FakeOk(f) && u in f.users && id in f.users[u]
    ensures id in f.sessions && f.sessions[id].value.user == u
  {
  }

  lemma CreateKeepsFake(f: FakeDb, s: SessionData, now: real, ttl: real)
    requires FakeOk(f)
    ensures FakeOk(FakeCreate(f, s, now, ttl))
    ensures forall k :: Find(FakeCreate(f, s, now, ttl).sessions, k) == if k == s.id then Some(Timed(s, now + ttl)) else Find(f.sessions, k)
  {
    RevokeKeepsFake(f, s.id);
    assert s.id !in FakeRevoke(f, s.id).sessions;
    AddKeepsFake(FakeRevoke(f, s.id), s, now + ttl, FakeCreate(f, s, now, ttl));
  }

  lemma RevokeUserKeepsFake(f: FakeDb, user: string, f': FakeDb)
    requires FakeOk(f) && f' == FakeRevokeUser(f, user)
    ensures FakeOk(f')
    ensures forall k :: Find(f'.sessions, k) == if k in f.sessions && f.sessions[k].value.user == user then None else Find(f.sessions, k)
  {
    forall u, id | u in f'.users && id in f'.users[u] ensures id in f'.sessions && f'.sessions[id].value.user == u {
      forall v | v in f.users && id in f.users[v] ensures v == u {
        IndexedOwner(f, v, id);
        IndexedOwner(f, u, id);
      }
    }
  }

  // ------------------------------------------------------------------- calls

  /** The keys `sk`, `uk` of one session and `k`, `x` of another. */
  ghost predicate Apart(id: string, u: string, sk: string, uk: string, id': string, u': string, k: string, x: string) {
    && (sk == k <==> id == id')
    && (uk == x <==> u == u')
    && sk != x && k != uk
    && (id == id' ==> u == u')
  }

  lemma CreateAt(fs: Option<Timed<SessionData>>, r: Redis, s: SessionData, sk: string, uk: string, now: real, ttl: real,
                 fs': Option<Timed<SessionData>>, r': Redis, id: string, u: string, k: string, x: string)
    requires PairOk(fs, Find(r, k), Find(r, x), id, u, now, ttl) && ttl > 0.0
    requires Apart(s.id, s.user, sk, uk, id, u, k, x)
    requires fs' == if id == s.id then Some(Timed(s, now + ttl)) else fs
    requires r' == r[sk := Timed(Session(s.user, s.data), now + ttl)][uk := Timed(Members(MembersAt(r, uk, now) + {s.id}), now + ttl)]
    ensures PairOk(fs', Find(r', k), Find(r', x), id, u, now, ttl)
  {
  }

  lemma CreateUnfolds(r: Redis, s: SessionData, now: real, ttl: real, r': Redis)
    requires BelongsTo(s.id, s.user) && r' == RedisCreate(r, s, now, ttl)
    ensures r' == r[SK(s.id) := Timed(Session(s.user, s.data), now + ttl)][UK(s.user) := Timed(Members(MembersAt(r, UK(s.user), now) + {s.id}), now + ttl)]
  {
    KeysApart(s.id, s.user, s.id, s.user);
  }

  lemma CreatePair(f: FakeDb, r: Redis, s: SessionData, now: real, ttl: real, f': FakeDb, r': Redis, id: string, u: string)
    requires BelongsTo(s.id, s.user) && BelongsTo(id, u) && Paired(f, r, id, u, now, ttl) && ttl > 0.0
    requires Find(f'.sessions, id) == if id == s.id then Some(Timed(s, now + ttl)) else Find(f.sessions, id)
    requires r' == RedisCreate(r, s, now, ttl)
    ensures Paired(f', r', id, u, now, ttl)
  {
    KeysApart(s.id, s.user, id, u);
    CreateUnfolds(r, s, now, ttl, r');
    CreateAt(Find(f.sessions, id), r, s, SK(s.id), UK(s.user), now, ttl, Find(f'.sessions, id), r', id, u, SK(id), UK(u));
  }

  lemma CreateIndex(r: Redis, s: SessionData, now: real, ttl: real, r': Redis, u: string)
    requires BelongsTo(s.id, s.user) && u != "" && IndexOk(Find(r, UK(u)), u) && r' == RedisCreate(r, s, now, ttl)
    ensures IndexOk(Find(r', UK(u)), u)
  {
    KeysApart(s.id, s.user, s.id, s.user);
    IndexKeysApart(s.id, s.user, u);
  }

  lemma CreateKeepsCoupling(f: FakeDb, r: Redis, s: SessionData, now: real, ttl: real)
    requires Coupled(f, r, now, ttl) && BelongsTo(s.id, s.user) && ttl > 0.0
    ensures Coupled(FakeCreate(f, s, now, ttl), RedisCreate(r, s, now, ttl), now, ttl)
  {
    var f', r' := FakeCreate(f, s, now, ttl), RedisCreate(r, s, now, ttl);
    CreateKeepsFake(f, s, now, ttl);
    forall id, u | BelongsTo(id, u) ensures Paired(f', r', id, u, now, ttl) {
      CreatePair(f, r, s, now, ttl, f', r', id, u);
    }
    forall u | u != "" ensures IndexOk(Find(r', UK(u)), u) {
      CreateIndex(r, s, now, ttl, r', u);
    }
  }

  lemma DropKeepsCoupling(f: FakeDb, r: Redis, id: string, now: real, ttl: real)
    requires Coupled(f, r, now, ttl) && IsSessionId(id) && RedisGet(r, id, now).None?
    ensures FakeGet(f, id, now).None?
    ensures Coupled(FakeRevoke(f, id), r, now, ttl)
  {
    var f' := FakeRevoke(f, id);
    RevokeKeepsFake(f, id);
    var owner :| BelongsTo(id, owner);
    assert Paired(f, r, id, owner, now, ttl);
    forall k, u | BelongsTo(k, u) ensures Paired(f', r, k, u, now, ttl) {
      assert Paired(f, r, k, u, now, ttl);
    }
  }

  /** A refresh of a live session renews both its keys. */
  lemma RefreshUnfolds(r: Redis, id: string, u: string, s: SessionData, now: real, ttl: real, r': Redis)
    requires BelongsTo(id, u) && RedisGet(r, id, now) == Some(s) && s.user == u && Live(r, UK(u), now).Some?
    requires r' == RedisRefresh(r, id, now, ttl)
    ensures r' == r[SK(id) := Timed(r[SK(id)].value, now + ttl)][UK(u) := Timed(r[UK(u)].value, now + ttl)]
  {
    KeysApart(id, u, id, u);
  }

  lemma RefreshAt(fs: Option<Timed<SessionData>>, r: Redis, id: string, u: string, sk: string, uk: string, now: real, ttl: real,
                  fs': Option<Timed<SessionData>>, r': Redis, id': string, u': string, k: string, x: string)
    requires PairOk(fs, Find(r, k), Find(r, x), id', u', now, ttl) && ttl > 0.0
    requires Apart(id, u, sk, uk, id', u', k, x) && Alive(Find(r, sk), now).Some? && Alive(Find(r, uk), now).Some?
    requires id == id' ==> fs.Some? && fs' == Some(Timed(fs.value.value, now + ttl))
    requires id != id' ==> fs' == fs
    requires r' == r[sk := Timed(r[sk].value, now + ttl)][uk := Timed(r[uk].value, now + ttl)]
    ensures PairOk(fs', Find(r', k), Find(r', x), id', u', now, ttl)
  {
  }

  lemma RefreshPair(f: FakeDb, r: Redis, id: string, u: string, s: SessionData, now: real, ttl: real, f': FakeDb, r': Redis,
                    k: string, v: string)
    requires BelongsTo(id, u) && BelongsTo(k, v) && Paired(f, r, k, v, now, ttl) && ttl > 0.0
    requires Live(r, SK(id), now).Some? && Live(r, UK(u), now).Some?
    requires f' == FakeRefresh(f, id, now, ttl) && FakeGet(f, id, now) == Some(s)
    requires r' == r[SK(id) := Timed(r[SK(id)].value, now + ttl)][UK(u) := Timed(r[UK(u)].value, now + ttl)]
    ensures Paired(f', r', k, v, now, ttl)
  {
    KeysApart(id, u, k, v);
    RefreshAt(Find(f.sessions, k), r, id, u, SK(id), UK(u), now, ttl, Find(f'.sessions, k), r', k, v, SK(k), UK(v));
  }

  lemma RefreshIndex(r: Redis, id: string, u: string, now: real, ttl: real, r': Redis, v: string)
    requires BelongsTo(id, u) && v != "" && IndexOk(Find(r, UK(v)), v) && SK(id) in r && UK(u) in r
    requires r' == r[SK(id) := Timed(r[SK(id)].value, now + ttl)][UK(u) := Timed(r[UK(u)].value, now + ttl)]
    ensures IndexOk(Find(r', UK(v)), v)
  {
    IndexKeysApart(id, u, v);
  }

  lemma RefreshKeepsFake(f: FakeDb, id: string, s: SessionData, now: real, ttl: real)
    requires FakeOk(f) && FakeGet(f, id, now) == Some(s)
    ensures FakeOk(FakeRefresh(f, id, now, ttl))
  {
  }

  lemma RefreshKeepsCoupling(f: FakeDb, r: Redis, id: string, u: string, s: SessionData, now: real, ttl: real)
    requires Coupled(f, r, now, ttl) && BelongsTo(id, u) && RedisGet(r, id, now) == Some(s) && ttl > 0.0
    ensures Coupled(FakeRefresh(f, id, now, ttl), RedisRefresh(r, id, now, ttl), now, ttl)
  {
    var f', r' := FakeRefresh(f, id, now, ttl), RedisRefresh(r, id, now, ttl);
    assert Paired(f, r, id, u, now, ttl);
    RefreshKeepsFake(f, id, s, now, ttl);
    RefreshUnfolds(r, id, u, s, now, ttl, r');
    forall k, v | BelongsTo(k, v) ensures Paired(f', r', k, v, now, ttl) {
      RefreshPair(f, r, id, u, s, now, ttl, f', r', k, v);
    }
    forall v | v != "" ensures IndexOk(Find(r', UK(v)), v) {
      RefreshIndex(r, id, u, now, ttl, r', v);
    }
  }

  /** Revoking a live session deletes its key and takes it out of the index. */
  function Revoked(r: Redis, sk: string, uk: string, rest: set<string>, until: real): Redis {
    if rest == {} then r - {sk} - {uk} else (r - {sk})[uk := Timed(Members(rest), until)]
  }

  lemma RevokeUnfolds(r: Redis, id: string, u: string, s: SessionData, now: real)
    requires BelongsTo(id, u) && RedisGet(r, id, now) == Some(s) && s.user == u
    requires Live(r, UK(u), now).Some? && r[UK(u)].value.Members?
    ensures RedisRevoke(r, id, now) == Revoked(r, SK(id), UK(u), r[UK(u)].value.ids - {id}, r[UK(u)].until)
  {
    KeysApart(id, u, id, u);
    assert Live(r - {SK(id)}, UK(u), now) == Live(r, UK(u), now);
  }

  lemma RevokeAt(fs: Option<Timed<SessionData>>, r: Redis, id: string, u: string, sk: string, uk: string, now: real, ttl: real,
                 fs': Option<Timed<SessionData>>, r': Redis, id': string, u': string, k: string, x: string)
    requires PairOk(fs, Find(r, k), Find(r, x), id', u', now, ttl)
    requires Apart(id, u, sk, uk, id', u', k, x) && uk in r && r[uk].value.Members?
    requires fs' == if id == id' then None else fs
    requires r' == Revoked(r, sk, uk, r[uk].value.ids - {id}, r[uk].until)
    ensures PairOk(fs', Find(r', k), Find(r', x), id', u', now, ttl)
  {
    if u == u' && id != id' && Alive(Find(r, k), now).Some? {
      assert id' in r[uk].value.ids - {id};
    }
  }

  lemma RevokePair(f: FakeDb, r: Redis, id: string, u: string, now: real, ttl: real, f': FakeDb, r': Redis, k: string, v: string)
    requires BelongsTo(id, u) && BelongsTo(k, v) && Paired(f, r, k, v, now, ttl)
    requires UK(u) in r && r[UK(u)].value.Members?
    requires Find(f'.sessions, k) == if k == id then None else Find(f.sessions, k)
    requires r' == Revoked(r, SK(id), UK(u), r[UK(u)].value.ids - {id}, r[UK(u)].until)
    ensures Paired(f', r', k, v, now, ttl)
  {
    KeysApart(id, u, k, v);
    RevokeAt(Find(f.sessions, k), r, id, u, SK(id), UK(u), now, ttl, Find(f'.sessions, k), r', k, v, SK(k), UK(v));
  }

  lemma RevokeIndex(r: Redis, id: string, u: string, r': Redis, v: string)
    requires BelongsTo(id, u) && v != "" && IndexOk(Find(r, UK(v)), v) && UK(u) in r && r[UK(u)].value.Members?
    requires r' == Revoked(r, SK(id), UK(u), r[UK(u)].value.ids - {id}, r[UK(u)].until)
    ensures IndexOk(Find(r', UK(v)), v)
  {
    IndexKeysApart(id, u, v);
  }

  lemma RevokeKeepsCoupling(f: FakeDb, r: Redis, id: string, u: string, s: SessionData, now: real, ttl: real)
    requires Coupled(f, r, now, ttl) && BelongsTo(id, u) && RedisGet(r, id, now) == Some(s)
    ensures Coupled(FakeRevoke(f, id), RedisRevoke(r, id, now), now, ttl)
  {
    var f', r' := FakeRevoke(f, id), RedisRevoke(r, id, now);
    RevokeKeepsFake(f, id);
    assert Paired(f, r, id, u, now, ttl);
    RevokeUnfolds(r, id, u, s, now);
    forall k, v | BelongsTo(k, v) ensures Paired(f', r', k, v, now, ttl) {
      RevokePair(f, r, id, u, now, ttl, f', r', k, v);
    }
    forall v | v != "" ensures IndexOk(Find(r', UK(v)), v) {
      RevokeIndex(r, id, u, r', v);
    }
  }

  function SessionKeys(ids: set<string>): set<string> {
    set id | id in ids :: SK(id)
  }

  lemma KeysOfOthers(ids: set<string>, user: string, k: string, v: string)
    requires BelongsTo(k, v) && forall id :: id in ids ==> BelongsTo(id, user)
    ensures SK(k) in SessionKeys(ids) <==> k in ids
    ensures UK(v) !in SessionKeys(ids)
  {
    forall id | id in ids ensures (SK(id) == SK(k) <==> id == k) && SK(id) != UK(v) {
      KeysApart(id, user, k, v);
    }
  }

  lemma RevokedKeys(r: Redis, user: string, ids: set<string>, k: string, v: string, r': Redis)
    requires user != "" && BelongsTo(k, v) && forall id :: id in ids ==> BelongsTo(id, user)
    requires r' == r - SessionKeys(ids) - {UK(user)}
    ensures Find(r', SK(k)) == if k in ids then None else Find(r, SK(k))
    ensures Find(r', UK(v)) == if v == user then None else Find(r, UK(v))
  {
    KeysOfOthers(ids, user, k, v);
    IndexKeysApart(k, v, user);
  }

  lemma RevokeUserPair(f: FakeDb, r: Redis, user: string, ids: set<string>, now: real, ttl: real, f': FakeDb, r': Redis, k: string, v: string)
    requires user != "" && BelongsTo(k, v) && (forall id :: id in ids ==> BelongsTo(id, user)) && Paired(f, r, k, v, now, ttl)
    requires ids == MembersAt(r, UK(user), now)
    requires Find(f'.sessions, k) == if k in f.sessions && f.sessions[k].value.user == user then None else Find(f.sessions, k)
    requires r' == if ids == {} then r else r - SessionKeys(ids) - {UK(user)}
    ensures Paired(f', r', k, v, now, ttl)
  {
    RevokedKeys(r, user, ids, k, v, r - SessionKeys(ids) - {UK(user)});
    if k in ids {
      OneOwner(k, v, user);
    }
  }

  lemma RevokeUserIndex(r: Redis, user: string, ids: set<string>, r': Redis, v: string)
    requires user != "" && v != "" && (forall id :: id in ids ==> BelongsTo(id, user)) && IndexOk(Find(r, UK(v)), v)
    requires r' == if ids == {} then r else r - SessionKeys(ids) - {UK(user)}
    ensures IndexOk(Find(r', UK(v)), v)
  {
    CreatedIdBelongs(v, "x", v);
    RevokedKeys(r, user, ids, CreateSessionId(v, "x").value, v, r - SessionKeys(ids) - {UK(user)});
  }

  lemma MembersBelong(r: Redis, user: string, now: real)
    requires IndexOk(Find(r, UK(user)), user)
    ensures forall id :: id in MembersAt(r, UK(user), now) ==> BelongsTo(id, user)
  {
  }

  lemma RevokeUserKeepsCoupling(f: FakeDb, r: Redis, user: string, now: real, ttl: real)
    requires Coupled(f, r, now, ttl) && user != ""
    ensures Coupled(FakeRevokeUser(f, user), RedisRevokeUser(r, user, now), now, ttl)
  {
    var f', r' := FakeRevokeUser(f, user), RedisRevokeUser(r, user, now);
    var ids := MembersAt(r, UK(user), now);
    RevokeUserKeepsFake(f, user, f');
    MembersBelong(r, user, now);
    assert r' == if ids == {} then r else r - SessionKeys(ids) - {UK(user)};
    forall k, v | BelongsTo(k, v) ensures Paired(f', r', k, v, now, ttl) {
      RevokeUserPair(f, r, user, ids, now, ttl, f', r', k, v);
    }
    forall v | v != "" ensures IndexOk(Find(r', UK(v)), v) {
      RevokeUserIndex(r, user, ids, r', v);
    }
  }

  lemma CallKeepsCoupling(f: FakeDb, r: Redis, c: Call, ttl: real)
    requires Coupled(f, r, c.at, ttl) && WellFormed(c.op) && ttl > 0.0
    ensures Coupled(FakeApply(f, c, ttl), RedisApply(r, c, ttl), c.at, ttl)
  {
    match c.op
    case Create(s) => CreateKeepsCoupling(f, r, s, c.at, ttl);
    case RevokeUser(user) => RevokeUserKeepsCoupling(f, r, user, c.at, ttl);
    case Get(id) => IdCallKeepsCoupling(f, r, c, id, ttl);
    case Refresh(id) => IdCallKeepsCoupling(f, r, c, id, ttl);
    case Revoke(id) => IdCallKeepsCoupling(f, r, c, id, ttl);
  }

  lemma GetAgrees(f: FakeDb, r: Redis, id: string, now: real, ttl: real)
    requires Coupled(f, r, now, ttl) && IsSessionId(id)
    ensures FakeGet(f, id, now) == RedisGet(r, id, now)
  {
    var u :| BelongsTo(id, u);
    assert Paired(f, r, id, u, now, ttl);
  }

  lemma IdCallKeepsCoupling(f: FakeDb, r: Redis, c: Call, id: string, ttl: real)
    requires Coupled(f, r, c.at, ttl) && ttl > 0.0 && IsSessionId(id)
    requires c.op == Get(id) || c.op == Refresh(id) || c.op == Revoke(id)
    ensures Coupled(FakeApply(f, c, ttl), RedisApply(r, c, ttl), c.at, ttl)
  {
    GetAgrees(f, r, id, c.at, ttl);
    var u :| BelongsTo(id, u);
    match RedisGet(r, id, c.at)
    case None => DropKeepsCoupling(f, r, id, c.at, ttl);
    case Some(s) =>
      RefreshKeepsCoupling(f, r, id, u, s, c.at, ttl);
      RevokeKeepsCoupling(f, r, id, u, s, c.at, ttl);
  }

  // --------------------------------------------------------------- histories

  lemma {:induction false} HistoryCouples(calls: seq<Call>, ttl: real, now: real)
    requires IsHistory(calls) && ttl > 0.0 && (calls != [] ==> calls[|calls| - 1].at <= now)
    ensures Coupled(FakeRun(calls, ttl), RedisRun(calls, ttl), now, ttl)
  {
    if calls != [] {
      var c, before := calls[|calls| - 1], calls[..|calls| - 1];
      HistoryCouples(before, ttl, c.at);
      CallKeepsCoupling(FakeRun(before, ttl), RedisRun(before, ttl), c, ttl);
      Later(FakeRun(calls, ttl), RedisRun(calls, ttl), c.at, now, ttl);
    }
  }

  /** After the same history with the same time to live, the two stores answer
      every `get` alike, and so every `refresh`. */
  lemma StoresAgree(calls: seq<Call>, ttl: real, now: real, id: string)
    requires IsHistory(calls) && ttl > 0.0 && (calls != [] ==> calls[|calls| - 1].at <= now) && IsSessionId(id)
    ensures FakeGet(FakeRun(calls, ttl), id, now) == RedisGet(RedisRun(calls, ttl), id, now)
  {
    HistoryCouples(calls, ttl, now);
    GetAgrees(FakeRun(calls, ttl), RedisRun(calls, ttl), id, now, ttl);
  }

  /** In Redis every live session is in its user's index, and the index expires no
      earlier than the session. */
  lemma IndexCoversSessions(calls: seq<Call>, ttl: real, now: real, id: string, u: string)
    requires IsHistory(calls) && ttl > 0.0 && (calls != [] ==> calls[|calls| - 1].at <= now) && BelongsTo(id, u)
    ensures var r := RedisRun(calls, ttl); RedisGet(r, id, now).Some? ==>
      && RedisGet(r, id, now).value.user == u
      && id in MembersAt(r, UK(u), now)
      && Live(r, SK(id), now).value.until <= Live(r, UK(u), now).value.until
  {
    HistoryCouples(calls, ttl, now);
    assert Paired(FakeRun(calls, ttl), RedisRun(calls, ttl), id, u, now, ttl);
  }

  /** `revoke` is answered differently exactly for an expired session that the
      in-memory store has not dropped yet. */
  lemma RevokeAnswersDiffer(calls: seq<Call>, ttl: real, now: real, id: string)
    requires IsHistory(calls) && ttl > 0.0 && (calls != [] ==> calls[|calls| - 1].at <= now) && IsSessionId(id)
    ensures var f, r := FakeRun(calls, ttl), RedisRun(calls, ttl);
      (id in f.sessions) != RedisGet(r, id, now).Some? <==> id in f.sessions && f.sessions[id].until <= now
  {
    StoresAgree(calls, ttl, now, id);
  }

  // --------------------------------------------------- counts of revocations

  /** What revoking a user's sessions counts, in memory and in Redis. */
  ghost function HeldFor(f: FakeDb, user: string): set<string> {
    if user in f.users then f.users[user] else {}
  }

  ghost function LiveOf(r: Redis, ids: set<string>, now: real): set<string> {
    set id | id in ids && RedisGet(r, id, now).Some?
  }

  lemma HeldIsListed(f: FakeDb, r: Redis, user: string, id: string, now: real, ttl: real)
    requires Coupled(f, r, now, ttl) && OwnIds(f) && RedisGet(r, id, now).Some? && id in HeldFor(f, user)
    ensures id in MembersAt(r, UK(user), now)
  {
    IndexedOwner(f, user, id);
    assert BelongsTo(id, user);
    assert Paired(f, r, id, user, now, ttl);
  }

  lemma ListedIsHeld(f: FakeDb, r: Redis, user: string, id: string, now: real, ttl: real)
    requires Coupled(f, r, now, ttl) && user != "" && RedisGet(r, id, now).Some? && id in MembersAt(r, UK(user), now)
    ensures id in HeldFor(f, user)
  {
    MembersBelong(r, user, now);
    assert Paired(f, r, id, user, now, ttl);
  }

  /** A user's live sessions are held in memory and listed in the index. */
  lemma LiveInBoth(f: FakeDb, r: Redis, user: string, now: real, ttl: real)
    requires Coupled(f, r, now, ttl) && OwnIds(f) && user != ""
    ensures LiveOf(r, HeldFor(f, user), now) == LiveOf(r, MembersAt(r, UK(user), now), now)
  {
    forall id | RedisGet(r, id, now).Some? && id in HeldFor(f, user) ensures id in MembersAt(r, UK(user), now) {
      HeldIsListed(f, r, user, id, now, ttl);
    }
    forall id | RedisGet(r, id, now).Some? && id in MembersAt(r, UK(user), now) ensures id in HeldFor(f, user) {
      ListedIsHeld(f, r, user, id, now, ttl);
    }
  }

  /** Every session held in memory has an id of its user's own. */
  ghost predicate OwnIds(f: FakeDb) {
    forall id :: id in f.sessions ==> BelongsTo(id, f.sessions[id].value.user)
  }

  lemma CallKeepsOwnIds(f: FakeDb, c: Call, ttl: real)
    requires OwnIds(f) && WellFormed(c.op)
    ensures OwnIds(FakeApply(f, c, ttl))
  {
  }

  lemma {:induction false} HistoryOwnIds(calls: seq<Call>, ttl: real)
    requires IsHistory(calls)
    ensures OwnIds(FakeRun(calls, ttl))
  {
    if calls != [] {
      HistoryOwnIds(calls[..|calls| - 1], ttl);
      CallKeepsOwnIds(FakeRun(calls[..|calls| - 1], ttl), calls[|calls| - 1], ttl);
    }
  }

  /** Revoking all sessions of a user is counted differently exactly if the expired
      sessions of the user that memory still holds and the expired ids that the live
      index still lists differ in number. */
  lemma RevokeUserCountsDiffer(calls: seq<Call>, ttl: real, now: real, user: string)
    requires IsHistory(calls) && ttl > 0.0 && (calls != [] ==> calls[|calls| - 1].at <= now) && user != ""
    ensures var f, r := FakeRun(calls, ttl), RedisRun(calls, ttl);
      var held, listed := HeldFor(f, user), MembersAt(r, UK(user), now);
      |held| != |listed| <==> |held - LiveOf(r, held, now)| != |listed - LiveOf(r, listed, now)|
  {
    HistoryCouples(calls, ttl, now);
    HistoryOwnIds(calls, ttl);
    var f, r := FakeRun(calls, ttl), RedisRun(calls, ttl);
    LiveInBoth(f, r, user, now, ttl);
    SplitCount(HeldFor(f, user), LiveOf(r, HeldFor(f, user), now));
    SplitCount(MembersAt(r, UK(user), now), LiveOf(r, MembersAt(r, UK(user), now), now));
  }

  lemma SplitCount(all: set<string>, part: set<string>)
    requires part <= all
    ensures |all| == |part| + |all - part|
  {
    assert all == part + (all - part);
  }

  // -------------------------------------------------- histories that differ

  lemma OwnSession(secret: string) returns (s: SessionData)
    requires secret != ""
    ensures s.user == "u" && BelongsTo(s.id, "u") && Some(s.id) == CreateSessionId("u", secret)
  {
    CreatedIdBelongs("u", secret, "u");
    s := SessionData(CreateSessionId("u", secret).value, "u", map[]);
  }

  /** A session that is created and then left alone until it expires: memory still
      holds it, while Redis has dropped it together with its user's index. So `revoke`
      is answered true and false, and the user's revoked sessions are counted 1 and 0. */
  lemma ExpiredStillHeld(ttl: real) returns (calls: seq<Call>, s: SessionData)
    requires ttl > 0.0
    ensures IsHistory(calls) && calls == [Call(0.0, Create(s))]
    ensures s.id in FakeRun(calls, ttl).sessions && RedisGet(RedisRun(calls, ttl), s.id, ttl).None?
    ensures HeldFor(FakeRun(calls, ttl), s.user) == {s.id} && MembersAt(RedisRun(calls, ttl), UK(s.user), ttl) == {}
  {
    s := OwnSession("a");
    calls := [Call(0.0, Create(s))];
    KeysApart(s.id, "u", s.id, "u");
    assert calls[..0] == [];
    assert FakeRun(calls, ttl) == FakeCreate(FakeDb(map[], map[]), s, 0.0, ttl);
    assert RedisRun(calls, ttl) == RedisCreate(map[], s, 0.0, ttl);
  }

  lemma OneCallMore(calls: seq<Call>, c: Call, ttl: real)
    ensures FakeRun(calls + [c], ttl) == FakeApply(FakeRun(calls, ttl), c, ttl)
    ensures RedisRun(calls + [c], ttl) == RedisApply(RedisRun(calls, ttl), c, ttl)
  {
    assert (calls + [c])[..|calls|] == calls;
  }

  /** Two sessions of one user, the second created when the first was half expired: a
      read of the first after its expiry drops it from memory, while the index, renewed
      by the second, still lists both. So the user's revoked sessions are counted 1 and
      2. */
  lemma DroppedStillListed(ttl: real) returns (calls: seq<Call>, a: SessionData, b: SessionData)
    requires ttl > 0.0
    ensures IsHistory(calls) && a.user == b.user && a.id != b.id
    ensures calls == [Call(0.0, Create(a)), Call(ttl / 2.0, Create(b)), Call(ttl, Get(a.id))]
    ensures HeldFor(FakeRun(calls, ttl), a.user) == {b.id} && MembersAt(RedisRun(calls, ttl), UK(a.user), ttl) == {a.id, b.id}
  {
    a := OwnSession("a");
    b := OwnSession("b");
    assert a.id[|a.id| - 1] == 'a' && b.id[|b.id| - 1] == 'b';
    calls := [Call(0.0, Create(a)), Call(ttl / 2.0, Create(b)), Call(ttl, Get(a.id))];
    HistoryOfThree(a, b, ttl, calls);
    ThreeCalls(a, b, ttl, calls);
    MemoryDrops(a, b, ttl);
    IndexKeeps(a, b, ttl);
  }

  lemma HistoryOfThree(a: SessionData, b: SessionData, ttl: real, calls: seq<Call>)
    requires BelongsTo(a.id, a.user) && BelongsTo(b.id, b.user) && ttl > 0.0
    requires calls == [Call(0.0, Create(a)), Call(ttl / 2.0, Create(b)), Call(ttl, Get(a.id))]
    ensures IsHistory(calls)
  {
  }

  lemma ThreeCalls(a: SessionData, b: SessionData, ttl: real, calls: seq<Call>)
    requires calls == [Call(0.0, Create(a)), Call(ttl / 2.0, Create(b)), Call(ttl, Get(a.id))]
    ensures FakeRun(calls, ttl) ==
            AfterFakeGet(FakeCreate(FakeCreate(FakeDb(map[], map[]), a, 0.0, ttl), b, ttl / 2.0, ttl), a.id, ttl)
    ensures RedisRun(calls, ttl) == RedisCreate(RedisCreate(map[], a, 0.0, ttl), b, ttl / 2.0, ttl)
  {
    var c0, c1, c2 := calls[0], calls[1], calls[2];
    assert calls == [] + [c0] + [c1] + [c2];
    OneCallMore([], c0, ttl);
    OneCallMore([] + [c0], c1, ttl);
    OneCallMore([] + [c0] + [c1], c2, ttl);
  }

  lemma MemoryDrops(a: SessionData, b: SessionData, ttl: real)
    requires a.user == b.user && a.id != b.id && ttl > 0.0
    ensures var f := FakeCreate(FakeCreate(FakeDb(map[], map[]), a, 0.0, ttl), b, ttl / 2.0, ttl);
      HeldFor(AfterFakeGet(f, a.id, ttl), a.user) == {b.id}
  {
    var f1 := FakeCreate(FakeDb(map[], map[]), a, 0.0, ttl);
    assert f1.sessions == map[a.id := Timed(a, ttl)] && f1.users[a.user] == {a.id};
    var f2 := FakeCreate(f1, b, ttl / 2.0, ttl);
    assert f2.sessions[a.id] == Timed(a, ttl) && f2.users[a.user] == {a.id, b.id};
    assert {a.id, b.id} - {a.id} == {b.id};
  }

  lemma IndexKeeps(a: SessionData, b: SessionData, ttl: real)
    requires BelongsTo(a.id, "u") && BelongsTo(b.id, "u") && a.user == "u" && b.user == "u" && ttl > 0.0
    ensures MembersAt(RedisCreate(RedisCreate(map[], a, 0.0, ttl), b, ttl / 2.0, ttl), UK("u"), ttl) == {a.id, b.id}
  {
    KeysApart(a.id, "u", b.id, "u");
    KeysApart(a.id, "u", a.id, "u");
    KeysApart(b.id, "u", b.id, "u");
    var r := RedisCreate(map[], a, 0.0, ttl);
    CreateUnfolds(map[], a, 0.0, ttl, r);
    assert MembersAt(map[], UK("u"), 0.0) + {a.id} == {a.id};
    assert Find(r, UK("u")) == Some(Timed(Members({a.id}), ttl));
    CreateUnfolds(r, b, ttl / 2.0, ttl, RedisCreate(r, b, ttl / 2.0, ttl));
    assert MembersAt(r, UK("u"), ttl / 2.0) + {b.id} == {a.id, b.id};
  }
}
