/** What the session stores owe their callers, told by the history of calls alone. */
module SessionHistory {
  import opened Basics
  import opened Leases
  import opened RoutingTag
  import opened Sessions
  import opened SessionRefinement

  /** What a call does to the session owed before it. */
  ghost function After(owed: Option<Timed<SessionData>>, c: Call, ttl: real, id: string): Option<Timed<SessionData>> {
    match c.op
    case Create(s) => if s.id == id then Some(Timed(s, c.at + ttl)) else owed
    case Get(_) => owed
    case Refresh(x) => if x == id && owed.Some? && c.at < owed.value.until then Some(Timed(owed.value.value, c.at + ttl)) else owed
    case Revoke(x) => if x == id then None else owed
    case RevokeUser(u) => if owed.Some? && owed.value.value.user == u then None else owed
  }

  /** A session and when it ends, as far as calls up to some moment decide: the last
      `create` of its id gives it for the time to live, a `refresh` before it ended
      renews it, and a `revoke` of it or of all sessions of its user ends it. */
  ghost function Owed(calls: seq<Call>, ttl: real, id: string): Option<Timed<SessionData>> {
    if calls == [] then None else After(Owed(calls[..|calls| - 1], ttl, id), calls[|calls| - 1], ttl, id)
  }

  /** Memory holds what is owed, but for what has ended. */
  ghost predicate Keeps(f: FakeDb, owed: Option<Timed<SessionData>>, id: string, now: real) {
    && (id in f.sessions ==> owed == Some(f.sessions[id]))
    && (id !in f.sessions && owed.Some? ==> owed.value.until <= now)
  }

  lemma IndexIsExact(f: FakeDb, id: string, user: string)
    requires FakeOk(f)
    ensures user in f.users && id in f.users[user] <==> id in f.sessions && f.sessions[id].value.user == user
  {
  }

  lemma CreateKeeps(f: FakeDb, owed: Option<Timed<SessionData>>, c: Call, ttl: real, id: string)
    requires Keeps(f, owed, id, c.at) && c.op.Create?
    ensures Keeps(FakeApply(f, c, ttl), After(owed, c, ttl, id), id, c.at)
  {
  }

  lemma RevokeUserKeeps(f: FakeDb, owed: Option<Timed<SessionData>>, c: Call, ttl: real, id: string)
    requires FakeOk(f) && Keeps(f, owed, id, c.at) && c.op.RevokeUser?
    ensures Keeps(FakeApply(f, c, ttl), After(owed, c, ttl, id), id, c.at)
  {
    IndexIsExact(f, id, c.op.user);
  }

  lemma CallKeeps(f: FakeDb, owed: Option<Timed<SessionData>>, c: Call, ttl: real, id: string)
    requires FakeOk(f) && Keeps(f, owed, id, c.at)
    ensures Keeps(FakeApply(f, c, ttl), After(owed, c, ttl, id), id, c.at)
  {
    if c.op.Create? {
      CreateKeeps(f, owed, c, ttl, id);
    } else if c.op.RevokeUser? {
      RevokeUserKeeps(f, owed, c, ttl, id);
    }
  }

  lemma {:induction false} HistoryKeeps(calls: seq<Call>, ttl: real, id: string, now: real)
    requires IsHistory(calls) && ttl > 0.0 && (calls != [] ==> calls[|calls| - 1].at <= now)
    ensures Keeps(FakeRun(calls, ttl), Owed(calls, ttl, id), id, now)
  {
    if calls != [] {
      var c, before := calls[|calls| - 1], calls[..|calls| - 1];
      HistoryKeeps(before, ttl, id, c.at);
      HistoryCouples(before, ttl, c.at);
      CallKeeps(FakeRun(before, ttl), Owed(before, ttl, id), c, ttl, id);
    }
  }

  /** Both stores answer `get` with exactly the session that the history owes. */
  lemma StoresFollowHistory(calls: seq<Call>, ttl: real, now: real, id: string)
    requires IsHistory(calls) && ttl > 0.0 && (calls != [] ==> calls[|calls| - 1].at <= now) && IsSessionId(id)
    ensures var owed := Owed(calls, ttl, id);
      var session := if owed.Some? && now < owed.value.until then Some(owed.value.value) else None;
      FakeGet(FakeRun(calls, ttl), id, now) == session && RedisGet(RedisRun(calls, ttl), id, now) == session
  {
    HistoryKeeps(calls, ttl, id, now);
    StoresAgree(calls, ttl, now, id);
  }
}
