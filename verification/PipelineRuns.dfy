/** Building runs of the pipeline: a subscription write followed, with nobody in
    between, by the relay and the delivery of its event. */
module PipelineRuns {
  import opened Basics
  import opened Text
  import opened Domain
  import opened Pipeline
  import opened PipelineInvariant
  import Outbox

  /** A stock code for runs that need one. */
  const CODE := "005930"

  ghost predicate Reachable(s: State) {
    exists states, steps :: IsRun(states, steps) && states[|steps|] == s
  }

  lemma InitReachable()
    ensures Reachable(Init(0))
  {
    assert IsRun([Init(0)], []);
  }

  lemma RunGrows(states: seq<State>, steps: seq<Step>, step: Step, s': State)
    requires IsRun(states, steps) && Next(states[|steps|], step, s')
    ensures IsRun(states + [s'], steps + [step])
  {
    var states', steps' := states + [s'], steps + [step];
    forall k | 0 <= k < |steps'| ensures StepAt(states', steps', k) {
      if k < |steps| {
        assert StepAt(states, steps, k);
      }
    }
  }

  lemma Extend(s: State, step: Step, s': State)
    requires Reachable(s) && Next(s, step, s')
    ensures Reachable(s')
  {
    var states, steps :| IsRun(states, steps) && states[|steps|] == s;
    RunGrows(states, steps, step, s');
    assert (states + [s'])[|steps + [step]|] == s';
  }

  // ------------------------------------------------------------ one table

  /** Everything in the table is published, and no relay is at work. */
  ghost predicate CleanTable(t: Outbox.Table, next: EventId, now: Time) {
    && t.batches == map[]
    && t.tries.Keys == t.rows.Keys
    && t.clock <= now
    && forall i :: i in t.rows ==> i < next && t.rows[i].status == Outbox.Published
  }

  ghost predicate Clean(s: State) {
    && s.outbox.Keys == STORES
    && (forall q :: q in s.outbox ==> CleanTable(s.outbox[q], s.nextEvent, s.now))
    && (forall k :: k in s.inbox ==> k.1 < s.nextEvent)
  }

  lemma LockNew(t: Outbox.Table, e: Event, now: Time, t1: Outbox.Table)
    requires CleanTable(t, e.id, now) && t1 == Outbox.Append(t, e.id, e, now, now)
    ensures Outbox.Next(t1, Outbox.Lock(0, now, 1, [e.id]), Outbox.LockRows(t1, 0, now, [e.id]))
  {
    assert Outbox.Due(t1, now) == {e.id};
    assert Elements([e.id]) == {e.id};
  }

  /** The new row locked, and then published but not committed. */
  function LockedNew(t: Outbox.Table, e: Event, now: Time): Outbox.Table {
    Outbox.LockRows(Outbox.Append(t, e.id, e, now, now), 0, now, [e.id])
  }

  function SentNew(t: Outbox.Table, e: Event, now: Time): Outbox.Table {
    Outbox.AttemptNext(LockedNew(t, e, now), 0, now, Outbox.Confirmed(now))
  }

  lemma CommitNew(t: Outbox.Table, e: Event, now: Time)
    requires CleanTable(t, e.id, now)
    ensures SentNew(t, e, now).batches.Keys == {0} && SentNew(t, e, now).batches[0].todo == []
    ensures CleanTable(Outbox.CommitRows(SentNew(t, e, now), 0), e.id + 1, now)
  {
  }

  // ------------------------------------------------------------ relay, deliver

  function WithTable(s: State, store: Store, t: Outbox.Table): State {
    s.(outbox := s.outbox[store := t])
  }

  function WithSent(s: State, store: Store, t: Outbox.Table, e: Event): State {
    s.(outbox := s.outbox[store := t], broker := s.broker + multiset{e})
  }

  /** Of two updates of one key the last remains. */
  lemma LastUpdateWins<K, V>(m: map<K, V>, k: K, a: V, b: V)
    ensures m[k := a][k := b] == m[k := b]
  {
  }

  lemma LockStep(t: Outbox.Table, s: State, store: Store, e: Event, a: Outbox.Table)
    requires Reachable(s) && store in s.outbox && CleanTable(t, e.id, s.now)
    requires s.outbox[store] == Outbox.Append(t, e.id, e, s.now, s.now) && a == LockedNew(t, e, s.now)
    ensures Reachable(WithTable(s, store, a))
  {
    LockNew(t, e, s.now, s.outbox[store]);
    Extend(s, Relay(store, Outbox.Lock(0, s.now, 1, [e.id])), WithTable(s, store, a));
  }

  lemma SendStep(t: Outbox.Table, s: State, store: Store, e: Event, a: Outbox.Table, b: Outbox.Table)
    requires Reachable(WithTable(s, store, a)) && a == LockedNew(t, e, s.now) && b == SentNew(t, e, s.now)
    ensures Reachable(WithSent(s, store, b, e))
  {
    LastUpdateWins(s.outbox, store, a, b);
    Extend(WithTable(s, store, a), Relay(store, Outbox.Attempt(0, s.now, Outbox.Confirmed(s.now))), WithSent(s, store, b, e));
  }

  lemma CommitStep(s: State, store: Store, e: Event, b: Outbox.Table, c: Outbox.Table)
    requires Reachable(WithSent(s, store, b, e)) && 0 in b.batches && b.batches[0].todo == [] && c == Outbox.CommitRows(b, 0)
    ensures Reachable(WithSent(s, store, c, e))
  {
    LastUpdateWins(s.outbox, store, b, c);
    Extend(WithSent(s, store, b, e), Relay(store, Outbox.Commit(0)), WithSent(s, store, c, e));
  }

  lemma CleanAgain(s: State, store: Store, next: EventId, c: Outbox.Table, s': State)
    requires s.outbox.Keys == STORES && store in s.outbox && CleanTable(c, next, s.now)
    requires forall q :: q in s.outbox && q != store ==> CleanTable(s.outbox[q], next, s.now)
    requires forall k :: k in s.inbox ==> k.1 < next
    requires s'.outbox == s.outbox[store := c] && s'.now == s.now && s'.inbox == s.inbox && s'.nextEvent == next
    ensures Clean(s')
  {
  }

  /** The newest event of a state whose tables were clean before goes to the broker. */
  lemma RelayNew(t: Outbox.Table, s: State, store: Store, e: Event) returns (s': State)
    requires Reachable(s) && s.outbox.Keys == STORES && store in s.outbox && e.id + 1 == s.nextEvent
    requires CleanTable(t, e.id, s.now) && s.outbox[store] == Outbox.Append(t, e.id, e, s.now, s.now)
    requires forall q :: q in s.outbox && q != store ==> CleanTable(s.outbox[q], e.id, s.now)
    requires forall k :: k in s.inbox ==> k.1 < e.id
    ensures Reachable(s') && Clean(s')
    ensures s' == s.(outbox := s'.outbox, broker := s.broker + multiset{e})
  {
    var c := RelayTables(t, s, store, e);
    s' := WithSent(s, store, c, e);
    CleanAgain(s, store, e.id + 1, c, s');
  }

  lemma RelayTables(t: Outbox.Table, s: State, store: Store, e: Event) returns (c: Outbox.Table)
    requires Reachable(s) && store in s.outbox && CleanTable(t, e.id, s.now)
    requires s.outbox[store] == Outbox.Append(t, e.id, e, s.now, s.now)
    ensures Reachable(WithSent(s, store, c, e)) && CleanTable(c, e.id + 1, s.now)
  {
    var a, b := LockedNew(t, e, s.now), SentNew(t, e, s.now);
    LockStep(t, s, store, e, a);
    SendStep(t, s, store, e, a, b);
    CommitNew(t, e, s.now);
    c := Outbox.CommitRows(b, 0);
    CommitStep(s, store, e, b, c);
  }

  /** A delivered update that is newer than the projection replaces it. */
  lemma DeliverUpdate(s: State, e: Event, p: Projection) returns (s': State)
    requires Reachable(s) && Clean(s) && e in s.broker && e.payload == SubscriptionUpdated(p) && e.id < s.nextEvent
    requires IsStockCode(p.stockCode) && (Automation, e.id) !in s.inbox
    requires p.id in s.projections ==> s.projections[p.id].revision < p.revision
    ensures Reachable(s') && Clean(s')
    ensures s' == Claim(s, Automation, e.id).(projections := s.projections[p.id := p], broker := s.broker - multiset{e})
  {
    s' := AfterDelivery(s, e, [], true);
    assert NormalizeStockCode(p.stockCode) == Some(p.stockCode) && p.(stockCode := p.stockCode) == p;
    Extend(s, Deliver(e, id => 0, [], true), s');
  }

  // ------------------------------------------------------- write and project

  /** What a write, relayed and delivered at once, leaves: the new row and its
      projection, and no trace elsewhere that a later step would meet. */
  ghost predicate Wrote(s: State, id: SubscriptionId, row: Subscription, s': State) {
    && s'.now == s.now
    && s'.accounts == s.accounts
    && s'.sessions == s.sessions
    && s'.signals == s.signals
    && s'.intents == s.intents
    && s'.subscriptions == s.subscriptions[(ShardIdFor(id.user), id) := row]
    && s'.versions == s.versions[id := Versions(s, id) + [row]]
    && s'.projections == s.projections[id := ProjectionAt(id, row.revision)]
    && s'.broker == s.broker
  }

  lemma WriteIsSave(s: State, session: SessionId, id: SubscriptionId, enable: bool, read: Option<Subscription>, r: int)
    requires Clean(s) && session in s.sessions && s.sessions[session] == SessionData(id.user, ShardIdFor(id.user))
    requires IsStockCode(id.stockCode) && NewVersion(id, enable, read) == Some(VersionAt(id, r))
    ensures Account(ShardIdFor(id.user)) in s.outbox
    ensures WriteSubscription(s, session, id.stockCode, enable, read) == SaveSubscription(s, ShardIdFor(id.user), VersionAt(id, r))
  {
    assert Account(ShardIdFor(id.user)) in STORES;
    assert NormalizeStockCode(id.stockCode) == Some(id.stockCode);
  }

  lemma SaveUnfolds(s: State, id: SubscriptionId, r: int, s1: State, e: Event)
    requires Account(ShardIdFor(id.user)) in s.outbox && s1 == SaveSubscription(s, ShardIdFor(id.user), VersionAt(id, r))
    requires e == Event(s.nextEvent, SubscriptionUpdated(ProjectionAt(id, r)))
    ensures var store := Account(ShardIdFor(id.user));
      s1 == s.(subscriptions := s.subscriptions[(ShardIdFor(id.user), id) := VersionAt(id, r)],
               versions := s.versions[id := Versions(s, id) + [VersionAt(id, r)]],
               outbox := s.outbox[store := Outbox.Append(s.outbox[store], e.id, e, s.now, s.now)],
               log := s1.log,
               nextEvent := s.nextEvent + 1)
  {
  }

  lemma SaveAndRelay(s: State, id: SubscriptionId, r: int, s1: State, e: Event) returns (s2: State)
    requires Clean(s) && Account(ShardIdFor(id.user)) in s.outbox
    requires Reachable(s1) && s1 == SaveSubscription(s, ShardIdFor(id.user), VersionAt(id, r))
    requires e == Event(s.nextEvent, SubscriptionUpdated(ProjectionAt(id, r)))
    ensures Reachable(s2) && Clean(s2)
    ensures s2 == s.(subscriptions := s.subscriptions[(ShardIdFor(id.user), id) := VersionAt(id, r)],
                     versions := s.versions[id := Versions(s, id) + [VersionAt(id, r)]],
                     outbox := s2.outbox, log := s2.log, broker := s.broker + multiset{e}, nextEvent := s.nextEvent + 1)
  {
    var store := Account(ShardIdFor(id.user));
    SaveUnfolds(s, id, r, s1, e);
    s2 := RelayNew(s.outbox[store], s1, store, e);
  }

  lemma SaveAndProject(s: State, id: SubscriptionId, r: int, s1: State) returns (s': State)
    requires Clean(s) && IsStockCode(id.stockCode) && Account(ShardIdFor(id.user)) in s.outbox
    requires Reachable(s1) && s1 == SaveSubscription(s, ShardIdFor(id.user), VersionAt(id, r))
    requires id in s.projections ==> s.projections[id].revision < r
    ensures Reachable(s') && Clean(s') && Wrote(s, id, VersionAt(id, r), s')
  {
    var e := Event(s.nextEvent, SubscriptionUpdated(ProjectionAt(id, r)));
    var s2 := SaveAndRelay(s, id, r, s1, e);
    assert (Automation, e.id) !in s2.inbox;
    s' := DeliverUpdate(s2, e, ProjectionAt(id, r));
    assert s.broker + multiset{e} - multiset{e} == s.broker;
  }

  /** A subscribe or unsubscribe by a session of the user, relayed and delivered. */
  lemma WriteAndProject(s: State, session: SessionId, id: SubscriptionId, enable: bool, read: Option<Subscription>, r: int)
    returns (s': State)
    requires Reachable(s) && Clean(s) && session in s.sessions && s.sessions[session] == SessionData(id.user, ShardIdFor(id.user))
    requires IsStockCode(id.stockCode) && NewVersion(id, enable, read) == Some(VersionAt(id, r))
    requires read.Some? ==> read.value in Versions(s, id)
    requires id in s.projections ==> s.projections[id].revision < r
    ensures Reachable(s') && Clean(s') && Wrote(s, id, VersionAt(id, r), s')
  {
    WriteIsSave(s, session, id, enable, read, r);
    var s1 := WriteSubscription(s, session, id.stockCode, enable, read);
    assert NormalizeStockCode(id.stockCode) == Some(id.stockCode);
    if enable {
      Extend(s, Subscribe(session, id.stockCode, read), s1);
    } else {
      Extend(s, Unsubscribe(session, id.stockCode, read), s1);
    }
    s' := SaveAndProject(s, id, r, s1);
  }

  /** A new user signs up and logs in. */
  lemma Join(s: State, user: UserId, session: SessionId) returns (s': State)
    requires Reachable(s) && Clean(s) && user !in s.accounts && session !in s.sessions
    ensures Reachable(s') && Clean(s')
    ensures s' == s.(accounts := s.accounts[user := ShardIdFor(user)],
                     sessions := s.sessions[session := SessionData(user, ShardIdFor(user))])
  {
    var s1 := s.(accounts := s.accounts[user := ShardIdFor(user)]);
    Extend(s, Signup(user), s1);
    s' := s1.(sessions := s1.sessions[session := SessionData(user, ShardIdFor(user))]);
    Extend(s1, Login(user, session), s');
  }

  lemma InitClean()
    ensures Clean(Init(0))
  {
    var s := Init(0);
    assert s.outbox.Keys == STORES;
  }
}
