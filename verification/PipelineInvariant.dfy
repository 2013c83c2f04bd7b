/** The inductive invariant of the pipeline, one predicate per store, and its
    preservation by every step. */
module PipelineInvariant {
  import opened Basics
  import opened Text
  import opened Domain
  import opened Pipeline
  import Outbox

  // -------------------------------------------------------------- predicates

  ghost predicate AccountsOk(accounts: map<UserId, ShardId>, sessions: map<SessionId, SessionData>) {
    && (forall u :: u in accounts ==> accounts[u] == ShardIdFor(u))
    && (forall x :: x in sessions ==> sessions[x].shard == ShardIdFor(sessions[x].user))
  }

  /** The contents of revision `r` of a subscription: a revision number fixes them,
      because revisions alternate between enabled and disabled. */
  function VersionAt(id: SubscriptionId, r: int): Subscription {
    Subscription(id, id.user, id.stockCode, r % 2 == 1, r)
  }

  function ProjectionAt(id: SubscriptionId, r: int): Projection {
    Projection(id, id.user, ShardIdFor(id.user), id.stockCode, r % 2 == 1, r)
  }

  ghost predicate VersionOk(id: SubscriptionId, v: Subscription) {
    IsStockCode(id.stockCode) && v.revision >= 1 && v == VersionAt(id, v.revision)
  }

  ghost predicate Committed(versions: map<SubscriptionId, seq<Subscription>>, id: SubscriptionId, r: int) {
    id in versions && VersionAt(id, r) in versions[id]
  }

  ghost predicate VersionsOk(versions: map<SubscriptionId, seq<Subscription>>) {
    forall id, v :: id in versions && v in versions[id] ==> VersionOk(id, v)
  }

  ghost predicate SubscriptionsOk(subscriptions: map<(ShardId, SubscriptionId), Subscription>,
                                  versions: map<SubscriptionId, seq<Subscription>>) {
    forall k :: k in subscriptions ==>
      && k.0 == ShardIdFor(k.1.user)
      && k.1 in versions
      && subscriptions[k] in versions[k.1]
  }

  ghost predicate EventOk(id: EventId, l: Logged, versions: map<SubscriptionId, seq<Subscription>>,
                          signals: map<SignalId, Signal>, intents: map<IntentId, Intent>, origins: map<IntentId, Origin>) {
    match l.payload
    case SubscriptionUpdated(p) =>
      && p == ProjectionAt(p.id, p.revision)
      && Committed(versions, p.id, p.revision)
      && l.store == Account(p.shard)
    case SignalCreated(signal) =>
      && signal.id in signals
      && signals[signal.id] == signal
      && signal.expiresAt.Some?
      && l.store == Automation
    case IntentCreated(intent) =>
      && intent.id in intents
      && intents[intent.id] == intent
      && intent.id in origins
      && origins[intent.id].event == id
      && l.store == Automation
  }

  ghost predicate LogOk(log: map<EventId, Logged>, versions: map<SubscriptionId, seq<Subscription>>,
                        signals: map<SignalId, Signal>, intents: map<IntentId, Intent>, origins: map<IntentId, Origin>) {
    forall i :: i in log ==> EventOk(i, log[i], versions, signals, intents, origins)
  }

  /** The tables hold exactly the logged events, each in the store that wrote it. */
  ghost predicate RowsLogged(store: Store, rows: map<EventId, Outbox.Row>, log: map<EventId, Logged>) {
    && (forall i :: i in rows <==> i in log && log[i].store == store)
    && (forall i :: i in rows ==> i in log && rows[i].event == Event(i, log[i].payload))
  }

  ghost predicate TableOk(store: Store, t: Outbox.Table, log: map<EventId, Logged>) {
    Outbox.Inv(t) && RowsLogged(store, t.rows, log)
  }

  ghost predicate OutboxOk(outbox: map<Store, Outbox.Table>, log: map<EventId, Logged>, nextEvent: EventId) {
    && outbox.Keys == STORES
    && (forall store :: store in outbox ==> TableOk(store, outbox[store], log))
    && (forall i :: i in log ==> i < nextEvent)
  }

  ghost predicate BrokerOk(broker: multiset<Event>, log: map<EventId, Logged>, outbox: map<Store, Outbox.Table>) {
    forall e :: e in broker ==>
      && e.id in log
      && log[e.id].payload == e.payload
      && log[e.id].store in outbox
      && e.id in outbox[log[e.id].store].accepted
  }

  ghost predicate InboxOk(inbox: set<(Store, EventId)>, applied: seq<EventId>, log: map<EventId, Logged>) {
    && (forall k :: k in inbox ==> k.1 in log && k.0 == HandlingStore(log[k.1].payload) && k.1 in applied)
    && (forall i :: i in applied ==> i in log && (HandlingStore(log[i].payload), i) in inbox)
    && NoDup(applied)
  }

  /** Event `e` is an applied subscription update carrying `p`. */
  ghost predicate Handled(log: map<EventId, Logged>, inbox: set<(Store, EventId)>, e: EventId, p: Projection) {
    e in log && (Automation, e) in inbox && log[e].payload == SubscriptionUpdated(p)
  }

  /** Each projection is the newest update applied so far. */
  ghost predicate ProjectionsOk(projections: map<SubscriptionId, Projection>,
                                log: map<EventId, Logged>, inbox: set<(Store, EventId)>) {
    && (forall id :: id in projections ==>
          projections[id].id == id && exists e :: Handled(log, inbox, e, projections[id]))
    && (forall e, p :: Handled(log, inbox, e, p) ==>
          p.id in projections && p.revision <= projections[p.id].revision)
  }

  ghost predicate IntentOk(k: IntentId, i: Intent, o: Origin, signals: map<SignalId, Signal>,
                           versions: map<SubscriptionId, seq<Subscription>>, log: map<EventId, Logged>) {
    && i == Intent(k, k.signal, k.subscription, k.subscription.user, ShardIdFor(k.subscription.user),
                   k.subscription.stockCode, i.expiresAt)
    && k.signal in signals
    && signals[k.signal].expiresAt == Some(i.expiresAt)
    && NormalizeStockCode(signals[k.signal].stockCode) == Some(i.stockCode)
    && o.at < i.expiresAt
    && o.revision % 2 == 1
    && Committed(versions, k.subscription, o.revision)
    && o.event in log
    && log[o.event].payload == IntentCreated(i)
  }

  ghost predicate IntentsOk(intents: map<IntentId, Intent>, origins: map<IntentId, Origin>, signals: map<SignalId, Signal>,
                            versions: map<SubscriptionId, seq<Subscription>>, log: map<EventId, Logged>) {
    && origins.Keys == intents.Keys
    && (forall k :: k in intents ==> IntentOk(k, intents[k], origins[k], signals, versions, log))
  }

  ghost predicate NotificationOk(k: (ShardId, NotificationId), n: Notification, intents: map<IntentId, Intent>) {
    && n.id == k.1
    && n.intent == k.1.intent
    && n.intent in intents
    && n.user == intents[n.intent].user
    && n.signal == intents[n.intent].signal
    && n.stockCode == intents[n.intent].stockCode
    && k.0 == intents[n.intent].shard
  }

  ghost predicate NotificationsOk(notifications: map<(ShardId, NotificationId), Notification>, intents: map<IntentId, Intent>,
                                  log: map<EventId, Logged>, inbox: set<(Store, EventId)>) {
    && (forall k :: k in notifications ==> NotificationOk(k, notifications[k], intents))
    && (forall e, i :: e in log && log[e].payload == IntentCreated(i) && (Account(i.shard), e) in inbox ==>
          (i.shard, NotificationId(i.id)) in notifications)
  }

  /** Everything that concerns moving events. */
  ghost predicate TransportOk(s: State) {
    && OutboxOk(s.outbox, s.log, s.nextEvent)
    && BrokerOk(s.broker, s.log, s.outbox)
    && InboxOk(s.inbox, s.applied, s.log)
  }

  /** Everything that concerns what the rows say. */
  ghost predicate ContentOk(s: State) {
    && VersionsOk(s.versions)
    && SubscriptionsOk(s.subscriptions, s.versions)
    && LogOk(s.log, s.versions, s.signals, s.intents, s.origins)
    && ProjectionsOk(s.projections, s.log, s.inbox)
    && IntentsOk(s.intents, s.origins, s.signals, s.versions, s.log)
    && NotificationsOk(s.notifications, s.intents, s.log, s.inbox)
  }

  ghost predicate Inv(s: State) {
    AccountsOk(s.accounts, s.sessions) && TransportOk(s) && ContentOk(s)
  }

  // --------------------------------------------------------- reading it off

  lemma LoggedEvent(s: State, i: EventId)
    requires LogOk(s.log, s.versions, s.signals, s.intents, s.origins) && i in s.log
    ensures EventOk(i, s.log[i], s.versions, s.signals, s.intents, s.origins)
  {
  }

  lemma KnownIntent(s: State, k: IntentId)
    requires IntentsOk(s.intents, s.origins, s.signals, s.versions, s.log) && k in s.intents
    ensures k in s.origins && IntentOk(k, s.intents[k], s.origins[k], s.signals, s.versions, s.log)
  {
  }

  lemma QueuedEvent(s: State, e: Event)
    requires BrokerOk(s.broker, s.log, s.outbox) && e in s.broker
    ensures e.id in s.log && s.log[e.id].payload == e.payload
  {
  }

  // -------------------------------------------------- appending one event

  lemma RowKeepsLogged(store: Store, rows: map<EventId, Outbox.Row>, log: map<EventId, Logged>, id: EventId, payload: Payload,
                       row: Outbox.Row)
    requires RowsLogged(store, rows, log) && row.event == Event(id, payload)
    ensures RowsLogged(store, rows[id := row], log[id := Logged(store, payload)])
  {
  }

  lemma AppendKeepsOwnTable(store: Store, t: Outbox.Table, log: map<EventId, Logged>, id: EventId, payload: Payload, now: Time)
    requires TableOk(store, t, log) && id !in log
    ensures TableOk(store, Outbox.Append(t, id, Event(id, payload), now, now), log[id := Logged(store, payload)])
  {
    Outbox.AppendKeepsInv(t, id, Event(id, payload), now, now);
    RowKeepsLogged(store, t.rows, log, id, payload, Outbox.NewRow(Event(id, payload), now, now));
  }

  lemma AppendKeepsOtherTable(q: Store, t: Outbox.Table, log: map<EventId, Logged>, id: EventId, l: Logged)
    requires TableOk(q, t, log) && id !in log && l.store != q
    ensures TableOk(q, t, log[id := l])
  {
  }

  lemma AppendKeepsOutbox(s: State, store: Store, payload: Payload)
    requires OutboxOk(s.outbox, s.log, s.nextEvent) && store in s.outbox
    ensures var s' := AppendEvent(s, store, payload); OutboxOk(s'.outbox, s'.log, s'.nextEvent)
  {
    var s' := AppendEvent(s, store, payload);
    assert s'.outbox.Keys == STORES;
    forall q | q in s'.outbox ensures TableOk(q, s'.outbox[q], s'.log) {
      if q == store {
        AppendKeepsOwnTable(store, s.outbox[store], s.log, s.nextEvent, payload, s.now);
      } else {
        AppendKeepsOtherTable(q, s.outbox[q], s.log, s.nextEvent, Logged(store, payload));
      }
    }
  }

  lemma BrokerFrame(broker: multiset<Event>, log: map<EventId, Logged>, outbox: map<Store, Outbox.Table>,
                    store: Store, t: Outbox.Table, id: EventId, l: Logged)
    requires BrokerOk(broker, log, outbox) && id !in log && store in outbox && t.accepted == outbox[store].accepted
    ensures BrokerOk(broker, log[id := l], outbox[store := t])
  {
  }

  lemma AppendKeepsBroker(s: State, store: Store, payload: Payload)
    requires OutboxOk(s.outbox, s.log, s.nextEvent) && store in s.outbox
    requires BrokerOk(s.broker, s.log, s.outbox)
    ensures var s' := AppendEvent(s, store, payload); BrokerOk(s'.broker, s'.log, s'.outbox)
  {
    BrokerFrame(s.broker, s.log, s.outbox, store, AppendEvent(s, store, payload).outbox[store], s.nextEvent, Logged(store, payload));
  }

  lemma AppendKeepsInbox(s: State, store: Store, payload: Payload)
    requires OutboxOk(s.outbox, s.log, s.nextEvent) && store in s.outbox
    requires InboxOk(s.inbox, s.applied, s.log)
    ensures InboxOk(s.inbox, s.applied, AppendEvent(s, store, payload).log)
  {
  }

  lemma AppendKeepsTransport(s: State, store: Store, payload: Payload)
    requires TransportOk(s) && store in s.outbox
    ensures TransportOk(AppendEvent(s, store, payload))
  {
    AppendKeepsOutbox(s, store, payload);
    AppendKeepsBroker(s, store, payload);
    AppendKeepsInbox(s, store, payload);
  }

  lemma EventKeepsProjections(projections: map<SubscriptionId, Projection>, log: map<EventId, Logged>, inbox: set<(Store, EventId)>,
                              id: EventId, l: Logged)
    requires ProjectionsOk(projections, log, inbox) && id !in log && (Automation, id) !in inbox
    ensures ProjectionsOk(projections, log[id := l], inbox)
  {
    var log' := log[id := l];
    assert forall e, p :: Handled(log', inbox, e, p) <==> Handled(log, inbox, e, p);
  }

  lemma NewEventIsFree(s: State)
    requires TransportOk(s)
    ensures s.nextEvent !in s.log && forall store :: (store, s.nextEvent) !in s.inbox
  {
  }

  lemma AppendKeepsProjections(s: State, store: Store, payload: Payload)
    requires TransportOk(s) && store in s.outbox && ProjectionsOk(s.projections, s.log, s.inbox)
    ensures ProjectionsOk(s.projections, AppendEvent(s, store, payload).log, s.inbox)
  {
    NewEventIsFree(s);
    EventKeepsProjections(s.projections, s.log, s.inbox, s.nextEvent, Logged(store, payload));
  }

  lemma AppendKeepsNotifications(s: State, store: Store, payload: Payload)
    requires TransportOk(s) && store in s.outbox && NotificationsOk(s.notifications, s.intents, s.log, s.inbox)
    ensures NotificationsOk(s.notifications, s.intents, AppendEvent(s, store, payload).log, s.inbox)
  {
    assert s.nextEvent !in s.log;
    assert forall store :: (store, s.nextEvent) !in s.inbox;
  }

  lemma AppendKeepsIntents(s: State, store: Store, payload: Payload)
    requires TransportOk(s) && store in s.outbox
    requires IntentsOk(s.intents, s.origins, s.signals, s.versions, s.log)
    ensures IntentsOk(s.intents, s.origins, s.signals, s.versions, AppendEvent(s, store, payload).log)
  {
    var log' := AppendEvent(s, store, payload).log;
    forall k | k in s.intents ensures IntentOk(k, s.intents[k], s.origins[k], s.signals, s.versions, log') {
      assert IntentOk(k, s.intents[k], s.origins[k], s.signals, s.versions, s.log);
    }
  }

  lemma AppendKeepsLog(s: State, store: Store, payload: Payload)
    requires LogOk(s.log, s.versions, s.signals, s.intents, s.origins) && store in s.outbox
    requires EventOk(s.nextEvent, Logged(store, payload), s.versions, s.signals, s.intents, s.origins)
    ensures LogOk(AppendEvent(s, store, payload).log, s.versions, s.signals, s.intents, s.origins)
  {
  }

  lemma AppendKeepsContent(s: State, store: Store, payload: Payload)
    requires TransportOk(s) && ContentOk(s) && store in s.outbox
    requires EventOk(s.nextEvent, Logged(store, payload), s.versions, s.signals, s.intents, s.origins)
    ensures ContentOk(AppendEvent(s, store, payload))
  {
    AppendKeepsProjections(s, store, payload);
    AppendKeepsIntents(s, store, payload);
    AppendKeepsNotifications(s, store, payload);
    AppendKeepsLog(s, store, payload);
  }

  /** Appending an event that agrees with the rows it announces keeps everything. */
  lemma AppendKeepsInv(s: State, store: Store, payload: Payload)
    requires Inv(s) && store in s.outbox
    requires EventOk(s.nextEvent, Logged(store, payload), s.versions, s.signals, s.intents, s.origins)
    ensures Inv(AppendEvent(s, store, payload))
  {
    AppendKeepsTransport(s, store, payload);
    AppendKeepsContent(s, store, payload);
  }

  // -------------------------------------------------------------- API steps

  lemma NewVersionOk(id: SubscriptionId, enable: bool, read: Option<Subscription>)
    requires IsStockCode(id.stockCode)
    requires read.Some? ==> VersionOk(id, read.value)
    ensures var v := NewVersion(id, enable, read); v.Some? ==> VersionOk(id, v.value)
  {
  }

  lemma VersionKeepsVersions(versions: map<SubscriptionId, seq<Subscription>>, row: Subscription, earlier: seq<Subscription>,
                             versions': map<SubscriptionId, seq<Subscription>>)
    requires VersionsOk(versions) && VersionOk(row.id, row)
    requires earlier == if row.id in versions then versions[row.id] else []
    requires versions' == versions[row.id := earlier + [row]]
    ensures VersionsOk(versions')
    ensures forall id, r :: Committed(versions, id, r) ==> Committed(versions', id, r)
  {
  }

  lemma VersionKeepsLog(log: map<EventId, Logged>, versions: map<SubscriptionId, seq<Subscription>>, signals: map<SignalId, Signal>,
                        intents: map<IntentId, Intent>, origins: map<IntentId, Origin>, versions': map<SubscriptionId, seq<Subscription>>)
    requires LogOk(log, versions, signals, intents, origins)
    requires forall id, r :: Committed(versions, id, r) ==> Committed(versions', id, r)
    ensures LogOk(log, versions', signals, intents, origins)
  {
    forall i | i in log ensures EventOk(i, log[i], versions', signals, intents, origins) {
      assert EventOk(i, log[i], versions, signals, intents, origins);
    }
  }

  lemma VersionKeepsIntents(log: map<EventId, Logged>, versions: map<SubscriptionId, seq<Subscription>>, signals: map<SignalId, Signal>,
                            intents: map<IntentId, Intent>, origins: map<IntentId, Origin>, versions': map<SubscriptionId, seq<Subscription>>)
    requires IntentsOk(intents, origins, signals, versions, log)
    requires forall id, r :: Committed(versions, id, r) ==> Committed(versions', id, r)
    ensures IntentsOk(intents, origins, signals, versions', log)
  {
    forall k | k in intents ensures IntentOk(k, intents[k], origins[k], signals, versions', log) {
      assert IntentOk(k, intents[k], origins[k], signals, versions, log);
    }
  }

  lemma VersionKeepsRows(subscriptions: map<(ShardId, SubscriptionId), Subscription>, versions: map<SubscriptionId, seq<Subscription>>,
                         row: Subscription, earlier: seq<Subscription>, versions': map<SubscriptionId, seq<Subscription>>)
    requires SubscriptionsOk(subscriptions, versions) && VersionOk(row.id, row)
    requires earlier == if row.id in versions then versions[row.id] else []
    requires versions' == versions[row.id := earlier + [row]]
    ensures SubscriptionsOk(subscriptions[(ShardIdFor(row.user), row.id) := row], versions')
  {
  }

  /** Committing one more good version of a subscription row. */
  lemma VersionKeepsContent(s: State, row: Subscription)
    requires ContentOk(s) && VersionOk(row.id, row)
    ensures ContentOk(s.(subscriptions := s.subscriptions[(ShardIdFor(row.user), row.id) := row],
                         versions := s.versions[row.id := Versions(s, row.id) + [row]]))
  {
    var versions' := s.versions[row.id := Versions(s, row.id) + [row]];
    VersionKeepsVersions(s.versions, row, Versions(s, row.id), versions');
    VersionKeepsRows(s.subscriptions, s.versions, row, Versions(s, row.id), versions');
    VersionKeepsLog(s.log, s.versions, s.signals, s.intents, s.origins, versions');
    VersionKeepsIntents(s.log, s.versions, s.signals, s.intents, s.origins, versions');
  }

  lemma SaveKeepsInv(s: State, row: Subscription)
    requires Inv(s) && VersionOk(row.id, row) && Account(ShardIdFor(row.user)) in s.outbox
    ensures Inv(SaveSubscription(s, ShardIdFor(row.user), row))
  {
    VersionKeepsContent(s, row);
    var versions' := s.versions[row.id := Versions(s, row.id) + [row]];
    var s1 := s.(subscriptions := s.subscriptions[(ShardIdFor(row.user), row.id) := row], versions := versions');
    assert Committed(versions', row.id, row.revision);
    AppendKeepsInv(s1, Account(ShardIdFor(row.user)), SubscriptionUpdated(ProjectionAt(row.id, row.revision)));
  }

  /** A write changes nothing, or saves a good version where its session points to. */
  lemma WriteCases(s: State, session: SessionId, raw: string, enable: bool, read: Option<Subscription>, s': State)
    returns (row: Option<Subscription>)
    requires AccountsOk(s.accounts, s.sessions) && VersionsOk(s.versions) && WasRead(s, session, raw, read)
    requires s' == WriteSubscription(s, session, raw, enable, read)
    ensures row.None? ==> s' == s
    ensures row.Some? ==>
      && VersionOk(row.value.id, row.value)
      && Account(ShardIdFor(row.value.user)) in s.outbox
      && s' == SaveSubscription(s, ShardIdFor(row.value.user), row.value)
  {
    row := None;
    if session in s.sessions && Account(s.sessions[session].shard) in s.outbox && NormalizeStockCode(raw).Some? {
      var id := SubscriptionId(s.sessions[session].user, NormalizeStockCode(raw).value);
      NewVersionOk(id, enable, read);
      row := NewVersion(id, enable, read);
    }
  }

  lemma WriteKeepsInv(s: State, session: SessionId, raw: string, enable: bool, read: Option<Subscription>)
    requires Inv(s) && WasRead(s, session, raw, read)
    ensures Inv(WriteSubscription(s, session, raw, enable, read))
  {
    var row := WriteCases(s, session, raw, enable, read, WriteSubscription(s, session, raw, enable, read));
    if row.Some? {
      SaveKeepsInv(s, row.value);
    }
  }

  lemma SignalKeepsContent(s: State, signal: Signal)
    requires ContentOk(s) && signal.id !in s.signals
    ensures ContentOk(s.(signals := s.signals[signal.id := signal]))
  {
    var signals' := s.signals[signal.id := signal];
    assert LogOk(s.log, s.versions, signals', s.intents, s.origins) by {
      forall i | i in s.log ensures EventOk(i, s.log[i], s.versions, signals', s.intents, s.origins) {
        assert EventOk(i, s.log[i], s.versions, s.signals, s.intents, s.origins);
      }
    }
    assert IntentsOk(s.intents, s.origins, signals', s.versions, s.log) by {
      forall k | k in s.intents ensures IntentOk(k, s.intents[k], s.origins[k], signals', s.versions, s.log) {
        assert IntentOk(k, s.intents[k], s.origins[k], s.signals, s.versions, s.log);
      }
    }
  }

  lemma RecordKeepsInv(s: State, signal: Signal)
    requires Inv(s) && Automation in s.outbox
    ensures Inv(RecordSignal(s, signal))
  {
    if signal.id !in s.signals {
      SignalKeepsContent(s, signal);
      if signal.expiresAt.Some? {
        AppendKeepsInv(s.(signals := s.signals[signal.id := signal]), Automation, SignalCreated(signal));
      }
    }
  }

  lemma ReadKeepsNotifications(s: State, session: SessionId, id: NotificationId)
    requires NotificationsOk(s.notifications, s.intents, s.log, s.inbox)
    ensures NotificationsOk(MarkRead(s, session, id).notifications, s.intents, s.log, s.inbox)
  {
    var s' := MarkRead(s, session, id);
    forall k | k in s'.notifications ensures NotificationOk(k, s'.notifications[k], s.intents) {
      assert NotificationOk(k, s.notifications[k], s.intents);
    }
  }

  lemma ReadKeepsInv(s: State, session: SessionId, id: NotificationId)
    requires Inv(s)
    ensures Inv(MarkRead(s, session, id))
  {
    ReadKeepsNotifications(s, session, id);
    var s' := MarkRead(s, session, id);
    assert s' == s.(notifications := s'.notifications);
  }

  // ---------------------------------------------------------- relay, broker

  lemma RelayKeepsOutbox(s: State, store: Store, step: Outbox.Step, s': State)
    requires OutboxOk(s.outbox, s.log, s.nextEvent) && RelayStep(s, store, step, s')
    ensures OutboxOk(s'.outbox, s'.log, s'.nextEvent)
    ensures s.outbox[store].accepted <= s'.outbox[store].accepted
  {
    var t, t' := s.outbox[store], s'.outbox[store];
    assert TableOk(store, t, s.log);
    Outbox.StepKeepsInv(t, step, t');
    Outbox.StepEvolves(t, step, t');
    assert s'.outbox.Keys == STORES;
    forall q | q in s'.outbox ensures TableOk(q, s'.outbox[q], s'.log) {
      assert q != store ==> TableOk(q, s.outbox[q], s.log);
    }
  }

  lemma BrokerStays(broker: multiset<Event>, log: map<EventId, Logged>, outbox: map<Store, Outbox.Table>, store: Store, t': Outbox.Table)
    requires BrokerOk(broker, log, outbox) && store in outbox && outbox[store].accepted <= t'.accepted
    ensures BrokerOk(broker, log, outbox[store := t'])
  {
  }

  lemma SentIsAccepted(t: Outbox.Table, step: Outbox.Step, t': Outbox.Table)
    requires Outbox.Next(t, step, t')
    ensures Outbox.Sent(t, step).Some? ==> Outbox.Sent(t, step).value in t'.accepted
  {
  }

  lemma PublishKeepsBroker(broker: multiset<Event>, log: map<EventId, Logged>, outbox: map<Store, Outbox.Table>, store: Store, e: Event)
    requires BrokerOk(broker, log, outbox) && e.id in log && log[e.id] == Logged(store, e.payload)
    requires store in outbox && e.id in outbox[store].accepted
    ensures BrokerOk(broker + multiset{e}, log, outbox)
  {
  }

  lemma RelayKeepsBroker(s: State, store: Store, sent: Option<EventId>, t': Outbox.Table)
    requires store in s.outbox && BrokerOk(s.broker, s.log, s.outbox[store := t'])
    requires RowsLogged(store, s.outbox[store].rows, s.log) && (sent.Some? ==> sent.value in t'.accepted)
    ensures BrokerOk(AfterRelay(s, store, t', sent).broker, s.log, s.outbox[store := t'])
  {
    var rows := s.outbox[store].rows;
    var broker' := AfterRelay(s, store, t', sent).broker;
    if sent.Some? && sent.value in rows {
      var e := rows[sent.value].event;
      assert broker' == s.broker + multiset{e};
      assert e == Event(sent.value, s.log[sent.value].payload);
      PublishKeepsBroker(s.broker, s.log, s.outbox[store := t'], store, e);
    } else {
      assert broker' == s.broker;
    }
  }

  lemma RelayKeepsInv(s: State, store: Store, step: Outbox.Step, s': State)
    requires Inv(s) && RelayStep(s, store, step, s')
    ensures Inv(s')
  {
    RelayKeepsOutbox(s, store, step, s');
    BrokerStays(s.broker, s.log, s.outbox, store, s'.outbox[store]);
    SentIsAccepted(s.outbox[store], step, s'.outbox[store]);
    RelayKeepsBroker(s, store, Outbox.Sent(s.outbox[store], step), s'.outbox[store]);
    assert s' == s.(outbox := s'.outbox, broker := s'.broker);
  }

  // ---------------------------------------------------------------- workers

  lemma ClaimKeepsInbox(s: State, id: EventId)
    requires InboxOk(s.inbox, s.applied, s.log) && id in s.log && (HandlingStore(s.log[id].payload), id) !in s.inbox
    ensures var s' := Claim(s, HandlingStore(s.log[id].payload), id); InboxOk(s'.inbox, s'.applied, s.log)
  {
  }

  lemma ClaimKeepsTransport(s: State, id: EventId)
    requires TransportOk(s) && id in s.log && (HandlingStore(s.log[id].payload), id) !in s.inbox
    ensures TransportOk(Claim(s, HandlingStore(s.log[id].payload), id))
  {
    ClaimKeepsInbox(s, id);
  }

  lemma ProjectKeepsProjections(projections: map<SubscriptionId, Projection>, log: map<EventId, Logged>,
                                inbox: set<(Store, EventId)>, id: EventId, p: Projection)
    requires ProjectionsOk(projections, log, inbox)
    requires id in log && log[id].payload == SubscriptionUpdated(p)
    ensures ProjectionsOk(Project(projections, p), log, inbox + {(Automation, id)})
  {
    var projections', inbox' := Project(projections, p), inbox + {(Automation, id)};
    assert Handled(log, inbox', id, p);
    forall k | k in projections'
      ensures projections'[k].id == k && exists e :: Handled(log, inbox', e, projections'[k])
    {
      if projections'[k] != p {
        var e :| Handled(log, inbox, e, projections[k]);
        assert Handled(log, inbox', e, projections'[k]);
      }
    }
    forall e, q | Handled(log, inbox', e, q)
      ensures q.id in projections' && q.revision <= projections'[q.id].revision
    {
      assert e != id ==> Handled(log, inbox, e, q);
    }
  }

  lemma OtherClaimKeepsProjections(s: State, store: Store, id: EventId)
    requires ProjectionsOk(s.projections, s.log, s.inbox)
    requires id in s.log && !s.log[id].payload.SubscriptionUpdated?
    ensures ProjectionsOk(s.projections, s.log, Claim(s, store, id).inbox)
  {
    var inbox' := Claim(s, store, id).inbox;
    assert forall e, p :: Handled(s.log, inbox', e, p) <==> Handled(s.log, s.inbox, e, p);
  }

  lemma OtherClaimKeepsNotifications(s: State, store: Store, id: EventId)
    requires NotificationsOk(s.notifications, s.intents, s.log, s.inbox)
    requires id in s.log && !s.log[id].payload.IntentCreated?
    ensures NotificationsOk(s.notifications, s.intents, s.log, Claim(s, store, id).inbox)
  {
  }

  lemma UpdateFacts(s: State, id: EventId)
    requires LogOk(s.log, s.versions, s.signals, s.intents, s.origins) && VersionsOk(s.versions)
    requires id in s.log && s.log[id].payload.SubscriptionUpdated?
    ensures IsStockCode(s.log[id].payload.projection.stockCode)
  {
    LoggedEvent(s, id);
    var p := s.log[id].payload.projection;
    assert VersionAt(p.id, p.revision) in s.versions[p.id];
  }

  lemma UpdateUnfolds(s: State, id: EventId, p: Projection)
    requires IsStockCode(p.stockCode)
    ensures HandleSubscriptionUpdate(s, id, p)
         == if (Automation, id) in s.inbox then s
            else Claim(s, Automation, id).(projections := Project(s.projections, p))
  {
    assert NormalizeStockCode(p.stockCode) == Some(p.stockCode);
    assert p.(stockCode := p.stockCode) == p;
  }

  lemma SubscriptionUpdateKeepsInv(s: State, e: Event, s': State)
    requires Inv(s) && e in s.broker && e.payload.SubscriptionUpdated?
    requires s' == HandleSubscriptionUpdate(s, e.id, e.payload.projection)
    ensures Inv(s')
  {
    QueuedEvent(s, e);
    UpdateFacts(s, e.id);
    UpdateUnfolds(s, e.id, e.payload.projection);
    if (Automation, e.id) !in s.inbox {
      UpdateKeepsInv(s, e.id, e.payload.projection);
    }
  }

  lemma UpdateKeepsInv(s: State, id: EventId, p: Projection)
    requires Inv(s) && id in s.log && s.log[id].payload == SubscriptionUpdated(p) && (Automation, id) !in s.inbox
    ensures Inv(Claim(s, Automation, id).(projections := Project(s.projections, p)))
  {
    ClaimKeepsTransport(s, id);
    ProjectKeepsProjections(s.projections, s.log, s.inbox, id, p);
    OtherClaimKeepsNotifications(s, Automation, id);
  }

  /** A projection is a committed version of its subscription. */
  lemma ProjectionIsVersion(s: State, id: SubscriptionId)
    requires Inv(s) && id in s.projections
    ensures s.projections[id] == ProjectionAt(id, s.projections[id].revision)
    ensures Committed(s.versions, id, s.projections[id].revision)
    ensures IsStockCode(id.stockCode)
  {
    var e :| Handled(s.log, s.inbox, e, s.projections[id]);
    LoggedEvent(s, e);
    UpdateFacts(s, e);
  }

  lemma IntentKeepsLog(s: State, intent: Intent, o: Origin)
    requires LogOk(s.log, s.versions, s.signals, s.intents, s.origins) && intent.id !in s.intents
    ensures LogOk(s.log, s.versions, s.signals, s.intents[intent.id := intent], s.origins[intent.id := o])
  {
    var intents', origins' := s.intents[intent.id := intent], s.origins[intent.id := o];
    forall i | i in s.log ensures EventOk(i, s.log[i], s.versions, s.signals, intents', origins') {
      assert EventOk(i, s.log[i], s.versions, s.signals, s.intents, s.origins);
    }
  }

  lemma IntentKeepsNotifications(s: State, intent: Intent)
    requires NotificationsOk(s.notifications, s.intents, s.log, s.inbox) && intent.id !in s.intents
    ensures NotificationsOk(s.notifications, s.intents[intent.id := intent], s.log, s.inbox)
  {
    var intents' := s.intents[intent.id := intent];
    forall k | k in s.notifications ensures NotificationOk(k, s.notifications[k], intents') {
      assert NotificationOk(k, s.notifications[k], s.intents);
    }
  }

  lemma IntentKeepsContent(s: State, intent: Intent, o: Origin)
    requires ContentOk(s) && intent.id !in s.intents
    ensures LogOk(s.log, s.versions, s.signals, s.intents[intent.id := intent], s.origins[intent.id := o])
    ensures NotificationsOk(s.notifications, s.intents[intent.id := intent], s.log, s.inbox)
  {
    IntentKeepsLog(s, intent, o);
    IntentKeepsNotifications(s, intent);
  }

  lemma OtherIntentKept(k: IntentId, i: Intent, o: Origin, signals: map<SignalId, Signal>,
                        versions: map<SubscriptionId, seq<Subscription>>, log: map<EventId, Logged>, e: EventId, l: Logged)
    requires IntentOk(k, i, o, signals, versions, log) && e !in log
    ensures IntentOk(k, i, o, signals, versions, log[e := l])
  {
  }

  lemma IntentKeepsIntents(intents: map<IntentId, Intent>, origins: map<IntentId, Origin>, signals: map<SignalId, Signal>,
                           versions: map<SubscriptionId, seq<Subscription>>, log: map<EventId, Logged>, intent: Intent, o: Origin, l: Logged)
    requires IntentsOk(intents, origins, signals, versions, log) && intent.id !in intents && o.event !in log
    requires IntentOk(intent.id, intent, o, signals, versions, log[o.event := l])
    ensures IntentsOk(intents[intent.id := intent], origins[intent.id := o], signals, versions, log[o.event := l])
  {
    forall k | k in intents ensures IntentOk(k, intents[k], origins[k], signals, versions, log[o.event := l]) {
      OtherIntentKept(k, intents[k], origins[k], signals, versions, log, o.event, l);
    }
  }

  lemma AddIntentKeepsContent(s: State, intent: Intent, o: Origin)
    requires TransportOk(s) && ContentOk(s) && Automation in s.outbox && intent.id !in s.intents
    requires o.event == s.nextEvent && s.nextEvent !in s.log
    requires IntentOk(intent.id, intent, o, s.signals, s.versions, s.log[o.event := Logged(Automation, IntentCreated(intent))])
    ensures ContentOk(AppendEvent(s.(intents := s.intents[intent.id := intent], origins := s.origins[intent.id := o]),
                                  Automation, IntentCreated(intent)))
  {
    IntentKeepsContent(s, intent, o);
    IntentKeepsIntents(s.intents, s.origins, s.signals, s.versions, s.log, intent, o, Logged(Automation, IntentCreated(intent)));
    var s1 := s.(intents := s.intents[intent.id := intent], origins := s.origins[intent.id := o]);
    AppendKeepsProjections(s1, Automation, IntentCreated(intent));
    AppendKeepsNotifications(s1, Automation, IntentCreated(intent));
    AppendKeepsLog(s1, Automation, IntentCreated(intent));
  }

  lemma AddIntentKeepsInv(s: State, intent: Intent, revision: int)
    requires Inv(s) && Automation in s.outbox
    requires intent.id !in s.intents ==>
      var o := Origin(s.now, revision, s.nextEvent);
      IntentOk(intent.id, intent, o, s.signals, s.versions, s.log[o.event := Logged(Automation, IntentCreated(intent))])
    ensures Inv(AddIntent(s, intent, revision))
  {
    if intent.id !in s.intents {
      var o := Origin(s.now, revision, s.nextEvent);
      AddIntentKeepsContent(s, intent, o);
      var s1 := s.(intents := s.intents[intent.id := intent], origins := s.origins[intent.id := o]);
      AppendKeepsTransport(s1, Automation, IntentCreated(intent));
    }
  }

  /** What the fan-out of one signal leaves alone. */
  ghost predicate SameButIntents(s: State, s': State) {
    && s'.now == s.now
    && s'.projections == s.projections
    && s'.signals == s.signals
    && s'.versions == s.versions
    && s'.inbox == s.inbox
    && s'.broker == s.broker
    && s'.notifications == s.notifications
    && s'.subscriptions == s.subscriptions
    && s'.sessions == s.sessions
    && s'.accounts == s.accounts
    && s'.applied == s.applied
  }

  lemma AddIntentFrame(s: State, intent: Intent, revision: int)
    requires Automation in s.outbox
    ensures SameButIntents(s, AddIntent(s, intent, revision))
  {
  }

  lemma SameTransitive(s: State, s1: State, s2: State)
    requires SameButIntents(s, s1) && SameButIntents(s1, s2)
    ensures SameButIntents(s, s2)
  {
  }

  lemma {:induction false} FanOutFrame(s: State, signal: Signal, code: string, expiresAt: Time, rows: seq<Projection>)
    requires Automation in s.outbox
    ensures SameButIntents(s, FanOut(s, signal, code, expiresAt, rows))
  {
    if rows != [] {
      var last := |rows| - 1;
      FanOutFrame(s, signal, code, expiresAt, rows[..last]);
      var s1 := FanOut(s, signal, code, expiresAt, rows[..last]);
      AddIntentFrame(s1, IntentFor(signal, code, expiresAt, rows[last]), rows[last].revision);
      SameTransitive(s, s1, FanOut(s, signal, code, expiresAt, rows));
    }
  }

  ghost predicate RowsMatch(s: State, code: string, rows: seq<Projection>) {
    forall i :: 0 <= i < |rows| ==>
      rows[i].id in s.projections && rows[i] == s.projections[rows[i].id] && rows[i].enabled && rows[i].stockCode == code
  }

  lemma {:induction false} FanOutKeepsInv(s: State, signal: Signal, code: string, expiresAt: Time, rows: seq<Projection>)
    requires Inv(s) && Automation in s.outbox && RowsMatch(s, code, rows)
    requires signal.id in s.signals && s.signals[signal.id] == signal
    requires signal.expiresAt == Some(expiresAt) && s.now < expiresAt && NormalizeStockCode(signal.stockCode) == Some(code)
    ensures Inv(FanOut(s, signal, code, expiresAt, rows))
  {
    if rows != [] {
      var last := |rows| - 1;
      FanOutKeepsInv(s, signal, code, expiresAt, rows[..last]);
      FanOutFrame(s, signal, code, expiresAt, rows[..last]);
      var s1 := FanOut(s, signal, code, expiresAt, rows[..last]);
      ProjectionIsVersion(s, rows[last].id);
      AddIntentKeepsInv(s1, IntentFor(signal, code, expiresAt, rows[last]), rows[last].revision);
    }
  }

  lemma EnabledListMatches(s: State, code: string, rank: SubscriptionId -> int, rows: seq<Projection>)
    requires IsEnabledList(s.projections, code, FAN_OUT_LIMIT, rank, rows)
    ensures RowsMatch(s, code, rows)
  {
  }

  lemma ClaimKeepsInv(s: State, e: Event)
    requires Inv(s) && e in s.broker && e.payload.SignalCreated? && (Automation, e.id) !in s.inbox
    ensures Inv(Claim(s, Automation, e.id))
  {
    ClaimKeepsInbox(s, e.id);
    OtherClaimKeepsProjections(s, Automation, e.id);
    OtherClaimKeepsNotifications(s, Automation, e.id);
  }

  lemma SignalUnfolds(s: State, id: EventId, signal: Signal, rows: seq<Projection>, s': State)
    requires Automation in s.outbox && s' == HandleSignalCreated(s, id, signal, rows) && signal.expiresAt.Some?
    ensures s' != s ==>
      && NormalizeStockCode(signal.stockCode).Some?
      && (Automation, id) !in s.inbox
      && s' == if signal.expiresAt.value <= s.now then Claim(s, Automation, id)
               else FanOut(Claim(s, Automation, id), signal, NormalizeStockCode(signal.stockCode).value,
                           signal.expiresAt.value, rows)
  {
  }

  lemma SignalCreatedKeepsInv(s: State, e: Event, rank: SubscriptionId -> int, rows: seq<Projection>, s': State)
    requires Inv(s) && e in s.broker && e.payload.SignalCreated? && Automation in s.outbox
    requires NormalizeStockCode(e.payload.signal.stockCode).Some? ==>
      IsEnabledList(s.projections, NormalizeStockCode(e.payload.signal.stockCode).value, FAN_OUT_LIMIT, rank, rows)
    requires s' == HandleSignalCreated(s, e.id, e.payload.signal, rows)
    ensures Inv(s')
  {
    var signal := e.payload.signal;
    QueuedEvent(s, e);
    LoggedEvent(s, e.id);
    SignalUnfolds(s, e.id, signal, rows, s');
    if s' != s {
      ClaimKeepsInv(s, e);
      var code := NormalizeStockCode(signal.stockCode).value;
      EnabledListMatches(s, code, rank, rows);
      FreshSignalKeepsInv(s, e, code, rows);
    }
  }

  lemma FreshSignalKeepsInv(s: State, e: Event, code: string, rows: seq<Projection>)
    requires Inv(s) && e in s.broker && e.payload.SignalCreated? && Automation in s.outbox
    requires Inv(Claim(s, Automation, e.id)) && RowsMatch(s, code, rows)
    requires NormalizeStockCode(e.payload.signal.stockCode) == Some(code)
    ensures e.payload.signal.expiresAt.Some?
    ensures e.payload.signal.expiresAt.value > s.now ==>
              Inv(FanOut(Claim(s, Automation, e.id), e.payload.signal, code, e.payload.signal.expiresAt.value, rows))
  {
    var signal := e.payload.signal;
    QueuedEvent(s, e);
    LoggedEvent(s, e.id);
    if signal.expiresAt.value > s.now {
      FanOutKeepsInv(Claim(s, Automation, e.id), signal, code, signal.expiresAt.value, rows);
    }
  }

  lemma NotifyKeepsNotifications(notifications: map<(ShardId, NotificationId), Notification>, intents: map<IntentId, Intent>,
                                 log: map<EventId, Logged>, inbox: set<(Store, EventId)>,
                                 id: EventId, intent: Intent, now: Time)
    requires NotificationsOk(notifications, intents, log, inbox)
    requires id in log && log[id].payload == IntentCreated(intent)
    requires intent.id in intents && intents[intent.id] == intent
    ensures NotificationsOk(Notify(notifications, intent, now), intents, log, inbox + {(Account(intent.shard), id)})
  {
  }

  lemma IntentFacts(s: State, id: EventId)
    requires LogOk(s.log, s.versions, s.signals, s.intents, s.origins)
    requires IntentsOk(s.intents, s.origins, s.signals, s.versions, s.log)
    requires id in s.log && s.log[id].payload.IntentCreated?
    ensures var intent := s.log[id].payload.intent;
            && intent.id in s.intents
            && s.intents[intent.id] == intent
            && IsStockCode(intent.stockCode)
            && intent.shard == ShardIdFor(intent.user)
  {
    LoggedEvent(s, id);
    KnownIntent(s, s.log[id].payload.intent.id);
  }

  lemma IntentKeepsInv(s: State, id: EventId, intent: Intent)
    requires Inv(s) && id in s.log && s.log[id].payload == IntentCreated(intent)
    requires (Account(intent.shard), id) !in s.inbox && intent.id in s.intents && s.intents[intent.id] == intent
    ensures Inv(Claim(s, Account(intent.shard), id).(notifications := Notify(s.notifications, intent, s.now)))
  {
    ClaimKeepsTransport(s, id);
    OtherClaimKeepsProjections(s, Account(intent.shard), id);
    NotifyKeepsNotifications(s.notifications, s.intents, s.log, s.inbox, id, intent, s.now);
  }

  lemma IntentUnfolds(s: State, id: EventId, intent: Intent)
    requires IsStockCode(intent.stockCode) && intent.shard in ACCOUNT_SHARDS
    ensures HandleIntentCreated(s, id, intent)
         == if (Account(intent.shard), id) in s.inbox then s
            else Claim(s, Account(intent.shard), id).(notifications := Notify(s.notifications, intent, s.now))
  {
    assert NormalizeStockCode(intent.stockCode) == Some(intent.stockCode);
    assert intent.(stockCode := intent.stockCode) == intent;
  }

  lemma IntentCreatedKeepsInv(s: State, e: Event, s': State)
    requires Inv(s) && e in s.broker && e.payload.IntentCreated?
    requires s' == HandleIntentCreated(s, e.id, e.payload.intent)
    ensures Inv(s')
  {
    QueuedEvent(s, e);
    IntentFacts(s, e.id);
    var intent := e.payload.intent;
    IntentUnfolds(s, e.id, intent);
    if (Account(intent.shard), e.id) !in s.inbox {
      IntentKeepsInv(s, e.id, intent);
    }
  }

  lemma HandleKeepsInv(s: State, e: Event, rank: SubscriptionId -> int, rows: seq<Projection>, s': State)
    requires Inv(s) && e in s.broker && Automation in s.outbox && s' == Handle(s, e, rows)
    requires e.payload.SignalCreated? && NormalizeStockCode(e.payload.signal.stockCode).Some? ==>
      IsEnabledList(s.projections, NormalizeStockCode(e.payload.signal.stockCode).value, FAN_OUT_LIMIT, rank, rows)
    ensures Inv(s')
  {
    match e.payload
    case SubscriptionUpdated(_) => SubscriptionUpdateKeepsInv(s, e, s');
    case SignalCreated(_) => SignalCreatedKeepsInv(s, e, rank, rows, s');
    case IntentCreated(_) => IntentCreatedKeepsInv(s, e, s');
  }

  /** Messages may vanish from the broker at any time. */
  lemma DropKeepsInv(s: State, e: Event)
    requires Inv(s)
    ensures Inv(s.(broker := s.broker - multiset{e}))
  {
    assert forall x :: x in s.broker - multiset{e} ==> x in s.broker;
    assert BrokerOk(s.broker - multiset{e}, s.log, s.outbox);
  }

  lemma DeliverKeepsInv(s: State, e: Event, rank: SubscriptionId -> int, rows: seq<Projection>, acked: bool, s': State)
    requires Inv(s) && DeliverStep(s, e, rank, rows, acked, s')
    ensures Inv(s')
  {
    var s1 := Handle(s, e, rows);
    HandleKeepsInv(s, e, rank, rows, s1);
    if acked {
      DropKeepsInv(s1, e);
    }
  }

  // ------------------------------------------------------------------- runs

  lemma InitInv(now: Time)
    ensures Inv(Init(now))
  {
    var s := Init(now);
    assert s.outbox.Keys == STORES;
    forall q | q in s.outbox ensures TableOk(q, s.outbox[q], s.log) {
      assert s.outbox[q] == Outbox.EmptyTable(now);
    }
  }

  lemma AccountStepKeepsInv(s: State, step: Step, s': State)
    requires Inv(s) && Next(s, step, s') && (step.Tick? || step.Signup? || step.Login? || step.EndSession?)
    ensures Inv(s')
  {
  }

  lemma ApiStepKeepsInv(s: State, step: Step, s': State)
    requires Inv(s) && Next(s, step, s') && (step.Subscribe? || step.Unsubscribe? || step.Record? || step.Read?)
    ensures Inv(s')
  {
    match step
    case Subscribe(session, raw, read) => WriteKeepsInv(s, session, raw, true, read);
    case Unsubscribe(session, raw, read) => WriteKeepsInv(s, session, raw, false, read);
    case Record(signal) => RecordKeepsInv(s, signal);
    case Read(session, notification) => ReadKeepsInv(s, session, notification);
  }

  lemma StepKeepsInv(s: State, step: Step, s': State)
    requires Inv(s) && Next(s, step, s')
    ensures Inv(s')
  {
    if step.Tick? || step.Signup? || step.Login? || step.EndSession? {
      AccountStepKeepsInv(s, step, s');
    } else if step.Subscribe? || step.Unsubscribe? || step.Record? || step.Read? {
      ApiStepKeepsInv(s, step, s');
    } else {
      match step
      case Relay(store, relayStep) => RelayKeepsInv(s, store, relayStep, s');
      case Deliver(e, rank, rows, acked) => DeliverKeepsInv(s, e, rank, rows, acked, s');
      case DeadLetter(e) => DropKeepsInv(s, e);
    }
  }

  lemma {:induction false} RunInv(states: seq<State>, steps: seq<Step>, k: nat)
    requires IsRun(states, steps) && k < |states|
    ensures Inv(states[k])
  {
    if k == 0 {
      InitInv(states[0].now);
    } else {
      RunInv(states, steps, k - 1);
      assert StepAt(states, steps, k - 1);
      StepKeepsInv(states[k - 1], steps[k - 1], states[k]);
    }
  }
}
