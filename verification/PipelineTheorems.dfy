/** What the pipeline guarantees in every run. */
module PipelineTheorems {
  import opened Basics
  import opened Text
  import opened Domain
  import opened Pipeline
  import opened PipelineInvariant
  import Outbox

  // ------------------------------------------------------------ convergence

  /** Under any duplication, reordering, loss and any writer race: a subscription
      is projected exactly when one of its updates was applied, and the projection
      is the committed source version of the highest revision applied. */
  lemma ProjectionConvergence(states: seq<State>, steps: seq<Step>, k: nat, id: SubscriptionId)
    requires IsRun(states, steps) && k < |states|
    ensures var s := states[k];
      id in s.projections <==> exists e, p :: Handled(s.log, s.inbox, e, p) && p.id == id
    ensures var s := states[k]; id in s.projections ==>
      var r := s.projections[id].revision;
      && s.projections[id] == ProjectionAt(id, r)
      && Committed(s.versions, id, r)
      && (exists e :: Handled(s.log, s.inbox, e, ProjectionAt(id, r)))
      && (forall e, p :: Handled(s.log, s.inbox, e, p) && p.id == id ==> p.revision <= r)
  {
    RunInv(states, steps, k);
    if id in states[k].projections {
      ProjectionIsVersion(states[k], id);
    }
  }

  /** Revision determines content, however writers raced: enabled exactly when
      odd, so two updates of one subscription and revision are the same update. */
  lemma RevisionDeterminesContent(states: seq<State>, steps: seq<Step>, k: nat, a: EventId, b: EventId)
    requires IsRun(states, steps) && k < |states| && a in states[k].log && b in states[k].log
    requires states[k].log[a].payload.SubscriptionUpdated? && states[k].log[b].payload.SubscriptionUpdated?
    ensures var p := states[k].log[a].payload.projection; p.enabled <==> p.revision % 2 == 1
    ensures var p, q := states[k].log[a].payload.projection, states[k].log[b].payload.projection;
      p.id == q.id && p.revision == q.revision ==> p == q
  {
    RunInv(states, steps, k);
    LoggedEvent(states[k], a);
    LoggedEvent(states[k], b);
  }

  ghost predicate SameRows(s: State, s': State) {
    s'.subscriptions == s.subscriptions && s'.versions == s.versions
  }

  /** A signal event changes nothing, is only claimed, or is claimed and fanned out. */
  ghost predicate IsSignalCase(s: State, id: EventId, signal: Signal, rows: seq<Projection>, s': State) {
    || s' == s
    || s' == Claim(s, Automation, id)
    || exists code, expiresAt :: Automation in s.outbox && s' == FanOut(Claim(s, Automation, id), signal, code, expiresAt, rows)
  }

  lemma SignalCases(s: State, id: EventId, signal: Signal, rows: seq<Projection>, s': State)
    requires Automation in s.outbox && s' == HandleSignalCreated(s, id, signal, rows)
    ensures IsSignalCase(s, id, signal, rows, s')
  {
  }

  lemma CaseFrame(s: State, id: EventId, signal: Signal, rows: seq<Projection>, s': State)
    requires IsSignalCase(s, id, signal, rows, s')
    ensures SameRows(s, s') && s'.notifications == s.notifications
  {
    var s1 := Claim(s, Automation, id);
    if s' != s && s' != s1 {
      var code, expiresAt :| Automation in s.outbox && s' == FanOut(s1, signal, code, expiresAt, rows);
      FanOutFrame(s1, signal, code, expiresAt, rows);
    }
  }

  lemma SignalFrame(s: State, id: EventId, signal: Signal, rows: seq<Projection>, s': State)
    requires Automation in s.outbox && s' == HandleSignalCreated(s, id, signal, rows)
    ensures SameRows(s, s') && s'.notifications == s.notifications
  {
    SignalCases(s, id, signal, rows, s');
    CaseFrame(s, id, signal, rows, s');
  }

  lemma UpdateFrame(s: State, id: EventId, p: Projection, s': State)
    requires s' == HandleSubscriptionUpdate(s, id, p)
    ensures SameRows(s, s') && s'.intents == s.intents && s'.notifications == s.notifications
  {
    if NormalizeStockCode(p.stockCode).Some? && (Automation, id) !in s.inbox {
      var projections := Project(s.projections, p.(stockCode := NormalizeStockCode(p.stockCode).value));
      assert s' == Claim(s, Automation, id).(projections := projections);
    } else {
      assert s' == s;
    }
  }

  lemma NotifyEvolves(n: map<(ShardId, NotificationId), Notification>, intent: Intent, now: Time)
    ensures NotificationsEvolve(n, Notify(n, intent, now))
  {
  }

  lemma ClaimFrame(s: State, store: Store, id: EventId, n: map<(ShardId, NotificationId), Notification>, s': State)
    requires s' == Claim(s, store, id).(notifications := n)
    ensures SameRows(s, s') && s'.intents == s.intents
  {
  }

  lemma IntentFrame(s: State, id: EventId, intent: Intent, s': State)
    requires s' == HandleIntentCreated(s, id, intent)
    ensures SameRows(s, s') && s'.intents == s.intents
  {
    if s' != s {
      ClaimFrame(s, Account(intent.shard), id, s'.notifications, s');
    }
  }

  lemma IntentNotifies(s: State, id: EventId, intent: Intent, s': State)
    requires s' == HandleIntentCreated(s, id, intent)
    ensures NotificationsEvolve(s.notifications, s'.notifications)
  {
    if s'.notifications != s.notifications {
      var i := intent.(stockCode := NormalizeStockCode(intent.stockCode).value);
      NotifyEvolves(s.notifications, i, s.now);
      assert s'.notifications == Notify(s.notifications, i, s.now);
    }
  }

  lemma HandleFrame(s: State, e: Event, rows: seq<Projection>, s': State)
    requires Automation in s.outbox && s' == Handle(s, e, rows)
    ensures SameRows(s, s')
    ensures !e.payload.SignalCreated? ==> s'.intents == s.intents
    ensures NotificationsEvolve(s.notifications, s'.notifications)
  {
    match e.payload
    case SubscriptionUpdated(p) => UpdateFrame(s, e.id, p, s');
    case SignalCreated(signal) => SignalFrame(s, e.id, signal, rows, s');
    case IntentCreated(intent) =>
      IntentFrame(s, e.id, intent, s');
      IntentNotifies(s, e.id, intent, s');
  }

  /** The steps that write no subscription, intent or notification. */
  predicate IsPlain(step: Step) {
    step.Tick? || step.Signup? || step.Login? || step.EndSession? || step.Record? || step.Relay? || step.DeadLetter?
  }

  lemma AppendFrame(s: State, store: Store, payload: Payload, s': State)
    requires store in s.outbox && s' == AppendEvent(s, store, payload)
    ensures SameButIntents(s, s')
  {
  }

  lemma RecordFrame(s: State, signal: Signal, s': State)
    requires Automation in s.outbox && s' == RecordSignal(s, signal)
    ensures SameRows(s, s') && s'.intents == s.intents && s'.notifications == s.notifications
  {
    var s1 := s.(signals := s.signals[signal.id := signal]);
    if s' != s && signal.expiresAt.Some? {
      AppendFrame(s1, Automation, SignalCreated(signal), s');
    }
  }

  lemma RelayFrame(s: State, store: Store, step: Outbox.Step, s': State)
    requires RelayStep(s, store, step, s')
    ensures SameRows(s, s') && s'.intents == s.intents && s'.notifications == s.notifications
  {
  }

  lemma PlainFrame(s: State, step: Step, s': State)
    requires Next(s, step, s') && IsPlain(step)
    ensures SameRows(s, s') && s'.intents == s.intents && s'.notifications == s.notifications
  {
    match step
    case Record(signal) => RecordFrame(s, signal, s');
    case Relay(store, relayStep) => RelayFrame(s, store, relayStep, s');
    case _ =>
  }

  lemma WriteFrame(s: State, session: SessionId, raw: string, enable: bool, read: Option<Subscription>, s': State)
    requires s' == WriteSubscription(s, session, raw, enable, read)
    ensures s'.intents == s.intents && s'.notifications == s.notifications
  {
  }

  lemma DeliverFrame(s: State, step: Step, s': State)
    requires Next(s, step, s') && step.Deliver?
    ensures SameRows(s, s')
    ensures !step.event.payload.SignalCreated? ==> s'.intents == s.intents
    ensures NotificationsEvolve(s.notifications, s'.notifications)
  {
    HandleFrame(s, step.event, step.rows, Handle(s, step.event, step.rows));
  }

  lemma OtherStepsKeepRows(s: State, step: Step, s': State)
    requires Next(s, step, s') && !step.Subscribe? && !step.Unsubscribe?
    ensures SameRows(s, s')
  {
    if step.Deliver? {
      DeliverFrame(s, step, s');
    } else if IsPlain(step) {
      PlainFrame(s, step, s');
    }
  }

  /** A write leaves the rows alone or commits one new version. */
  lemma WriteRows(s: State, session: SessionId, raw: string, enable: bool, read: Option<Subscription>, s': State)
    requires s' == WriteSubscription(s, session, raw, enable, read)
    ensures SameRows(s, s') ||
      (&& session in s.sessions
       && NormalizeStockCode(raw).Some?
       && var v := NewVersion(SubscriptionId(s.sessions[session].user, NormalizeStockCode(raw).value), enable, read);
          && v.Some?
          && s'.subscriptions == s.subscriptions[(s.sessions[session].shard, v.value.id) := v.value]
          && s'.versions == s.versions[v.value.id := Versions(s, v.value.id) + [v.value]])
  {
  }

  // ------------------------------------------------------------- once-only

  ghost predicate SameDelivery(a: Intent, b: Intent) {
    a.signal == b.signal && a.subscription == b.subscription
  }

  ghost predicate SameIntentEvent(p: Payload, q: Payload) {
    p.IntentCreated? && q.IntentCreated? && p.intent.id == q.intent.id
  }

  /** Nothing is delivered twice: two notifications of one intent are one row in
      one shard, two intents of one (signal, subscription) are one intent, two
      events of one intent are one event, and no event id is applied twice. */
  lemma OnceOnly(states: seq<State>, steps: seq<Step>, k: nat)
    requires IsRun(states, steps) && k < |states|
    ensures var s := states[k];
      forall x, y :: x in s.notifications && y in s.notifications && s.notifications[x].intent == s.notifications[y].intent ==>
        x == y
    ensures var s := states[k];
      forall x, y :: x in s.intents && y in s.intents && SameDelivery(s.intents[x], s.intents[y]) ==> x == y
    ensures var s := states[k];
      forall a, b :: a in s.log && b in s.log && SameIntentEvent(s.log[a].payload, s.log[b].payload) ==> a == b
    ensures NoDup(states[k].applied)
  {
    RunInv(states, steps, k);
    var s := states[k];
    forall x, y | x in s.notifications && y in s.notifications && s.notifications[x].intent == s.notifications[y].intent
      ensures x == y
    {
      assert NotificationOk(x, s.notifications[x], s.intents) && NotificationOk(y, s.notifications[y], s.intents);
    }
    forall x, y | x in s.intents && y in s.intents && SameDelivery(s.intents[x], s.intents[y]) ensures x == y {
      KnownIntent(s, x);
      KnownIntent(s, y);
    }
    forall a, b | a in s.log && b in s.log && SameIntentEvent(s.log[a].payload, s.log[b].payload) ensures a == b {
      LoggedEvent(s, a);
      LoggedEvent(s, b);
    }
  }

  lemma AppliedIsClaimed(s: State, e: Event)
    requires Inv(s) && e in s.broker && e.id in s.applied
    ensures (HandlingStore(e.payload), e.id) in s.inbox
  {
    QueuedEvent(s, e);
  }

  lemma ClaimedIsNoOp(s: State, e: Event, rows: seq<Projection>)
    requires Automation in s.outbox && (HandlingStore(e.payload), e.id) in s.inbox
    ensures Handle(s, e, rows) == s
  {
  }

  /** Delivering an applied event again, at any later time, changes nothing. */
  lemma RedeliveryIsNoOp(states: seq<State>, steps: seq<Step>, k: nat, e: Event, rows: seq<Projection>)
    requires IsRun(states, steps) && k < |states| && e in states[k].broker && e.id in states[k].applied
    ensures Automation in states[k].outbox && Handle(states[k], e, rows) == states[k]
  {
    RunInv(states, steps, k);
    AppliedIsClaimed(states[k], e);
    ClaimedIsNoOp(states[k], e, rows);
  }

  ghost predicate ConfirmedRow(t: Outbox.Table, e: Event) {
    e.id in t.rows && t.rows[e.id].event == e && e.id in t.accepted
  }

  /** Whatever is in the broker is a committed outbox row of the database that wrote
      it and was confirmed there; a published row was confirmed. */
  lemma BrokerFromOutbox(states: seq<State>, steps: seq<Step>, k: nat, e: Event)
    requires IsRun(states, steps) && k < |states| && e in states[k].broker
    ensures exists store :: store in states[k].outbox && ConfirmedRow(states[k].outbox[store], e)
  {
    RunInv(states, steps, k);
    var s := states[k];
    var store := s.log[e.id].store;
    assert TableOk(store, s.outbox[store], s.log);
    assert ConfirmedRow(s.outbox[store], e);
  }

  // ------------------------------------------------------------- provenance

  /** Step `step` from `s` creates intent `k`: it delivers the recorded signal while
      that is unexpired, and finds the subscription projected as enabled. */
  ghost predicate IntentBorn(s: State, step: Step, s': State, k: IntentId) {
    && step.Deliver?
    && k !in s.intents
    && k in s'.intents
    && k.signal in s.signals
    && step.event.payload == SignalCreated(s.signals[k.signal])
    && s.signals[k.signal].expiresAt.Some?
    && s.now < s.signals[k.signal].expiresAt.value
    && k.subscription in s.projections
    && s.projections[k.subscription].enabled
    && NormalizeStockCode(s.signals[k.signal].stockCode) == Some(s.projections[k.subscription].stockCode)
  }

  ghost predicate ForRow(k: IntentId, signal: Signal, rows: seq<Projection>) {
    exists i :: 0 <= i < |rows| && k == IntentId(signal.id, rows[i].id)
  }

  lemma ForLastRow(k: IntentId, signal: Signal, rows: seq<Projection>)
    requires rows != []
    ensures ForRow(k, signal, rows) <==>
      ForRow(k, signal, rows[..|rows| - 1]) || k == IntentId(signal.id, rows[|rows| - 1].id)
  {
    var last := |rows| - 1;
    if ForRow(k, signal, rows[..last]) {
      var i :| 0 <= i < last && k == IntentId(signal.id, rows[..last][i].id);
      assert k == IntentId(signal.id, rows[i].id);
    }
    if ForRow(k, signal, rows) {
      var i :| 0 <= i < |rows| && k == IntentId(signal.id, rows[i].id);
      assert i < last ==> rows[..last][i] == rows[i];
    }
  }

  lemma AddIntentAdds(s: State, intent: Intent, revision: int)
    requires Automation in s.outbox
    ensures AddIntent(s, intent, revision).intents == if intent.id in s.intents then s.intents else s.intents[intent.id := intent]
  {
  }

  lemma {:induction false} FanOutIntents(s: State, signal: Signal, code: string, expiresAt: Time, rows: seq<Projection>)
    requires Automation in s.outbox
    ensures var s' := FanOut(s, signal, code, expiresAt, rows);
      && (forall k :: k in s'.intents <==> k in s.intents || ForRow(k, signal, rows))
      && (forall k :: k in s.intents ==> k in s'.intents && s'.intents[k] == s.intents[k])
  {
    if rows != [] {
      var last := |rows| - 1;
      FanOutIntents(s, signal, code, expiresAt, rows[..last]);
      var s1 := FanOut(s, signal, code, expiresAt, rows[..last]);
      AddIntentAdds(s1, IntentFor(signal, code, expiresAt, rows[last]), rows[last].revision);
      forall k {
        ForLastRow(k, signal, rows);
      }
    }
  }

  lemma SignalBirth(s: State, id: EventId, signal: Signal, rows: seq<Projection>, s': State, k: IntentId)
    requires Automation in s.outbox && s' == HandleSignalCreated(s, id, signal, rows) && signal.expiresAt.Some?
    requires k !in s.intents && k in s'.intents
    ensures NormalizeStockCode(signal.stockCode).Some? && s.now < signal.expiresAt.value
    ensures exists i :: 0 <= i < |rows| && k == IntentId(signal.id, rows[i].id)
  {
    SignalUnfolds(s, id, signal, rows, s');
    FanOutIntents(Claim(s, Automation, id), signal, NormalizeStockCode(signal.stockCode).value, signal.expiresAt.value, rows);
  }

  lemma DeliveryBirth(s: State, step: Step, s': State, k: IntentId)
    requires Inv(s) && Next(s, step, s') && step.Deliver? && step.event.payload.SignalCreated?
    requires k !in s.intents && k in s'.intents
    ensures IntentBorn(s, step, s', k)
  {
    var e, signal, rows := step.event, step.event.payload.signal, step.rows;
    QueuedEvent(s, e);
    LoggedEvent(s, e.id);
    SignalBirth(s, e.id, signal, rows, Handle(s, e, rows), k);
    var i :| 0 <= i < |rows| && k == IntentId(signal.id, rows[i].id);
    EnabledListMatches(s, NormalizeStockCode(signal.stockCode).value, step.rank, rows);
  }

  lemma OnlySignalsMakeIntents(s: State, step: Step, s': State)
    requires Next(s, step, s') && !(step.Deliver? && step.event.payload.SignalCreated?)
    ensures s'.intents == s.intents
  {
    match step
    case Deliver(_, _, _, _) => DeliverFrame(s, step, s');
    case Subscribe(session, raw, read) => WriteFrame(s, session, raw, true, read, s');
    case Unsubscribe(session, raw, read) => WriteFrame(s, session, raw, false, read, s');
    case Read(_, _) =>
    case _ => PlainFrame(s, step, s');
  }

  /** Every intent of a run was born in some step of that run. */
  lemma {:induction false} IntentProvenance(states: seq<State>, steps: seq<Step>, k: nat, id: IntentId) returns (j: nat)
    requires IsRun(states, steps) && k < |states| && id in states[k].intents
    ensures j < k && IntentBorn(states[j], steps[j], states[j + 1], id)
  {
    assert k > 0;
    assert StepAt(states, steps, k - 1);
    if id in states[k - 1].intents {
      j := IntentProvenance(states, steps, k - 1, id);
    } else {
      j := k - 1;
      RunInv(states, steps, j);
      if !(steps[j].Deliver? && steps[j].event.payload.SignalCreated?) {
        OnlySignalsMakeIntents(states[j], steps[j], states[k]);
        assert false;
      }
      DeliveryBirth(states[j], steps[j], states[k], id);
    }
  }

  /** In step `step` a session of the subscription's own user committed version `v`,
      by subscribing if `v` is enabled and by unsubscribing otherwise. */
  ghost predicate VersionWritten(s: State, step: Step, s': State, id: SubscriptionId, v: Subscription) {
    && (if v.enabled then step.Subscribe? else step.Unsubscribe?)
    && step.session in s.sessions
    && s.sessions[step.session].user == id.user
    && NormalizeStockCode(step.raw) == Some(id.stockCode)
    && CurrentRow(s', ShardIdFor(id.user), id) == Some(v)
  }

  lemma WriteBirth(s: State, session: SessionId, raw: string, enable: bool, read: Option<Subscription>, s': State,
                   id: SubscriptionId, v: Subscription)
    requires AccountsOk(s.accounts, s.sessions) && VersionsOk(s.versions) && WasRead(s, session, raw, read)
    requires s' == WriteSubscription(s, session, raw, enable, read)
    requires v !in Versions(s, id) && v in Versions(s', id)
    ensures session in s.sessions && s.sessions[session].user == id.user && NormalizeStockCode(raw) == Some(id.stockCode)
    ensures v.enabled <==> enable
    ensures CurrentRow(s', ShardIdFor(id.user), id) == Some(v)
  {
    WriteRows(s, session, raw, enable, read, s');
    var nid := SubscriptionId(s.sessions[session].user, NormalizeStockCode(raw).value);
    NewVersionOk(nid, enable, read);
    var row := NewVersion(nid, enable, read).value;
    assert Versions(s', row.id) == Versions(s, row.id) + [row];
  }

  lemma StepBirth(s: State, step: Step, s': State, id: SubscriptionId, v: Subscription)
    requires AccountsOk(s.accounts, s.sessions) && VersionsOk(s.versions)
    requires Next(s, step, s') && (step.Subscribe? || step.Unsubscribe?)
    requires v !in Versions(s, id) && v in Versions(s', id)
    ensures VersionWritten(s, step, s', id, v)
  {
    WriteBirth(s, step.session, step.raw, step.Subscribe?, step.read, s', id, v);
  }

  lemma RunBirth(states: seq<State>, steps: seq<Step>, j: nat, id: SubscriptionId, v: Subscription)
    requires IsRun(states, steps) && j < |steps| && v !in Versions(states[j], id) && v in Versions(states[j + 1], id)
    ensures VersionWritten(states[j], steps[j], states[j + 1], id, v)
  {
    RunInv(states, steps, j);
    assert StepAt(states, steps, j);
    var s, step, s' := states[j], steps[j], states[j + 1];
    if step.Subscribe? || step.Unsubscribe? {
      StepBirth(s, step, s', id, v);
    } else {
      OtherStepsKeepRows(s, step, s');
      assert false;
    }
  }

  lemma {:induction false} VersionProvenance(states: seq<State>, steps: seq<Step>, k: nat, id: SubscriptionId, v: Subscription)
    returns (j: nat)
    requires IsRun(states, steps) && k < |states| && v in Versions(states[k], id)
    ensures j < k && VersionWritten(states[j], steps[j], states[j + 1], id, v)
  {
    assert k > 0;
    if v in Versions(states[k - 1], id) {
      j := VersionProvenance(states, steps, k - 1, id, v);
    } else {
      j := k - 1;
      RunBirth(states, steps, j, id, v);
    }
  }

  /** Step `step` from `s` makes notification `n`, unread: it delivers the event of the
      intent. */
  ghost predicate NotificationBorn(s: State, step: Step, s': State, key: (ShardId, NotificationId), n: Notification) {
    && step.Deliver?
    && key !in s.notifications
    && key in s'.notifications
    && s'.notifications[key] == n
    && n.intent in s.intents
    && step.event.payload == IntentCreated(s.intents[n.intent])
    && n.createdAt == s.now
    && n.readAt == None
  }

  /** Which steps make notifications. */
  lemma OnlyIntentsNotify(s: State, step: Step, s': State)
    requires Next(s, step, s') && !(step.Deliver? && step.event.payload.IntentCreated?)
    ensures s'.notifications.Keys == s.notifications.Keys
  {
    match step
    case Deliver(e, _, rows, _) =>
      match e.payload {
        case SubscriptionUpdated(p) => UpdateFrame(s, e.id, p, Handle(s, e, rows));
        case SignalCreated(signal) => SignalFrame(s, e.id, signal, rows, Handle(s, e, rows));
      }
    case Subscribe(session, raw, read) => WriteFrame(s, session, raw, true, read, s');
    case Unsubscribe(session, raw, read) => WriteFrame(s, session, raw, false, read, s');
    case Read(_, _) =>
    case _ => PlainFrame(s, step, s');
  }

  lemma IntentBirth(s: State, id: EventId, intent: Intent, s': State, key: (ShardId, NotificationId))
    requires s' == HandleIntentCreated(s, id, intent) && key !in s.notifications && key in s'.notifications
    ensures s'.notifications[key].intent == intent.id
    ensures s'.notifications[key].createdAt == s.now && s'.notifications[key].readAt == None
  {
    var i := intent.(stockCode := NormalizeStockCode(intent.stockCode).value);
    assert s'.notifications == Notify(s.notifications, i, s.now);
  }

  lemma NotificationBirth(s: State, step: Step, s': State, key: (ShardId, NotificationId))
    requires Inv(s) && Next(s, step, s') && key !in s.notifications && key in s'.notifications
    ensures NotificationBorn(s, step, s', key, s'.notifications[key])
  {
    if step.Deliver? && step.event.payload.IntentCreated? {
      var e := step.event;
      QueuedEvent(s, e);
      LoggedEvent(s, e.id);
      IntentBirth(s, e.id, e.payload.intent, Handle(s, e, step.rows), key);
    } else {
      OnlyIntentsNotify(s, step, s');
      assert false;
    }
  }

  lemma {:induction false} NotifiedOnce(states: seq<State>, steps: seq<Step>, k: nat, key: (ShardId, NotificationId)) returns (j: nat)
    requires IsRun(states, steps) && k < |states| && key in states[k].notifications
    ensures j < k && NotificationBorn(states[j], steps[j], states[j + 1], key, states[k].notifications[key].(readAt := None))
  {
    assert k > 0;
    if key in states[k - 1].notifications {
      j := NotifiedOnce(states, steps, k - 1, key);
      NotificationStays(states, steps, k - 1, key, states[k - 1], states[k]);
    } else {
      j := k - 1;
      NotificationNew(states, steps, j, key, states[j], states[k]);
    }
  }

  lemma NotificationStays(states: seq<State>, steps: seq<Step>, k: nat, key: (ShardId, NotificationId), s: State, s': State)
    requires IsRun(states, steps) && k < |steps| && s == states[k] && s' == states[k + 1] && key in s.notifications
    ensures key in s'.notifications && s'.notifications[key].(readAt := None) == s.notifications[key].(readAt := None)
  {
    assert StepAt(states, steps, k);
    StepKeepsRead(s, steps[k], s');
  }

  lemma NotificationNew(states: seq<State>, steps: seq<Step>, k: nat, key: (ShardId, NotificationId), s: State, s': State)
    requires IsRun(states, steps) && k < |steps| && s == states[k] && s' == states[k + 1]
    requires key !in s.notifications && key in s'.notifications
    ensures NotificationBorn(s, steps[k], s', key, s'.notifications[key].(readAt := None))
  {
    RunInv(states, steps, k);
    assert StepAt(states, steps, k);
    NotificationBirth(s, steps[k], s', key);
    assert s'.notifications[key].(readAt := None) == s'.notifications[key];
  }

  /** End-to-end provenance: behind every notification there are, earlier in the run
      and in this order, a subscribe by a session of the very user who is notified, a
      delivery of the recorded, still unexpired signal that found that revision of the
      subscription enabled, and the delivery that made the notification, dated then. */
  lemma NotificationProvenance(states: seq<State>, steps: seq<Step>, k: nat, key: (ShardId, NotificationId))
    returns (notified: nat, born: nat, subscribed: nat)
    requires IsRun(states, steps) && k < |states| && key in states[k].notifications
    ensures subscribed < born < notified < k
    ensures var n := states[k].notifications[key];
      && NotificationBorn(states[notified], steps[notified], states[notified + 1], key, n.(readAt := None))
      && n.createdAt == states[notified].now
      && IntentBorn(states[born], steps[born], states[born + 1], n.intent)
      && n.intent.signal == n.signal
      && n.intent.subscription.user == n.user
      && n.intent.subscription.stockCode == n.stockCode
      && steps[subscribed].Subscribe?
      && var v := VersionAt(n.intent.subscription, states[born].projections[n.intent.subscription].revision);
         v.enabled && VersionWritten(states[subscribed], steps[subscribed], states[subscribed + 1], n.intent.subscription, v)
  {
    var n := states[k].notifications[key];
    NotificationIntent(states, steps, k, key);
    notified := NotifiedOnce(states, steps, k, key);
    born := IntentProvenance(states, steps, notified, n.intent);
    subscribed := SubscribedBefore(states, steps, born, n.intent);
  }

  lemma NotificationIntent(states: seq<State>, steps: seq<Step>, k: nat, key: (ShardId, NotificationId))
    requires IsRun(states, steps) && k < |states| && key in states[k].notifications
    ensures var n := states[k].notifications[key];
      && n.intent.signal == n.signal
      && n.intent.subscription.user == n.user
      && n.intent.subscription.stockCode == n.stockCode
  {
    RunInv(states, steps, k);
    var n := states[k].notifications[key];
    assert NotificationOk(key, n, states[k].intents);
    KnownIntent(states[k], n.intent);
  }

  lemma SubscribedBefore(states: seq<State>, steps: seq<Step>, born: nat, id: IntentId) returns (subscribed: nat)
    requires IsRun(states, steps) && born < |steps| && IntentBorn(states[born], steps[born], states[born + 1], id)
    ensures subscribed < born && steps[subscribed].Subscribe?
    ensures var v := VersionAt(id.subscription, states[born].projections[id.subscription].revision);
      v.enabled && VersionWritten(states[subscribed], steps[subscribed], states[subscribed + 1], id.subscription, v)
  {
    RunInv(states, steps, born);
    ProjectionIsVersion(states[born], id.subscription);
    var v := VersionAt(id.subscription, states[born].projections[id.subscription].revision);
    subscribed := VersionProvenance(states, steps, born, id.subscription, v);
  }

  /** Once the event of an intent is applied, the user has the notification, in the
      shard and with the signal the intent names. */
  lemma HandledIsNotified(states: seq<State>, steps: seq<Step>, k: nat, e: EventId)
    requires IsRun(states, steps) && k < |states| && e in states[k].applied
    requires e in states[k].log && states[k].log[e].payload.IntentCreated?
    ensures var s, i := states[k], states[k].log[e].payload.intent;
      var key := (i.shard, NotificationId(i.id));
      && key in s.notifications
      && s.notifications[key].user == i.user
      && s.notifications[key].signal == i.signal
      && s.notifications[key].stockCode == i.stockCode
  {
    RunInv(states, steps, k);
    AppliedIntent(states[k], e, states[k].log[e].payload.intent);
  }

  lemma AppliedIntent(s: State, e: EventId, i: Intent)
    requires TransportOk(s) && NotificationsOk(s.notifications, s.intents, s.log, s.inbox)
    requires LogOk(s.log, s.versions, s.signals, s.intents, s.origins)
    requires e in s.applied && e in s.log && s.log[e].payload == IntentCreated(i)
    ensures var key := (i.shard, NotificationId(i.id));
      && key in s.notifications
      && s.notifications[key].user == i.user
      && s.notifications[key].signal == i.signal
      && s.notifications[key].stockCode == i.stockCode
  {
    assert (Account(i.shard), e) in s.inbox;
    var key := (i.shard, NotificationId(i.id));
    assert NotificationOk(key, s.notifications[key], s.intents);
    assert EventOk(e, s.log[e], s.versions, s.signals, s.intents, s.origins);
  }

  // ---------------------------------------------------------------- read_at

  /** A notification never disappears and, once read, never changes. */
  ghost predicate NotificationsEvolve(n: map<(ShardId, NotificationId), Notification>,
                                      n': map<(ShardId, NotificationId), Notification>) {
    forall k :: k in n ==>
      && k in n'
      && n'[k].(readAt := None) == n[k].(readAt := None)
      && (n[k].readAt.Some? ==> n'[k] == n[k])
  }

  lemma StepKeepsRead(s: State, step: Step, s': State)
    requires Next(s, step, s')
    ensures NotificationsEvolve(s.notifications, s'.notifications)
  {
    match step
    case Deliver(_, _, _, _) => DeliverFrame(s, step, s');
    case Subscribe(session, raw, read) => WriteFrame(s, session, raw, true, read, s');
    case Unsubscribe(session, raw, read) => WriteFrame(s, session, raw, false, read, s');
    case Read(_, _) =>
    case _ => PlainFrame(s, step, s');
  }

  lemma EvolveTransitive(n0: map<(ShardId, NotificationId), Notification>, n1: map<(ShardId, NotificationId), Notification>,
                         n2: map<(ShardId, NotificationId), Notification>)
    requires NotificationsEvolve(n0, n1) && NotificationsEvolve(n1, n2)
    ensures NotificationsEvolve(n0, n2)
  {
    forall k | k in n0
      ensures k in n2 && n2[k].(readAt := None) == n0[k].(readAt := None) && (n0[k].readAt.Some? ==> n2[k] == n0[k])
    {
      assert k in n1;
    }
  }

  /** A set read mark survives every redelivery and everything else. */
  lemma {:induction false} ReadSurvives(states: seq<State>, steps: seq<Step>, j: nat, k: nat)
    requires IsRun(states, steps) && j <= k < |states|
    ensures NotificationsEvolve(states[j].notifications, states[k].notifications)
  {
    if j < k {
      ReadSurvives(states, steps, j, k - 1);
      assert StepAt(states, steps, k - 1);
      StepKeepsRead(states[k - 1], steps[k - 1], states[k]);
      EvolveTransitive(states[j].notifications, states[k - 1].notifications, states[k].notifications);
    }
  }

  // ---------------------------------------------------------------- shards

  /** Shard "1" is that of the users with even ids, shard "2" that of the others. */
  ghost predicate InShard(user: UserId, shard: ShardId) {
    shard == if user % 2 == 0 then "1" else "2"
  }

  /** Every account, session, subscription and notification row of a user lies in, and
      every intent and projection names, the user's shard. */
  lemma ShardPlacement(states: seq<State>, steps: seq<Step>, k: nat)
    requires IsRun(states, steps) && k < |states|
    ensures var s := states[k]; forall u :: u in s.accounts ==> InShard(u, s.accounts[u])
    ensures var s := states[k]; forall x :: x in s.sessions ==> InShard(s.sessions[x].user, s.sessions[x].shard)
    ensures var s := states[k]; forall x :: x in s.subscriptions ==>
      s.subscriptions[x].user == x.1.user && InShard(s.subscriptions[x].user, x.0)
    ensures var s := states[k]; forall x :: x in s.notifications ==> InShard(s.notifications[x].user, x.0)
    ensures var s := states[k]; forall x :: x in s.intents ==> InShard(s.intents[x].user, s.intents[x].shard)
    ensures var s := states[k]; forall x :: x in s.projections ==> InShard(s.projections[x].user, s.projections[x].shard)
  {
    RunInv(states, steps, k);
    var s := states[k];
    forall x | x in s.subscriptions
      ensures s.subscriptions[x].user == x.1.user && InShard(s.subscriptions[x].user, x.0)
    {
      assert VersionOk(x.1, s.subscriptions[x]);
    }
    forall x | x in s.notifications ensures InShard(s.notifications[x].user, x.0) {
      assert NotificationOk(x, s.notifications[x], s.intents);
      KnownIntent(s, s.notifications[x].intent);
    }
    forall x | x in s.intents ensures InShard(s.intents[x].user, s.intents[x].shard) {
      KnownIntent(s, x);
    }
    forall x | x in s.projections ensures InShard(s.projections[x].user, s.projections[x].shard) {
      ProjectionIsVersion(s, x);
    }
  }

  /** So a user's list, read from the one shard the session names, is all of that
      user's notifications. */
  lemma ListingIsComplete(states: seq<State>, steps: seq<Step>, k: nat, session: SessionId)
    requires IsRun(states, steps) && k < |states| && session in states[k].sessions
    ensures var s, user := states[k], states[k].sessions[session].user;
      ListNotifications(s, session) == set x | x in s.notifications && s.notifications[x].user == user :: s.notifications[x]
  {
    ShardPlacement(states, steps, k);
    RunInv(states, steps, k);
  }
}
