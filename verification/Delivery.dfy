/** Nothing gets lost on the way: what is committed is announced, what is sent is in
    the broker until somebody takes it, and what is delivered is applied. */
module Delivery {
  import opened Basics
  import opened Text
  import opened Domain
  import opened Pipeline
  import opened PipelineInvariant
  import opened PipelineTheorems
  import Outbox

  // ------------------------------------------------- committed is announced

  /** The outbox of `store` has a row that carries `payload`. */
  ghost predicate InOutbox(s: State, store: Store, payload: Payload) {
    store in s.outbox && exists e :: e in s.outbox[store].rows && s.outbox[store].rows[e].event == Event(e, payload)
  }

  ghost predicate IsLogged(log: map<EventId, Logged>, l: Logged) {
    exists e :: e in log && log[e] == l
  }

  /** The update a committed version is announced with. */
  function UpdateOf(v: Subscription): Logged {
    var shard := ShardIdFor(v.user);
    Logged(Account(shard), SubscriptionUpdated(Projection(v.id, v.user, shard, v.stockCode, v.enabled, v.revision)))
  }

  ghost predicate AllLogged(log: map<EventId, Logged>, versions: map<SubscriptionId, seq<Subscription>>, signals: map<SignalId, Signal>) {
    && (forall id, v :: id in versions && v in versions[id] ==> IsLogged(log, UpdateOf(v)))
    && (forall x :: x in signals && signals[x].expiresAt.Some? ==> IsLogged(log, Logged(Automation, SignalCreated(signals[x]))))
  }

  ghost predicate LogGrows(log: map<EventId, Logged>, log': map<EventId, Logged>) {
    forall e :: e in log ==> e in log' && log'[e] == log[e]
  }

  lemma GrowthKeepsLogged(log: map<EventId, Logged>, versions: map<SubscriptionId, seq<Subscription>>, signals: map<SignalId, Signal>,
                          log': map<EventId, Logged>)
    requires AllLogged(log, versions, signals) && LogGrows(log, log')
    ensures AllLogged(log', versions, signals)
  {
    forall l | IsLogged(log, l) ensures IsLogged(log', l) {
      var e :| e in log && log[e] == l;
      assert e in log' && log'[e] == l;
    }
  }

  lemma AppendLogs(s: State, store: Store, payload: Payload, s': State)
    requires store in s.outbox && s.nextEvent !in s.log && s' == AppendEvent(s, store, payload)
    ensures LogGrows(s.log, s'.log) && IsLogged(s'.log, Logged(store, payload))
    ensures s'.versions == s.versions && s'.signals == s.signals
  {
    assert s'.log[s.nextEvent] == Logged(store, payload);
  }

  ghost predicate Fresh(s: State) {
    forall e :: e in s.log ==> e < s.nextEvent
  }

  lemma AddIntentLogs(s: State, intent: Intent, revision: int, s': State)
    requires Fresh(s) && Automation in s.outbox && s' == AddIntent(s, intent, revision)
    ensures LogGrows(s.log, s'.log) && Fresh(s')
  {
  }

  lemma {:induction false} FanOutLogs(s: State, signal: Signal, code: string, expiresAt: Time, rows: seq<Projection>)
    requires Fresh(s) && Automation in s.outbox
    ensures LogGrows(s.log, FanOut(s, signal, code, expiresAt, rows).log) && Fresh(FanOut(s, signal, code, expiresAt, rows))
  {
    if rows != [] {
      var last := |rows| - 1;
      FanOutLogs(s, signal, code, expiresAt, rows[..last]);
      AddIntentLogs(FanOut(s, signal, code, expiresAt, rows[..last]), IntentFor(signal, code, expiresAt, rows[last]),
                    rows[last].revision, FanOut(s, signal, code, expiresAt, rows));
    }
  }

  /** What no handler touches. */
  ghost predicate HandlerFrame(s: State, s': State) {
    LogGrows(s.log, s'.log) && s'.versions == s.versions && s'.signals == s.signals && s'.broker == s.broker
  }

  lemma SignalHandlerFrame(s: State, id: EventId, signal: Signal, rows: seq<Projection>, s': State)
    requires Fresh(s) && IsSignalCase(s, id, signal, rows, s')
    ensures HandlerFrame(s, s')
  {
    var s1 := Claim(s, Automation, id);
    if s' != s && s' != s1 {
      var code, expiresAt :| Automation in s.outbox && s' == FanOut(s1, signal, code, expiresAt, rows);
      FanOutLogs(s1, signal, code, expiresAt, rows);
      FanOutFrame(s1, signal, code, expiresAt, rows);
    }
  }

  lemma UpdateHandlerFrame(s: State, id: EventId, p: Projection, s': State)
    requires s' == HandleSubscriptionUpdate(s, id, p)
    ensures HandlerFrame(s, s')
  {
    if s' != s {
      assert s' == Claim(s, Automation, id).(projections := s'.projections);
    }
  }

  lemma IntentHandlerFrame(s: State, id: EventId, intent: Intent, s': State)
    requires s' == HandleIntentCreated(s, id, intent)
    ensures HandlerFrame(s, s')
  {
    if s' != s {
      assert s' == Claim(s, Account(intent.shard), id).(notifications := s'.notifications);
    }
  }

  lemma HandleKeepsFrame(s: State, e: Event, rows: seq<Projection>, s': State)
    requires Fresh(s) && Automation in s.outbox && s' == Handle(s, e, rows)
    ensures HandlerFrame(s, s')
  {
    match e.payload
    case SubscriptionUpdated(p) => UpdateHandlerFrame(s, e.id, p, s');
    case IntentCreated(intent) => IntentHandlerFrame(s, e.id, intent, s');
    case SignalCreated(signal) =>
      SignalCases(s, e.id, signal, rows, s');
      SignalHandlerFrame(s, e.id, signal, rows, s');
  }

  lemma RecordLogs(s: State, signal: Signal, s': State)
    requires Fresh(s) && Automation in s.outbox && AllLogged(s.log, s.versions, s.signals) && s' == RecordSignal(s, signal)
    ensures AllLogged(s'.log, s'.versions, s'.signals)
  {
    if signal.id !in s.signals && signal.expiresAt.Some? {
      var s1 := s.(signals := s.signals[signal.id := signal]);
      AppendLogs(s1, Automation, SignalCreated(signal), s');
      GrowthKeepsLogged(s.log, s.versions, s.signals, s'.log);
    }
  }

  lemma SaveLogs(s: State, row: Subscription, s': State)
    requires Fresh(s) && AllLogged(s.log, s.versions, s.signals)
    requires Account(ShardIdFor(row.user)) in s.outbox && s' == SaveSubscription(s, ShardIdFor(row.user), row)
    ensures AllLogged(s'.log, s'.versions, s'.signals)
  {
    var shard := ShardIdFor(row.user);
    var s1 := s.(subscriptions := s.subscriptions[(shard, row.id) := row],
                 versions := s.versions[row.id := Versions(s, row.id) + [row]]);
    AppendLogs(s1, Account(shard), UpdateOf(row).payload, s');
    GrowthKeepsLogged(s.log, s.versions, s.signals, s'.log);
  }

  lemma WriteLogs(s: State, session: SessionId, raw: string, enable: bool, read: Option<Subscription>, s': State)
    requires Fresh(s) && AccountsOk(s.accounts, s.sessions) && VersionsOk(s.versions) && WasRead(s, session, raw, read)
    requires AllLogged(s.log, s.versions, s.signals) && s' == WriteSubscription(s, session, raw, enable, read)
    ensures AllLogged(s'.log, s'.versions, s'.signals)
  {
    if session in s.sessions && Account(s.sessions[session].shard) in s.outbox && NormalizeStockCode(raw).Some? {
      var id := SubscriptionId(s.sessions[session].user, NormalizeStockCode(raw).value);
      var v := NewVersion(id, enable, read);
      if v.Some? {
        NewVersionOk(id, enable, read);
        SaveLogs(s, v.value, s');
      }
    }
  }

  lemma StepLogs(s: State, step: Step, s': State)
    requires Inv(s) && AllLogged(s.log, s.versions, s.signals) && Next(s, step, s')
    ensures AllLogged(s'.log, s'.versions, s'.signals)
  {
    if step.Subscribe? || step.Unsubscribe? {
      WriteLogs(s, step.session, step.raw, step.Subscribe?, step.read, s');
    } else if step.Record? {
      RecordLogs(s, step.signal, s');
    } else if step.Deliver? {
      DeliverLogs(s, step, s');
    } else {
      PlainLogs(s, step, s');
    }
  }

  lemma DeliverLogs(s: State, step: Step, s': State)
    requires Fresh(s) && AllLogged(s.log, s.versions, s.signals) && Next(s, step, s') && step.Deliver?
    ensures AllLogged(s'.log, s'.versions, s'.signals)
  {
    HandleKeepsFrame(s, step.event, step.rows, Handle(s, step.event, step.rows));
    GrowthKeepsLogged(s.log, s.versions, s.signals, s'.log);
  }

  lemma PlainLogs(s: State, step: Step, s': State)
    requires Next(s, step, s')
    requires step.Tick? || step.Signup? || step.Login? || step.EndSession? || step.Read? || step.Relay? || step.DeadLetter?
    ensures s'.log == s.log && s'.versions == s.versions && s'.signals == s.signals
  {
  }

  lemma NextLogs(states: seq<State>, steps: seq<Step>, k: nat, s: State, s': State)
    requires IsRun(states, steps) && k < |steps| && s == states[k] && s' == states[k + 1]
    requires AllLogged(s.log, s.versions, s.signals)
    ensures AllLogged(s'.log, s'.versions, s'.signals)
  {
    RunInv(states, steps, k);
    assert StepAt(states, steps, k);
    StepLogs(s, steps[k], s');
  }

  lemma {:induction false} RunLogs(states: seq<State>, steps: seq<Step>, k: nat)
    requires IsRun(states, steps) && k < |states|
    ensures AllLogged(states[k].log, states[k].versions, states[k].signals)
  {
    if k > 0 {
      RunLogs(states, steps, k - 1);
      NextLogs(states, steps, k - 1, states[k - 1], states[k]);
    }
  }

  lemma LoggedIsInOutbox(s: State, l: Logged)
    requires OutboxOk(s.outbox, s.log, s.nextEvent) && IsLogged(s.log, l) && l.store in STORES
    ensures InOutbox(s, l.store, l.payload)
  {
    var e :| e in s.log && s.log[e] == l;
    assert TableOk(l.store, s.outbox[l.store], s.log);
  }

  /** The update of a committed version lies in the outbox of its user's shard. */
  ghost predicate Announced(s: State, v: Subscription) {
    var shard := if v.user % 2 == 0 then "1" else "2";
    InOutbox(s, Account(shard), SubscriptionUpdated(Projection(v.id, v.user, shard, v.stockCode, v.enabled, v.revision)))
  }

  lemma UpdateIsAnnounced(s: State, v: Subscription)
    requires OutboxOk(s.outbox, s.log, s.nextEvent) && IsLogged(s.log, UpdateOf(v))
    ensures Announced(s, v)
  {
    LoggedIsInOutbox(s, UpdateOf(v));
  }

  /** Nothing is committed without its event: in every run each committed version of a
      subscription, each signal that can expire and each intent has its row in the
      outbox of the database that wrote it. */
  lemma CommittedIsAnnounced(states: seq<State>, steps: seq<Step>, k: nat)
    requires IsRun(states, steps) && k < |states|
    ensures var s := states[k]; forall id, v :: id in s.versions && v in s.versions[id] ==> Announced(s, v)
    ensures var s := states[k]; forall x :: x in s.signals && s.signals[x].expiresAt.Some? ==>
      InOutbox(s, Automation, SignalCreated(s.signals[x]))
    ensures var s := states[k]; forall x :: x in s.intents ==> InOutbox(s, Automation, IntentCreated(s.intents[x]))
  {
    RunInv(states, steps, k);
    RunLogs(states, steps, k);
    var s := states[k];
    forall id, v | id in s.versions && v in s.versions[id] ensures Announced(s, v) {
      UpdateIsAnnounced(s, v);
    }
    forall x | x in s.signals && s.signals[x].expiresAt.Some? ensures InOutbox(s, Automation, SignalCreated(s.signals[x])) {
      LoggedIsInOutbox(s, Logged(Automation, SignalCreated(s.signals[x])));
    }
    forall x | x in s.intents ensures InOutbox(s, Automation, IntentCreated(s.intents[x])) {
      KnownIntent(s, x);
      LoggedEvent(s, s.origins[x].event);
      LoggedIsInOutbox(s, Logged(Automation, IntentCreated(s.intents[x])));
    }
  }

  // ---------------------------------------------------- the broker's balance

  /** The step sends `e`: a relay publishes its row, and the broker takes it, whether
      or not the relay learns of that. */
  ghost predicate IsSend(s: State, step: Step, e: Event) {
    && step.Relay?
    && step.step.Attempt?
    && !step.step.outcome.Refused?
    && step.store in s.outbox
    && var t, r := s.outbox[step.store], step.step.relay;
       r in t.batches && t.batches[r].todo != [] && t.batches[r].todo[0] in t.rows && t.rows[t.batches[r].todo[0]].event == e
  }

  /** The step takes `e` out of the broker. */
  ghost predicate IsTake(s: State, step: Step, e: Event) {
    e in s.broker && ((step.Deliver? && step.event == e && step.acked) || step == DeadLetter(e))
  }

  ghost function Sends(states: seq<State>, steps: seq<Step>, k: nat, e: Event): nat
    requires k <= |steps| <= |states|
  {
    if k == 0 then 0 else Sends(states, steps, k - 1, e) + if IsSend(states[k - 1], steps[k - 1], e) then 1 else 0
  }

  ghost function Takes(states: seq<State>, steps: seq<Step>, k: nat, e: Event): nat
    requires k <= |steps| <= |states|
  {
    if k == 0 then 0 else Takes(states, steps, k - 1, e) + if IsTake(states[k - 1], steps[k - 1], e) then 1 else 0
  }

  lemma RelayMoves(s: State, store: Store, step: Outbox.Step, s': State, e: Event)
    requires RelayStep(s, store, step, s')
    ensures s'.broker[e] == s.broker[e] + if IsSend(s, Relay(store, step), e) then 1 else 0
  {
  }

  lemma WriteKeepsBroker(s: State, session: SessionId, raw: string, enable: bool, read: Option<Subscription>, s': State)
    requires s' == WriteSubscription(s, session, raw, enable, read)
    ensures s'.broker == s.broker
  {
  }

  lemma RecordKeepsBroker(s: State, signal: Signal, s': State)
    requires Automation in s.outbox && s' == RecordSignal(s, signal)
    ensures s'.broker == s.broker
  {
    if s' != s && signal.expiresAt.Some? {
      AppendFrame(s.(signals := s.signals[signal.id := signal]), Automation, SignalCreated(signal), s');
    }
  }

  lemma DeliveryMoves(s: State, step: Step, s': State, e: Event)
    requires Fresh(s) && Next(s, step, s') && step.Deliver?
    ensures s'.broker[e] + (if IsTake(s, step, e) then 1 else 0) == s.broker[e]
  {
    HandleKeepsFrame(s, step.event, step.rows, Handle(s, step.event, step.rows));
  }

  lemma StepMoves(s: State, step: Step, s': State, e: Event)
    requires Fresh(s) && Next(s, step, s')
    ensures s'.broker[e] + (if IsTake(s, step, e) then 1 else 0) == s.broker[e] + if IsSend(s, step, e) then 1 else 0
  {
    match step
    case Relay(store, relayStep) => RelayMoves(s, store, relayStep, s', e);
    case Deliver(_, _, _, _) => DeliveryMoves(s, step, s', e);
    case Subscribe(session, raw, read) => WriteKeepsBroker(s, session, raw, true, read, s');
    case Unsubscribe(session, raw, read) => WriteKeepsBroker(s, session, raw, false, read, s');
    case Record(signal) => RecordKeepsBroker(s, signal, s');
    case _ =>
  }

  lemma RunMoves(states: seq<State>, steps: seq<Step>, k: nat, s: State, s': State, e: Event)
    requires IsRun(states, steps) && k < |steps| && s == states[k] && s' == states[k + 1]
    ensures s'.broker[e] + (if IsTake(s, steps[k], e) then 1 else 0) == s.broker[e] + if IsSend(s, steps[k], e) then 1 else 0
  {
    RunInv(states, steps, k);
    assert StepAt(states, steps, k);
    StepMoves(s, steps[k], s', e);
  }

  /** The broker's balance: in every run it holds an event as often as relays sent it
      and nobody yet took it out. */
  lemma {:induction false} MessagesBalance(states: seq<State>, steps: seq<Step>, k: nat, e: Event)
    requires IsRun(states, steps) && k < |states|
    ensures states[k].broker[e] == Sends(states, steps, k, e) - Takes(states, steps, k, e)
  {
    if k > 0 {
      MessagesBalance(states, steps, k - 1, e);
      RunMoves(states, steps, k - 1, states[k - 1], states[k], e);
    }
  }

  // ---------------------------------------------------- delivered is applied

  lemma ClaimedApplies(s: State, e: Event, rows: seq<Projection>, s': State)
    requires Automation in s.outbox && s' == Handle(s, e, rows) && (HandlingStore(e.payload), e.id) !in s.inbox
    requires e.payload.SubscriptionUpdated? ==> NormalizeStockCode(e.payload.projection.stockCode).Some?
    requires e.payload.IntentCreated? ==> NormalizeStockCode(e.payload.intent.stockCode).Some? && e.payload.intent.shard in ACCOUNT_SHARDS
    requires e.payload.SignalCreated? ==> NormalizeStockCode(e.payload.signal.stockCode).Some?
    ensures s'.applied == s.applied + [e.id]
  {
    if e.payload.SignalCreated? {
      var signal := e.payload.signal;
      if signal.expiresAt.Some? && s.now < signal.expiresAt.value {
        FanOutFrame(Claim(s, Automation, e.id), signal, NormalizeStockCode(signal.stockCode).value, signal.expiresAt.value, rows);
      }
    }
  }

  lemma IntentsAreReadable(s: State, e: EventId, i: Intent)
    requires LogOk(s.log, s.versions, s.signals, s.intents, s.origins)
    requires IntentsOk(s.intents, s.origins, s.signals, s.versions, s.log)
    requires e in s.log && s.log[e].payload == IntentCreated(i)
    ensures NormalizeStockCode(i.stockCode).Some? && i.shard in ACCOUNT_SHARDS
  {
    LoggedEvent(s, e);
    KnownIntent(s, i.id);
    assert IsStockCode(i.stockCode);
  }

  /** A delivered event is applied, then or before, whatever it is: only a signal whose
      stock code is no code is left unapplied, and leaves everything as it was. */
  lemma DeliveredIsApplied(states: seq<State>, steps: seq<Step>, k: nat)
    requires IsRun(states, steps) && k < |steps| && steps[k].Deliver?
    ensures var e := steps[k].event;
      if e.payload.SignalCreated? && NormalizeStockCode(e.payload.signal.stockCode).None?
      then states[k + 1] == states[k].(broker := states[k + 1].broker)
      else states[k + 1].applied == if e.id in states[k].applied then states[k].applied else states[k].applied + [e.id]
  {
    RunInv(states, steps, k);
    assert StepAt(states, steps, k);
    var s, e, rows := states[k], steps[k].event, steps[k].rows;
    QueuedEvent(s, e);
    match e.payload {
      case SubscriptionUpdated(_) => UpdateFacts(s, e.id);
      case IntentCreated(i) => IntentsAreReadable(s, e.id, i);
      case SignalCreated(_) =>
    }
    if (HandlingStore(e.payload), e.id) in s.inbox {
      ClaimedIsNoOp(s, e, rows);
    } else if !e.payload.SignalCreated? || NormalizeStockCode(e.payload.signal.stockCode).Some? {
      ClaimedApplies(s, e, rows, Handle(s, e, rows));
    }
  }

  // --------------------------------------------------------- read is marked

  /** In every run a read by a live session of one of its user's notifications leaves it
      marked, with the time of the first reading; any other read changes nothing. */
  lemma ReadIsMarked(states: seq<State>, steps: seq<Step>, k: nat)
    requires IsRun(states, steps) && k < |steps| && steps[k].Read?
    ensures var s, s', session := states[k], states[k + 1], steps[k].session;
      if session in s.sessions && (s.sessions[session].shard, steps[k].notification) in s.notifications
         && s.notifications[(s.sessions[session].shard, steps[k].notification)].user == s.sessions[session].user
      then
        var key := (s.sessions[session].shard, steps[k].notification);
        s'.notifications == s.notifications[key :=
          if s.notifications[key].readAt.Some? then s.notifications[key] else s.notifications[key].(readAt := Some(s.now))]
      else s' == s
  {
    assert StepAt(states, steps, k);
  }
}
