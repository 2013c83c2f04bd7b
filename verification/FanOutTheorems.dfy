/** How far fan-out reaches: exactly to the first 1000 enabled subscriptions. */
module FanOutTheorems {
  import opened Basics
  import opened Text
  import opened Domain
  import opened Pipeline
  import opened PipelineInvariant
  import opened PipelineTheorems
  import opened PipelineRuns
  import Outbox

  // ------------------------------------------------- one event for each signal

  ghost predicate Announces(log: map<EventId, Logged>, e: EventId, id: SignalId) {
    e in log && log[e].payload.SignalCreated? && log[e].payload.signal.id == id
  }

  /** The intents of a signal rest on an applied event that announces it. */
  ghost predicate Backed(log: map<EventId, Logged>, applied: seq<EventId>, id: SignalId) {
    exists e :: Announces(log, e, id) && e in applied
  }

  /** A signal is announced by one event, and has no intents before that event was
      applied. */
  ghost predicate AnnouncedOnce(log: map<EventId, Logged>, intents: map<IntentId, Intent>, applied: seq<EventId>) {
    && (forall a, b, id :: Announces(log, a, id) && Announces(log, b, id) ==> a == b)
    && (forall k :: k in intents ==> Backed(log, applied, k.signal))
  }

  /** A step that announces nothing and forgets nothing. */
  ghost predicate Quiet(s: State, s': State) {
    && (forall e, id :: Announces(s'.log, e, id) <==> Announces(s.log, e, id))
    && (forall e :: e in s.applied ==> e in s'.applied)
  }

  lemma QuietKeepsAnnounced(s: State, s': State)
    requires AnnouncedOnce(s.log, s.intents, s.applied) && Quiet(s, s')
    requires forall k :: k in s'.intents ==> k in s.intents || Backed(s'.log, s'.applied, k.signal)
    ensures AnnouncedOnce(s'.log, s'.intents, s'.applied)
  {
    forall k | k in s.intents ensures Backed(s'.log, s'.applied, k.signal) {
      var e :| Announces(s.log, e, k.signal) && e in s.applied;
      assert Announces(s'.log, e, k.signal);
    }
  }

  ghost predicate FreshEvent(s: State) {
    forall e :: e in s.log ==> e < s.nextEvent
  }

  lemma AppendIsQuiet(s: State, store: Store, payload: Payload, s': State)
    requires FreshEvent(s) && store in s.outbox && !payload.SignalCreated? && s' == AppendEvent(s, store, payload)
    ensures Quiet(s, s') && FreshEvent(s')
  {
    assert s.nextEvent !in s.log;
  }

  lemma AddIntentIsQuiet(s: State, intent: Intent, revision: int, s': State)
    requires FreshEvent(s) && Automation in s.outbox && s' == AddIntent(s, intent, revision)
    ensures Quiet(s, s') && FreshEvent(s')
  {
    if intent.id !in s.intents {
      var s1 := s.(intents := s.intents[intent.id := intent],
                   origins := s.origins[intent.id := Origin(s.now, revision, s.nextEvent)]);
      AppendIsQuiet(s1, Automation, IntentCreated(intent), s');
    }
  }

  lemma {:induction false} FanOutIsQuiet(s: State, signal: Signal, code: string, expiresAt: Time, rows: seq<Projection>)
    requires FreshEvent(s) && Automation in s.outbox
    ensures Quiet(s, FanOut(s, signal, code, expiresAt, rows)) && FreshEvent(FanOut(s, signal, code, expiresAt, rows))
  {
    if rows != [] {
      var last := |rows| - 1;
      FanOutIsQuiet(s, signal, code, expiresAt, rows[..last]);
      var s1 := FanOut(s, signal, code, expiresAt, rows[..last]);
      AddIntentIsQuiet(s1, IntentFor(signal, code, expiresAt, rows[last]), rows[last].revision,
                       FanOut(s, signal, code, expiresAt, rows));
    }
  }

  lemma SignalIsQuiet(s: State, id: EventId, signal: Signal, rows: seq<Projection>, s': State)
    requires FreshEvent(s) && IsSignalCase(s, id, signal, rows, s')
    ensures Quiet(s, s')
  {
    var s1 := Claim(s, Automation, id);
    if s' != s && s' != s1 {
      var code, expiresAt :| Automation in s.outbox && s' == FanOut(s1, signal, code, expiresAt, rows);
      FanOutIsQuiet(s1, signal, code, expiresAt, rows);
    }
  }

  lemma SameLogIsQuiet(s: State, s': State)
    requires s'.log == s.log && s.applied <= s'.applied
    ensures Quiet(s, s')
  {
  }

  lemma UpdateKeepsLog(s: State, id: EventId, p: Projection, s': State)
    requires s' == HandleSubscriptionUpdate(s, id, p)
    ensures s'.log == s.log && s.applied <= s'.applied
  {
    if NormalizeStockCode(p.stockCode).Some? && (Automation, id) !in s.inbox {
      assert s' == Claim(s, Automation, id).(projections := s'.projections);
    } else {
      assert s' == s;
    }
  }

  lemma ClaimKeepsLog(s: State, store: Store, id: EventId, n: map<(ShardId, NotificationId), Notification>, s': State)
    requires s' == Claim(s, store, id).(notifications := n)
    ensures s'.log == s.log && s.applied <= s'.applied
  {
  }

  lemma NotifyKeepsLog(s: State, id: EventId, intent: Intent, s': State)
    requires s' == HandleIntentCreated(s, id, intent)
    ensures s'.log == s.log && s.applied <= s'.applied
  {
    if s' != s {
      ClaimKeepsLog(s, Account(intent.shard), id, s'.notifications, s');
    }
  }

  lemma HandleIsQuiet(s: State, e: Event, rows: seq<Projection>, s': State)
    requires FreshEvent(s) && Automation in s.outbox && s' == Handle(s, e, rows)
    ensures Quiet(s, s')
  {
    match e.payload
    case SubscriptionUpdated(p) =>
      UpdateKeepsLog(s, e.id, p, s');
      SameLogIsQuiet(s, s');
    case IntentCreated(intent) =>
      NotifyKeepsLog(s, e.id, intent, s');
      SameLogIsQuiet(s, s');
    case SignalCreated(signal) =>
      SignalCases(s, e.id, signal, rows, s');
      SignalIsQuiet(s, e.id, signal, rows, s');
  }

  lemma WriteIsQuiet(s: State, session: SessionId, raw: string, enable: bool, read: Option<Subscription>, s': State)
    requires FreshEvent(s) && s' == WriteSubscription(s, session, raw, enable, read)
    ensures Quiet(s, s')
  {
    if session in s.sessions && Account(s.sessions[session].shard) in s.outbox && NormalizeStockCode(raw).Some? {
      var v := NewVersion(SubscriptionId(s.sessions[session].user, NormalizeStockCode(raw).value), enable, read);
      if v.Some? {
        SaveIsQuiet(s, s.sessions[session].shard, v.value, s');
      }
    }
  }

  lemma SaveIsQuiet(s: State, shard: ShardId, row: Subscription, s': State)
    requires FreshEvent(s) && Account(shard) in s.outbox && s' == SaveSubscription(s, shard, row)
    ensures Quiet(s, s')
  {
    var s1 := s.(subscriptions := s.subscriptions[(shard, row.id) := row],
                 versions := s.versions[row.id := Versions(s, row.id) + [row]]);
    AppendIsQuiet(s1, Account(shard),
      SubscriptionUpdated(Projection(row.id, row.user, shard, row.stockCode, row.enabled, row.revision)), s');
  }

  lemma PlainIsQuiet(s: State, step: Step, s': State)
    requires Next(s, step, s')
    requires step.Tick? || step.Signup? || step.Login? || step.EndSession? || step.Read? || step.Relay? || step.DeadLetter?
    ensures Quiet(s, s')
  {
  }

  /** Recording a signal announces it for the first time. */
  lemma RecordAnnounces(s: State, signal: Signal, s': State)
    requires FreshEvent(s) && LogOk(s.log, s.versions, s.signals, s.intents, s.origins) && Automation in s.outbox
    requires AnnouncedOnce(s.log, s.intents, s.applied) && s' == RecordSignal(s, signal)
    ensures AnnouncedOnce(s'.log, s'.intents, s'.applied)
  {
    if signal.id !in s.signals && signal.expiresAt.Some? {
      NotYetAnnounced(s, signal.id);
      assert s'.log == s.log[s.nextEvent := Logged(Automation, SignalCreated(signal))];
      NewAnnouncement(s.log, s.intents, s.applied, s.nextEvent, signal);
    }
  }

  lemma NotYetAnnounced(s: State, id: SignalId)
    requires LogOk(s.log, s.versions, s.signals, s.intents, s.origins) && id !in s.signals
    ensures forall e :: !Announces(s.log, e, id)
  {
    forall e ensures !Announces(s.log, e, id) {
      if e in s.log {
        assert EventOk(e, s.log[e], s.versions, s.signals, s.intents, s.origins);
      }
    }
  }

  lemma NewAnnouncement(log: map<EventId, Logged>, intents: map<IntentId, Intent>, applied: seq<EventId>, e: EventId, signal: Signal)
    requires AnnouncedOnce(log, intents, applied) && e !in log && forall x :: !Announces(log, x, signal.id)
    ensures AnnouncedOnce(log[e := Logged(Automation, SignalCreated(signal))], intents, applied)
  {
    var log' := log[e := Logged(Automation, SignalCreated(signal))];
    forall k | k in intents ensures Backed(log', applied, k.signal) {
      var x :| Announces(log, x, k.signal) && x in applied;
      assert Announces(log', x, k.signal);
    }
    assert forall x, id :: Announces(log', x, id) ==> Announces(log, x, id) || (x == e && id == signal.id);
  }

  /** New intents come with the claim of the event that announces their signal. */
  lemma NewIntentsAreBacked(s: State, step: Step, s': State)
    requires Inv(s) && Next(s, step, s') && step.Deliver? && step.event.payload.SignalCreated?
    ensures forall k :: k in s'.intents ==> k in s.intents || Backed(s.log, s'.applied, k.signal)
  {
    var e := step.event;
    QueuedEvent(s, e);
    LoggedEvent(s, e.id);
    forall k | k in s'.intents && k !in s.intents ensures Backed(s.log, s'.applied, k.signal) {
      SignalBirth(s, e.id, e.payload.signal, step.rows, Handle(s, e, step.rows), k);
      assert Announces(s.log, e.id, k.signal);
      FannedOutIsApplied(s, e.id, e.payload.signal, step.rows, Handle(s, e, step.rows), k);
    }
  }

  lemma FannedOutIsApplied(s: State, id: EventId, signal: Signal, rows: seq<Projection>, s': State, k: IntentId)
    requires Automation in s.outbox && s' == HandleSignalCreated(s, id, signal, rows)
    requires k in s'.intents && k !in s.intents
    ensures id in s'.applied
  {
    SignalCases(s, id, signal, rows, s');
    var s1 := Claim(s, Automation, id);
    if s' != s1 {
      var code, expiresAt :| s' == FanOut(s1, signal, code, expiresAt, rows);
      FanOutFrame(s1, signal, code, expiresAt, rows);
    }
  }

  lemma DeliverAnnounces(s: State, step: Step, s': State)
    requires Inv(s) && AnnouncedOnce(s.log, s.intents, s.applied) && Next(s, step, s') && step.Deliver?
    ensures AnnouncedOnce(s'.log, s'.intents, s'.applied)
  {
    HandleIsQuiet(s, step.event, step.rows, Handle(s, step.event, step.rows));
    assert Quiet(s, s');
    if step.event.payload.SignalCreated? {
      NewIntentsAreBacked(s, step, s');
      BackedStays(s, s');
    } else {
      DeliverFrame(s, step, s');
    }
    QuietKeepsAnnounced(s, s');
  }

  lemma BackedStays(s: State, s': State)
    requires Quiet(s, s')
    ensures forall id :: Backed(s.log, s'.applied, id) ==> Backed(s'.log, s'.applied, id)
  {
    forall id | Backed(s.log, s'.applied, id) ensures Backed(s'.log, s'.applied, id) {
      var e :| Announces(s.log, e, id) && e in s'.applied;
      assert Announces(s'.log, e, id);
    }
  }

  lemma StepAnnounces(s: State, step: Step, s': State)
    requires Inv(s) && AnnouncedOnce(s.log, s.intents, s.applied) && Next(s, step, s')
    ensures AnnouncedOnce(s'.log, s'.intents, s'.applied)
  {
    if step.Record? {
      RecordAnnounces(s, step.signal, s');
    } else if step.Deliver? {
      DeliverAnnounces(s, step, s');
    } else {
      if step.Subscribe? || step.Unsubscribe? {
        WriteIsQuiet(s, step.session, step.raw, step.Subscribe?, step.read, s');
      } else {
        PlainIsQuiet(s, step, s');
      }
      OnlySignalsMakeIntents(s, step, s');
      QuietKeepsAnnounced(s, s');
    }
  }

  lemma NextAnnounces(states: seq<State>, steps: seq<Step>, k: nat, s: State, s': State)
    requires IsRun(states, steps) && k < |steps| && s == states[k] && s' == states[k + 1]
    requires AnnouncedOnce(s.log, s.intents, s.applied)
    ensures AnnouncedOnce(s'.log, s'.intents, s'.applied)
  {
    RunInv(states, steps, k);
    assert StepAt(states, steps, k);
    StepAnnounces(s, steps[k], s');
  }

  /** In every run a signal has one event, and intents only once that was applied. */
  lemma {:induction false} RunAnnounces(states: seq<State>, steps: seq<Step>, k: nat)
    requires IsRun(states, steps) && k < |states|
    ensures AnnouncedOnce(states[k].log, states[k].intents, states[k].applied)
  {
    if k > 0 {
      RunAnnounces(states, steps, k - 1);
      NextAnnounces(states, steps, k - 1, states[k - 1], states[k]);
    }
  }

  // ------------------------------------------------------- the limit is exact

  /** Before its event is applied, a signal has no intents. */
  lemma NoIntentsYet(s: State, e: Event)
    requires AnnouncedOnce(s.log, s.intents, s.applied) && e.payload.SignalCreated? && e.id !in s.applied
    requires e.id in s.log && s.log[e.id].payload == e.payload
    ensures forall k :: k in s.intents ==> k.signal != e.payload.signal.id
  {
    forall k | k in s.intents ensures k.signal != e.payload.signal.id {
      assert Backed(s.log, s.applied, k.signal);
      assert Announces(s.log, e.id, e.payload.signal.id);
    }
  }

  ghost function ListedIds(rows: seq<Projection>): set<SubscriptionId> {
    set i | 0 <= i < |rows| :: rows[i].id
  }

  /** The query lists as many ids as the limit allows, the lowest in the order. */
  lemma ListedCount(projections: map<SubscriptionId, Projection>, code: string, limit: nat, rank: SubscriptionId -> int,
                    rows: seq<Projection>)
    requires IsEnabledList(projections, code, limit, rank, rows)
    ensures ListedIds(rows) <= EnabledFor(projections, code)
    ensures |ListedIds(rows)| == Min(limit, |EnabledFor(projections, code)|)
    ensures forall r, u :: r in ListedIds(rows) && u in EnabledFor(projections, code) && u !in ListedIds(rows) ==> rank(r) < rank(u)
  {
    var ids := seq(|rows|, i requires 0 <= i < |rows| => rows[i].id);
    assert NoDup(ids) by {
      forall i, j | 0 <= i < j < |ids| ensures ids[i] != ids[j] {
        assert rank(rows[i].id) < rank(rows[j].id);
      }
    }
    NoDupCard(ids);
    assert Elements(ids) == ListedIds(rows) by {
      forall i | 0 <= i < |rows| ensures rows[i].id in ids {
        assert ids[i] == rows[i].id;
      }
    }
  }

  lemma FreshSignalFansOut(s: State, id: EventId, signal: Signal, rows: seq<Projection>, code: string)
    requires Automation in s.outbox && (Automation, id) !in s.inbox && NormalizeStockCode(signal.stockCode) == Some(code)
    requires signal.expiresAt.Some? && s.now < signal.expiresAt.value
    ensures HandleSignalCreated(s, id, signal, rows)
         == FanOut(Claim(s, Automation, id), signal, code, signal.expiresAt.value, rows)
  {
  }

  /** Fanning out a signal that has no intents yet leaves exactly those for the
      listed subscriptions. */
  lemma FanOutReachesRows(s: State, signal: Signal, code: string, expiresAt: Time, rows: seq<Projection>, id: SubscriptionId)
    requires Automation in s.outbox && forall k :: k in s.intents ==> k.signal != signal.id
    ensures IntentId(signal.id, id) in FanOut(s, signal, code, expiresAt, rows).intents <==> id in ListedIds(rows)
  {
    FanOutIntents(s, signal, code, expiresAt, rows);
    assert ForRow(IntentId(signal.id, id), signal, rows) <==> id in ListedIds(rows);
  }

  lemma HandledIntents(s: State, e: Event, rows: seq<Projection>, acked: bool, s': State, code: string, id: SubscriptionId)
    requires Inv(s) && AnnouncedOnce(s.log, s.intents, s.applied) && e in s.broker && Automation in s.outbox
    requires e.payload.SignalCreated? && e.id !in s.applied && s' == AfterDelivery(s, e, rows, acked)
    requires NormalizeStockCode(e.payload.signal.stockCode) == Some(code)
    requires e.payload.signal.expiresAt.Some? && s.now < e.payload.signal.expiresAt.value
    ensures IntentId(e.payload.signal.id, id) in s'.intents <==> id in ListedIds(rows)
  {
    UnappliedEvent(s, e);
    FreshSignalFansOut(s, e.id, e.payload.signal, rows, code);
    FanOutReachesRows(Claim(s, Automation, e.id), e.payload.signal, code, e.payload.signal.expiresAt.value, rows, id);
  }

  lemma UnappliedEvent(s: State, e: Event)
    requires Inv(s) && AnnouncedOnce(s.log, s.intents, s.applied) && e in s.broker && e.payload.SignalCreated? && e.id !in s.applied
    ensures (Automation, e.id) !in s.inbox
    ensures forall k :: k in s.intents ==> k.signal != e.payload.signal.id
  {
    QueuedEvent(s, e);
    NoIntentsYet(s, e);
  }

  lemma ReachCount(projections: map<SubscriptionId, Projection>, code: string, rank: SubscriptionId -> int, rows: seq<Projection>,
                   reached: set<SubscriptionId>)
    requires IsEnabledList(projections, code, FAN_OUT_LIMIT, rank, rows) && reached == ListedIds(rows)
    ensures var enabled := EnabledFor(projections, code);
      && reached <= enabled
      && |reached| == Min(1000, |enabled|)
      && (reached == enabled <==> |enabled| <= 1000)
  {
    ListedCount(projections, code, FAN_OUT_LIMIT, rank, rows);
    SubsetCard(reached, EnabledFor(projections, code));
  }

  /** Fan-out is complete exactly up to its limit: after the first handling of an
      unexpired signal the first min(1000, enabled) enabled subscriptions of the
      stock, in the order of the query, and no others, have an intent of it; all of
      them do if and only if there are at most 1000. */
  lemma FanOutReach(states: seq<State>, steps: seq<Step>, k: nat, e: Event, code: string)
    requires IsRun(states, steps) && k < |steps| && steps[k].Deliver? && steps[k].event == e
    requires e.payload.SignalCreated? && e.id !in states[k].applied
    requires NormalizeStockCode(e.payload.signal.stockCode) == Some(code)
    requires e.payload.signal.expiresAt.Some? && states[k].now < e.payload.signal.expiresAt.value
    ensures var enabled := EnabledFor(states[k].projections, code);
      var reached := set id | id in enabled && IntentId(e.payload.signal.id, id) in states[k + 1].intents;
      && |reached| == Min(1000, |enabled|)
      && (reached == enabled <==> |enabled| <= 1000)
      && (forall r, u :: r in reached && u in enabled - reached ==> steps[k].rank(r) < steps[k].rank(u))
    ensures forall id :: IntentId(e.payload.signal.id, id) in states[k + 1].intents <==> id in ListedIds(steps[k].rows)
    ensures ListedIds(steps[k].rows) <= EnabledFor(states[k].projections, code)
  {
    DeliveredRows(states, steps, k, e, code);
    var enabled, rows := EnabledFor(states[k].projections, code), steps[k].rows;
    var reached := set id | id in enabled && IntentId(e.payload.signal.id, id) in states[k + 1].intents;
    ListedCount(states[k].projections, code, FAN_OUT_LIMIT, steps[k].rank, rows);
    assert reached == ListedIds(rows);
    ReachCount(states[k].projections, code, steps[k].rank, rows, reached);
  }

  lemma DeliveredRows(states: seq<State>, steps: seq<Step>, k: nat, e: Event, code: string)
    requires IsRun(states, steps) && k < |steps| && steps[k].Deliver? && steps[k].event == e
    requires e.payload.SignalCreated? && e.id !in states[k].applied
    requires NormalizeStockCode(e.payload.signal.stockCode) == Some(code)
    requires e.payload.signal.expiresAt.Some? && states[k].now < e.payload.signal.expiresAt.value
    ensures IsEnabledList(states[k].projections, code, FAN_OUT_LIMIT, steps[k].rank, steps[k].rows)
    ensures forall id :: IntentId(e.payload.signal.id, id) in states[k + 1].intents <==> id in ListedIds(steps[k].rows)
  {
    RunInv(states, steps, k);
    RunAnnounces(states, steps, k);
    assert StepAt(states, steps, k);
    forall id ensures IntentId(e.payload.signal.id, id) in states[k + 1].intents <==> id in ListedIds(steps[k].rows) {
      HandledIntents(states[k], e, steps[k].rows, steps[k].acked, states[k + 1], code, id);
    }
  }

  // ------------------------------------------------ a run beyond the limit

  /** `n` users, each subscribed once, with all updates applied. */
  ghost predicate Subscribed(s: State, n: nat) {
    && s.now == 0
    && s.signals == map[]
    && s.intents == map[]
    && (forall u :: u in s.accounts ==> u < n)
    && (forall x :: x in s.sessions ==> x < n)
    && (forall id :: id in s.projections <==> id.user < n && id.stockCode == CODE)
    && (forall id :: id in s.projections ==> s.projections[id] == ProjectionAt(id, 1))
  }

  lemma SubscribedGrows(s: State, n: nat, id: SubscriptionId, s1: State, s': State)
    requires Subscribed(s, n) && id == SubscriptionId(n, CODE) && Wrote(s1, id, VersionAt(id, 1), s')
    requires s1.now == s.now && s1.signals == s.signals && s1.intents == s.intents && s1.projections == s.projections
    requires forall x :: x in s1.accounts ==> x in s.accounts || x == n
    requires forall x :: x in s1.sessions ==> x in s.sessions || x == n
    ensures Subscribed(s', n + 1)
  {
  }

  lemma JoinNew(s: State, n: nat) returns (s1: State)
    requires Reachable(s) && Clean(s) && Subscribed(s, n)
    ensures Reachable(s1) && Clean(s1)
    ensures s1.now == s.now && s1.signals == s.signals && s1.intents == s.intents && s1.projections == s.projections
    ensures forall x :: x in s1.accounts ==> x in s.accounts || x == n
    ensures forall x :: x in s1.sessions ==> x in s.sessions || x == n
    ensures n in s1.sessions && s1.sessions[n] == SessionData(n, ShardIdFor(n))
  {
    s1 := Join(s, n, n);
  }

  lemma OneMoreSubscriber(s: State, n: nat) returns (s': State)
    requires Reachable(s) && Clean(s) && Subscribed(s, n)
    ensures Reachable(s') && Clean(s') && Subscribed(s', n + 1)
  {
    var id := SubscriptionId(n, CODE);
    var s1 := JoinNew(s, n);
    s' := FirstSubscribe(s1, id);
    SubscribedGrows(s, n, id, s1, s');
  }

  lemma FirstSubscribe(s: State, id: SubscriptionId) returns (s': State)
    requires Reachable(s) && Clean(s) && id.stockCode == CODE && id !in s.projections
    requires id.user in s.sessions && s.sessions[id.user] == SessionData(id.user, ShardIdFor(id.user))
    ensures Reachable(s') && Clean(s') && Wrote(s, id, VersionAt(id, 1), s')
  {
    assert NewVersion(id, true, None) == Some(VersionAt(id, 1));
    s' := WriteAndProject(s, id.user, id, true, None, 1);
  }

  lemma {:induction false} ManySubscribers(n: nat) returns (s: State)
    ensures Reachable(s) && Clean(s) && Subscribed(s, n)
  {
    if n == 0 {
      InitReachable();
      InitClean();
      s := Init(0);
    } else {
      s := ManySubscribers(n - 1);
      s := OneMoreSubscriber(s, n - 1);
    }
  }

  lemma {:induction false} UserCount(n: nat, ids: set<SubscriptionId>)
    requires forall id :: id in ids <==> id.user < n && id.stockCode == CODE
    ensures |ids| == n
  {
    if n == 0 {
      assert ids == {};
    } else {
      var last := SubscriptionId(n - 1, CODE);
      UserCount(n - 1, ids - {last});
    }
  }

  function ByUser(): SubscriptionId -> int {
    (id: SubscriptionId) => id.user
  }

  function FirstRows(limit: nat): seq<Projection> {
    seq(limit, i requires 0 <= i < limit => ProjectionAt(SubscriptionId(i, CODE), 1))
  }

  /** The first 1000 users answer the query. */
  lemma FirstRowsAnswer(s: State, n: nat)
    requires Subscribed(s, n) && n > FAN_OUT_LIMIT
    ensures |EnabledFor(s.projections, CODE)| == n
    ensures IsEnabledList(s.projections, CODE, FAN_OUT_LIMIT, ByUser(), FirstRows(FAN_OUT_LIMIT))
  {
    var matching, rows := EnabledFor(s.projections, CODE), FirstRows(FAN_OUT_LIMIT);
    assert forall id :: id in matching <==> id.user < n && id.stockCode == CODE;
    UserCount(n, matching);
    assert forall u :: 0 <= u < FAN_OUT_LIMIT ==> rows[u].id == SubscriptionId(u, CODE);
    forall id | id in matching && (forall j :: 0 <= j < |rows| ==> rows[j].id != id) ensures id.user >= FAN_OUT_LIMIT {
    }
  }

  lemma AnnounceSignal(s: State, n: nat, signal: Signal) returns (s': State, e: Event)
    requires Reachable(s) && Clean(s) && Subscribed(s, n) && signal.expiresAt.Some?
    ensures Reachable(s') && e in s'.broker && e.payload == SignalCreated(signal) && e.id !in s'.applied
    ensures s'.projections == s.projections && s'.now == s.now && s'.outbox.Keys == STORES && s'.intents == s.intents
  {
    assert Automation in STORES;
    e := Event(s.nextEvent, SignalCreated(signal));
    var s1 := RecordSignal(s, signal);
    Extend(s, Record(signal), s1);
    s' := RelayNew(s.outbox[Automation], s1, Automation, e);
    NotApplied(s', e);
  }

  lemma NotApplied(s: State, e: Event)
    requires Reachable(s) && e.payload.SignalCreated? && e in s.broker && (Automation, e.id) !in s.inbox
    ensures e.id !in s.applied
  {
    var states, steps :| IsRun(states, steps) && states[|steps|] == s;
    RunInv(states, steps, |steps|);
    QueuedEvent(s, e);
  }

  lemma DeliverNext(s: State, e: Event, rows: seq<Projection>, s': State)
    requires Automation in s.outbox && e in s.broker && e.payload.SignalCreated? && e.payload.signal.stockCode == CODE
    requires IsEnabledList(s.projections, CODE, FAN_OUT_LIMIT, ByUser(), rows) && s' == AfterDelivery(s, e, rows, true)
    ensures Next(s, Deliver(e, ByUser(), rows, true), s')
  {
    assert NormalizeStockCode(CODE) == Some(CODE);
  }

  lemma ReachedWith(s: State, step: Step, s': State) returns (states: seq<State>, steps: seq<Step>)
    requires Reachable(s) && Next(s, step, s')
    ensures IsRun(states, steps) && steps != [] && steps[|steps| - 1] == step
    ensures states[|steps| - 1] == s && states[|steps|] == s'
  {
    states, steps :| IsRun(states, steps) && states[|steps|] == s;
    RunGrows(states, steps, step, s');
    states, steps := states + [s'], steps + [step];
  }

  lemma MissedByList(s: State, n: nat) returns (missed: SubscriptionId)
    requires Subscribed(s, n) && n > FAN_OUT_LIMIT
    ensures missed in EnabledFor(s.projections, CODE) && missed !in ListedIds(FirstRows(FAN_OUT_LIMIT))
  {
    missed := SubscriptionId(FAN_OUT_LIMIT, CODE);
    assert missed in s.projections;
  }

  /** 1001 subscribed users, and the event of an unexpired signal in the broker. */
  lemma BeforeDelivery(signal: Signal) returns (s: State, e: Event, missed: SubscriptionId)
    requires signal.expiresAt.Some?
    ensures Reachable(s) && s.now == 0 && Automation in s.outbox
    ensures e in s.broker && e.payload == SignalCreated(signal) && e.id !in s.applied
    ensures IsEnabledList(s.projections, CODE, FAN_OUT_LIMIT, ByUser(), FirstRows(FAN_OUT_LIMIT))
    ensures missed in EnabledFor(s.projections, CODE) && missed !in ListedIds(FirstRows(FAN_OUT_LIMIT))
    ensures |EnabledFor(s.projections, CODE)| == 1001
  {
    var n := FAN_OUT_LIMIT + 1;
    var s0 := ManySubscribers(n);
    s, e := AnnounceSignal(s0, n, signal);
    FirstRowsAnswer(s0, n);
    missed := MissedByList(s0, n);
    assert Automation in STORES;
  }

  /** 1001 enabled subscriptions, and an unexpired signal that was never handled. */
  ghost predicate AtLimit(s: State, e: Event, missed: SubscriptionId) {
    && e.payload.SignalCreated?
    && e.id !in s.applied
    && e.payload.signal.stockCode == CODE
    && e.payload.signal.expiresAt == Some(s.now + 1)
    && |EnabledFor(s.projections, CODE)| == 1001
    && missed in EnabledFor(s.projections, CODE)
  }

  /** The limit is no mere possibility: in a run with 1001 subscribed users the first
      handling of an unexpired signal leaves an enabled subscription without intent. */
  lemma LimitRun() returns (states: seq<State>, steps: seq<Step>, missed: SubscriptionId)
    ensures IsRun(states, steps) && steps != []
    ensures var k := |steps| - 1;
      && steps[k].Deliver?
      && AtLimit(states[k], steps[k].event, missed)
      && IntentId(steps[k].event.payload.signal.id, missed) !in states[k + 1].intents
  {
    var s, e, id := BeforeDelivery(Signal(0, CODE, "", "", 0, Some(1)));
    assert AtLimit(s, e, id);
    states, steps := DeliverToMany(s, e);
    missed := id;
    NotReached(states, steps, |steps| - 1, e, missed);
  }

  lemma DeliverToMany(s: State, e: Event) returns (states: seq<State>, steps: seq<Step>)
    requires Reachable(s) && Automation in s.outbox && e in s.broker && e.payload.SignalCreated? && e.payload.signal.stockCode == CODE
    requires IsEnabledList(s.projections, CODE, FAN_OUT_LIMIT, ByUser(), FirstRows(FAN_OUT_LIMIT))
    ensures IsRun(states, steps) && steps != [] && states[|steps| - 1] == s
    ensures steps[|steps| - 1] == Deliver(e, ByUser(), FirstRows(FAN_OUT_LIMIT), true)
  {
    var rows := FirstRows(FAN_OUT_LIMIT);
    var s' := AfterDelivery(s, e, rows, true);
    DeliverNext(s, e, rows, s');
    states, steps := ReachedWith(s, Deliver(e, ByUser(), rows, true), s');
  }

  // ------------------------------------------------------ a run past the expiry

  lemma OneRowAnswers(s: State)
    requires Subscribed(s, 1)
    ensures |EnabledFor(s.projections, CODE)| == 1
    ensures IsEnabledList(s.projections, CODE, FAN_OUT_LIMIT, ByUser(), FirstRows(1))
  {
    var matching := EnabledFor(s.projections, CODE);
    assert forall id :: id in matching <==> id.user < 1 && id.stockCode == CODE;
    UserCount(1, matching);
  }

  /** One subscribed user, and the event of a signal whose last instant has come. */
  lemma BeforeLateDelivery() returns (s: State, e: Event)
    ensures Reachable(s) && Automation in s.outbox && s.intents == map[]
    ensures e in s.broker && e.payload == SignalCreated(Signal(0, CODE, "", "", 0, Some(1))) && e.id !in s.applied && s.now == 1
    ensures |EnabledFor(s.projections, CODE)| == 1
    ensures IsEnabledList(s.projections, CODE, FAN_OUT_LIMIT, ByUser(), FirstRows(1))
  {
    var s0 := ManySubscribers(1);
    OneRowAnswers(s0);
    var s1;
    s1, e := AnnounceSignal(s0, 1, Signal(0, CODE, "", "", 0, Some(1)));
    s := s1.(now := 1);
    Extend(s1, Tick(1), s);
    assert Automation in STORES;
  }

  /** Expiry is no mere possibility either: a run in which the event of a signal comes
      when the signal has just expired; it is applied, and the one enabled subscription
      gets no intent. */
  lemma ExpiredRun() returns (states: seq<State>, steps: seq<Step>)
    ensures IsRun(states, steps) && steps != []
    ensures var k := |steps| - 1;
      && steps[k].Deliver?
      && steps[k].event.payload.SignalCreated?
      && steps[k].event.payload.signal.expiresAt == Some(states[k].now)
      && |EnabledFor(states[k].projections, CODE)| == 1
      && steps[k].event.id !in states[k].applied
      && steps[k].event.id in states[k + 1].applied
      && states[k + 1].intents == map[]
  {
    var s, e := BeforeLateDelivery();
    var rows := FirstRows(1);
    var s' := AfterDelivery(s, e, rows, true);
    DeliverNext(s, e, rows, s');
    LateDelivery(s, e, rows, s');
    states, steps := ReachedWith(s, Deliver(e, ByUser(), rows, true), s');
  }

  lemma NotClaimed(s: State, id: EventId)
    requires Reachable(s) && id !in s.applied
    ensures (Automation, id) !in s.inbox
  {
    var states, steps :| IsRun(states, steps) && states[|steps|] == s;
    RunInv(states, steps, |steps|);
    assert InboxOk(s.inbox, s.applied, s.log);
  }

  lemma LateHandling(s: State, id: EventId, signal: Signal, rows: seq<Projection>)
    requires Automation in s.outbox && (Automation, id) !in s.inbox && signal.stockCode == CODE && signal.expiresAt == Some(s.now)
    ensures HandleSignalCreated(s, id, signal, rows) == Claim(s, Automation, id)
  {
    assert NormalizeStockCode(CODE) == Some(CODE);
  }

  lemma LateDelivery(s: State, e: Event, rows: seq<Projection>, s': State)
    requires Reachable(s) && Automation in s.outbox && e.id !in s.applied && s' == AfterDelivery(s, e, rows, true)
    requires e.payload.SignalCreated? && e.payload.signal.stockCode == CODE && e.payload.signal.expiresAt == Some(s.now)
    ensures e.id in s'.applied && s'.intents == s.intents
  {
    NotClaimed(s, e.id);
    LateHandling(s, e.id, e.payload.signal, rows);
  }

  lemma NotReached(states: seq<State>, steps: seq<Step>, k: nat, e: Event, id: SubscriptionId)
    requires IsRun(states, steps) && k < |steps| && steps[k].Deliver? && steps[k].event == e
    requires e.payload.SignalCreated? && e.id !in states[k].applied && e.payload.signal.stockCode == CODE
    requires e.payload.signal.expiresAt.Some? && states[k].now < e.payload.signal.expiresAt.value
    requires id !in ListedIds(steps[k].rows)
    ensures IntentId(e.payload.signal.id, id) !in states[k + 1].intents
  {
    assert NormalizeStockCode(CODE) == Some(CODE);
    FanOutReach(states, steps, k, e, CODE);
  }
}
