/** The relays' clocks: a table never runs ahead of the service, so that the order
    of instants asked of relay steps forbids no step at the current time. */
module RelayClock {
  import opened Basics
  import opened Text
  import opened Domain
  import opened Pipeline
  import opened PipelineTheorems
  import Outbox

  ghost predicate ClocksBehind(outbox: map<Store, Outbox.Table>, now: Time) {
    forall q :: q in outbox ==> outbox[q].clock <= now
  }

  ghost predicate SameClocks(s: State, s': State) {
    && s'.now == s.now
    && forall q :: q in s'.outbox ==> q in s.outbox && s'.outbox[q].clock == s.outbox[q].clock
  }

  lemma AppendSame(s: State, store: Store, payload: Payload, s': State)
    requires store in s.outbox && s' == AppendEvent(s, store, payload)
    ensures SameClocks(s, s')
  {
  }

  lemma AddIntentSame(s: State, intent: Intent, revision: int, s': State)
    requires Automation in s.outbox && s' == AddIntent(s, intent, revision)
    ensures SameClocks(s, s')
  {
    if intent.id !in s.intents {
      AppendSame(s.(intents := s.intents[intent.id := intent],
                    origins := s.origins[intent.id := Origin(s.now, revision, s.nextEvent)]),
                 Automation, IntentCreated(intent), s');
    }
  }

  lemma {:induction false} FanOutSame(s: State, signal: Signal, code: string, expiresAt: Time, rows: seq<Projection>)
    requires Automation in s.outbox
    ensures SameClocks(s, FanOut(s, signal, code, expiresAt, rows))
  {
    if rows != [] {
      var last := |rows| - 1;
      FanOutSame(s, signal, code, expiresAt, rows[..last]);
      AddIntentSame(FanOut(s, signal, code, expiresAt, rows[..last]), IntentFor(signal, code, expiresAt, rows[last]),
                    rows[last].revision, FanOut(s, signal, code, expiresAt, rows));
    }
  }

  lemma SignalSame(s: State, id: EventId, signal: Signal, rows: seq<Projection>, s': State)
    requires IsSignalCase(s, id, signal, rows, s')
    ensures SameClocks(s, s')
  {
    var s1 := Claim(s, Automation, id);
    if s' != s && s' != s1 {
      var code, expiresAt :| Automation in s.outbox && s' == FanOut(s1, signal, code, expiresAt, rows);
      FanOutSame(s1, signal, code, expiresAt, rows);
    }
  }

  lemma UpdateSame(s: State, id: EventId, p: Projection, s': State)
    requires s' == HandleSubscriptionUpdate(s, id, p)
    ensures s'.outbox == s.outbox && s'.now == s.now
  {
    if s' != s {
      assert s' == Claim(s, Automation, id).(projections := s'.projections);
    }
  }

  lemma NotifySame(s: State, id: EventId, intent: Intent, s': State)
    requires s' == HandleIntentCreated(s, id, intent)
    ensures s'.outbox == s.outbox && s'.now == s.now
  {
    if s' != s {
      assert s' == Claim(s, Account(intent.shard), id).(notifications := s'.notifications);
    }
  }

  lemma HandleSame(s: State, e: Event, rows: seq<Projection>, s': State)
    requires Automation in s.outbox && s' == Handle(s, e, rows)
    ensures SameClocks(s, s')
  {
    match e.payload
    case SubscriptionUpdated(p) => UpdateSame(s, e.id, p, s');
    case IntentCreated(intent) => NotifySame(s, e.id, intent, s');
    case SignalCreated(signal) =>
      SignalCases(s, e.id, signal, rows, s');
      SignalSame(s, e.id, signal, rows, s');
  }

  lemma SaveSame(s: State, shard: ShardId, row: Subscription, s': State)
    requires Account(shard) in s.outbox && s' == SaveSubscription(s, shard, row)
    ensures SameClocks(s, s')
  {
  }

  lemma WriteSame(s: State, session: SessionId, raw: string, enable: bool, read: Option<Subscription>, s': State)
    requires s' == WriteSubscription(s, session, raw, enable, read)
    ensures SameClocks(s, s')
  {
    if session in s.sessions && Account(s.sessions[session].shard) in s.outbox && NormalizeStockCode(raw).Some? {
      var v := NewVersion(SubscriptionId(s.sessions[session].user, NormalizeStockCode(raw).value), enable, read);
      if v.Some? {
        SaveSame(s, s.sessions[session].shard, v.value, s');
      }
    }
  }

  lemma RecordSame(s: State, signal: Signal, s': State)
    requires Automation in s.outbox && s' == RecordSignal(s, signal)
    ensures SameClocks(s, s')
  {
    if signal.id !in s.signals && signal.expiresAt.Some? {
      AppendSame(s.(signals := s.signals[signal.id := signal]), Automation, SignalCreated(signal), s');
    }
  }

  lemma RelayTime(t: Outbox.Table, step: Outbox.Step, t': Outbox.Table, now: Time)
    requires Outbox.Next(t, step, t') && t.clock <= now && (step.Lock? ==> step.now == now) && (step.Attempt? ==> step.at == now)
    ensures t'.clock <= now
  {
  }

  lemma RelayKeepsClocks(s: State, store: Store, step: Outbox.Step, s': State)
    requires ClocksBehind(s.outbox, s.now) && RelayStep(s, store, step, s')
    ensures ClocksBehind(s'.outbox, s'.now)
  {
    RelayTime(s.outbox[store], step, s'.outbox[store], s.now);
    assert s'.outbox == s.outbox[store := s'.outbox[store]];
  }

  lemma ApiSame(s: State, step: Step, s': State)
    requires Next(s, step, s') && (step.Subscribe? || step.Unsubscribe? || step.Record? || step.Read?)
    ensures SameClocks(s, s')
  {
    match step
    case Subscribe(session, raw, read) => WriteSame(s, session, raw, true, read, s');
    case Unsubscribe(session, raw, read) => WriteSame(s, session, raw, false, read, s');
    case Record(signal) => RecordSame(s, signal, s');
    case Read(_, _) =>
  }

  lemma StepKeepsClocks(s: State, step: Step, s': State)
    requires ClocksBehind(s.outbox, s.now) && Next(s, step, s')
    ensures ClocksBehind(s'.outbox, s'.now)
  {
    if step.Relay? {
      RelayKeepsClocks(s, step.store, step.step, s');
    } else if step.Deliver? {
      HandleSame(s, step.event, step.rows, Handle(s, step.event, step.rows));
    } else if step.Subscribe? || step.Unsubscribe? || step.Record? || step.Read? {
      ApiSame(s, step, s');
    }
  }

  /** In every run no relay has read the clock or published after the current time. */
  lemma {:induction false} RelaysNeverAhead(states: seq<State>, steps: seq<Step>, k: nat)
    requires IsRun(states, steps) && k < |states|
    ensures ClocksBehind(states[k].outbox, states[k].now)
  {
    if k > 0 {
      RelaysNeverAhead(states, steps, k - 1);
      assert StepAt(states, steps, k - 1);
      StepKeepsClocks(states[k - 1], steps[k - 1], states[k]);
    }
  }
}
