/** The signal pipeline as one global state and its labelled steps.

    API handlers write a domain row and an outbox row in one transaction; relays
    move outbox rows to the broker; the broker may duplicate, reorder and
    dead-letter; workers claim the event id and apply the effect in one
    transaction. Every transaction is one step, except that a subscription writer
    may act on a row version it read earlier. */
module Pipeline {
  import opened Basics
  import opened Text
  import opened Domain
  import Outbox

  type SessionId = nat

  datatype Store = Automation | Account(shard: ShardId)

  const STORES: set<Store> := {Automation, Account("1"), Account("2")}

  const FAN_OUT_LIMIT: nat := 1000

  datatype Logged = Logged(store: Store, payload: Payload)

  /** Where an intent came from: when it was fanned out, which revision of the
      subscription was projected then, and the event that announces it. */
  datatype Origin = Origin(at: Time, revision: int, event: EventId)

  /** `log`, `versions`, `origins` and `applied` are history: every event ever
      written to an outbox, every committed version of each subscription row, the
      origin of every intent, and the event ids whose claim succeeded, in order. */
  datatype State = State(
    now: Time,
    nextEvent: EventId,
    accounts: map<UserId, ShardId>,
    sessions: map<SessionId, SessionData>,
    subscriptions: map<(ShardId, SubscriptionId), Subscription>,
    signals: map<SignalId, Signal>,
    projections: map<SubscriptionId, Projection>,
    intents: map<IntentId, Intent>,
    notifications: map<(ShardId, NotificationId), Notification>,
    inbox: set<(Store, EventId)>,
    outbox: map<Store, Outbox.Table>,
    broker: multiset<Event>,
    log: map<EventId, Logged>,
    versions: map<SubscriptionId, seq<Subscription>>,
    origins: map<IntentId, Origin>,
    applied: seq<EventId>)

  function Init(now: Time): State {
    State(now, 0, map[], map[], map[], map[], map[], map[], map[], {},
          map[Automation := Outbox.EmptyTable(now),
              Account("1") := Outbox.EmptyTable(now),
              Account("2") := Outbox.EmptyTable(now)],
          multiset{}, map[], map[], map[], [])
  }

  // ----------------------------------------------------------- API handlers

  /** Adds one pending outbox row, with a fresh event id, to the database `store`. */
  function AppendEvent(s: State, store: Store, payload: Payload): State
    requires store in s.outbox
  {
    var e := Event(s.nextEvent, payload);
    s.(outbox := s.outbox[store := Outbox.Append(s.outbox[store], e.id, e, s.now, s.now)],
       log := s.log[e.id := Logged(store, payload)],
       nextEvent := s.nextEvent + 1)
  }

  function CurrentRow(s: State, shard: ShardId, id: SubscriptionId): Option<Subscription> {
    if (shard, id) in s.subscriptions then Some(s.subscriptions[(shard, id)]) else None
  }

  /** The row version a subscribe or unsubscribe writes over the version it read,
      or `None` where it writes nothing. */
  function NewVersion(id: SubscriptionId, enable: bool, read: Option<Subscription>): Option<Subscription> {
    if enable then
      if read.Some? && read.value.enabled then None
      else Some(Subscription(id, id.user, id.stockCode, true, (if read.Some? then read.value.revision else 0) + 1))
    else
      if read.None? || !read.value.enabled then None
      else Some(read.value.(enabled := false, revision := read.value.revision + 1))
  }

  function Versions(s: State, id: SubscriptionId): seq<Subscription> {
    if id in s.versions then s.versions[id] else []
  }

  function SaveSubscription(s: State, shard: ShardId, row: Subscription): State
    requires Account(shard) in s.outbox
  {
    var s1 := s.(subscriptions := s.subscriptions[(shard, row.id) := row],
                 versions := s.versions[row.id := Versions(s, row.id) + [row]]);
    AppendEvent(s1, Account(shard),
      SubscriptionUpdated(Projection(row.id, row.user, shard, row.stockCode, row.enabled, row.revision)))
  }

  /** `subscribe` (enable) and `unsubscribe` for the user of a session, writing on
      the strength of the version `read`. */
  function WriteSubscription(s: State, session: SessionId, raw: string, enable: bool, read: Option<Subscription>): State {
    if session !in s.sessions || Account(s.sessions[session].shard) !in s.outbox then s
    else
      match NormalizeStockCode(raw)
      case None => s
      case Some(code) =>
        match NewVersion(SubscriptionId(s.sessions[session].user, code), enable, read)
        case None => s
        case Some(row) => SaveSubscription(s, s.sessions[session].shard, row)
  }

  function RecordSignal(s: State, signal: Signal): State
    requires Automation in s.outbox
  {
    if signal.id in s.signals then s
    else
      var s1 := s.(signals := s.signals[signal.id := signal]);
      if signal.expiresAt.Some? then AppendEvent(s1, Automation, SignalCreated(signal)) else s1
  }

  function MarkRead(s: State, session: SessionId, id: NotificationId): State {
    if session !in s.sessions then s
    else
      var key := (s.sessions[session].shard, id);
      if key !in s.notifications || s.notifications[key].user != s.sessions[session].user then s
      else if s.notifications[key].readAt.Some? then s
      else s.(notifications := s.notifications[key := s.notifications[key].(readAt := Some(s.now))])
  }

  /** The notifications `list_user_notifications` returns: those of the session's
      user in the shard the session names. */
  function ListNotifications(s: State, session: SessionId): set<Notification>
    requires session in s.sessions
  {
    set k | k in s.notifications
            && k.0 == s.sessions[session].shard
            && s.notifications[k].user == s.sessions[session].user :: s.notifications[k]
  }

  // --------------------------------------------------------------- workers

  /** The database whose inbox claims an event of this payload. */
  function HandlingStore(payload: Payload): Store {
    match payload
    case SubscriptionUpdated(_) => Automation
    case SignalCreated(_) => Automation
    case IntentCreated(intent) => Account(intent.shard)
  }

  function Claim(s: State, store: Store, id: EventId): State {
    s.(inbox := s.inbox + {(store, id)}, applied := s.applied + [id])
  }

  /** A projection older than the stored one is dropped. */
  function Project(projections: map<SubscriptionId, Projection>, p: Projection): map<SubscriptionId, Projection> {
    if p.id in projections && projections[p.id].revision >= p.revision then projections
    else projections[p.id := p]
  }

  function IntentFor(signal: Signal, code: string, expiresAt: Time, p: Projection): Intent {
    Intent(IntentId(signal.id, p.id), signal.id, p.id, p.user, p.shard, code, expiresAt)
  }

  function AddIntent(s: State, intent: Intent, revision: int): State
    requires Automation in s.outbox
  {
    if intent.id in s.intents then s
    else
      var s1 := s.(intents := s.intents[intent.id := intent],
                   origins := s.origins[intent.id := Origin(s.now, revision, s.nextEvent)]);
      AppendEvent(s1, Automation, IntentCreated(intent))
  }

  /** Materialises the intents of one signal, one enabled projection at a time. */
  function FanOut(s: State, signal: Signal, code: string, expiresAt: Time, rows: seq<Projection>): (s': State)
    requires Automation in s.outbox
    ensures Automation in s'.outbox
  {
    if rows == [] then s
    else
      var last := |rows| - 1;
      AddIntent(FanOut(s, signal, code, expiresAt, rows[..last]),
                IntentFor(signal, code, expiresAt, rows[last]), rows[last].revision)
  }

  /** `rows` answers the subscription query: the first `limit` enabled projections
      of a stock code in the order `rank` of their ids. */
  ghost predicate IsEnabledList(projections: map<SubscriptionId, Projection>, code: string, limit: nat,
                                rank: SubscriptionId -> int, rows: seq<Projection>) {
    var matching := EnabledFor(projections, code);
    && |rows| == Min(limit, |matching|)
    && (forall i :: 0 <= i < |rows| ==> rows[i].id in matching && rows[i] == projections[rows[i].id])
    && (forall i, j :: 0 <= i < j < |rows| ==> rank(rows[i].id) < rank(rows[j].id))
    && (forall i, id :: 0 <= i < |rows| && id in matching && (forall j :: 0 <= j < |rows| ==> rows[j].id != id)
                        ==> rank(rows[i].id) < rank(id))
  }

  ghost function EnabledFor(projections: map<SubscriptionId, Projection>, code: string): set<SubscriptionId> {
    set id | id in projections && projections[id].stockCode == code && projections[id].enabled
  }

  function Notify(notifications: map<(ShardId, NotificationId), Notification>, intent: Intent, now: Time)
    : map<(ShardId, NotificationId), Notification>
  {
    var id := NotificationId(intent.id);
    if (intent.shard, id) in notifications then notifications
    else notifications[(intent.shard, id) :=
           Notification(id, intent.id, intent.user, intent.signal, intent.stockCode, now, None)]
  }

  function HandleSubscriptionUpdate(s: State, id: EventId, p: Projection): State {
    match NormalizeStockCode(p.stockCode)
    case None => s
    case Some(code) =>
      if (Automation, id) in s.inbox then s
      else Claim(s, Automation, id).(projections := Project(s.projections, p.(stockCode := code)))
  }

  function HandleSignalCreated(s: State, id: EventId, signal: Signal, rows: seq<Projection>): State
    requires Automation in s.outbox
  {
    match NormalizeStockCode(signal.stockCode)
    case None => s
    case Some(code) =>
      if (Automation, id) in s.inbox then s
      else
        var s1 := Claim(s, Automation, id);
        if signal.expiresAt.None? || signal.expiresAt.value <= s.now then s1
        else FanOut(s1, signal, code, signal.expiresAt.value, rows)
  }

  function HandleIntentCreated(s: State, id: EventId, intent: Intent): State {
    match NormalizeStockCode(intent.stockCode)
    case None => s
    case Some(code) =>
      if intent.shard !in ACCOUNT_SHARDS then s
      else if (Account(intent.shard), id) in s.inbox then s
      else
        Claim(s, Account(intent.shard), id)
          .(notifications := Notify(s.notifications, intent.(stockCode := code), s.now))
  }

  function Handle(s: State, e: Event, rows: seq<Projection>): State
    requires Automation in s.outbox
  {
    match e.payload
    case SubscriptionUpdated(p) => HandleSubscriptionUpdate(s, e.id, p)
    case SignalCreated(signal) => HandleSignalCreated(s, e.id, signal, rows)
    case IntentCreated(intent) => HandleIntentCreated(s, e.id, intent)
  }

  // ------------------------------------------------------------------ steps

  datatype Step =
    | Tick(now: Time)
    | Signup(user: UserId)
    | Login(user: UserId, session: SessionId)
    | EndSession(session: SessionId)
    | Subscribe(session: SessionId, raw: string, read: Option<Subscription>)
    | Unsubscribe(session: SessionId, raw: string, read: Option<Subscription>)
    | Record(signal: Signal)
    | Read(session: SessionId, notification: NotificationId)
    | Relay(store: Store, step: Outbox.Step)
    | Deliver(event: Event, rank: SubscriptionId -> int, rows: seq<Projection>, acked: bool)
    | DeadLetter(event: Event)

  /** A writer can only have read a version that was once committed. */
  ghost predicate WasRead(s: State, session: SessionId, raw: string, read: Option<Subscription>) {
    read.Some? ==>
      && session in s.sessions
      && NormalizeStockCode(raw).Some?
      && read.value in Versions(s, SubscriptionId(s.sessions[session].user, NormalizeStockCode(raw).value))
  }

  function AfterRelay(s: State, store: Store, t': Outbox.Table, sent: Option<EventId>): State
    requires store in s.outbox
  {
    s.(outbox := s.outbox[store := t'],
       broker := if sent.Some? && sent.value in s.outbox[store].rows
                 then s.broker + multiset{s.outbox[store].rows[sent.value].event} else s.broker)
  }

  ghost predicate RelayStep(s: State, store: Store, step: Outbox.Step, s': State) {
    && store in s.outbox
    && store in s'.outbox
    && (step.Lock? ==> step.now == s.now)
    && (step.Attempt? ==> step.at == s.now)
    && Outbox.Next(s.outbox[store], step, s'.outbox[store])
    && s' == AfterRelay(s, store, s'.outbox[store], Outbox.Sent(s.outbox[store], step))
  }

  function AfterDelivery(s: State, e: Event, rows: seq<Projection>, acked: bool): State
    requires Automation in s.outbox
  {
    var s1 := Handle(s, e, rows);
    if acked then s1.(broker := s1.broker - multiset{e}) else s1
  }

  ghost predicate DeliverStep(s: State, e: Event, rank: SubscriptionId -> int, rows: seq<Projection>, acked: bool, s': State) {
    && Automation in s.outbox
    && e in s.broker
    && (e.payload.SignalCreated? && NormalizeStockCode(e.payload.signal.stockCode).Some? ==>
          IsEnabledList(s.projections, NormalizeStockCode(e.payload.signal.stockCode).value, FAN_OUT_LIMIT, rank, rows))
    && s' == AfterDelivery(s, e, rows, acked)
  }

  ghost predicate Next(s: State, step: Step, s': State) {
    match step
    case Tick(now) => s.now <= now && s' == s.(now := now)
    case Signup(user) => user !in s.accounts && s' == s.(accounts := s.accounts[user := ShardIdFor(user)])
    case Login(user, session) =>
      && user in s.accounts
      && session !in s.sessions
      && s' == s.(sessions := s.sessions[session := SessionData(user, s.accounts[user])])
    case EndSession(session) => s' == s.(sessions := s.sessions - {session})
    case Subscribe(session, raw, read) =>
      WasRead(s, session, raw, read) && s' == WriteSubscription(s, session, raw, true, read)
    case Unsubscribe(session, raw, read) =>
      WasRead(s, session, raw, read) && s' == WriteSubscription(s, session, raw, false, read)
    case Record(signal) => Automation in s.outbox && s' == RecordSignal(s, signal)
    case Read(session, notification) => s' == MarkRead(s, session, notification)
    case Relay(store, relayStep) => RelayStep(s, store, relayStep, s')
    case Deliver(e, rank, rows, acked) => DeliverStep(s, e, rank, rows, acked, s')
    case DeadLetter(e) => s' == s.(broker := s.broker - multiset{e})
  }

  ghost predicate StepAt(states: seq<State>, steps: seq<Step>, k: int)
    requires |states| == |steps| + 1 && 0 <= k < |steps|
  {
    Next(states[k], steps[k], states[k + 1])
  }

  /** A run: any interleaving of steps from empty tables. */
  ghost predicate IsRun(states: seq<State>, steps: seq<Step>) {
    && |states| == |steps| + 1
    && states[0] == Init(states[0].now)
    && forall k :: 0 <= k < |steps| ==> StepAt(states, steps, k)
  }
}
