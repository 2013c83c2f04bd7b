/** The pipeline's handlers as they are coded, one statement after another, each
    proved to do exactly the step the state machine takes for it. */
module Handlers {
  import opened Basics
  import opened Text
  import opened Domain
  import opened Pipeline
  import Outbox

  datatype Reply = Ok(subscription: Subscription) | Unauthorized | Misrouted | Unprocessable

  /** What a write by a routable session comes to. */
  lemma WriteUnfolds(s: State, session: SessionId, code: string, raw: string, enable: bool, read: Option<Subscription>)
    requires session in s.sessions && Account(s.sessions[session].shard) in s.outbox && NormalizeStockCode(raw) == Some(code)
    ensures var v := NewVersion(SubscriptionId(s.sessions[session].user, code), enable, read);
      WriteSubscription(s, session, raw, enable, read) ==
      if v.None? then s else SaveSubscription(s, s.sessions[session].shard, v.value)
  {
  }

  lemma SavedIsCurrent(s: State, shard: ShardId, row: Subscription)
    requires Account(shard) in s.outbox
    ensures CurrentRow(SaveSubscription(s, shard, row), shard, row.id) == Some(row)
  {
  }

  /** The API replica's view of the databases. */
  class SignalApi {
    var db: State

    constructor (db: State)
      ensures this.db == db
    {
      this.db := db;
    }

    /** Subscribing leaves the row enabled and answers with the stored row. */
    method Subscribe(session: SessionId, raw: string) returns (reply: Reply)
      modifies this
      ensures reply == Unauthorized <==> session !in old(db).sessions
      ensures reply == Misrouted <==> session in old(db).sessions && Account(old(db).sessions[session].shard) !in old(db).outbox
      ensures reply.Ok? <==>
        && session in old(db).sessions
        && Account(old(db).sessions[session].shard) in old(db).outbox
        && NormalizeStockCode(raw).Some?
      ensures !reply.Ok? ==> db == old(db)
      ensures reply.Ok? ==>
        var shard, id := old(db).sessions[session].shard,
                         SubscriptionId(old(db).sessions[session].user, NormalizeStockCode(raw).value);
        && db == WriteSubscription(old(db), session, raw, true, CurrentRow(old(db), shard, id))
        && CurrentRow(db, shard, id) == Some(reply.subscription)
        && reply.subscription.enabled
        && (CurrentRow(old(db), shard, id).None? ==> reply.subscription == Subscription(id, id.user, id.stockCode, true, 1))
        && (CurrentRow(old(db), shard, id).Some? ==>
              var was := CurrentRow(old(db), shard, id).value;
              && (was.enabled ==> db == old(db))
              && (!was.enabled ==> reply.subscription == Subscription(id, id.user, id.stockCode, true, was.revision + 1)))
    {
      if session !in db.sessions {
        return Unauthorized;
      }
      var shard := db.sessions[session].shard;
      if Account(shard) !in db.outbox {
        return Misrouted;
      }
      var code := NormalizeStockCode(raw);
      if code.None? {
        return Unprocessable;
      }
      var id := SubscriptionId(db.sessions[session].user, code.value);
      var existing := CurrentRow(db, shard, id);
      WriteUnfolds(db, session, code.value, raw, true, existing);
      if existing.Some? && existing.value.enabled {
        return Ok(existing.value);
      }
      var revision := (if existing.Some? then existing.value.revision else 0) + 1;
      var row := Subscription(id, id.user, code.value, true, revision);
      SavedIsCurrent(db, shard, row);
      db := SaveSubscription(db, shard, row);
      return Ok(row);
    }

    /** Unsubscribing answers with a disabled row, the stored one if there is one. */
    method Unsubscribe(session: SessionId, raw: string) returns (reply: Reply)
      requires forall k :: k in db.subscriptions ==> db.subscriptions[k].id == k.1
      modifies this
      ensures reply == Unauthorized <==> session !in old(db).sessions
      ensures reply == Misrouted <==> session in old(db).sessions && Account(old(db).sessions[session].shard) !in old(db).outbox
      ensures reply.Ok? <==>
        && session in old(db).sessions
        && Account(old(db).sessions[session].shard) in old(db).outbox
        && NormalizeStockCode(raw).Some?
      ensures !reply.Ok? ==> db == old(db)
      ensures reply.Ok? ==>
        var shard, id := old(db).sessions[session].shard,
                         SubscriptionId(old(db).sessions[session].user, NormalizeStockCode(raw).value);
        && db == WriteSubscription(old(db), session, raw, false, CurrentRow(old(db), shard, id))
        && !reply.subscription.enabled
        && (CurrentRow(old(db), shard, id).None? ==>
              db == old(db) && reply.subscription == Subscription(id, id.user, id.stockCode, false, 1))
        && (CurrentRow(old(db), shard, id).Some? ==>
              var was := CurrentRow(old(db), shard, id).value;
              && CurrentRow(db, shard, id) == Some(reply.subscription)
              && (!was.enabled ==> db == old(db))
              && (was.enabled ==> reply.subscription == was.(enabled := false, revision := was.revision + 1)))
    {
      if session !in db.sessions {
        return Unauthorized;
      }
      var shard := db.sessions[session].shard;
      if Account(shard) !in db.outbox {
        return Misrouted;
      }
      var code := NormalizeStockCode(raw);
      if code.None? {
        return Unprocessable;
      }
      var id := SubscriptionId(db.sessions[session].user, code.value);
      var existing := CurrentRow(db, shard, id);
      WriteUnfolds(db, session, code.value, raw, false, existing);
      if existing.None? {
        return Ok(Subscription(id, id.user, code.value, false, 1));
      }
      if !existing.value.enabled {
        return Ok(existing.value);
      }
      var row := existing.value.(enabled := false, revision := existing.value.revision + 1);
      SavedIsCurrent(db, shard, row);
      db := SaveSubscription(db, shard, row);
      return Ok(row);
    }
  }

  lemma RecordUnfolds(s: State, signal: Signal, s1: State)
    requires Automation in s.outbox && signal.id !in s.signals && s1 == s.(signals := s.signals[signal.id := signal])
    ensures RecordSignal(s, signal) == if signal.expiresAt.Some? then AppendEvent(s1, Automation, SignalCreated(signal)) else s1
  {
  }

  lemma AppendKeepsSignals(s: State, store: Store, payload: Payload)
    requires store in s.outbox
    ensures AppendEvent(s, store, payload).signals == s.signals && AppendEvent(s, store, payload).nextEvent == s.nextEvent + 1
  {
  }

  /** The signal intake: the first record of an id counts, and only a signal that can
      expire is announced. */
  class SignalIntake {
    var db: State

    constructor (db: State)
      ensures this.db == db
    {
      this.db := db;
    }

    method Record(signal: Signal) returns (stored: Signal)
      requires Automation in db.outbox
      modifies this
      ensures db == RecordSignal(old(db), signal)
      ensures signal.id in db.signals && db.signals[signal.id] == stored
      ensures stored == if signal.id in old(db).signals then old(db).signals[signal.id] else signal
      ensures db.nextEvent == old(db).nextEvent + (if signal.id !in old(db).signals && signal.expiresAt.Some? then 1 else 0)
    {
      if signal.id in db.signals {
        return db.signals[signal.id];
      }
      db := db.(signals := db.signals[signal.id := signal]);
      RecordUnfolds(old(db), signal, db);
      if signal.expiresAt.Some? {
        AppendKeepsSignals(db, Automation, SignalCreated(signal));
        db := AppendEvent(db, Automation, SignalCreated(signal));
      }
      return signal;
    }
  }

  /** The notification API of a session's user. */
  class NotificationApi {
    var db: State

    constructor (db: State)
      ensures this.db == db
    {
      this.db := db;
    }

    /** `None` is the 404 for a missing or foreign notification. The first reading
        sets the mark, later ones answer with it. */
    method Read(session: SessionId, id: NotificationId) returns (notification: Option<Notification>)
      requires session in db.sessions
      modifies this
      ensures db == MarkRead(old(db), session, id)
      ensures var key := (old(db).sessions[session].shard, id);
        && (notification.Some? <==>
              key in old(db).notifications && old(db).notifications[key].user == old(db).sessions[session].user)
        && (notification.Some? ==>
              && key in db.notifications
              && db.notifications[key] == notification.value
              && notification.value.readAt ==
                 if old(db).notifications[key].readAt.Some? then old(db).notifications[key].readAt else Some(old(db).now))
    {
      var key := (db.sessions[session].shard, id);
      if key !in db.notifications || db.notifications[key].user != db.sessions[session].user {
        return None;
      }
      if db.notifications[key].readAt.Some? {
        return Some(db.notifications[key]);
      }
      var updated := db.notifications[key].(readAt := Some(db.now));
      db := db.(notifications := db.notifications[key := updated]);
      return Some(updated);
    }
  }

  /** The message worker. `rows` stands for the answer to the subscription query
      that the signal handler makes. A rejected message leaves no trace. */
  class ApplicationMessageHandler {
    var db: State

    constructor (db: State)
      ensures this.db == db
    {
      this.db := db;
    }

    /** Inserts the event id; false when it was there already. */
    method ClaimEvent(store: Store, id: EventId) returns (claimed: bool)
      modifies this
      ensures claimed <==> (store, id) !in old(db).inbox
      ensures db == if claimed then Claim(old(db), store, id) else old(db)
    {
      claimed := (store, id) !in db.inbox;
      if claimed {
        db := Claim(db, store, id);
      }
    }

    method OnSubscriptionUpdate(id: EventId, payload: Projection) returns (rejected: bool)
      modifies this
      ensures db == HandleSubscriptionUpdate(old(db), id, payload)
      ensures rejected <==> NormalizeStockCode(payload.stockCode).None?
    {
      var code := NormalizeStockCode(payload.stockCode);
      if code.None? {
        return true;
      }
      var projection := payload.(stockCode := code.value);
      var claimed := ClaimEvent(Automation, id);
      if !claimed {
        return false;
      }
      if projection.id in db.projections && db.projections[projection.id].revision >= projection.revision {
        assert Project(old(db).projections, projection) == old(db).projections;
        assert db == db.(projections := old(db).projections);
        return false;
      }
      db := db.(projections := db.projections[projection.id := projection]);
      return false;
    }

    method OnSignalCreated(id: EventId, signal: Signal, rows: seq<Projection>) returns (rejected: bool)
      requires Automation in db.outbox
      modifies this
      ensures db == HandleSignalCreated(old(db), id, signal, rows)
      ensures rejected <==> NormalizeStockCode(signal.stockCode).None?
    {
      var code := NormalizeStockCode(signal.stockCode);
      if code.None? {
        return true;
      }
      rejected := false;
      var claimed := ClaimEvent(Automation, id);
      if !claimed {
        return;
      }
      if signal.expiresAt.None? || signal.expiresAt.value <= db.now {
        return;
      }
      MaterializeIntents(signal, code.value, signal.expiresAt.value, rows);
    }

    /** One intent and one outbox row per listed projection that has none yet. */
    method MaterializeIntents(signal: Signal, code: string, expiresAt: Time, rows: seq<Projection>)
      requires Automation in db.outbox
      modifies this
      ensures db == FanOut(old(db), signal, code, expiresAt, rows)
    {
      ghost var before := db;
      for k := 0 to |rows|
        invariant db == FanOut(before, signal, code, expiresAt, rows[..k])
      {
        assert rows[..k + 1][..k] == rows[..k];
        var intent := IntentFor(signal, code, expiresAt, rows[k]);
        db := AddIntent(db, intent, rows[k].revision);
      }
      assert rows[..|rows|] == rows;
    }

    method OnIntentCreated(id: EventId, payload: Intent) returns (rejected: bool)
      modifies this
      ensures db == HandleIntentCreated(old(db), id, payload)
      ensures rejected <==> NormalizeStockCode(payload.stockCode).None? || payload.shard !in ACCOUNT_SHARDS
    {
      var code := NormalizeStockCode(payload.stockCode);
      if code.None? || payload.shard !in ACCOUNT_SHARDS {
        return true;
      }
      var intent := payload.(stockCode := code.value);
      var claimed := ClaimEvent(Account(intent.shard), id);
      if !claimed {
        return false;
      }
      db := db.(notifications := Notify(db.notifications, intent, db.now));
      return false;
    }

    method HandleMessage(message: Event, rows: seq<Projection>) returns (rejected: bool)
      requires Automation in db.outbox
      modifies this
      ensures db == Handle(old(db), message, rows)
      ensures rejected ==> db == old(db)
    {
      match message.payload {
        case SubscriptionUpdated(projection) => rejected := OnSubscriptionUpdate(message.id, projection);
        case SignalCreated(signal) => rejected := OnSignalCreated(message.id, signal, rows);
        case IntentCreated(intent) => rejected := OnIntentCreated(message.id, intent);
      }
    }
  }
}
