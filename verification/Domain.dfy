/** The signal domain: subscriptions, signals, delivery intents, notifications
    and the events that carry them between databases. */
module Domain {
  import opened Basics

  /** A user id is a UUID; only its integer value matters here. */
  type UserId = nat
  type SignalId = nat
  type EventId = nat
  type ShardId = string

  const ACCOUNT_SHARDS: set<ShardId> := {"1", "2"}

  /** `str(user_id.int % 2 + 1)`. */
  function ShardIdFor(user: UserId): ShardId {
    if user % 2 == 0 then "1" else "2"
  }

  // The version-5 UUIDs are hashes of injectively formatted names; each is
  // represented by the name it hashes.
  datatype SubscriptionId = SubscriptionId(user: UserId, stockCode: string)
  datatype IntentId = IntentId(signal: SignalId, subscription: SubscriptionId)
  datatype NotificationId = NotificationId(intent: IntentId)

  datatype Subscription = Subscription(
    id: SubscriptionId, user: UserId, stockCode: string, enabled: bool, revision: int)

  datatype Projection = Projection(
    id: SubscriptionId, user: UserId, shard: ShardId, stockCode: string, enabled: bool, revision: int)

  datatype Signal = Signal(
    id: SignalId, stockCode: string, direction: string, price: string, observedAt: Time, expiresAt: Option<Time>)

  datatype Intent = Intent(
    id: IntentId, signal: SignalId, subscription: SubscriptionId, user: UserId, shard: ShardId,
    stockCode: string, expiresAt: Time)

  datatype Notification = Notification(
    id: NotificationId, intent: IntentId, user: UserId, signal: SignalId, stockCode: string,
    createdAt: Time, readAt: Option<Time>)

  datatype SessionData = SessionData(user: UserId, shard: ShardId)

  datatype Payload =
    | SubscriptionUpdated(projection: Projection)
    | SignalCreated(signal: Signal)
    | IntentCreated(intent: Intent)

  datatype Event = Event(id: EventId, payload: Payload)
}
