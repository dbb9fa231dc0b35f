/** The rows of chain_events and notification_outbox (database/models.go), keyed by primary key. */
module Tables {
  import opened Basics
  import opened Domain

  /** A chain_events row: the envelope's columns under a generated ID. */
  datatype ChainEvent = ChainEvent(id: int, event: EventEnvelope)

  datatype Status = Pending | Processing | Sent | Failed | Dead

  /** The message body (NotificationPayload in database/store_event.go), without the observation time. */
  datatype NotificationPayload = NotificationPayload(
    version: int,
    eventId: int,
    eventKey: string,
    chainId: nat,
    chainName: string,
    network: string,
    monitor: string,
    eventName: string,
    blockNumber: nat,
    blockHash: Hash,
    txHash: Hash,
    txIndex: nat,
    logIndex: nat,
    contractAddress: Address,
    topic0: Hash,
    payload: Json)

  datatype OutboxRow = OutboxRow(
    id: int,
    eventId: int,
    eventKey: string,
    channel: string,
    target: string,
    messageType: string,
    payload: NotificationPayload,
    status: Status,
    retryCount: int,
    maxRetries: int,
    nextRetryAt: int,
    lockedBy: string,
    lockedUntil: Option<int>,
    lastError: string,
    sentAt: Option<int>)

  /** The columns of uniq_notification_outbox_delivery. */
  predicate SameDelivery(a: OutboxRow, b: OutboxRow) {
    && a.eventKey == b.eventKey && a.channel == b.channel
    && a.target == b.target && a.messageType == b.messageType
  }

  /** The rows agree on everything but what a dispatcher writes: status, retries, lock, last error and sending time. */
  predicate SameMessage(a: OutboxRow, b: OutboxRow) {
    a == b.(status := a.status, retryCount := a.retryCount, nextRetryAt := a.nextRetryAt, lockedBy := a.lockedBy,
            lockedUntil := a.lockedUntil, lastError := a.lastError, sentAt := a.sentAt)
  }

  /** All rows are still there with their messages. */
  predicate KeepsMessages(t: map<int, OutboxRow>, t': map<int, OutboxRow>) {
    forall id :: id in t ==> id in t' && SameMessage(t[id], t'[id])
  }

  /** A change that dispatchers may make. */
  predicate OnlyDispatches(t: map<int, OutboxRow>, t': map<int, OutboxRow>) {
    t'.Keys == t.Keys && KeepsMessages(t, t')
  }

  datatype Database = Database(events: map<int, ChainEvent>, outbox: map<int, OutboxRow>)
}
