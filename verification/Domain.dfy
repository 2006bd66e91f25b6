/** Trips, outbox rows and Kafka messages: the data of internal/domain and of the migrations. */
module Domain {

  datatype Option<+T> = None | Some(value: T)

  /**
   * RFC 4122 identifiers.  A version 4 id is random; a version 5 id (section 4.3) is a hash of a
   * name space and a name.  The hash is taken to be collision free, so it is a free constructor.
   * The textual form of an id is identified with the id; an absent text field is `NilUuid`.
   */
  datatype Uuid = NilUuid | V4(random: nat) | V5(space: Uuid, name: EventType)

  type Time = int

  /** The text columns with a known value: "TripPublished" and "trip"; rows from before may hold any other. */
  datatype EventType = TripPublishedType | OtherType(text: string)
  datatype AggregateType = TripAggregate | OtherAggregate(text: string)

  function NewEventId(tripId: Uuid, eventType: EventType): Uuid {
    V5(tripId, eventType)
  }

  /** The outbox key of a trip's TripPublished event. */
  function PublishedEventId(tripId: Uuid): Uuid {
    NewEventId(tripId, TripPublishedType)
  }

  /** `OtherStatus` stands for the enum values that no code path of the service writes. */
  datatype TripStatus = Draft | Published | Started | OtherStatus(name: string)

  datatype Trip = Trip(
    id: Uuid, driverId: Uuid, fromPoint: string, toPoint: string, departureTime: Time, seats: int,
    status: TripStatus, createdAt: Time, updatedAt: Time)

  datatype HistoryRow = HistoryRow(
    tripId: Uuid, fromStatus: Option<TripStatus>, toStatus: TripStatus, createdAt: Time)

  datatype TripPublished = TripPublished(
    eventId: Uuid, eventType: EventType, correlationId: string, causationId: string,
    traceParent: string, tripId: Uuid, driverId: Uuid, companyId: Uuid, occurredAt: Time)

  /** A stored JSON payload: either the encoding of a TripPublished, or text that does not decode. */
  datatype Payload = Json(event: TripPublished) | Malformed(text: string)

  function Marshal(event: TripPublished): Payload {
    Json(event)
  }

  function Unmarshal(payload: Payload): Option<TripPublished> {
    match payload
    case Json(event) => Some(event)
    case Malformed(_) => None
  }

  datatype DeliveryStatus = Pending | Sent | Failed

  /** Why a row was not sent: its payload did not decode, or the producer returned an error. */
  datatype Reason = DecodeFailure | SendFailure(text: string)

  /** The columns of an outbox row that no statement of the service updates. */
  datatype EventHead = EventHead(
    aggregateType: AggregateType, aggregateId: Uuid, eventType: EventType, payload: Payload, createdAt: Time)

  datatype OutboxRow = OutboxRow(
    head: EventHead, status: DeliveryStatus, attempts: nat, lastError: Option<Reason>, sentAt: Option<Time>)

  type Outbox = map<Uuid, OutboxRow>

  function Heads(outbox: Outbox): map<Uuid, EventHead> {
    map id | id in outbox :: outbox[id].head
  }

  /** The column defaults of an inserted row (migrations/00005). */
  function NewRow(head: EventHead): OutboxRow {
    OutboxRow(head, Pending, 0, None, None)
  }

  /** What `MarkSent` and `MarkFailed` make of the row they address; neither looks at the status. */
  function SentRow(row: OutboxRow, now: Time): OutboxRow {
    row.(status := Sent, sentAt := Some(now))
  }

  function FailedRow(row: OutboxRow, reason: Reason): OutboxRow {
    row.(attempts := row.attempts + 1, lastError := Some(reason))
  }

  ghost function PendingIds(outbox: Outbox): set<Uuid> {
    set id | id in outbox && outbox[id].status == Pending
  }

  datatype Message = Message(
    key: Uuid, value: Payload, eventId: Uuid, eventType: EventType,
    correlationId: string, causationId: string, traceParent: string)

  /** The Kafka record that the producer builds from a decoded event. */
  function ToMessage(event: TripPublished): Message {
    Message(event.tripId, Marshal(event), event.eventId, event.eventType,
            event.correlationId, event.causationId, event.traceParent)
  }

  /** One copy of a message in the log, together with the outbox row it was sent for. */
  datatype LogEntry = LogEntry(row: Uuid, message: Message)

  function Copies(row: Uuid, message: Message, n: nat): (entries: seq<LogEntry>)
    ensures |entries| == n
    ensures forall i :: 0 <= i < n ==> entries[i] == LogEntry(row, message)
  {
    seq(n, i => LogEntry(row, message))
  }
}
