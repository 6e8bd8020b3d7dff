/** The rows that the storage engines keep and the values that the event store hands out. */
module Records {
  import opened Wrappers

  // The zero value of a Go time. Times are integers, earlier is smaller.
  const ZERO_TIME := 0

  // Natural keys longer than this are refused by every engine.
  const MAX_KEY_LENGTH := 64

  /** An event as an engine stores it: the type is an id. */
  datatype StorageEvent = StorageEvent(
    aggregateId: int,
    sequence: int,
    eventTypeId: int,
    state: string,
    eventTime: int,
    reference: string)

  /** An event as callers publish and read it: the type is a name. */
  datatype SerializedEvent = SerializedEvent(
    eventId: int,
    aggregateId: int,
    eventType: string,
    state: string,
    sequence: int,
    reference: string,
    eventTime: int)

  datatype Snapshot = Snapshot(aggregateId: int, state: string, sequence: int)

  /** One row of the event_log view: an event joined with its aggregate and its type name. */
  datatype LogRow = LogRow(
    aggregateId: int,
    naturalKey: Option<string>,
    sequence: int,
    aggregateTypeId: int,
    eventTypeId: int,
    eventType: string,
    eventTime: int,
    state: string,
    reference: string)

  /** What a subscription reads. A non-empty `eventTypes` overrides the single `eventTypeId`. */
  datatype Filter = Filter(
    aggregateTypeId: Option<int>,
    eventTypeId: Option<int>,
    aggregateKey: Option<string>,
    eventTypes: set<int>)

  // `Unset` is the empty kind; `Unknown` is any string that the source does not name.
  datatype StartKind = Beginning | End | EventId | Timestamp | Unset | Unknown

  datatype Start = Start(kind: StartKind, eventId: int, timestamp: int)
}
