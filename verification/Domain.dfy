/** The entities of internal/domain: identifiers, enumerations and the notification row. */
module Domain {

  datatype Option<+T> = None | Some(value: T)

  // A UUID is sixteen bytes; Postgres orders UUIDs as the big-endian number they spell.
  type Uuid = u: int | 0 <= u < 0x1_0000_0000_0000_0000_0000_0000_0000_0000

  const NIL: Uuid := 0

  datatype Channel = Sms | Email | Push

  datatype Priority = High | Normal | Low

  datatype Status = Pending | Scheduled | Queued | Processing | Delivered | Failed | Cancelled

  predicate Terminal(status: Status) {
    status == Delivered || status == Failed || status == Cancelled
  }

  function ChannelText(channel: Channel): string {
    match channel
    case Sms => "sms"
    case Email => "email"
    case Push => "push"
  }

  function PriorityText(priority: Priority): string {
    match priority
    case High => "high"
    case Normal => "normal"
    case Low => "low"
  }

  /** The stream a priority's text selects; no consumer group reads the stream of any other text. */
  function PriorityOf(text: string): Option<Priority> {
    if text == "high" then Some(High)
    else if text == "normal" then Some(Normal)
    else if text == "low" then Some(Low)
    else None
  }

  lemma PriorityRoundTrip(priority: Priority)
    ensures PriorityOf(PriorityText(priority)) == Some(priority)
  {
    assert "normal"[0] != "high"[0] && "low"[0] != "high"[0] && "low"[0] != "normal"[0];
  }

  // The columns of `notifications` that decide how a row travels. An empty idempotency key is stored as NULL.
  datatype Row = Row(
    key: string,
    channel: Channel,
    priority: Priority,
    status: Status,
    scheduledAt: Option<int>,
    attemptCount: nat,
    maxRetries: int)

  // A notification held in a process's memory: the id and the columns as they were when it was read.
  datatype Item = Item(id: Uuid, row: Row)

  // A row of `delivery_attempts`; ok stands for an empty error column.
  datatype Attempt = Attempt(number: int, ok: bool)
}
