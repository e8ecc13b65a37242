/** The statements of internal/repository/notification.go that change the `notifications` table. */
module Table {
  import opened Domain

  type Rows = map<Uuid, Row>

  // What the service decides about a notification before it is stored.
  datatype New = New(
    id: Uuid,
    key: string,
    channel: Channel,
    priority: Priority,
    scheduledAt: Option<int>,
    maxRetries: int)

  function RowOf(n: New): Row {
    Row(n.key, n.channel, n.priority, if n.scheduledAt.Some? then Scheduled
        else Pending, n.scheduledAt, 0, n.maxRetries)
  }

  datatype InsertError = Duplicate | IdempotencyConflict

  datatype InsertResult = Stored(rows: Rows) | Rejected(error: InsertError)

  predicate KeyTaken(rows: Rows, key: string) {
    key != "" && exists id :: id in rows && rows[id].key == key
  }

  /** INSERT under the primary key and the partial unique index on idempotency_key. */
  function Insert(rows: Rows, n: New): InsertResult {
    if n.id in rows then Rejected(Duplicate)
    else if KeyTaken(rows, n.key) then Rejected(IdempotencyConflict)
    else Stored(rows[n.id := RowOf(n)])
  }

  /** One transaction of inserts: the first rejection rolls everything back. */
  function InsertAll(rows: Rows, news: seq<New>): InsertResult
    decreases |news|
  {
    if news == [] then Stored(rows)
    else
      match Insert(rows, news[0])
      case Stored(rows') => InsertAll(rows', news[1..])
      case Rejected(_) => Rejected(IdempotencyConflict)
  }

  ghost predicate UniqueKeys(rows: Rows) {
    forall id, id' :: id in rows && id' in rows && rows[id].key == rows[id'].key && rows[id].key != "" ==> id == id'
  }

  function SetStatus(rows: Rows, id: Uuid, status: Status): Rows {
    if id in rows then rows[id := rows[id].(status := status)] else rows
  }

  function CountAttempt(rows: Rows, id: Uuid): Rows {
    if id in rows then rows[id := rows[id].(attemptCount := rows[id].attemptCount + 1)] else rows
  }

  predicate Cancellable(status: Status) {
    status == Pending || status == Scheduled || status == Queued
  }

  predicate Due(row: Row, now: int) {
    row.status == Scheduled && row.scheduledAt.Some? && row.scheduledAt.value <= now
  }

  // ---------------------------------------------------------------- all or nothing

  /** The batch has a key of its own for every item, and none that is stored or repeated. */
  predicate Insertable(rows: Rows, news: seq<New>) {
    && (forall i | 0 <= i < |news| :: news[i].id !in rows && !KeyTaken(rows, news[i].key))
    && (forall i, j | 0 <= i < j < |news| ::
          news[i].id != news[j].id && (news[i].key != "" ==> news[i].key != news[j].key))
  }

  lemma InsertableStep(rows: Rows, news: seq<New>)
    requires news != []
    ensures Insertable(rows, news) <==>
              Insert(rows, news[0]).Stored? && Insertable(rows[news[0].id := RowOf(news[0])], news[1..])
  {
    var n := news[0];
    var rows' := rows[n.id := RowOf(n)];
    if Insert(rows, n).Stored? {
      forall key ensures KeyTaken(rows', key) <==> KeyTaken(rows, key) || (key != "" && key == n.key) {
        if KeyTaken(rows, key) {
          var id :| id in rows && rows[id].key == key;
          assert id in rows' && rows'[id].key == key;
        }
        assert n.id in rows' && rows'[n.id].key == n.key;
      }
      assert forall i | 0 < i < |news| :: news[1..][i - 1] == news[i];
      assert forall i | 0 <= i < |news[1..]| :: news[1..][i] == news[i + 1];
    }
  }

  /** The rows after adding every item of a batch. */
  function Added(rows: Rows, news: seq<New>): Rows
    decreases |news|
  {
    if news == [] then rows else Added(rows[news[0].id := RowOf(news[0])], news[1..])
  }

  /** A batch is stored exactly when no id or non-empty key in it is taken or repeated, and then every row is. */
  lemma {:induction false} BatchAllOrNone(rows: Rows, news: seq<New>)
    ensures InsertAll(rows, news) == if Insertable(rows, news) then Stored(Added(rows, news))
        else Rejected(IdempotencyConflict)
    decreases |news|
  {
    if news != [] {
      InsertableStep(rows, news);
      hide Insertable;
      BatchAllOrNone(rows[news[0].id := RowOf(news[0])], news[1..]);
    }
  }
}
