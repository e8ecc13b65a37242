/**
 Carriers and rows agree: whatever a stream, a pending list, the delayed set or a process's memory
 says about a notification is what its row says. Holds in every run, with any number of delayed
 processors and with ClaimStale.
 */
module Agreement {
  import opened Domain
  import opened Table
  import opened Pipeline
  import MC = MemberCodec
  import Retry

  // ---------------------------------------------------------------- the invariant, store by store

  /** The columns no statement ever updates. */
  predicate SameColumns(r: Row, r': Row) {
    && r.key == r'.key && r.channel == r'.channel && r.priority == r'.priority
    && r.scheduledAt == r'.scheduledAt && r.maxRetries == r'.maxRetries
  }

  predicate NotBefore(row: Row, t: int) {
    row.scheduledAt.Some? ==> row.scheduledAt.value <= t
  }

  /** The row exists and is no longer waiting for its scheduled time. */
  predicate Released(rows: Rows, now: int, id: Uuid) {
    id in rows && rows[id].status != Scheduled && NotBefore(rows[id], now)
  }

  predicate EntryOk(rows: Rows, now: int, p: Priority, e: Entry) {
    Released(rows, now, e.id) && e.channel == ChannelText(rows[e.id].channel) && rows[e.id].priority == p
  }

  ghost predicate EntriesOk(rows: Rows, now: int, mq: Redis) {
    forall p, i | 0 <= i < |Log(mq, p)| :: EntryOk(rows, now, p, Log(mq, p)[i])
  }

  predicate MemberOk(rows: Rows, now: int, m: string) {
    var d := MC.Decode(m);
    d.Some? && Released(rows, now, d.value.id) && m == MemberOf(d.value.id, rows[d.value.id])
  }

  ghost predicate MembersOk(rows: Rows, now: int, delayed: map<string, int>) {
    forall m | m in delayed :: MemberOk(rows, now, m)
  }

  ghost predicate BatchesOk(rows: Rows, now: int, processors: map<nat, Processor>) {
    forall p, i | p in processors && 0 <= i < |processors[p].batch| :: MemberOk(rows, now, processors[p].batch[i])
  }

  predicate ItemOk(rows: Rows, item: Item) {
    item.id in rows && SameColumns(item.row, rows[item.id])
  }

  predicate ClientItemOk(rows: Rows, now: int, item: Item) {
    ItemOk(rows, item) && (item.row.status == Pending ==> Released(rows, now, item.id))
  }

  ghost predicate ClientsOk(rows: Rows, now: int, clients: map<nat, Client>) {
    forall c, i | c in clients && 0 <= i < |clients[c].batch| :: ClientItemOk(rows, now, clients[c].batch[i])
  }

  predicate ClaimedItemOk(rows: Rows, now: int, item: Item) {
    ItemOk(rows, item) && Released(rows, now, item.id)
  }

  ghost predicate SchedulersOk(rows: Rows, now: int, schedulers: map<nat, Scheduler>) {
    forall k, i | k in schedulers && 0 <= i < |schedulers[k].batch| :: ClaimedItemOk(rows, now, schedulers[k].batch[i])
  }

  predicate MessageOk(mq: Redis, m: Message) {
    m.ref.index < |Log(mq, m.ref.stream)| && MessageAt(mq, m.ref) == m
  }

  ghost predicate WorkerOk(rows: Rows, mq: Redis, worker: Worker) {
    && worker.next <= |worker.inbox|
    && (forall i | 0 <= i < |worker.inbox| :: MessageOk(mq, worker.inbox[i]))
    && (worker.pc != Start ==> worker.next < |worker.inbox|)
    && (worker.pc.Busy? ==>
          ItemOk(rows, worker.pc.item) && worker.next < |worker.inbox|
              && worker.pc.item.id == worker.inbox[worker.next].id)
  }

  ghost predicate WorkersOk(rows: Rows, mq: Redis, workers: map<nat, Worker>) {
    forall w | w in workers :: WorkerOk(rows, mq, workers[w])
  }

  ghost predicate RowOk(row: Row, h: History) {
    && (row.status == Scheduled ==> row.scheduledAt.Some? && h.promotions == 0)
    && h.promotions <= 1
    && (Terminal(row.status) ==> row.status in h.marked)
    && (forall i | 0 <= i < |h.sends| :: NotBefore(row, h.sends[i]))
  }

  ghost predicate RowsOk(db: Db) {
    && UniqueKeys(db.rows)
    && forall id | id in db.rows :: RowOk(db.rows[id], HistoryOf(db, id))
  }

  ghost predicate RefsOk(mq: Redis) {
    && (forall p :: Cursor(mq, p) <= |Log(mq, p)|)
    && (forall r | r in mq.handed :: r.index < |Log(mq, r.stream)|)
  }

  ghost predicate DeadOk(rows: Rows, dead: map<Uuid, nat>) {
    forall id | id in dead :: id in rows
  }

  ghost predicate Agree(s: State) {
    && EntriesOk(s.db.rows, s.now, s.mq)
    && MembersOk(s.db.rows, s.now, s.mq.delayed)
    && BatchesOk(s.db.rows, s.now, s.processors)
    && ClientsOk(s.db.rows, s.now, s.clients)
    && SchedulersOk(s.db.rows, s.now, s.schedulers)
    && WorkersOk(s.db.rows, s.mq, s.workers)
    && RowsOk(s.db)
    && RefsOk(s.mq)
    && DeadOk(s.db.rows, s.mq.dead)
  }

  // ---------------------------------------------------------------- what a change of rows or streams keeps

  ghost predicate RowsKept(rows: Rows, now: int, rows': Rows, now': int) {
    && now <= now'
    && forall id | id in rows ::
         && id in rows' && SameColumns(rows[id], rows'[id])
         && (rows[id].status != Scheduled ==> rows'[id].status != Scheduled)
  }

  lemma RowsKeptFrame(s: State, rows': Rows, now': int)
    requires Agree(s) && RowsKept(s.db.rows, s.now, rows', now')
    ensures EntriesOk(rows', now', s.mq)
    ensures MembersOk(rows', now', s.mq.delayed)
    ensures BatchesOk(rows', now', s.processors)
    ensures ClientsOk(rows', now', s.clients)
    ensures SchedulersOk(rows', now', s.schedulers)
    ensures WorkersOk(rows', s.mq, s.workers)
    ensures DeadOk(rows', s.mq.dead)
  {
    forall p, i | 0 <= i < |Log(s.mq, p)| ensures EntryOk(rows', now', p, Log(s.mq, p)[i]) {
      assert EntryOk(s.db.rows, s.now, p, Log(s.mq, p)[i]);
    }
    forall m | MemberOk(s.db.rows, s.now, m) ensures MemberOk(rows', now', m) {
      assert SameColumns(s.db.rows[MC.Decode(m).value.id], rows'[MC.Decode(m).value.id]);
    }
    forall c, i | c in s.clients && 0 <= i < |s.clients[c].batch|
      ensures ClientItemOk(rows', now', s.clients[c].batch[i])
    {
      assert ClientItemOk(s.db.rows, s.now, s.clients[c].batch[i]);
    }
    forall k, i | k in s.schedulers && 0 <= i < |s.schedulers[k].batch|
      ensures ClaimedItemOk(rows', now', s.schedulers[k].batch[i])
    {
      assert ClaimedItemOk(s.db.rows, s.now, s.schedulers[k].batch[i]);
    }
    forall w | w in s.workers ensures WorkerOk(rows', s.mq, s.workers[w]) {
      assert WorkerOk(s.db.rows, s.mq, s.workers[w]);
    }
  }

  /** A write that leaves the immutable columns alone and never enters `scheduled`. */
  lemma RowWriteAgrees(s: State, db': Db)
    requires Agree(s) && RowsKept(s.db.rows, s.now, db'.rows, s.now) && RowsOk(db')
    ensures Agree(s.(db := db'))
  {
    hide RowsOk, RowsKept;
    RowsKeptFrame(s, db'.rows, s.now);
  }

  lemma WriteStatusRows(db: Db, now: int, id: Uuid, status: Status)
    requires RowsOk(db) && status != Scheduled
    ensures RowsKept(db.rows, now, WriteStatus(db, id, status).rows, now)
    ensures RowsOk(WriteStatus(db, id, status))
  {
    hide RowOk;
    var db' := WriteStatus(db, id, status);
    forall i | i in db'.rows ensures RowOk(db'.rows[i], HistoryOf(db', i)) {
      assert RowOk(db.rows[i], HistoryOf(db, i));
      MarkedRowOk(db.rows[i], HistoryOf(db, i), status);
    }
  }

  lemma MarkedRowOk(row: Row, h: History, status: Status)
    requires RowOk(row, h) && status != Scheduled
    ensures RowOk(row.(status := status), h.(marked := h.marked + {status}))
  {
  }

  /** Writing a status other than `scheduled` keeps the rows in agreement with everything. */
  lemma WriteStatusAgrees(s: State, id: Uuid, status: Status)
    requires Agree(s) && status != Scheduled
    ensures Agree(s.(db := WriteStatus(s.db, id, status)))
  {
    hide RowsKept, WriteStatus, IncrementAttempt;
    WriteStatusRows(s.db, s.now, id, status);
    RowWriteAgrees(s, WriteStatus(s.db, id, status));
  }

  lemma IncrementRows(db: Db, now: int, id: Uuid)
    requires RowsOk(db)
    ensures RowsKept(db.rows, now, IncrementAttempt(db, id).rows, now)
    ensures RowsOk(IncrementAttempt(db, id))
  {
    var db' := IncrementAttempt(db, id);
    forall i | i in db'.rows ensures RowOk(db'.rows[i], HistoryOf(db', i)) {
      assert RowOk(db.rows[i], HistoryOf(db, i));
    }
  }

  lemma IncrementAgrees(s: State, id: Uuid)
    requires Agree(s)
    ensures Agree(s.(db := IncrementAttempt(s.db, id)))
  {
    hide RowsKept, WriteStatus, IncrementAttempt;
    IncrementRows(s.db, s.now, id);
    RowWriteAgrees(s, IncrementAttempt(s.db, id));
  }

  /** What a longer stream keeps. */
  lemma AppendFrame(mq: Redis, p: Priority, e: Entry)
    ensures forall q :: Log(mq, q) <= Log(Append(mq, p, e), q)
    ensures forall q :: Cursor(Append(mq, p, e), q) == Cursor(mq, q)
    ensures Log(Append(mq, p, e), p) == Log(mq, p) + [e]
    ensures forall q | q != p :: Log(Append(mq, p, e), q) == Log(mq, q)
    ensures forall m | MessageOk(mq, m) :: MessageOk(Append(mq, p, e), m)
    ensures RefsOk(mq) ==> RefsOk(Append(mq, p, e))
  {
    forall m | MessageOk(mq, m) ensures MessageOk(Append(mq, p, e), m) {
    }
  }

  lemma AppendAgrees(s: State, p: Priority, e: Entry)
    requires Agree(s) && EntryOk(s.db.rows, s.now, p, e)
    ensures Agree(s.(mq := Append(s.mq, p, e)))
  {
    hide RowsOk, RefsOk, MessageOk, EntryOk, ItemOk;
    var mq' := Append(s.mq, p, e);
    AppendFrame(s.mq, p, e);
    forall q, i | 0 <= i < |Log(mq', q)| ensures EntryOk(s.db.rows, s.now, q, Log(mq', q)[i]) {
      if i < |Log(s.mq, q)| {
        assert EntryOk(s.db.rows, s.now, q, Log(s.mq, q)[i]);
      }
    }
    forall w | w in s.workers ensures WorkerOk(s.db.rows, mq', s.workers[w]) {
      assert WorkerOk(s.db.rows, s.mq, s.workers[w]);
    }
  }

  lemma HandAgrees(s: State, m: Message)
    requires Agree(s) && MessageOk(s.mq, m)
    ensures Agree(s.(mq := Hand(s.mq, m.ref)))
  {
    LogsSame(s, Hand(s.mq, m.ref));
    LogsSame(s, Hand(s.mq, m.ref).(handed := s.mq.handed));
    assert forall q :: Log(Hand(s.mq, m.ref), q) == Log(s.mq, q);
    assert forall q :: Cursor(Hand(s.mq, m.ref), q) == Cursor(s.mq, q);
  }

  /** A Redis command that leaves the streams alone keeps what is said about them. */
  lemma LogsSame(s: State, mq': Redis)
    requires Agree(s) && mq'.logs == s.mq.logs
    ensures EntriesOk(s.db.rows, s.now, mq')
    ensures WorkersOk(s.db.rows, mq', s.workers)
    ensures mq'.cursors == s.mq.cursors && mq'.handed == s.mq.handed ==> RefsOk(mq')
  {
    assert forall q :: Log(mq', q) == Log(s.mq, q);
    if mq'.cursors == s.mq.cursors {
      forall q ensures Cursor(mq', q) <= |Log(mq', q)| {
        assert Cursor(s.mq, q) <= |Log(s.mq, q)|;
      }
    }
    forall q, i | 0 <= i < |Log(mq', q)| ensures EntryOk(s.db.rows, s.now, q, Log(mq', q)[i]) {
      assert EntryOk(s.db.rows, s.now, q, Log(s.mq, q)[i]);
    }
    forall w | w in s.workers ensures WorkerOk(s.db.rows, mq', s.workers[w]) {
      var worker := s.workers[w];
      assert WorkerOk(s.db.rows, s.mq, worker);
      forall i | 0 <= i < |worker.inbox| ensures MessageOk(mq', worker.inbox[i]) {
        assert MessageOk(s.mq, worker.inbox[i]);
      }
    }
  }

  lemma DelayAgrees(s: State, item: Item, at: int)
    requires Agree(s) && ItemOk(s.db.rows, item) && Released(s.db.rows, s.now, item.id)
    ensures Agree(s.(mq := EnqueueDelayed(s.mq, item, at)))
  {
    LogsSame(s, EnqueueDelayed(s.mq, item, at));
    ItemMemberOk(s.db.rows, s.now, item);
    forall m | m in EnqueueDelayed(s.mq, item, at).delayed ensures MemberOk(s.db.rows, s.now, m) {
    }
  }

  lemma ItemMemberOk(rows: Rows, now: int, item: Item)
    requires ItemOk(rows, item) && Released(rows, now, item.id)
    ensures MemberOk(rows, now, MemberOf(item.id, item.row))
    ensures MemberOf(item.id, item.row) == MemberOf(item.id, rows[item.id])
  {
    MC.DecodeInvertsMember(item.id, item.row.channel, item.row.priority);
  }

  lemma GotoAgrees(s: State, w: nat, pc: Pc)
    requires Agree(s) && WorkerEnabled(s, w)
    requires pc.Busy? ==> ItemOk(s.db.rows, pc.item) && pc.item.id == s.workers[w].inbox[s.workers[w].next].id
    ensures Agree(s.(workers := Goto(s, w, pc)))
  {
    forall w' | w' in s.workers ensures WorkerOk(s.db.rows, s.mq, Goto(s, w, pc)[w']) {
      assert WorkerOk(s.db.rows, s.mq, s.workers[w']);
    }
  }

  // ---------------------------------------------------------------- step by step

  lemma TickAgrees(s: State, ms: nat)
    requires Agree(s)
    ensures Agree(s.(now := s.now + ms))
  {
    assert RowsKept(s.db.rows, s.now, s.db.rows, s.now + ms);
    RowsKeptFrame(s, s.db.rows, s.now + ms);
  }

  lemma BornAgrees(s: State, c: nat, n: New)
    requires Agree(s) && c in s.clients && Table.Insert(s.db.rows, n).Stored?
    ensures Agree(Born(s, c, n))
  {
    var s' := Born(s, c, n);
    assert RowsKept(s.db.rows, s.now, s'.db.rows, s.now);
    RowsKeptFrame(s, s'.db.rows, s.now);
    forall i | i in s'.db.rows ensures RowOk(s'.db.rows[i], HistoryOf(s'.db, i)) {
      if i != n.id {
        assert RowOk(s.db.rows[i], HistoryOf(s.db, i));
      }
    }
    forall c', i | c' in s'.clients && 0 <= i < |s'.clients[c'].batch|
      ensures ClientItemOk(s'.db.rows, s.now, s'.clients[c'].batch[i])
    {
      if c' != c || i < |s.clients[c].batch| {
        assert ClientItemOk(s'.db.rows, s.now, s.clients[c'].batch[i]);
      }
    }
  }

  lemma {:induction false} BornAllAgrees(s: State, c: nat, news: seq<New>)
    requires Agree(s) && c in s.clients && InsertAll(s.db.rows, news).Stored?
    ensures Agree(BornAll(s, c, news))
    decreases |news|
  {
    if news != [] {
      BornAgrees(s, c, news[0]);
      BornAllAgrees(Born(s, c, news[0]), c, news[1..]);
    }
  }

  lemma OpenClientAgrees(s: State, c: nat)
    requires Agree(s)
    ensures Agree(OpenClient(s, c))
  {
    forall c', i | c' in OpenClient(s, c).clients && 0 <= i < |OpenClient(s, c).clients[c'].batch|
      ensures ClientItemOk(s.db.rows, s.now, OpenClient(s, c).clients[c'].batch[i])
    {
      assert ClientItemOk(s.db.rows, s.now, s.clients[c'].batch[i]);
    }
  }

  lemma MoveClientAgrees(s: State, c: nat, next: nat, enqueued: bool)
    requires Agree(s) && c in s.clients
    ensures Agree(s.(clients := s.clients[c := s.clients[c].(next := next, enqueued := enqueued)]))
  {
    var clients' := s.clients[c := s.clients[c].(next := next, enqueued := enqueued)];
    forall c', i | c' in clients' && 0 <= i < |clients'[c'].batch|
      ensures ClientItemOk(s.db.rows, s.now, clients'[c'].batch[i])
    {
      assert ClientItemOk(s.db.rows, s.now, s.clients[c'].batch[i]);
    }
  }

  lemma ClientAgrees(s: State, c: nat)
    requires Agree(s) && ClientEnabled(s, c)
    ensures Agree(ClientStep(s, c))
  {
    var client := s.clients[c];
    var item := client.batch[client.next];
    assert ClientItemOk(s.db.rows, s.now, item);
    if item.row.status != Pending {
      MoveClientAgrees(s, c, client.next + 1, client.enqueued);
    } else if !client.enqueued {
      AppendAgrees(s, item.row.priority, EntryFor(item));
      MoveClientAgrees(s.(mq := EnqueueItem(s.mq, item)), c, client.next, true);
    } else {
      WriteStatusAgrees(s, item.id, Queued);
      MoveClientAgrees(s.(db := WriteStatus(s.db, item.id, Queued)), c, client.next + 1, false);
    }
  }

  lemma CancelAgrees(s: State, id: Uuid)
    requires Agree(s)
    ensures Agree(CancelStep(s, id))
  {
    WriteStatusAgrees(s, id, Cancelled);
  }

  lemma ResetSchedulerAgrees(s: State, k: nat)
    requires Agree(s)
    ensures Agree(ResetScheduler(s, k))
  {
    var s' := ResetScheduler(s, k);
    forall k', i | k' in s'.schedulers && 0 <= i < |s'.schedulers[k'].batch|
      ensures ClaimedItemOk(s.db.rows, s.now, s'.schedulers[k'].batch[i])
    {
      assert ClaimedItemOk(s.db.rows, s.now, s.schedulers[k'].batch[i]);
    }
  }

  lemma ClaimOneAgrees(s: State, k: nat, id: Uuid)
    requires Agree(s) && ClaimOneEnabled(s, k, id)
    ensures Agree(ClaimOne(s, k, id))
  {
    var s' := ClaimOne(s, k, id);
    assert RowsKept(s.db.rows, s.now, s'.db.rows, s.now);
    RowsKeptFrame(s, s'.db.rows, s.now);
    forall i | i in s'.db.rows ensures RowOk(s'.db.rows[i], HistoryOf(s'.db, i)) {
      assert RowOk(s.db.rows[i], HistoryOf(s.db, i));
    }
    forall k', i | k' in s'.schedulers && 0 <= i < |s'.schedulers[k'].batch|
      ensures ClaimedItemOk(s'.db.rows, s.now, s'.schedulers[k'].batch[i])
    {
      if k' != k || i < |s.schedulers[k].batch| {
        assert ClaimedItemOk(s'.db.rows, s.now, s.schedulers[k'].batch[i]);
      }
    }
  }

  lemma {:induction false} ClaimAllAgrees(s: State, k: nat, ids: seq<Uuid>)
    requires Agree(s) && ClaimAllEnabled(s, k, ids)
    ensures Agree(ClaimAll(s, k, ids))
    decreases |ids|
  {
    if ids != [] {
      ClaimOneAgrees(s, k, ids[0]);
      ClaimAllAgrees(ClaimOne(s, k, ids[0]), k, ids[1..]);
    }
  }

  lemma SchedulerAgrees(s: State, k: nat)
    requires Agree(s) && SchedulerEnabled(s, k)
    ensures Agree(SchedulerStep(s, k))
  {
    var item := s.schedulers[k].batch[s.schedulers[k].next];
    assert ClaimedItemOk(s.db.rows, s.now, item);
    AppendAgrees(s, item.row.priority, EntryFor(item));
    var s' := SchedulerStep(s, k);
    forall k', i | k' in s'.schedulers && 0 <= i < |s'.schedulers[k'].batch|
      ensures ClaimedItemOk(s.db.rows, s.now, s'.schedulers[k'].batch[i])
    {
      assert ClaimedItemOk(s.db.rows, s.now, s.schedulers[k'].batch[i]);
    }
  }

  lemma HandOutAgrees(s: State, w: nat, p: Priority)
    requires Agree(s) && w in s.workers
    ensures Agree(HandOut(s, w, p))
  {
    hide RowsOk, EntryOk, MembersOk, BatchesOk, SchedulersOk;
    var s' := HandOut(s, w, p);
    LogsSame(s, s'.mq);
    forall w' | w' in s'.workers ensures WorkerOk(s.db.rows, s'.mq, s'.workers[w']) {
      assert WorkerOk(s.db.rows, s'.mq, s.workers[w']);
    }
    forall q ensures Cursor(s'.mq, q) <= |Log(s'.mq, q)| {
      assert Cursor(s.mq, q) <= |Log(s.mq, q)|;
    }
  }

  lemma SetInboxAgrees(s: State, w: nat, inbox: seq<Message>)
    requires Agree(s) && WorkerIdle(s, w) && forall i | 0 <= i < |inbox| :: MessageOk(s.mq, inbox[i])
    ensures Agree(s.(workers := s.workers[w := s.workers[w].(inbox := inbox, next := 0)]))
  {
    forall w' | w' in s.workers && w' != w ensures WorkerOk(s.db.rows, s.mq, s.workers[w']) {
    }
  }

  lemma ReadAgrees(s: State, w: nat)
    requires Agree(s) && WorkerIdle(s, w)
    ensures Agree(ReadStep(s, w))
  {
    hide Agree;
    SetInboxAgrees(s, w, []);
    var s1 := ResetWorker(s, w);
    HandOutAgrees(s1, w, High);
    var s2 := HandOut(s1, w, High);
    HandOutAgrees(s2, w, Normal);
    HandOutAgrees(HandOut(s2, w, Normal), w, Low);
  }

  lemma LookUpAgrees(s: State, w: nat)
    requires Agree(s) && WorkerEnabled(s, w)
    ensures Agree(LookUp(s, w))
  {
    var m := s.workers[w].inbox[s.workers[w].next];
    assert WorkerOk(s.db.rows, s.mq, s.workers[w]);
    assert MessageOk(s.mq, m);
    HandAgrees(s, m);
    GotoAgrees(s, w, Acking);
    GotoAgrees(s.(mq := Hand(s.mq, m.ref)), w, Acking);
    if m.id in s.db.rows {
      GotoAgrees(s, w, Busy(Item(m.id, s.db.rows[m.id]), Claimed));
    }
  }

  lemma AckAgrees(s: State, w: nat)
    requires Agree(s) && WorkerEnabled(s, w)
    ensures Agree(AckStep(s, w))
  {
    var s' := AckStep(s, w);
    LogsSame(s, s'.mq);
    forall w' | w' in s'.workers ensures WorkerOk(s.db.rows, s'.mq, s'.workers[w']) {
      assert WorkerOk(s.db.rows, s'.mq, s.workers[w']);
    }
  }

  /** A message in hand is about a released notification of the message's own stream. */
  lemma MessageReleased(s: State, m: Message)
    requires Agree(s) && MessageOk(s.mq, m)
    ensures EntryOk(s.db.rows, s.now, m.ref.stream, Entry(m.id, m.channel))
  {
    assert EntryOk(s.db.rows, s.now, m.ref.stream, Log(s.mq, m.ref.stream)[m.ref.index]);
  }

  lemma SendAgrees(s: State, id: Uuid)
    requires Agree(s) && Released(s.db.rows, s.now, id)
    ensures Agree(s.(db := RecordSend(s.db, id, s.now)))
  {
    var db' := RecordSend(s.db, id, s.now);
    forall i | i in db'.rows ensures RowOk(db'.rows[i], HistoryOf(db', i)) {
      assert RowOk(s.db.rows[i], HistoryOf(s.db, i));
    }
  }

  lemma HandledAgrees(s: State, id: Uuid)
    requires Agree(s)
    ensures Agree(s.(db := RecordHandled(s.db, id, s.now)))
  {
    var db' := RecordHandled(s.db, id, s.now);
    forall i | i in db'.rows ensures RowOk(db'.rows[i], HistoryOf(db', i)) {
      assert RowOk(s.db.rows[i], HistoryOf(s.db, i));
    }
  }

  lemma AttemptAgrees(s: State, id: Uuid, a: Attempt)
    requires Agree(s)
    ensures Agree(s.(db := InsertAttempt(s.db, id, a)))
  {
    var db' := InsertAttempt(s.db, id, a);
    forall i | i in db'.rows ensures RowOk(db'.rows[i], HistoryOf(db', i)) {
      assert RowOk(s.db.rows[i], HistoryOf(s.db, i));
    }
  }

  lemma DeadAgrees(s: State, id: Uuid)
    requires Agree(s) && id in s.db.rows
    ensures Agree(s.(mq := PushDead(s.mq, id)))
  {
    LogsSame(s, PushDead(s.mq, id));
  }

  /** The tail of every branch that ends the work on a message. */
  lemma HandOffAgrees(s: State, w: nat)
    requires Agree(s) && WorkerEnabled(s, w)
    ensures var ref := s.workers[w].inbox[s.workers[w].next].ref;
            Agree(s.(mq := Hand(s.mq, ref), workers := Goto(s, w, Acking)))
  {
    var m := s.workers[w].inbox[s.workers[w].next];
    assert WorkerOk(s.db.rows, s.mq, s.workers[w]);
    assert MessageOk(s.mq, m);
    HandAgrees(s, m);
    GotoAgrees(s.(mq := Hand(s.mq, m.ref)), w, Acking);
  }

  lemma BusyFacts(s: State, w: nat)
    requires Agree(s) && WorkerEnabled(s, w) && s.workers[w].pc.Busy?
    ensures ItemOk(s.db.rows, s.workers[w].pc.item)
    ensures s.workers[w].pc.item.id == s.workers[w].inbox[s.workers[w].next].id
    ensures Released(s.db.rows, s.now, s.workers[w].pc.item.id)
  {
    var m := s.workers[w].inbox[s.workers[w].next];
    assert WorkerOk(s.db.rows, s.mq, s.workers[w]);
    assert MessageOk(s.mq, m);
    MessageReleased(s, m);
  }

  lemma BeforeSendAgrees(s: State, w: nat, ok: bool)
    requires Agree(s) && WorkerEnabled(s, w) && s.workers[w].pc.Busy?
    requires s.workers[w].pc.stage.Claimed? || s.workers[w].pc.stage.Routed? || s.workers[w].pc.stage.Sending?
    ensures Agree(BusyStep(s, w, ok))
  {
    hide Agree;
    BusyFacts(s, w);
    var item := s.workers[w].pc.item;
    if s.workers[w].pc.stage.Claimed? {
      WriteStatusAgrees(s, item.id, Processing);
      GotoAgrees(s.(db := WriteStatus(s.db, item.id, Processing)), w, Busy(item, Routed));
    } else if s.workers[w].pc.stage.Sending? {
      GotoAgrees(s, w, Busy(item, Sent(ok)));
    } else if item.row.channel in s.providers {
      SendAgrees(s, item.id);
      GotoAgrees(s.(db := RecordSend(s.db, item.id, s.now)), w, Busy(item, Sending));
    } else {
      WriteStatusAgrees(s, item.id, Failed);
      HandOffAgrees(s.(db := WriteStatus(s.db, item.id, Failed)), w);
    }
  }

  lemma RecordingAgrees(s: State, w: nat, ok: bool)
    requires Agree(s) && WorkerEnabled(s, w) && s.workers[w].pc.Busy?
    requires s.workers[w].pc.stage.Sent? || s.workers[w].pc.stage.Counted?
    ensures Agree(BusyStep(s, w, ok))
  {
    hide Agree;
    BusyFacts(s, w);
    var item := s.workers[w].pc.item;
    match s.workers[w].pc.stage {
      case Sent(sent) =>
        IncrementAgrees(s, item.id);
        GotoAgrees(s.(db := IncrementAttempt(s.db, item.id)), w, Busy(item, Counted(sent)));
      case Counted(sent) =>
        var a := Attempt(item.row.attemptCount + 1, sent);
        AttemptAgrees(s, item.id, a);
        GotoAgrees(s.(db := InsertAttempt(s.db, item.id, a)), w, Busy(item, Recorded(sent)));
    }
  }

  lemma DeliveredAgrees(s: State, w: nat, ok: bool)
    requires Agree(s) && WorkerEnabled(s, w) && s.workers[w].pc.Busy? && s.workers[w].pc.stage == Recorded(true)
    ensures Agree(BusyStep(s, w, ok))
  {
    hide Agree;
    var item := s.workers[w].pc.item;
    WriteStatusAgrees(s, item.id, Delivered);
    HandOffAgrees(s.(db := WriteStatus(s.db, item.id, Delivered)), w);
  }

  lemma RejectedAgrees(s: State, w: nat, ok: bool)
    requires Agree(s) && WorkerEnabled(s, w) && s.workers[w].pc.Busy? && s.workers[w].pc.stage == Recorded(false)
    ensures Agree(BusyStep(s, w, ok))
  {
    hide Agree;
    BusyFacts(s, w);
    var item := s.workers[w].pc.item;
    if Retry.ShouldRetry(item.row.attemptCount + 1, item.row.maxRetries) {
      HandledAgrees(s, item.id);
      var at := Retry.RetryAt(s.now, item.row.attemptCount + 1);
      GotoAgrees(s.(db := RecordHandled(s.db, item.id, s.now)), w, Busy(item, Requeue(at)));
    } else {
      WriteStatusAgrees(s, item.id, Failed);
      GotoAgrees(s.(db := WriteStatus(s.db, item.id, Failed)), w, Busy(item, Burying));
    }
  }

  lemma RequeueAgrees(s: State, w: nat, ok: bool)
    requires Agree(s) && WorkerEnabled(s, w) && s.workers[w].pc.Busy? && s.workers[w].pc.stage.Requeue?
    ensures Agree(BusyStep(s, w, ok))
  {
    hide Agree;
    BusyFacts(s, w);
    var item := s.workers[w].pc.item;
    WriteStatusAgrees(s, item.id, Queued);
    GotoAgrees(s.(db := WriteStatus(s.db, item.id, Queued)), w, Busy(item, Delaying(s.workers[w].pc.stage.at)));
  }

  lemma DelayingAgrees(s: State, w: nat, ok: bool)
    requires Agree(s) && WorkerEnabled(s, w) && s.workers[w].pc.Busy? && s.workers[w].pc.stage.Delaying?
    ensures Agree(BusyStep(s, w, ok))
  {
    hide Agree;
    BusyFacts(s, w);
    var item := s.workers[w].pc.item;
    DelayAgrees(s, item, s.workers[w].pc.stage.at);
    HandOffAgrees(s.(mq := EnqueueDelayed(s.mq, item, s.workers[w].pc.stage.at)), w);
  }

  lemma BuryingAgrees(s: State, w: nat, ok: bool)
    requires Agree(s) && WorkerEnabled(s, w) && s.workers[w].pc.Busy? && s.workers[w].pc.stage.Burying?
    ensures Agree(BusyStep(s, w, ok))
  {
    hide Agree;
    BusyFacts(s, w);
    var item := s.workers[w].pc.item;
    DeadAgrees(s, item.id);
    HandOffAgrees(s.(mq := PushDead(s.mq, item.id)), w);
  }

  lemma BusyAgrees(s: State, w: nat, ok: bool)
    requires Agree(s) && WorkerEnabled(s, w) && s.workers[w].pc.Busy?
    ensures Agree(BusyStep(s, w, ok))
  {
    hide Agree;
    match s.workers[w].pc.stage {
      case Claimed | Routed | Sending => BeforeSendAgrees(s, w, ok);
      case Sent(_) | Counted(_) => RecordingAgrees(s, w, ok);
      case Recorded(sent) => if sent { DeliveredAgrees(s, w, ok); } else { RejectedAgrees(s, w, ok); }
      case Requeue(_) => RequeueAgrees(s, w, ok);
      case Delaying(_) => DelayingAgrees(s, w, ok);
      case Burying => BuryingAgrees(s, w, ok);
    }
  }

  lemma ReclaimAgrees(s: State, w: nat, refs: seq<Ref>)
    requires Agree(s) && ReclaimEnabled(s, w, refs)
    ensures Agree(ReclaimStep(s, w, refs))
  {
    SetInboxAgrees(s, w, ReclaimStep(s, w, refs).workers[w].inbox);
  }

  lemma StopAgrees(s: State, w: nat)
    requires Agree(s) && StopEnabled(s, w)
    ensures Agree(StopStep(s, w))
  {
    forall w' | w' in s.workers ensures WorkerOk(s.db.rows, s.mq, StopStep(s, w).workers[w']) {
      assert WorkerOk(s.db.rows, s.mq, s.workers[w']);
    }
  }

  lemma SetProcessorAgrees(s: State, p: nat, proc: Processor)
    requires Agree(s) && forall i | 0 <= i < |proc.batch| :: MemberOk(s.db.rows, s.now, proc.batch[i])
    ensures Agree(s.(processors := s.processors[p := proc]))
  {
    var s' := s.(processors := s.processors[p := proc]);
    forall q, i | q in s'.processors && 0 <= i < |s'.processors[q].batch|
      ensures MemberOk(s.db.rows, s.now, s'.processors[q].batch[i])
    {
      if q != p {
        assert MemberOk(s.db.rows, s.now, s.processors[q].batch[i]);
      }
    }
  }

  lemma RemoveOneAgrees(s: State, p: nat)
    requires Agree(s) && RemoveEnabled(s, p)
    ensures Agree(RemoveOne(s, p))
  {
    var proc := s.processors[p];
    ZRemAgrees(s, {proc.batch[proc.gone]});
    forall i | 0 <= i < |proc.batch| ensures MemberOk(s.db.rows, s.now, proc.batch[i]) {
    }
    SetProcessorAgrees(s.(mq := RemoveOne(s, p).mq), p, proc.(gone := proc.gone + 1));
  }

  lemma ZRemAgrees(s: State, members: set<string>)
    requires Agree(s)
    ensures Agree(s.(mq := s.mq.(delayed := s.mq.delayed - members)))
  {
    LogsSame(s, s.mq.(delayed := s.mq.delayed - members));
    forall m | m in s.mq.delayed - members ensures MemberOk(s.db.rows, s.now, m) {
    }
  }

  lemma {:induction false} RemoveAgrees(s: State, p: nat)
    requires Agree(s) && RemoveEnabled(s, p)
    ensures Agree(RemoveStep(s, p))
    decreases |s.processors[p].batch| - s.processors[p].gone
  {
    RemoveOneAgrees(s, p);
    if RemoveEnabled(RemoveOne(s, p), p) {
      RemoveAgrees(RemoveOne(s, p), p);
    }
  }

  /** A member that names a released row decodes to an entry that agrees with it. */
  lemma RedeliverIs(rows: Rows, now: int, mq: Redis, m: string)
    requires MemberOk(rows, now, m)
    ensures var id := MC.Decode(m).value.id;
            var e := Entry(id, ChannelText(rows[id].channel));
            EntryOk(rows, now, rows[id].priority, e) && Redeliver(mq, m) == Append(mq, rows[id].priority, e)
  {
    var id := MC.Decode(m).value.id;
    MC.DecodeInvertsMember(id, rows[id].channel, rows[id].priority);
    PriorityRoundTrip(rows[id].priority);
  }

  lemma ProcessorAgrees(s: State, p: nat)
    requires Agree(s) && ProcessorEnabled(s, p)
    ensures Agree(ProcessorStep(s, p))
  {
    var proc := s.processors[p];
    var m := proc.batch[proc.next];
    assert MemberOk(s.db.rows, s.now, m);
    RedeliverIs(s.db.rows, s.now, s.mq, m);
    var id := MC.Decode(m).value.id;
    AppendAgrees(s, s.db.rows[id].priority, Entry(id, ChannelText(s.db.rows[id].channel)));
    SetProcessorAgrees(s.(mq := Redeliver(s.mq, m)), p, proc.(next := proc.next + 1));
  }

  lemma RangeAgrees(s: State, p: nat, at: int, batch: seq<string>)
    requires Agree(s) && RangeEnabled(s, p, at, batch)
    ensures Agree(RangeStep(s, p, at, batch))
  {
    forall i | 0 <= i < |batch| ensures MemberOk(s.db.rows, s.now, batch[i]) {
      assert batch[i] in s.mq.delayed;
    }
    SetProcessorAgrees(s, p, Processor(batch, 0, at, 0));
  }

  lemma StepAgrees(s: State, step: Step)
    requires Agree(s) && Enabled(s, step)
    ensures Agree(Apply(s, step))
  {
    hide Agree;
    match step {
      case Tick(ms) => TickAgrees(s, ms);
      case Insert(c, news) =>
        OpenClientAgrees(s, c);
        BornAllAgrees(OpenClient(s, c), c, news);
      case ClientNext(c) => ClientAgrees(s, c);
      case Cancel(id) => CancelAgrees(s, id);
      case Fetch(k, ids) =>
        ResetSchedulerAgrees(s, k);
        ClaimAllAgrees(ResetScheduler(s, k), k, ids);
      case SchedulerNext(k) => SchedulerAgrees(s, k);
      case Read(w) => ReadAgrees(s, w);
      case WorkerNext(w, ok) =>
        match s.workers[w].pc {
          case Start => LookUpAgrees(s, w);
          case Busy(_, _) => BusyAgrees(s, w, ok);
          case Acking => AckAgrees(s, w);
        }
      case Stop(w) => StopAgrees(s, w);
      case Reclaim(w, refs) => ReclaimAgrees(s, w, refs);
      case Range(p, at, batch) =>
        RangeAgrees(s, p, at, batch);
      case Remove(p) => RemoveAgrees(s, p);
      case ProcessorNext(p) => ProcessorAgrees(s, p);
    }
  }

  /** In every reachable state every carrier agrees with its row. */
  lemma {:induction false} RunAgrees(s: State, steps: seq<Step>)
    requires Agree(s) && ValidRun(s, steps)
    ensures Agree(After(s, steps))
    decreases |steps|
  {
    hide Agree;
    if steps != [] {
      StepAgrees(s, steps[0]);
      RunAgrees(Apply(s, steps[0]), steps[1..]);
    }
  }
}
