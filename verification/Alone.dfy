/**
 What one call does when nothing runs beside it: creating, polling, processing a message or a delayed batch,
 as a function of the stores. Each is the composition of its steps in the pipeline.
 */
module Alone {
  import opened Domain
  import opened Table
  import opened Pipeline
  import G = Guarantees
  import MC = MemberCodec
  import Retry

  // Everything a call reads and writes.
  datatype Stores = Stores(db: Db, mq: Redis)

  // ---------------------------------------------------------------- Create and CreateBatch

  function AddRows(db: Db, news: seq<New>): Db
    decreases |news|
  {
    if news == [] then db else AddRows(AddRow(db, news[0]), news[1..])
  }

  lemma {:induction false} AddRowsRows(db: Db, news: seq<New>)
    ensures AddRows(db, news).rows == Added(db.rows, news)
    decreases |news|
  {
    if news != [] {
      AddRowsRows(AddRow(db, news[0]), news[1..]);
    }
  }

  function ItemsOf(news: seq<New>): (items: seq<Item>)
    ensures |items| == |news| && forall i | 0 <= i < |news| :: items[i] == Item(news[i].id, RowOf(news[i]))
  {
    seq(|news|, i requires 0 <= i < |news| => Item(news[i].id, RowOf(news[i])))
  }

  /** The loop over the stored notifications: enqueue each unscheduled one, then mark it queued. */
  function Enqueued(st: Stores, items: seq<Item>): Stores
    decreases |items|
  {
    if items == [] then st
    else if items[0].row.status != Pending then Enqueued(st, items[1..])
    else Enqueued(Stores(WriteStatus(st.db, items[0].id, Queued), EnqueueItem(st.mq, items[0])), items[1..])
  }

  function RunClient(s: State, c: nat): State
    decreases if ClientEnabled(s, c) then |s.clients[c].batch| - s.clients[c].next else 0,
              if ClientEnabled(s, c) && !s.clients[c].enqueued then 1 else 0
  {
    if ClientEnabled(s, c) then RunClient(ClientStep(s, c), c) else s
  }

  /** Alone, the creating loop's steps come to Enqueued. */
  lemma {:induction false} ClientAlone(s: State, c: nat)
    requires c in s.clients && s.clients[c].next <= |s.clients[c].batch| && !s.clients[c].enqueued
    ensures var s', client := RunClient(s, c), s.clients[c];
            Stores(s'.db, s'.mq) == Enqueued(Stores(s.db, s.mq), client.batch[client.next..])
    decreases |s.clients[c].batch| - s.clients[c].next
  {
    hide WriteStatus, EnqueueItem;
    var client := s.clients[c];
    if client.next < |client.batch| {
      var s1 := ClientStep(s, c);
      if client.batch[client.next].row.status != Pending {
        ClientAlone(s1, c);
      } else {
        ClientAlone(ClientStep(s1, c), c);
      }
    }
  }

  lemma {:induction false} BornAllIs(s: State, c: nat, news: seq<New>)
    requires c in s.clients
    ensures var s' := BornAll(s, c, news);
            && s'.db == AddRows(s.db, news) && s'.mq == s.mq && c in s'.clients
            && s'.clients[c] == s.clients[c].(batch := s.clients[c].batch + ItemsOf(news))
    decreases |news|
  {
    if news == [] {
      assert s.clients[c].batch + ItemsOf(news) == s.clients[c].batch;
    } else {
      BornIs(s, c, news[0]);
      hide Born, AddRow;
      BornAllIs(Born(s, c, news[0]), c, news[1..]);
      assert s.clients[c].batch + ItemsOf(news) == s.clients[c].batch + ItemsOf([news[0]]) + ItemsOf(news[1..]);
    }
  }

  lemma BornIs(s: State, c: nat, n: New)
    requires c in s.clients
    ensures var s' := Born(s, c, n);
            && s'.db == AddRow(s.db, n) && s'.mq == s.mq && c in s'.clients
            && s'.clients[c] == s.clients[c].(batch := s.clients[c].batch + ItemsOf([n]))
  {
    assert ItemsOf([n]) == [Item(n.id, RowOf(n))];
  }

  /** A whole CreateBatch whose insert is accepted, run alone. */
  lemma CreateAlone(s: State, c: nat, news: seq<New>)
    requires InsertEnabled(s, c, news)
    ensures var s' := RunClient(InsertStep(s, c, news), c);
            Stores(s'.db, s'.mq) == Enqueued(Stores(AddRows(s.db, news), s.mq), ItemsOf(news))
  {
    BornAllIs(OpenClient(s, c), c, news);
    ClientAlone(InsertStep(s, c, news), c);
  }

  /** The entries that enqueuing items adds to one stream. */
  function EntriesFor(items: seq<Item>, p: Priority): seq<Entry> {
    if items == [] then []
    else (if items[0].row.status == Pending && items[0].row.priority == p then [EntryFor(items[0])] else [])
         + EntriesFor(items[1..], p)
  }

  /** Each stream gains exactly the unscheduled items of its priority, once each and in request order. */
  lemma {:induction false} StreamsGain(st: Stores, items: seq<Item>, p: Priority)
    ensures var st' := Enqueued(st, items);
            && Log(st'.mq, p) == Log(st.mq, p) + EntriesFor(items, p)
            && st'.mq == st.mq.(logs := st'.mq.logs)
    decreases |items|
  {
    hide WriteStatus;
    if items != [] {
      if items[0].row.status != Pending {
        StreamsGain(st, items[1..], p);
      } else {
        StreamsGain(Stores(WriteStatus(st.db, items[0].id, Queued), EnqueueItem(st.mq, items[0])), items[1..], p);
      }
    }
  }

  /** Afterwards exactly the enqueued rows read `queued`; every other row is as it was. */
  lemma {:induction false} EnqueuedRows(st: Stores, items: seq<Item>, id: Uuid)
    requires id in st.db.rows
    ensures var rows := Enqueued(st, items).db.rows;
            && id in rows
            && rows[id] == if exists i :: 0 <= i < |items| && items[i].id == id && items[i].row.status == Pending
                           then st.db.rows[id].(status := Queued) else st.db.rows[id]
    decreases |items|
  {
    if items != [] {
      var st1 := if items[0].row.status != Pending then st
                 else Stores(WriteStatus(st.db, items[0].id, Queued), EnqueueItem(st.mq, items[0]));
      EnqueuedRows(st1, items[1..], id);
      if i :| 0 <= i < |items[1..]| && items[1..][i].id == id && items[1..][i].row.status == Pending {
        assert items[i + 1].id == id && items[i + 1].row.status == Pending;
      }
      if i :| 0 <= i < |items| && items[i].id == id && items[i].row.status == Pending {
        assert i > 0 ==> items[1..][i - 1] == items[i];
      }
    }
  }

  // ---------------------------------------------------------------- Scheduler.poll

  function PromoteAll(db: Db, ids: seq<Uuid>): Db
    decreases |ids|
  {
    if ids == [] then db else PromoteAll(PromoteRow(db, ids[0]), ids[1..])
  }

  function EnqueuedAll(mq: Redis, items: seq<Item>): Redis
    decreases |items|
  {
    if items == [] then mq else EnqueuedAll(EnqueueItem(mq, items[0]), items[1..])
  }

  /** The rows a claim returns: as they are stored, with status `pending`. */
  function ClaimedItems(rows: Rows, ids: seq<Uuid>): (items: seq<Item>)
    requires forall i | 0 <= i < |ids| :: ids[i] in rows
    ensures |items| == |ids|
  {
    seq(|ids|, i requires 0 <= i < |ids| => Item(ids[i], rows[ids[i]].(status := Pending)))
  }

  predicate Claimable(rows: Rows, now: int, ids: seq<Uuid>) {
    && (forall i | 0 <= i < |ids| :: ids[i] in rows && Due(rows[ids[i]], now))
    && (forall i, j | 0 <= i < j < |ids| :: ids[i] != ids[j])
  }

  lemma ClaimOneIs(s: State, k: nat, id: Uuid)
    requires ClaimOneEnabled(s, k, id)
    ensures var s' := ClaimOne(s, k, id);
            && s'.db == PromoteRow(s.db, id) && s'.mq == s.mq && s'.now == s.now && k in s'.schedulers
            && s'.schedulers[k] == s.schedulers[k].(batch := s.schedulers[k].batch + ClaimedItems(s.db.rows, [id]))
            && (forall i | i in s.db.rows && i != id :: i in s'.db.rows && s'.db.rows[i] == s.db.rows[i])
  {
    assert ClaimedItems(s.db.rows, [id]) == [Item(id, s.db.rows[id].(status := Pending))];
  }

  /** Claiming distinct due rows one by one is possible, and is one UPDATE ... RETURNING. */
  lemma {:induction false} ClaimAllIs(s: State, k: nat, ids: seq<Uuid>)
    requires k in s.schedulers && Claimable(s.db.rows, s.now, ids)
    ensures ClaimAllEnabled(s, k, ids)
    ensures var s' := ClaimAll(s, k, ids);
            && s'.db == PromoteAll(s.db, ids) && s'.mq == s.mq && k in s'.schedulers
            && s'.schedulers[k] == s.schedulers[k].(batch := s.schedulers[k].batch + ClaimedItems(s.db.rows, ids))
    decreases |ids|
  {
    if ids == [] {
      assert s.schedulers[k].batch + ClaimedItems(s.db.rows, ids) == s.schedulers[k].batch;
    } else {
      var s1, rest := ClaimOne(s, k, ids[0]), ids[1..];
      ClaimOneIs(s, k, ids[0]);
      hide ClaimOne, PromoteRow, Due;
      assert forall i | 0 <= i < |rest| :: rest[i] == ids[i + 1];
      assert Claimable(s1.db.rows, s1.now, rest);
      assert ClaimedItems(s1.db.rows, rest) == ClaimedItems(s.db.rows, rest);
      hide Claimable;
      ClaimAllIs(s1, k, rest);
      assert s.schedulers[k].batch + ClaimedItems(s.db.rows, ids)
          == s.schedulers[k].batch + ClaimedItems(s.db.rows, [ids[0]]) + ClaimedItems(s.db.rows, rest);
    }
  }

  /** What can be claimed one by one is distinct and due to begin with: a claim leaves its row `pending`. */
  lemma {:induction false} ClaimAllOnlyDue(s: State, k: nat, ids: seq<Uuid>)
    requires ClaimAllEnabled(s, k, ids)
    ensures Claimable(s.db.rows, s.now, ids)
    decreases |ids|
  {
    if ids != [] {
      var s1, rest := ClaimOne(s, k, ids[0]), ids[1..];
      ClaimAllOnlyDue(s1, k, rest);
      assert forall i | 0 < i < |ids| :: ids[i] == rest[i - 1];
      ClaimOneTouches(s, k, ids[0]);
      hide ClaimOne;
      forall i | 0 < i < |ids| ensures ids[i] != ids[0] && ids[i] in s.db.rows && Due(s.db.rows[ids[i]], s.now) {
        assert rest[i - 1] in s1.db.rows && Due(s1.db.rows[rest[i - 1]], s1.now);
      }
    }
  }

  lemma ClaimOneTouches(s: State, k: nat, id: Uuid)
    requires ClaimOneEnabled(s, k, id)
    ensures var s' := ClaimOne(s, k, id);
            && s'.now == s.now && id in s'.db.rows && s'.db.rows[id].status == Pending
            && forall i | i in s'.db.rows && i != id :: i in s.db.rows && s'.db.rows[i] == s.db.rows[i]
  {
  }

  /** A poll may claim exactly distinct rows that read `scheduled`, for now or before; and any such rows. */
  lemma FetchIff(s: State, k: nat, ids: seq<Uuid>)
    ensures FetchEnabled(s, k, ids) <==>
              && SchedulerIdle(s, k)
              && (forall i | 0 <= i < |ids| ::
                    && ids[i] in s.db.rows && s.db.rows[ids[i]].status == Scheduled
                    && s.db.rows[ids[i]].scheduledAt.Some? && s.db.rows[ids[i]].scheduledAt.value <= s.now)
              && (forall i, j | 0 <= i < j < |ids| :: ids[i] != ids[j])
  {
    if SchedulerIdle(s, k) {
      var s0 := ResetScheduler(s, k);
      hide ClaimAllEnabled;
      if Claimable(s.db.rows, s.now, ids) {
        ClaimAllIs(s0, k, ids);
      }
      if ClaimAllEnabled(s0, k, ids) {
        ClaimAllOnlyDue(s0, k, ids);
      }
    }
  }

  function RunScheduler(s: State, k: nat): State
    decreases if SchedulerEnabled(s, k) then |s.schedulers[k].batch| - s.schedulers[k].next else 0
  {
    if SchedulerEnabled(s, k) then RunScheduler(SchedulerStep(s, k), k) else s
  }

  lemma {:induction false} SchedulerAlone(s: State, k: nat)
    requires k in s.schedulers && s.schedulers[k].next <= |s.schedulers[k].batch|
    ensures var s', sched := RunScheduler(s, k), s.schedulers[k];
            s'.db == s.db && s'.mq == EnqueuedAll(s.mq, sched.batch[sched.next..])
    decreases |s.schedulers[k].batch| - s.schedulers[k].next
  {
    hide EnqueueItem;
    if SchedulerEnabled(s, k) {
      SchedulerAlone(SchedulerStep(s, k), k);
    }
  }

  /** A whole poll, run alone: the claimed rows turn `pending` and then each is enqueued. */
  lemma PollAlone(s: State, k: nat, ids: seq<Uuid>)
    requires SchedulerIdle(s, k) && Claimable(s.db.rows, s.now, ids)
    ensures FetchEnabled(s, k, ids)
    ensures var s' := RunScheduler(FetchStep(s, k, ids), k);
            s'.db == PromoteAll(s.db, ids) && s'.mq == EnqueuedAll(s.mq, ClaimedItems(s.db.rows, ids))
  {
    var s1 := ResetScheduler(s, k);
    ClaimAllIs(s1, k, ids);
    var s2 := FetchStep(s, k, ids);
    assert s2.schedulers[k].batch == ClaimedItems(s.db.rows, ids);
    SchedulerAlone(s2, k);
  }

  /** A poll adds to each stream exactly the claimed items of its priority, in the order they were claimed. */
  lemma {:induction false} PollFills(mq: Redis, items: seq<Item>, p: Priority)
    requires forall i | 0 <= i < |items| :: items[i].row.status == Pending
    ensures var mq' := EnqueuedAll(mq, items);
            Log(mq', p) == Log(mq, p) + EntriesFor(items, p) && mq' == mq.(logs := mq'.logs)
    decreases |items|
  {
    hide EntryFor, EnqueueItem, Log;
    if items == [] {
      assert Log(mq, p) + [] == Log(mq, p);
    } else {
      EnqueueFills(mq, items[0], p);
      var first := if items[0].row.priority == p then [EntryFor(items[0])] else [];
      PollFills(EnqueueItem(mq, items[0]), items[1..], p);
      assert Log(mq, p) + first + EntriesFor(items[1..], p) == Log(mq, p) + (first + EntriesFor(items[1..], p));
    }
  }

  lemma EnqueueFills(mq: Redis, item: Item, p: Priority)
    ensures var mq' := EnqueueItem(mq, item);
            && Log(mq', p) == Log(mq, p) + (if item.row.priority == p then [EntryFor(item)] else [])
            && mq' == mq.(logs := mq'.logs)
  {
  }

  /** Promotion turns exactly the claimed rows `pending`. */
  lemma {:induction false} PromotedRows(db: Db, ids: seq<Uuid>, id: Uuid)
    ensures var rows := PromoteAll(db, ids).rows;
            && (id in rows <==> id in db.rows)
            && (id in rows ==> rows[id] == if id in ids then db.rows[id].(status := Pending) else db.rows[id])
    decreases |ids|
  {
    if ids != [] {
      PromotedRows(PromoteRow(db, ids[0]), ids[1..], id);
    }
  }

  // ---------------------------------------------------------------- processDelayedBatch

  function Redelivered(mq: Redis, members: seq<string>): Redis
    decreases |members|
  {
    if members == [] then mq else Redelivered(Redeliver(mq, members[0]), members[1..])
  }

  function RunProcessor(s: State, p: nat): State
    decreases if ProcessorEnabled(s, p) then |s.processors[p].batch| - s.processors[p].next else 0
  {
    if ProcessorEnabled(s, p) then RunProcessor(ProcessorStep(s, p), p) else s
  }

  lemma {:induction false} ProcessorAlone(s: State, p: nat)
    requires p in s.processors && s.processors[p].next <= s.processors[p].gone == |s.processors[p].batch|
    ensures var s', proc := RunProcessor(s, p), s.processors[p];
            s'.db == s.db && s'.mq == Redelivered(s.mq, proc.batch[proc.next..])
    decreases |s.processors[p].batch| - s.processors[p].next
  {
    hide Redeliver;
    if ProcessorEnabled(s, p) {
      ProcessorAlone(ProcessorStep(s, p), p);
    }
  }

  function MembersOf(items: seq<Item>): (members: seq<string>)
    ensures |members| == |items| && forall i | 0 <= i < |items| :: members[i] == MemberOf(items[i].id, items[i].row)
  {
    seq(|items|, i requires 0 <= i < |items| => MemberOf(items[i].id, items[i].row))
  }

  /** A trip through the delayed set loses nothing: putting its text back is enqueuing the notification itself. */
  lemma {:induction false} RedeliveryIsEnqueue(mq: Redis, items: seq<Item>)
    ensures Redelivered(mq, MembersOf(items)) == EnqueuedAll(mq, items)
    decreases |items|
  {
    if items != [] {
      var item, members := items[0], MembersOf(items);
      assert members[1..] == MembersOf(items[1..]);
      assert Redeliver(mq, members[0]) == EnqueueItem(mq, item) by {
        MC.DecodeInvertsMember(item.id, item.row.channel, item.row.priority);
        PriorityRoundTrip(item.row.priority);
      }
      hide Redeliver, EnqueueItem;
      RedeliveryIsEnqueue(EnqueueItem(mq, item), items[1..]);
    }
  }

  /** A whole processDelayedBatch, run alone: range, remove, and put each member back on its stream. */
  lemma BatchAlone(s: State, p: nat, batch: seq<string>)
    requires ProcessorIdle(s, p) && DueBatch(s.mq.delayed, s.now, POP_LIMIT, batch)
    ensures RangeEnabled(s, p, s.now, batch)
    ensures var s1 := RangeStep(s, p, s.now, batch);
            && (batch != [] ==> RemoveEnabled(s1, p))
            && var s2 := if batch == [] then s1 else RemoveStep(s1, p);
               var s' := RunProcessor(s2, p);
               s'.db == s.db && s'.mq == Redelivered(s.mq.(delayed := s.mq.delayed - Elements(batch)), batch)
  {
    hide DueBatch, Redelivered;
    var s1 := RangeStep(s, p, s.now, batch);
    assert batch[0..] == batch;
    if batch == [] {
      assert s.mq.delayed - Elements(batch) == s.mq.delayed;
      ProcessorAlone(s1, p);
    } else {
      G.RemovesBatch(s1, p);
      hide RemoveStep;
      ProcessorAlone(RemoveStep(s1, p), p);
    }
  }

  // ---------------------------------------------------------------- processMessage

  /** Everything processMessage does to the stores, for the provider's answer ok and a clock that reads now. */
  function Handled(st: Stores, providers: set<Channel>, message: Message, now: int, ok: bool): Stores {
    var id, ref := message.id, message.ref;
    if id !in st.db.rows then
      Stores(st.db, Ack(st.mq, ref))
    else if Terminal(st.db.rows[id].status) then
      Stores(st.db, Ack(Hand(st.mq, ref), ref))
    else
      var n := st.db.rows[id];
      var claimed := WriteStatus(st.db, id, Processing);
      if n.channel !in providers then
        Stores(WriteStatus(claimed, id, Failed), Ack(Hand(st.mq, ref), ref))
      else
        var recorded := SentAndRecorded(claimed, id, n, now, ok);
        if ok then
          Stores(WriteStatus(recorded, id, Delivered), Ack(Hand(st.mq, ref), ref))
        else if Retry.ShouldRetry(n.attemptCount + 1, n.maxRetries) then
          Stores(WriteStatus(RecordHandled(recorded, id, now), id, Queued),
                 Ack(Hand(EnqueueDelayed(st.mq, Item(id, n), Retry.RetryAt(now, n.attemptCount + 1)), ref), ref))
        else
          Stores(WriteStatus(recorded, id, Failed), Ack(Hand(PushDead(st.mq, id), ref), ref))
  }

  /** One send, counted and recorded. */
  function SentAndRecorded(db: Db, id: Uuid, n: Row, now: int, ok: bool): Db {
    InsertAttempt(IncrementAttempt(RecordSend(db, id, now), id), id, Attempt(n.attemptCount + 1, ok))
  }

  /** Commands on notification id leave every other row and its attempts alone. */
  ghost predicate OnlyTouches(db: Db, db': Db, id: Uuid) {
    forall i | i != id ::
      && (i in db.rows <==> i in db'.rows) && (i in db.rows ==> db'.rows[i] == db.rows[i])
      && AttemptsOf(db', i) == AttemptsOf(db, i)
  }

  lemma WriteIs(db: Db, id: Uuid, status: Status)
    ensures var db' := WriteStatus(db, id, status);
            && OnlyTouches(db, db', id) && AttemptsOf(db', id) == AttemptsOf(db, id)
            && (id in db.rows <==> id in db'.rows)
            && (id in db.rows ==> db'.rows[id] == db.rows[id].(status := status))
  {
  }

  lemma SentAndRecordedIs(db: Db, id: Uuid, n: Row, now: int, ok: bool)
    requires id in db.rows
    ensures var db' := SentAndRecorded(db, id, n, now, ok);
            && OnlyTouches(db, db', id) && id in db'.rows
            && db'.rows[id] == db.rows[id].(attemptCount := db.rows[id].attemptCount + 1)
            && AttemptsOf(db', id) == AttemptsOf(db, id) + [Attempt(n.attemptCount + 1, ok)]
  {
  }

  lemma NoteIs(db: Db, id: Uuid, now: int)
    ensures var db' := RecordHandled(db, id, now); db'.rows == db.rows && db'.attempts == db.attempts
  {
  }

  lemma TouchesOn(a: Db, b: Db, c: Db, id: Uuid)
    requires OnlyTouches(a, b, id) && OnlyTouches(b, c, id)
    ensures OnlyTouches(a, c, id)
  {
  }

  /** How the row and its attempts stand after one processMessage of a notification that was still open. */
  predicate RowOutcome(db: Db, db': Db, providers: set<Channel>, id: Uuid, ok: bool)
    requires id in db.rows
  {
    var n := db.rows[id];
    var tries := n.attemptCount + 1;
    var sent := n.channel in providers;
    && id in db'.rows
    && db'.rows[id] == n.(
         status := if sent && ok then Delivered else if sent && tries < n.maxRetries then Queued else Failed,
         attemptCount := if sent then tries else n.attemptCount)
    && AttemptsOf(db', id) == AttemptsOf(db, id) + (if sent then [Attempt(tries, ok)] else [])
  }

  /** Which notification, if any, joined the delayed set or the dead-letter queue. */
  predicate QueueOutcome(mq: Redis, mq': Redis, providers: set<Channel>, id: Uuid, n: Row, now: int, ok: bool) {
    var tries := n.attemptCount + 1;
    var failed := n.channel in providers && !ok;
    && mq'.delayed == (if failed && tries < n.maxRetries
                       then mq.delayed[MemberOf(id, n) := now + Retry.Backoff(tries)] else mq.delayed)
    && mq'.dead == (if failed && tries >= n.maxRetries then mq.dead[id := DeadCount(mq, id) + 1] else mq.dead)
  }

  predicate Open(db: Db, id: Uuid) {
    id in db.rows && !Terminal(db.rows[id].status)
  }

  lemma HandledRow(st: Stores, providers: set<Channel>, message: Message, now: int, ok: bool)
    requires Open(st.db, message.id)
    ensures var st', id := Handled(st, providers, message, now, ok), message.id;
            OnlyTouches(st.db, st'.db, id) && RowOutcome(st.db, st'.db, providers, id, ok)
  {
    hide OnlyTouches, EnqueueDelayed, Hand, PushDead, Ack, MemberOf, Retry.Backoff, WriteStatus, SentAndRecorded,
      RecordHandled, AttemptsOf;
    var id := message.id;
    var n := st.db.rows[id];
    var claimed := WriteStatus(st.db, id, Processing);
    WriteIs(st.db, id, Processing);
    if n.channel !in providers {
      WriteIs(claimed, id, Failed);
      TouchesOn(st.db, claimed, WriteStatus(claimed, id, Failed), id);
    } else {
      var recorded := SentAndRecorded(claimed, id, n, now, ok);
      SentAndRecordedIs(claimed, id, n, now, ok);
      TouchesOn(st.db, claimed, recorded, id);
      var retried := Retry.ShouldRetry(n.attemptCount + 1, n.maxRetries);
      var status := if ok then Delivered else if retried then Queued else Failed;
      var noted := if status == Queued then RecordHandled(recorded, id, now) else recorded;
      NoteIs(recorded, id, now);
      AttemptsFollow(recorded, noted);
      OnlyNotes(recorded, noted, id);
      WriteIs(noted, id, status);
      TouchesOn(st.db, recorded, noted, id);
      TouchesOn(st.db, noted, WriteStatus(noted, id, status), id);
      assert Handled(st, providers, message, now, ok).db == WriteStatus(noted, id, status);
    }
  }

  lemma OnlyNotes(db: Db, db': Db, id: Uuid)
    requires db'.rows == db.rows && db'.attempts == db.attempts
    ensures OnlyTouches(db, db', id)
  {
  }

  lemma HandledQueues(st: Stores, providers: set<Channel>, message: Message, now: int, ok: bool)
    ensures var mq', id := Handled(st, providers, message, now, ok).mq, message.id;
            if Open(st.db, id) then QueueOutcome(st.mq, mq', providers, id, st.db.rows[id], now, ok)
            else mq'.delayed == st.mq.delayed && mq'.dead == st.mq.dead
  {
    hide MemberOf, Retry.Backoff, WriteStatus, SentAndRecorded, RecordHandled, DeadCount;
  }

  lemma HandledAcks(st: Stores, providers: set<Channel>, message: Message, now: int, ok: bool)
    ensures var mq' := Handled(st, providers, message, now, ok).mq;
            message.ref !in mq'.pel && mq'.logs == st.mq.logs
  {
    hide MemberOf, Retry.Backoff, Retry.ShouldRetry, WriteStatus, SentAndRecorded, RecordHandled, DeadCount;
  }

  /** What handling one message leaves behind, case by case; no other notification is touched. */
  lemma HandledOutcome(st: Stores, providers: set<Channel>, message: Message, now: int, ok: bool)
    ensures var st' := Handled(st, providers, message, now, ok);
            var id := message.id;
            && message.ref !in st'.mq.pel && st'.mq.logs == st.mq.logs && OnlyTouches(st.db, st'.db, id)
            && (if Open(st.db, id) then
                  && RowOutcome(st.db, st'.db, providers, id, ok)
                  && QueueOutcome(st.mq, st'.mq, providers, id, st.db.rows[id], now, ok)
                else st'.db == st.db && st'.mq.delayed == st.mq.delayed && st'.mq.dead == st.mq.dead)
  {
    HandledAcks(st, providers, message, now, ok);
    HandledQueues(st, providers, message, now, ok);
    if Open(st.db, message.id) {
      HandledRow(st, providers, message, now, ok);
    } else {
      OnlyNotes(st.db, st.db, message.id);
    }
    hide EnqueueDelayed, PushDead, MemberOf, WriteStatus, SentAndRecorded, RecordHandled, OnlyTouches, RowOutcome,
      QueueOutcome;
  }

  lemma AttemptsFollow(db: Db, db': Db)
    requires db'.attempts == db.attempts
    ensures forall i :: AttemptsOf(db', i) == AttemptsOf(db, i)
  {
  }

  // n times the same step
  ghost predicate RunsTo(a: State, step: Step, n: nat, b: State)
    decreases n
  {
    if n == 0 then a == b else Enabled(a, step) && RunsTo(Apply(a, step), step, n - 1, b)
  }

  lemma {:induction false} RunsOn(a: State, step: Step, m: nat, b: State, n: nat, c: State)
    requires RunsTo(a, step, m, b) && RunsTo(b, step, n, c)
    ensures RunsTo(a, step, m + n, c)
    decreases m
  {
    hide Apply, Enabled;
    if m > 0 {
      RunsOn(Apply(a, step), step, m - 1, b, n, c);
    }
  }

  function Again(step: Step, n: nat): seq<Step> {
    seq(n, _ => step)
  }

  lemma {:induction false} RunsToIsRun(a: State, step: Step, n: nat, b: State)
    requires RunsTo(a, step, n, b)
    ensures ValidRun(a, Again(step, n)) && After(a, Again(step, n)) == b
    decreases n
  {
    hide Apply, Enabled;
    if n > 0 {
      RunsToIsRun(Apply(a, step), step, n - 1, b);
      assert Again(step, n)[1..] == Again(step, n - 1);
    }
  }

  /** State s with worker w at pc and the given stores. */
  function Put(s: State, w: nat, pc: Pc, db: Db, mq: Redis): State
    requires w in s.workers
  {
    s.(db := db, mq := mq, workers := s.workers[w := s.workers[w].(pc := pc)])
  }

  lemma PutAgain(s: State, w: nat, pc: Pc, db: Db, mq: Redis, pc': Pc, db': Db, mq': Redis)
    requires w in s.workers
    ensures Put(Put(s, w, pc, db, mq), w, pc', db', mq') == Put(s, w, pc', db', mq')
  {
    var t := Put(s, w, pc, db, mq);
    assert t.workers[w := t.workers[w].(pc := pc')] == s.workers[w := s.workers[w].(pc := pc')];
  }

  /** One command of processMessage, from one program counter to the next. */
  lemma BusyTo(s: State, w: nat, ok: bool, item: Item, stage: Stage, db: Db, mq: Redis, pc': Pc, db': Db, mq': Redis)
    requires WorkerEnabled(s, w)
    requires var a := Put(s, w, Busy(item, stage), db, mq); BusyStep(a, w, ok) == Put(a, w, pc', db', mq')
    ensures RunsTo(Put(s, w, Busy(item, stage), db, mq), WorkerNext(w, ok), 1, Put(s, w, pc', db', mq'))
  {
    hide BusyStep;
    var a, b := Put(s, w, Busy(item, stage), db, mq), Put(s, w, pc', db', mq');
    PutAgain(s, w, Busy(item, stage), db, mq, pc', db', mq');
    assert RunsTo(b, WorkerNext(w, ok), 0, b);
    assert Apply(a, WorkerNext(w, ok)) == b;
  }

  /** From claiming the row to the provider's answer. */
  lemma SendAlone(s: State, w: nat, item: Item, db: Db, mq: Redis, ok: bool)
    requires WorkerEnabled(s, w) && item.row.channel in s.providers
    ensures RunsTo(Put(s, w, Busy(item, Stage.Claimed), db, mq), WorkerNext(w, ok), 3,
                   Put(s, w, Busy(item, Sent(ok)),
                       RecordSend(WriteStatus(db, item.id, Processing), item.id, s.now), mq))
  {
    hide WriteStatus, RecordSend, RunsTo;
    var claimed := WriteStatus(db, item.id, Processing);
    var sent := RecordSend(claimed, item.id, s.now);
    var step := WorkerNext(w, ok);
    BusyTo(s, w, ok, item, Stage.Claimed, db, mq, Busy(item, Routed), claimed, mq);
    BusyTo(s, w, ok, item, Routed, claimed, mq, Busy(item, Sending), sent, mq);
    BusyTo(s, w, ok, item, Sending, sent, mq, Busy(item, Sent(ok)), sent, mq);
    hide Put, BusyStep;
    RunsOn(Put(s, w, Busy(item, Stage.Claimed), db, mq), step, 1, Put(s, w, Busy(item, Routed), claimed, mq), 1,
        Put(s, w, Busy(item, Sending), sent, mq));
    RunsOn(Put(s, w, Busy(item, Stage.Claimed), db, mq), step, 2, Put(s, w, Busy(item, Sending), sent, mq), 1,
        Put(s, w, Busy(item, Sent(ok)), sent, mq));
  }

  lemma RecordAlone(s: State, w: nat, item: Item, db: Db, mq: Redis, ok: bool)
    requires WorkerEnabled(s, w)
    ensures RunsTo(Put(s, w, Busy(item, Sent(ok)), db, mq), WorkerNext(w, ok), 2,
                   Put(s, w, Busy(item, Stage.Recorded(ok)),
                       InsertAttempt(IncrementAttempt(db, item.id), item.id, Attempt(item.row.attemptCount + 1, ok)),
                       mq))
  {
    hide IncrementAttempt, InsertAttempt, RunsTo;
    var counted := IncrementAttempt(db, item.id);
    var recorded := InsertAttempt(counted, item.id, Attempt(item.row.attemptCount + 1, ok));
    BusyTo(s, w, ok, item, Sent(ok), db, mq, Busy(item, Counted(ok)), counted, mq);
    BusyTo(s, w, ok, item, Counted(ok), counted, mq, Busy(item, Stage.Recorded(ok)), recorded, mq);
    hide Put, BusyStep;
    RunsOn(Put(s, w, Busy(item, Sent(ok)), db, mq), WorkerNext(w, ok), 1,
        Put(s, w, Busy(item, Counted(ok)), counted, mq), 1, Put(s, w, Busy(item, Stage.Recorded(ok)), recorded, mq));
  }

  lemma RetryAlone(s: State, w: nat, item: Item, db: Db, mq: Redis, ref: Ref)
    requires WorkerEnabled(s, w) && s.workers[w].inbox[s.workers[w].next].ref == ref
    requires Retry.ShouldRetry(item.row.attemptCount + 1, item.row.maxRetries)
    ensures var at := Retry.RetryAt(s.now, item.row.attemptCount + 1);
            RunsTo(Put(s, w, Busy(item, Stage.Recorded(false)), db, mq), WorkerNext(w, false), 3,
                   Put(s, w, Acking, WriteStatus(RecordHandled(db, item.id, s.now), item.id, Queued),
                       Hand(EnqueueDelayed(mq, item, at), ref)))
  {
    hide WriteStatus, RecordHandled, EnqueueDelayed, Hand, Retry.Backoff, RunsTo;
    var at := Retry.RetryAt(s.now, item.row.attemptCount + 1);
    var noted := RecordHandled(db, item.id, s.now);
    var queued := WriteStatus(noted, item.id, Queued);
    var step := WorkerNext(w, false);
    BusyTo(s, w, false, item, Stage.Recorded(false), db, mq, Busy(item, Requeue(at)), noted, mq);
    BusyTo(s, w, false, item, Requeue(at), noted, mq, Busy(item, Delaying(at)), queued, mq);
    BusyTo(s, w, false, item, Delaying(at), queued, mq, Acking, queued, Hand(EnqueueDelayed(mq, item, at), ref));
    hide Put, BusyStep;
    RunsOn(Put(s, w, Busy(item, Stage.Recorded(false)), db, mq), step, 1, Put(s, w, Busy(item, Requeue(at)), noted, mq),
        1, Put(s, w, Busy(item, Delaying(at)), queued, mq));
    RunsOn(Put(s, w, Busy(item, Stage.Recorded(false)), db, mq), step, 2,
        Put(s, w, Busy(item, Delaying(at)), queued, mq), 1,
           Put(s, w, Acking, queued, Hand(EnqueueDelayed(mq, item, at), ref)));
  }

  lemma BuryAlone(s: State, w: nat, item: Item, db: Db, mq: Redis, ref: Ref)
    requires WorkerEnabled(s, w) && s.workers[w].inbox[s.workers[w].next].ref == ref
    requires !Retry.ShouldRetry(item.row.attemptCount + 1, item.row.maxRetries)
    ensures RunsTo(Put(s, w, Busy(item, Stage.Recorded(false)), db, mq), WorkerNext(w, false), 2,
                   Put(s, w, Acking, WriteStatus(db, item.id, Failed), Hand(PushDead(mq, item.id), ref)))
  {
    hide WriteStatus, PushDead, Hand, RunsTo;
    var failed := WriteStatus(db, item.id, Failed);
    var buried := Hand(PushDead(mq, item.id), ref);
    BusyTo(s, w, false, item, Stage.Recorded(false), db, mq, Busy(item, Burying), failed, mq);
    BusyTo(s, w, false, item, Burying, failed, mq, Acking, failed, buried);
    hide Put, BusyStep;
    RunsOn(Put(s, w, Busy(item, Stage.Recorded(false)), db, mq), WorkerNext(w, false), 1,
        Put(s, w, Busy(item, Burying), failed, mq), 1, Put(s, w, Acking, failed, buried));
  }

  /** Worker w past its current message, with the given stores. */
  function Past(s: State, w: nat, st: Stores): State
    requires w in s.workers
  {
    s.(db := st.db, mq := st.mq, workers := s.workers[w := s.workers[w].(pc := Start, next := s.workers[w].next + 1)])
  }

  lemma AckAlone(s: State, w: nat, ok: bool, db: Db, mq: Redis, ref: Ref)
    requires WorkerEnabled(s, w) && s.workers[w].inbox[s.workers[w].next].ref == ref
    ensures RunsTo(Put(s, w, Acking, db, mq), WorkerNext(w, ok), 1, Past(s, w, Stores(db, Ack(mq, ref))))
  {
    var a, b := Put(s, w, Acking, db, mq), Past(s, w, Stores(db, Ack(mq, ref)));
    assert Apply(a, WorkerNext(w, ok)).workers == b.workers;
    assert RunsTo(b, WorkerNext(w, ok), 0, b);
  }

  /** Looking the row up, alone: straight to the ack, or on to claiming it. */
  lemma LookUpAlone(s: State, w: nat, ok: bool)
    requires WorkerEnabled(s, w) && s.workers[w].pc == Start
    ensures var message := s.workers[w].inbox[s.workers[w].next];
            var rows := s.db.rows;
            var to := if message.id !in rows then Put(s, w, Acking, s.db, s.mq)
                      else if Terminal(rows[message.id].status) then Put(s, w, Acking, s.db, Hand(s.mq, message.ref))
                      else Put(s, w, Busy(Item(message.id, rows[message.id]), Stage.Claimed), s.db, s.mq);
            RunsTo(s, WorkerNext(w, ok), 1, to)
  {
    var s1 := LookUp(s, w);
    assert RunsTo(s1, WorkerNext(w, ok), 0, s1);
    assert Apply(s, WorkerNext(w, ok)) == s1;
  }

  lemma UnroutableAlone(s: State, w: nat, item: Item, db: Db, mq: Redis, ref: Ref, ok: bool)
    requires WorkerEnabled(s, w) && s.workers[w].inbox[s.workers[w].next].ref == ref && item.row.channel !in s.providers
    ensures RunsTo(Put(s, w, Busy(item, Stage.Claimed), db, mq), WorkerNext(w, ok), 2,
                   Put(s, w, Acking, WriteStatus(WriteStatus(db, item.id, Processing), item.id, Failed), Hand(mq, ref)))
  {
    hide WriteStatus, Hand, RunsTo;
    var claimed := WriteStatus(db, item.id, Processing);
    var failed := WriteStatus(claimed, item.id, Failed);
    BusyTo(s, w, ok, item, Stage.Claimed, db, mq, Busy(item, Routed), claimed, mq);
    BusyTo(s, w, ok, item, Routed, claimed, mq, Acking, failed, Hand(mq, ref));
    hide Put, BusyStep;
    RunsOn(Put(s, w, Busy(item, Stage.Claimed), db, mq), WorkerNext(w, ok), 1,
        Put(s, w, Busy(item, Routed), claimed, mq), 1, Put(s, w, Acking, failed, Hand(mq, ref)));
  }

  /** From a recorded answer to the ack still to come. */
  lemma ActAlone(s: State, w: nat, item: Item, db: Db, mq: Redis, ref: Ref, ok: bool) returns (n: nat, st: Stores)
    requires WorkerEnabled(s, w) && s.workers[w].inbox[s.workers[w].next].ref == ref
    ensures st ==
      if ok then Stores(WriteStatus(db, item.id, Delivered), Hand(mq, ref))
      else if Retry.ShouldRetry(item.row.attemptCount + 1, item.row.maxRetries) then
        Stores(WriteStatus(RecordHandled(db, item.id, s.now), item.id, Queued),
               Hand(EnqueueDelayed(mq, item, Retry.RetryAt(s.now, item.row.attemptCount + 1)), ref))
      else Stores(WriteStatus(db, item.id, Failed), Hand(PushDead(mq, item.id), ref))
    ensures RunsTo(Put(s, w, Busy(item, Stage.Recorded(ok)), db, mq), WorkerNext(w, ok), n,
        Put(s, w, Acking, st.db, st.mq))
  {
    hide WriteStatus, RecordHandled, EnqueueDelayed, Hand, PushDead, Retry.Backoff, RunsTo;
    if ok {
      n, st := 1, Stores(WriteStatus(db, item.id, Delivered), Hand(mq, ref));
      BusyTo(s, w, ok, item, Stage.Recorded(ok), db, mq, Acking, st.db, st.mq);
    } else if Retry.ShouldRetry(item.row.attemptCount + 1, item.row.maxRetries) {
      hide BusyStep, Put;
      RetryAlone(s, w, item, db, mq, ref);
      n, st := 3, Stores(WriteStatus(RecordHandled(db, item.id, s.now), item.id, Queued),
                         Hand(EnqueueDelayed(mq, item, Retry.RetryAt(s.now, item.row.attemptCount + 1)), ref));
    } else {
      hide BusyStep, Put;
      BuryAlone(s, w, item, db, mq, ref);
      n, st := 2, Stores(WriteStatus(db, item.id, Failed), Hand(PushDead(mq, item.id), ref));
    }
  }

  /** From claiming the row to the ack still to come. */
  lemma DeliverAlone(s: State, w: nat, item: Item, db: Db, mq: Redis, ref: Ref, ok: bool) returns (n: nat, st: Stores)
    requires WorkerEnabled(s, w) && s.workers[w].inbox[s.workers[w].next].ref == ref && item.row.channel in s.providers
    ensures var recorded := SentAndRecorded(WriteStatus(db, item.id, Processing), item.id, item.row, s.now, ok);
      st ==
      if ok then Stores(WriteStatus(recorded, item.id, Delivered), Hand(mq, ref))
      else if Retry.ShouldRetry(item.row.attemptCount + 1, item.row.maxRetries) then
        Stores(WriteStatus(RecordHandled(recorded, item.id, s.now), item.id, Queued),
               Hand(EnqueueDelayed(mq, item, Retry.RetryAt(s.now, item.row.attemptCount + 1)), ref))
      else Stores(WriteStatus(recorded, item.id, Failed), Hand(PushDead(mq, item.id), ref))
    ensures RunsTo(Put(s, w, Busy(item, Stage.Claimed), db, mq), WorkerNext(w, ok), n, Put(s, w, Acking, st.db, st.mq))
  {
    hide WriteStatus, RecordHandled, EnqueueDelayed, Hand, PushDead, Retry.Backoff, RunsTo, Put, IncrementAttempt,
      InsertAttempt, RecordSend;
    var step := WorkerNext(w, ok);
    var sent := RecordSend(WriteStatus(db, item.id, Processing), item.id, s.now);
    var recorded := SentAndRecorded(WriteStatus(db, item.id, Processing), item.id, item.row, s.now, ok);
    SendAlone(s, w, item, db, mq, ok);
    RecordAlone(s, w, item, sent, mq, ok);
    RunsOn(Put(s, w, Busy(item, Stage.Claimed), db, mq), step, 3, Put(s, w, Busy(item, Sent(ok)), sent, mq), 2,
           Put(s, w, Busy(item, Stage.Recorded(ok)), recorded, mq));
    n, st := ActAlone(s, w, item, recorded, mq, ref, ok);
    RunsOn(Put(s, w, Busy(item, Stage.Claimed), db, mq), step, 5,
        Put(s, w, Busy(item, Stage.Recorded(ok)), recorded, mq), n, Put(s, w, Acking, st.db, st.mq));
    n := 5 + n;
  }

  lemma OpenUpToAck(s: State, w: nat, item: Item, ok: bool) returns (n: nat, st: Stores)
    requires WorkerEnabled(s, w) && item.id in s.db.rows && !Terminal(item.row.status) && s.db.rows[item.id] == item.row
    requires s.workers[w].inbox[s.workers[w].next].id == item.id
    ensures var message := s.workers[w].inbox[s.workers[w].next];
            Handled(Stores(s.db, s.mq), s.providers, message, s.now, ok) == Stores(st.db, Ack(st.mq, message.ref))
    ensures RunsTo(Put(s, w, Busy(item, Stage.Claimed), s.db, s.mq), WorkerNext(w, ok), n,
        Put(s, w, Acking, st.db, st.mq))
  {
    var ref := s.workers[w].inbox[s.workers[w].next].ref;
    hide WriteStatus, SentAndRecorded, RecordHandled, EnqueueDelayed, Hand, PushDead, Ack, Retry.Backoff,
      Retry.ShouldRetry, RunsTo, Put;
    if item.row.channel in s.providers {
      n, st := DeliverAlone(s, w, item, s.db, s.mq, ref, ok);
    } else {
      UnroutableAlone(s, w, item, s.db, s.mq, ref, ok);
      n, st := 2, Stores(WriteStatus(WriteStatus(s.db, item.id, Processing), item.id, Failed), Hand(s.mq, ref));
    }
  }

  /** From the look-up to the ack still to come. */
  lemma UpToAck(s: State, w: nat, ok: bool) returns (n: nat, st: Stores)
    requires WorkerEnabled(s, w) && s.workers[w].pc == Start
    ensures var message := s.workers[w].inbox[s.workers[w].next];
            Handled(Stores(s.db, s.mq), s.providers, message, s.now, ok) == Stores(st.db, Ack(st.mq, message.ref))
    ensures RunsTo(s, WorkerNext(w, ok), n, Put(s, w, Acking, st.db, st.mq))
  {
    var message := s.workers[w].inbox[s.workers[w].next];
    hide RunsTo, Put, Hand, Ack, SentAndRecorded, WriteStatus;
    LookUpAlone(s, w, ok);
    if message.id !in s.db.rows {
      n, st := 1, Stores(s.db, s.mq);
    } else if Terminal(s.db.rows[message.id].status) {
      n, st := 1, Stores(s.db, Hand(s.mq, message.ref));
    } else {
      hide Handled;
      var item := Item(message.id, s.db.rows[message.id]);
      n, st := OpenUpToAck(s, w, item, ok);
      RunsOn(s, WorkerNext(w, ok), 1, Put(s, w, Busy(item, Stage.Claimed), s.db, s.mq), n,
          Put(s, w, Acking, st.db, st.mq));
      n := 1 + n;
    }
  }

  lemma MessageRuns(s: State, w: nat, ok: bool) returns (n: nat)
    requires WorkerEnabled(s, w) && s.workers[w].pc == Start
    ensures var message := s.workers[w].inbox[s.workers[w].next];
            RunsTo(s, WorkerNext(w, ok), n, Past(s, w, Handled(Stores(s.db, s.mq), s.providers, message, s.now, ok)))
  {
    hide RunsTo, Put, Past, Handled;
    var step, ref := WorkerNext(w, ok), s.workers[w].inbox[s.workers[w].next].ref;
    var st;
    n, st := UpToAck(s, w, ok);
    AckAlone(s, w, ok, st.db, st.mq, ref);
    var done := Stores(st.db, Ack(st.mq, ref));
    RunsOn(s, step, n, Put(s, w, Acking, st.db, st.mq), 1, Past(s, w, done));
    n := n + 1;
  }

  /** A whole processMessage, alone: some number of its steps in the pipeline comes to Handled. */
  lemma MessageAlone(s: State, w: nat, ok: bool) returns (n: nat)
    requires WorkerEnabled(s, w) && s.workers[w].pc == Start
    ensures var message := s.workers[w].inbox[s.workers[w].next];
            && ValidRun(s, Again(WorkerNext(w, ok), n))
            && After(s, Again(WorkerNext(w, ok), n))
                 == Past(s, w, Handled(Stores(s.db, s.mq), s.providers, message, s.now, ok))
  {
    hide RunsTo, Past, ValidRun, After, Again, Handled;
    n := MessageRuns(s, w, ok);
    var message := s.workers[w].inbox[s.workers[w].next];
    RunsToIsRun(s, WorkerNext(w, ok), n, Past(s, w, Handled(Stores(s.db, s.mq), s.providers, message, s.now, ok)));
  }
}
