/**
 Nothing is lost when workers may stop anywhere, ClaimStale may hand pending entries out again, and any
 number of delayed processors run: work can be duplicated, but every accepted notification has been
 decided or still has work that somebody will pick up.
 */
module NoLoss {
  import opened Domain
  import opened Table
  import opened Pipeline
  import opened Agreement
  import opened Carriers
  import MC = MemberCodec
  import G = Guarantees
  import Retry

  // ---------------------------------------------------------------- the invariant

  /**
   Work that does not depend on any worker surviving: as At, except that an entry counts for as long as it is
   undelivered or pending in the consumer group, and nobody has finished it or passed it on.
   */
  predicate Recoverable(s: State, id: Uuid, x: Carrier) {
    match x
    case Streamed(ref) =>
      && ref.index < |Log(s.mq, ref.stream)| && Log(s.mq, ref.stream)[ref.index].id == id
      && (Cursor(s.mq, ref.stream) <= ref.index || ref in s.mq.pel) && ref !in s.mq.handed
    case Inboxed(_, _) => false
    case Working(_) => false
    case _ => At(s, id, x)
  }

  /** Some time in the run the notification was marked delivered, failed or cancelled. */
  predicate Decided(db: Db, id: Uuid) {
    var marked := HistoryOf(db, id).marked;
    Delivered in marked || Failed in marked || Cancelled in marked
  }

  ghost predicate Safe(s: State, id: Uuid) {
    Decided(s.db, id) || exists x :: Recoverable(s, id, x)
  }

  ghost predicate NoneLost(s: State) {
    forall id | id in s.db.rows :: Safe(s, id)
  }

  /** A worker acks only what has been handed off, and buries only what it has marked failed. */
  predicate AckOk(s: State, worker: Worker) {
    && (worker.pc == Acking ==> worker.next < |worker.inbox| && worker.inbox[worker.next].ref in s.mq.handed)
    && (worker.pc.Busy? && worker.pc.stage == Burying ==> Failed in HistoryOf(s.db, worker.pc.item.id).marked)
  }

  predicate ProcessorBounds(proc: Processor) {
    proc.next <= proc.gone <= |proc.batch|
  }

  ghost predicate ActorsOk(s: State) {
    && (forall w | w in s.workers :: AckOk(s, s.workers[w]))
    && (forall c | c in s.clients :: ClientOk(s.clients[c]))
    && (forall p | p in s.processors :: ProcessorBounds(s.processors[p]))
  }

  ghost predicate Inv(s: State) {
    Agree(s) && NoneLost(s) && ActorsOk(s)
  }

  // ---------------------------------------------------------------- what a step may take away

  ghost predicate MarksKept(db: Db, db': Db) {
    forall id | id in db.rows :: id in db'.rows && HistoryOf(db, id).marked <= HistoryOf(db', id).marked
  }

  /** Every piece of recoverable work but (id, x) is still there. */
  ghost predicate Spares(s: State, s': State, id: Uuid, x: Carrier) {
    forall i, y :: Recoverable(s, i, y) && !(i == id && y == x) ==> Recoverable(s', i, y)
  }

  lemma StepLosesNone(s: State, s': State, id: Uuid, x: Carrier)
    requires NoneLost(s) && MarksKept(s.db, s'.db) && Spares(s, s', id, x)
    requires x != Gone && id in s.db.rows && Recoverable(s, id, x) ==> Safe(s', id)
    requires forall i | i in s'.db.rows && i !in s.db.rows :: Safe(s', i)
    ensures NoneLost(s')
  {
    hide Recoverable, HistoryOf;
    forall i | i in s'.db.rows && i in s.db.rows ensures Safe(s', i) {
      if !Decided(s.db, i) {
        var y :| Recoverable(s, i, y);
        GoneIsNothing(s, i, y);
        assert !(i == id && y == x) ==> Recoverable(s', i, y);
      }
    }
  }

  lemma MarkKeeps(db: Db, id: Uuid, status: Status)
    ensures MarksKept(db, WriteStatus(db, id, status))
    ensures status in HistoryOf(WriteStatus(db, id, status), id).marked
  {
  }

  /** Row writes that neither enter nor leave `scheduled` take no work away. */
  lemma RowsSpare(s: State, db': Db)
    requires forall i | i in s.db.rows ::
               && i in db'.rows && SameColumns(s.db.rows[i], db'.rows[i])
               && (s.db.rows[i].status == Scheduled ==> db'.rows[i].status == Scheduled)
    ensures Spares(s, s.(db := db'), NIL, Gone)
  {
    hide MemberOf, Names;
    forall i, y | Recoverable(s, i, y) ensures Recoverable(s.(db := db'), i, y) {
      if i in s.db.rows {
        MemberKept(i, s.db.rows[i], db'.rows[i]);
      }
    }
  }

  lemma WriteStatusLosesNone(s: State, id: Uuid, status: Status)
    requires Inv(s) && status != Scheduled && (id in s.db.rows ==> s.db.rows[id].status != Scheduled)
    ensures Inv(s.(db := WriteStatus(s.db, id, status)))
  {
    hide Agree, Recoverable;
    var db' := WriteStatus(s.db, id, status);
    WriteStatusAgrees(s, id, status);
    RowsSpare(s, db');
    MarkKeeps(s.db, id, status);
    StepLosesNone(s, s.(db := db'), NIL, Gone);
    forall w | w in s.workers ensures AckOk(s.(db := db'), s.workers[w]) {
      assert AckOk(s, s.workers[w]);
    }
  }

  /** An appended entry takes nothing away and can be picked up. */
  lemma AppendSpares(s: State, p: Priority, e: Entry)
    requires RefsOk(s.mq)
    ensures Spares(s, s.(mq := Append(s.mq, p, e)), NIL, Gone)
    ensures Recoverable(s.(mq := Append(s.mq, p, e)), e.id, Streamed(NextRef(s.mq, p)))
  {
    hide MemberOf, Names, Append;
    AppendFrame(s.mq, p, e);
    AppendKeepsRest(s.mq, p, e);
    CursorWithin(s.mq, p);
    assert NextRef(s.mq, p) !in s.mq.handed;
  }

  // ---------------------------------------------------------------- clients, schedulers, processors

  lemma TickLosesNone(s: State, ms: nat)
    requires Inv(s)
    ensures Inv(s.(now := s.now + ms))
  {
    hide Agree, MemberOf, Names;
    TickAgrees(s, ms);
    var s' := s.(now := s.now + ms);
    assert Spares(s, s', NIL, Gone);
    StepLosesNone(s, s', NIL, Gone);
    forall w | w in s.workers ensures AckOk(s', s.workers[w]) {
      assert AckOk(s, s.workers[w]);
    }
  }

  lemma BornLosesNone(s: State, c: nat, n: New)
    requires Inv(s) && c in s.clients && Table.Insert(s.db.rows, n).Stored?
    requires s.clients[c].next == 0 && !s.clients[c].enqueued
    ensures Inv(Born(s, c, n))
  {
    hide Agree, MemberOf, Names;
    var s' := Born(s, c, n);
    BornAgrees(s, c, n);
    BornSpares(s, c, n);
    hide Recoverable;
    assert MarksKept(s.db, s'.db);
    StepLosesNone(s, s', NIL, Gone);
    forall w | w in s.workers ensures AckOk(s', s.workers[w]) {
      BornKeepsWorker(s, c, n, w);
    }
  }

  lemma BornSpares(s: State, c: nat, n: New)
    requires c in s.clients && n.id !in s.db.rows && s.clients[c].next == 0 && !s.clients[c].enqueued
    ensures Spares(s, Born(s, c, n), NIL, Gone)
    ensures Safe(Born(s, c, n), n.id)
  {
    hide MemberOf, Names;
    var s' := Born(s, c, n);
    var to := if n.scheduledAt.Some? then Waiting else WithClient(c, |s.clients[c].batch|);
    assert Recoverable(s', n.id, to);
  }

  lemma BornKeepsWorker(s: State, c: nat, n: New, w: nat)
    requires Inv(s) && c in s.clients && n.id !in s.db.rows && w in s.workers
    ensures AckOk(Born(s, c, n), s.workers[w])
  {
    assert AckOk(s, s.workers[w]);
    assert WorkerOk(s.db.rows, s.mq, s.workers[w]);
  }

  lemma {:induction false} BornAllLosesNone(s: State, c: nat, news: seq<New>)
    requires Inv(s) && c in s.clients && InsertAll(s.db.rows, news).Stored?
    requires s.clients[c].next == 0 && !s.clients[c].enqueued
    ensures Inv(BornAll(s, c, news))
    decreases |news|
  {
    hide Inv;
    if news != [] {
      BornLosesNone(s, c, news[0]);
      BornAllLosesNone(Born(s, c, news[0]), c, news[1..]);
    }
  }

  lemma OpenClientLosesNone(s: State, c: nat)
    requires Inv(s) && c !in s.clients
    ensures Inv(OpenClient(s, c))
  {
    hide Agree, MemberOf, Names;
    OpenClientAgrees(s, c);
    assert Spares(s, OpenClient(s, c), NIL, Gone);
    StepLosesNone(s, OpenClient(s, c), NIL, Gone);
    WorkersKeepActing(s, OpenClient(s, c));
  }

  lemma WorkersKeepActing(s: State, s': State)
    requires ActorsOk(s) && s'.workers == s.workers && s'.db.hist == s.db.hist && s.mq.handed <= s'.mq.handed
    ensures forall w | w in s'.workers :: AckOk(s', s'.workers[w])
  {
    forall w | w in s'.workers ensures AckOk(s', s'.workers[w]) {
      assert AckOk(s, s.workers[w]);
    }
  }

  lemma SkipLosesNone(s: State, c: nat)
    requires Inv(s) && ClientEnabled(s, c) && s.clients[c].batch[s.clients[c].next].row.status != Pending
    ensures Inv(ClientStep(s, c))
  {
    hide Agree, MemberOf, Names, Recoverable;
    var s' := ClientStep(s, c);
    var client := s.clients[c];
    ClientAgrees(s, c);
    assert ClientOk(client);
    ClientMoveSpares(s, c, client.next + 1, client.enqueued);
    StepLosesNone(s, s', client.batch[client.next].id, WithClient(c, client.next));
    WorkersKeepActing(s, s');
  }

  lemma EnqueueLosesNone(s: State, c: nat)
    requires Inv(s) && ClientEnabled(s, c) && s.clients[c].batch[s.clients[c].next].row.status == Pending
    requires !s.clients[c].enqueued
    ensures Inv(ClientStep(s, c))
  {
    hide MemberOf, Names, EntriesOk, MembersOk, BatchesOk, ClientsOk, SchedulersOk, WorkersOk, RowsOk, RefsOk, NoneLost,
      At, Append, AckOk;
    var s' := ClientStep(s, c);
    var client := s.clients[c];
    var item := client.batch[client.next];
    ClientAgrees(s, c);
    AppendSpares(s, item.row.priority, EntryFor(item));
    AppendKeepsRest(s.mq, item.row.priority, EntryFor(item));
    var s1 := s.(mq := s'.mq);
    ClientMoveSpares(s1, c, client.next, true);
    SparesBoth(s, s1, s', item.id, WithClient(c, client.next));
    assert Recoverable(s', item.id, Streamed(NextRef(s.mq, item.row.priority)));
    StepLosesNone(s, s', item.id, WithClient(c, client.next));
    WorkersKeepActing(s, s');
  }

  lemma MarkLosesNone(s: State, c: nat)
    requires Inv(s) && ClientEnabled(s, c) && s.clients[c].batch[s.clients[c].next].row.status == Pending
    requires s.clients[c].enqueued
    ensures Inv(ClientStep(s, c))
  {
    hide MemberOf, Names, EntriesOk, MembersOk, BatchesOk, SchedulersOk, WorkersOk, RowsOk, RefsOk, NoneLost,
      Recoverable, AckOk;
    var s' := ClientStep(s, c);
    var client := s.clients[c];
    var item := client.batch[client.next];
    ClientAgrees(s, c);
    assert ClientItemOk(s.db.rows, s.now, item);
    WriteStatusLosesNone(s, item.id, Queued);
    var s1 := s.(db := WriteStatus(s.db, item.id, Queued));
    ClientMoveSpares(s1, c, client.next + 1, false);
    StepLosesNone(s1, s', item.id, WithClient(c, client.next));
    WorkersKeepActing(s1, s');
  }

  lemma ClientLosesNone(s: State, c: nat)
    requires Inv(s) && ClientEnabled(s, c)
    ensures Inv(ClientStep(s, c))
  {
    hide Inv, ClientStep;
    if s.clients[c].batch[s.clients[c].next].row.status != Pending {
      SkipLosesNone(s, c);
    } else if !s.clients[c].enqueued {
      EnqueueLosesNone(s, c);
    } else {
      MarkLosesNone(s, c);
    }
  }

  lemma SparesBoth(s: State, s1: State, s': State, id: Uuid, x: Carrier)
    requires Spares(s, s1, NIL, Gone) && Spares(s1, s', id, x)
    ensures Spares(s, s', id, x)
  {
    hide At;
    forall i, y | Recoverable(s, i, y) && !(i == id && y == x) ensures Recoverable(s', i, y) {
      assert y != Gone by { GoneIsNothing(s, i, y); }
      assert Recoverable(s1, i, y);
    }
  }

  lemma GoneIsNothing(s: State, id: Uuid, x: Carrier)
    requires Recoverable(s, id, x)
    ensures x != Gone
  {
  }

  /** Moving a client past its current item gives up at most that item. */
  lemma ClientMoveSpares(s: State, c: nat, next: nat, enqueued: bool)
    requires ClientEnabled(s, c)
    requires var client := s.clients[c];
             (next == client.next && enqueued) || next == client.next + 1
    requires enqueued ==> next == s.clients[c].next
    ensures var client := s.clients[c];
            Spares(s, s.(clients := s.clients[c := client.(next := next, enqueued := enqueued)]),
                   client.batch[client.next].id, WithClient(c, client.next))
    ensures var client := s.clients[c];
            client.batch[client.next].row.status != Pending || client.enqueued ==>
              !Recoverable(s, client.batch[client.next].id, WithClient(c, client.next))
  {
    hide MemberOf, Names;
  }

  lemma CancelLosesNone(s: State, id: Uuid)
    requires Inv(s)
    ensures Inv(CancelStep(s, id))
  {
    hide Agree, At;
    if id in s.db.rows && Cancellable(s.db.rows[id].status) {
      if s.db.rows[id].status == Scheduled {
        CancelWaitingLosesNone(s, id);
      } else {
        WriteStatusLosesNone(s, id, Cancelled);
      }
    }
  }

  lemma CancelWaitingLosesNone(s: State, id: Uuid)
    requires Inv(s) && id in s.db.rows && s.db.rows[id].status == Scheduled
    ensures Inv(CancelStep(s, id))
  {
    hide Agree, MemberOf, Names, Recoverable, HistoryOf;
    var s' := CancelStep(s, id);
    CancelAgrees(s, id);
    MarkKeeps(s.db, id, Cancelled);
    CancelSpares(s, id);
    StepLosesNone(s, s', id, Waiting);
    hide CancelStep;
    CancelKeepsActing(s, id);
  }

  lemma CancelKeepsActing(s: State, id: Uuid)
    requires ActorsOk(s)
    ensures ActorsOk(CancelStep(s, id))
  {
    var s' := CancelStep(s, id);
    forall w | w in s.workers ensures AckOk(s', s.workers[w]) {
      assert AckOk(s, s.workers[w]);
    }
  }

  lemma CancelledRows(s: State, id: Uuid)
    requires id in s.db.rows && s.db.rows[id].status == Scheduled
    ensures var s' := CancelStep(s, id);
            && s' == s.(db := s'.db)
            && forall i | i in s.db.rows ::
                 && i in s'.db.rows && SameColumns(s.db.rows[i], s'.db.rows[i])
                 && (i != id ==> s'.db.rows[i].status == s.db.rows[i].status)
  {
  }

  lemma CancelSpares(s: State, id: Uuid)
    requires id in s.db.rows && s.db.rows[id].status == Scheduled
    ensures Spares(s, CancelStep(s, id), id, Waiting)
  {
    hide MemberOf, Names;
    var s' := CancelStep(s, id);
    CancelledRows(s, id);
    hide CancelStep;
    forall i, y | Recoverable(s, i, y) && !(i == id && y == Waiting) ensures Recoverable(s', i, y) {
      if i in s.db.rows {
        MemberKept(i, s.db.rows[i], s'.db.rows[i]);
      }
    }
  }

  lemma ResetSchedulerLosesNone(s: State, k: nat)
    requires Inv(s) && SchedulerIdle(s, k)
    ensures Inv(ResetScheduler(s, k))
  {
    hide Agree, MemberOf, Names;
    ResetSchedulerAgrees(s, k);
    assert Spares(s, ResetScheduler(s, k), NIL, Gone);
    StepLosesNone(s, ResetScheduler(s, k), NIL, Gone);
    WorkersKeepActing(s, ResetScheduler(s, k));
  }

  lemma ClaimOneSpares(s: State, k: nat, id: Uuid)
    requires ClaimOneEnabled(s, k, id) && s.schedulers[k].next == 0
    ensures Spares(s, ClaimOne(s, k, id), id, Waiting)
    ensures Safe(ClaimOne(s, k, id), id)
    ensures MarksKept(s.db, ClaimOne(s, k, id).db)
  {
    hide MemberOf, Names;
    var s' := ClaimOne(s, k, id);
    forall i, y | Recoverable(s, i, y) && !(i == id && y == Waiting) ensures Recoverable(s', i, y) {
      if i in s.db.rows {
        MemberKept(i, s.db.rows[i], s'.db.rows[i]);
      }
    }
    assert Recoverable(s', id, WithScheduler(k, |s.schedulers[k].batch|));
  }

  lemma ClaimOneLosesNone(s: State, k: nat, id: Uuid)
    requires Inv(s) && ClaimOneEnabled(s, k, id) && s.schedulers[k].next == 0
    ensures Inv(ClaimOne(s, k, id))
  {
    hide Agree, Recoverable;
    var s' := ClaimOne(s, k, id);
    ClaimOneAgrees(s, k, id);
    ClaimOneSpares(s, k, id);
    StepLosesNone(s, s', id, Waiting);
    forall w | w in s.workers ensures AckOk(s', s.workers[w]) {
      assert AckOk(s, s.workers[w]);
    }
  }

  lemma {:induction false} ClaimAllLosesNone(s: State, k: nat, ids: seq<Uuid>)
    requires Inv(s) && k in s.schedulers && s.schedulers[k].next == 0 && ClaimAllEnabled(s, k, ids)
    ensures Inv(ClaimAll(s, k, ids))
    decreases |ids|
  {
    hide Inv;
    if ids != [] {
      ClaimOneLosesNone(s, k, ids[0]);
      ClaimAllLosesNone(ClaimOne(s, k, ids[0]), k, ids[1..]);
    }
  }

  lemma SchedulerMoveSpares(s: State, k: nat)
    requires SchedulerEnabled(s, k)
    ensures var sched := s.schedulers[k];
            Spares(s, s.(schedulers := s.schedulers[k := sched.(next := sched.next + 1)]),
                   sched.batch[sched.next].id, WithScheduler(k, sched.next))
  {
    hide MemberOf, Names;
  }

  lemma SchedulerLosesNone(s: State, k: nat)
    requires Inv(s) && SchedulerEnabled(s, k)
    ensures Inv(SchedulerStep(s, k))
  {
    hide MemberOf, Names, EntriesOk, MembersOk, BatchesOk, ClientsOk, SchedulersOk, WorkersOk, RowsOk, RefsOk, NoneLost,
      At, Append, AckOk;
    var s' := SchedulerStep(s, k);
    var sched := s.schedulers[k];
    var item := sched.batch[sched.next];
    SchedulerAgrees(s, k);
    AppendSpares(s, item.row.priority, EntryFor(item));
    AppendKeepsRest(s.mq, item.row.priority, EntryFor(item));
    var s1 := s.(mq := s'.mq);
    SchedulerMoveSpares(s1, k);
    SparesBoth(s, s1, s', item.id, WithScheduler(k, sched.next));
    assert Recoverable(s', item.id, Streamed(NextRef(s.mq, item.row.priority)));
    StepLosesNone(s, s', item.id, WithScheduler(k, sched.next));
    WorkersKeepActing(s, s');
  }

  lemma RangeLosesNone(s: State, p: nat, at: int, batch: seq<string>)
    requires Inv(s) && RangeEnabled(s, p, at, batch)
    ensures Inv(RangeStep(s, p, at, batch))
  {
    hide Agree, MemberOf, Names;
    RangeAgrees(s, p, at, batch);
    assert Spares(s, RangeStep(s, p, at, batch), NIL, Gone);
    StepLosesNone(s, RangeStep(s, p, at, batch), NIL, Gone);
    WorkersKeepActing(s, RangeStep(s, p, at, batch));
  }

  lemma RemoveOneSpares(s: State, p: nat, id: Uuid)
    requires RemoveEnabled(s, p) && ProcessorBounds(s.processors[p])
    requires id in s.db.rows && MemberOf(id, s.db.rows[id]) == s.processors[p].batch[s.processors[p].gone]
    requires Names(s.processors[p].batch[s.processors[p].gone], id)
    ensures Spares(s, RemoveOne(s, p), id, Retrying)
    ensures Safe(RemoveOne(s, p), id)
  {
    hide MemberOf, Names;
    var s' := RemoveOne(s, p);
    var proc := s.processors[p];
    ZRemKeepsRest(s.mq, {proc.batch[proc.gone]});
    forall i, y | Recoverable(s, i, y) && !(i == id && y == Retrying) ensures Recoverable(s', i, y) {
      if i in s.db.rows && i != id {
        MembersDiffer(i, s.db.rows[i], id, s.db.rows[id]);
      }
    }
    assert Recoverable(s', id, Popped(p, proc.gone));
  }

  lemma RemoveOneLosesNone(s: State, p: nat)
    requires Inv(s) && RemoveEnabled(s, p)
    ensures Inv(RemoveOne(s, p))
  {
    hide Agree, MemberOf, Recoverable, AckOk;
    var s' := RemoveOne(s, p);
    var proc := s.processors[p];
    RemoveOneAgrees(s, p);
    BatchNames(s, p, proc.gone);
    var id := MC.Decode(proc.batch[proc.gone]).value.id;
    RemoveOneSpares(s, p, id);
    StepLosesNone(s, s', id, Retrying);
    WorkersKeepActing(s, s');
  }

  lemma {:induction false} RemoveLosesNone(s: State, p: nat)
    requires Inv(s) && RemoveEnabled(s, p)
    ensures Inv(RemoveStep(s, p))
    decreases |s.processors[p].batch| - s.processors[p].gone
  {
    hide Inv;
    RemoveOneLosesNone(s, p);
    if RemoveEnabled(RemoveOne(s, p), p) {
      RemoveLosesNone(RemoveOne(s, p), p);
    }
  }

  lemma ProcessorMoveSpares(s: State, p: nat, id: Uuid)
    requires ProcessorEnabled(s, p) && Names(s.processors[p].batch[s.processors[p].next], id)
    ensures var proc := s.processors[p];
            Spares(s, s.(processors := s.processors[p := proc.(next := proc.next + 1)]), id, Popped(p, proc.next))
  {
    hide MemberOf;
  }

  lemma ProcessorLosesNone(s: State, p: nat)
    requires Inv(s) && ProcessorEnabled(s, p)
    ensures Inv(ProcessorStep(s, p))
  {
    hide MemberOf, EntriesOk, MembersOk, ClientsOk, SchedulersOk, WorkersOk, RowsOk, RefsOk, NoneLost, At, Append,
      AckOk, Redeliver, Recoverable;
    var s' := ProcessorStep(s, p);
    var proc := s.processors[p];
    var m := proc.batch[proc.next];
    ProcessorAgrees(s, p);
    assert MemberOk(s.db.rows, s.now, m);
    RedeliverIs(s.db.rows, s.now, s.mq, m);
    var id := MC.Decode(m).value.id;
    var priority := s.db.rows[id].priority;
    var e := Entry(id, ChannelText(s.db.rows[id].channel));
    AppendSpares(s, priority, e);
    AppendKeepsRest(s.mq, priority, e);
    var s1 := s.(mq := s'.mq);
    ProcessorMoveSpares(s1, p, id);
    SparesBoth(s, s1, s', id, Popped(p, proc.next));
    assert Recoverable(s', id, Streamed(NextRef(s.mq, priority)));
    StepLosesNone(s, s', id, Popped(p, proc.next));
    WorkersKeepActing(s, s');
  }

  // ---------------------------------------------------------------- workers

  /** Nothing recoverable hangs on a worker's own memory. */
  lemma WorkerMemorySpares(s: State, workers': map<nat, Worker>)
    ensures Spares(s, s.(workers := workers'), NIL, Gone)
  {
    hide MemberOf, Names;
  }

  lemma SetWorkerLosesNone(s: State, w: nat, worker: Worker)
    requires Inv(s) && w in s.workers && AckOk(s, worker) && Agree(s.(workers := s.workers[w := worker]))
    ensures Inv(s.(workers := s.workers[w := worker]))
  {
    hide Agree, Recoverable;
    var s' := s.(workers := s.workers[w := worker]);
    WorkerMemorySpares(s, s'.workers);
    StepLosesNone(s, s', NIL, Gone);
    forall v | v in s'.workers ensures AckOk(s', s'.workers[v]) {
      if v != w {
        assert AckOk(s, s.workers[v]);
      }
    }
  }

  lemma HandOutSpares(s: State, w: nat, p: Priority)
    requires w in s.workers
    ensures Spares(s, s.(mq := HandOut(s, w, p).mq), NIL, Gone)
  {
    hide MemberOf, Names;
    var mq' := HandOut(s, w, p).mq;
    assert forall q :: Log(mq', q) == Log(s.mq, q);
    assert forall q | q != p :: Cursor(mq', q) == Cursor(s.mq, q);
  }

  lemma HandOutLosesNone(s: State, w: nat, p: Priority)
    requires Inv(s) && w in s.workers && s.workers[w].pc == Start
    ensures Inv(HandOut(s, w, p))
  {
    hide Agree, Recoverable;
    var s' := HandOut(s, w, p);
    HandOutAgrees(s, w, p);
    HandOutSpares(s, w, p);
    var s1 := s.(mq := s'.mq);
    WorkerMemorySpares(s1, s'.workers);
    SparesBoth(s, s1, s', NIL, Gone);
    StepLosesNone(s, s', NIL, Gone);
    forall v | v in s'.workers ensures AckOk(s', s'.workers[v]) {
      assert AckOk(s, s.workers[v]);
    }
  }

  lemma ReadLosesNone(s: State, w: nat)
    requires Inv(s) && WorkerIdle(s, w)
    ensures Inv(ReadStep(s, w))
  {
    hide Agree, NoneLost, AckOk;
    SetInboxAgrees(s, w, []);
    assert AckOk(s, s.workers[w].(inbox := [], next := 0)) by { IdleAcks(s, s.workers[w].(inbox := [], next := 0)); }
    SetWorkerLosesNone(s, w, s.workers[w].(inbox := [], next := 0));
    var s1 := ResetWorker(s, w);
    HandOutLosesNone(s1, w, High);
    var s2 := HandOut(s1, w, High);
    HandOutLosesNone(s2, w, Normal);
    HandOutLosesNone(HandOut(s2, w, Normal), w, Low);
  }

  lemma IdleAcks(s: State, worker: Worker)
    requires worker.pc == Start
    ensures AckOk(s, worker)
  {
  }

  lemma ReclaimLosesNone(s: State, w: nat, refs: seq<Ref>)
    requires Inv(s) && ReclaimEnabled(s, w, refs)
    ensures Inv(ReclaimStep(s, w, refs))
  {
    hide Agree, NoneLost;
    ReclaimAgrees(s, w, refs);
    SetWorkerLosesNone(s, w, ReclaimStep(s, w, refs).workers[w]);
  }

  lemma StopLosesNone(s: State, w: nat)
    requires Inv(s) && StopEnabled(s, w)
    ensures Inv(StopStep(s, w))
  {
    hide Agree, NoneLost;
    StopAgrees(s, w);
    assert AckOk(s, s.workers[w]);
    SetWorkerLosesNone(s, w, StopStep(s, w).workers[w]);
  }

  /** Acking takes nothing away: what is acked had been handed off. */
  lemma AckLosesNone(s: State, w: nat)
    requires Inv(s) && WorkerEnabled(s, w) && s.workers[w].pc == Acking
    ensures Inv(AckStep(s, w))
  {
    hide Agree, MemberOf, Names;
    var s' := AckStep(s, w);
    AckAgrees(s, w);
    assert AckOk(s, s.workers[w]);
    assert forall q :: Log(s'.mq, q) == Log(s.mq, q) && Cursor(s'.mq, q) == Cursor(s.mq, q);
    assert Spares(s, s', NIL, Gone);
    StepLosesNone(s, s', NIL, Gone);
    forall v | v in s'.workers ensures AckOk(s', s'.workers[v]) {
      assert AckOk(s, s.workers[v]);
    }
  }

  /** Handing off an entry gives up that entry only. */
  lemma HandSpares(s: State, m: Message)
    requires MessageOk(s.mq, m)
    ensures Spares(s, s.(mq := Hand(s.mq, m.ref)), m.id, Streamed(m.ref))
  {
    hide MemberOf, Names;
    var mq' := Hand(s.mq, m.ref);
    assert forall q :: Log(mq', q) == Log(s.mq, q) && Cursor(mq', q) == Cursor(s.mq, q);
  }

  /** The end of the work on a message whose notification is decided or carried elsewhere. */
  lemma HandOffLosesNone(s: State, w: nat)
    requires Inv(s) && WorkerEnabled(s, w)
    requires var m := s.workers[w].inbox[s.workers[w].next];
             Decided(s.db, m.id) || exists x :: x != Streamed(m.ref) && Recoverable(s, m.id, x)
    ensures var m := s.workers[w].inbox[s.workers[w].next];
            Inv(s.(mq := Hand(s.mq, m.ref), workers := Goto(s, w, Acking)))
  {
    hide Agree, Recoverable, Decided;
    var m := s.workers[w].inbox[s.workers[w].next];
    var s1 := s.(mq := Hand(s.mq, m.ref));
    var s' := s.(mq := Hand(s.mq, m.ref), workers := Goto(s, w, Acking));
    HandOffAgrees(s, w);
    InboxOk(s, w);
    HandSpares(s, m);
    StillSafe(s, s1, m.id, Streamed(m.ref));
    StepLosesNone(s, s1, m.id, Streamed(m.ref));
    WorkerMemorySpares(s1, s'.workers);
    StepLosesNone(s1, s', NIL, Gone);
    forall v | v in s'.workers ensures AckOk(s', s'.workers[v]) {
      assert AckOk(s, s.workers[v]);
    }
  }

  lemma InboxOk(s: State, w: nat)
    requires Agree(s) && WorkerEnabled(s, w)
    ensures MessageOk(s.mq, s.workers[w].inbox[s.workers[w].next])
  {
    assert WorkerOk(s.db.rows, s.mq, s.workers[w]);
  }

  lemma StillSafe(s: State, s': State, id: Uuid, x: Carrier)
    requires Spares(s, s', id, x) && s'.db == s.db
    requires Decided(s.db, id) || exists y :: y != x && Recoverable(s, id, y)
    ensures Safe(s', id)
  {
    hide Recoverable;
    if !Decided(s.db, id) {
      var y :| y != x && Recoverable(s, id, y);
      assert Recoverable(s', id, y);
    }
  }

  lemma LookUpLosesNone(s: State, w: nat)
    requires Inv(s) && WorkerEnabled(s, w) && s.workers[w].pc == Start
    ensures Inv(LookUp(s, w))
  {
    hide Agree, NoneLost, Recoverable;
    var m := s.workers[w].inbox[s.workers[w].next];
    FinishedIsDecided(s, w);
    LookUpAgrees(s, w);
    if Terminal(s.db.rows[m.id].status) {
      HandOffLosesNone(s, w);
    } else {
      SetWorkerLosesNone(s, w, LookUp(s, w).workers[w]);
    }
  }

  lemma FinishedIsDecided(s: State, w: nat)
    requires Agree(s) && WorkerEnabled(s, w)
    ensures var id := s.workers[w].inbox[s.workers[w].next].id;
            && id in s.db.rows && (Terminal(s.db.rows[id].status) ==> Decided(s.db, id))
  {
    var m := s.workers[w].inbox[s.workers[w].next];
    InboxOk(s, w);
    MessageReleased(s, m);
    assert RowOk(s.db.rows[m.id], HistoryOf(s.db, m.id));
  }

  /** A database command in the middle of a message. */
  lemma BusyDbLosesNone(s: State, w: nat, db': Db, stage: Stage)
    requires Inv(s) && WorkerEnabled(s, w) && s.workers[w].pc.Busy?
    requires MarksKept(s.db, db')
    requires forall i :: i in s.db.rows <==> i in db'.rows
    requires forall i | i in s.db.rows ::
               SameColumns(s.db.rows[i], db'.rows[i])
                   && (s.db.rows[i].status == Scheduled ==> db'.rows[i].status == Scheduled)
    requires stage == Burying ==> Failed in HistoryOf(db', s.workers[w].pc.item.id).marked
    requires Agree(s.(db := db', workers := Goto(s, w, Busy(s.workers[w].pc.item, stage))))
    ensures Inv(s.(db := db', workers := Goto(s, w, Busy(s.workers[w].pc.item, stage))))
  {
    hide Agree, Recoverable;
    var s1 := s.(db := db');
    var s' := s.(db := db', workers := Goto(s, w, Busy(s.workers[w].pc.item, stage)));
    RowsSpare(s, db');
    StepLosesNone(s, s1, NIL, Gone);
    WorkerMemorySpares(s1, s'.workers);
    StepLosesNone(s1, s', NIL, Gone);
    forall v | v in s'.workers ensures AckOk(s', s'.workers[v]) {
      assert AckOk(s, s.workers[v]);
      BuriedHasRow(s, v);
    }
  }

  lemma BuriedHasRow(s: State, v: nat)
    requires Agree(s) && v in s.workers
    ensures s.workers[v].pc.Busy? ==> s.workers[v].pc.item.id in s.db.rows
  {
    assert WorkerOk(s.db.rows, s.mq, s.workers[v]);
  }

  lemma BeforeSendLosesNone(s: State, w: nat, ok: bool)
    requires Inv(s) && WorkerEnabled(s, w) && s.workers[w].pc.Busy?
    requires s.workers[w].pc.stage.Claimed? || s.workers[w].pc.stage.Routed? || s.workers[w].pc.stage.Sending?
    ensures Inv(BusyStep(s, w, ok))
  {
    hide Inv, Agree;
    InvAgrees(s);
    BusyFacts(s, w);
    BeforeSendAgrees(s, w, ok);
    var item := s.workers[w].pc.item;
    if s.workers[w].pc.stage.Claimed? {
      MarkKeeps(s.db, item.id, Processing);
      BusyDbLosesNone(s, w, WriteStatus(s.db, item.id, Processing), Routed);
    } else if s.workers[w].pc.stage.Sending? {
      BusyDbLosesNone(s, w, s.db, Sent(ok));
    } else if item.row.channel in s.providers {
      BusyDbLosesNone(s, w, RecordSend(s.db, item.id, s.now), Sending);
    } else {
      WriteStatusLosesNone(s, item.id, Failed);
      MarkKeeps(s.db, item.id, Failed);
      HandOffLosesNone(s.(db := WriteStatus(s.db, item.id, Failed)), w);
    }
  }

  lemma InvAgrees(s: State)
    requires Inv(s)
    ensures Agree(s)
  {
  }

  lemma RecordingLosesNone(s: State, w: nat, ok: bool)
    requires Inv(s) && WorkerEnabled(s, w) && s.workers[w].pc.Busy?
    requires s.workers[w].pc.stage.Sent? || s.workers[w].pc.stage.Counted?
    ensures Inv(BusyStep(s, w, ok))
  {
    hide Inv, Agree;
    InvAgrees(s);
    BusyFacts(s, w);
    RecordingAgrees(s, w, ok);
    var item := s.workers[w].pc.item;
    match s.workers[w].pc.stage {
      case Sent(sent) => BusyDbLosesNone(s, w, IncrementAttempt(s.db, item.id), Counted(sent));
      case Counted(sent) =>
        BusyDbLosesNone(s, w, InsertAttempt(s.db, item.id, Attempt(item.row.attemptCount + 1, sent)), Recorded(sent));
    }
  }

  lemma RecordedLosesNone(s: State, w: nat, ok: bool)
    requires Inv(s) && WorkerEnabled(s, w) && s.workers[w].pc.Busy? && s.workers[w].pc.stage.Recorded?
    ensures Inv(BusyStep(s, w, ok))
  {
    hide Inv, Agree;
    InvAgrees(s);
    BusyFacts(s, w);
    var item := s.workers[w].pc.item;
    if s.workers[w].pc.stage.ok {
      WriteStatusLosesNone(s, item.id, Delivered);
      MarkKeeps(s.db, item.id, Delivered);
      HandOffLosesNone(s.(db := WriteStatus(s.db, item.id, Delivered)), w);
    } else {
      RejectedAgrees(s, w, ok);
      if Retry.ShouldRetry(item.row.attemptCount + 1, item.row.maxRetries) {
        BusyDbLosesNone(s, w, RecordHandled(s.db, item.id, s.now),
            Requeue(Retry.RetryAt(s.now, item.row.attemptCount + 1)));
      } else {
        MarkKeeps(s.db, item.id, Failed);
        BusyDbLosesNone(s, w, WriteStatus(s.db, item.id, Failed), Burying);
      }
    }
  }

  /** ZADD of the retry member takes nothing away, and the member can be picked up. */
  lemma DelaySpares(s: State, item: Item, at: int)
    requires ItemOk(s.db.rows, item)
    ensures Spares(s, s.(mq := EnqueueDelayed(s.mq, item, at)), NIL, Gone)
    ensures Recoverable(s.(mq := EnqueueDelayed(s.mq, item, at)), item.id, Retrying)
  {
    hide MemberOf, Names;
    MemberKept(item.id, item.row, s.db.rows[item.id]);
    var mq' := EnqueueDelayed(s.mq, item, at);
    assert forall q :: Log(mq', q) == Log(s.mq, q) && Cursor(mq', q) == Cursor(s.mq, q);
  }

  lemma DelayingLosesNone(s: State, w: nat, ok: bool)
    requires Inv(s) && WorkerEnabled(s, w) && s.workers[w].pc.Busy? && s.workers[w].pc.stage.Delaying?
    ensures Inv(BusyStep(s, w, ok))
  {
    hide Agree, Recoverable;
    BusyFacts(s, w);
    var item := s.workers[w].pc.item;
    var at := s.workers[w].pc.stage.at;
    var s1 := s.(mq := EnqueueDelayed(s.mq, item, at));
    DelayAgrees(s, item, at);
    DelaySpares(s, item, at);
    StepLosesNone(s, s1, NIL, Gone);
    WorkersKeepActing(s, s1);
    HandOffLosesNone(s1, w);
  }

  lemma BuryingLosesNone(s: State, w: nat, ok: bool)
    requires Inv(s) && WorkerEnabled(s, w) && s.workers[w].pc.Busy? && s.workers[w].pc.stage == Burying
    ensures Inv(BusyStep(s, w, ok))
  {
    hide Agree, Recoverable;
    BusyFacts(s, w);
    var item := s.workers[w].pc.item;
    var s1 := s.(mq := PushDead(s.mq, item.id));
    DeadAgrees(s, item.id);
    PushSpares(s, item.id);
    StepLosesNone(s, s1, NIL, Gone);
    WorkersKeepActing(s, s1);
    assert AckOk(s, s.workers[w]);
    HandOffLosesNone(s1, w);
  }

  lemma PushSpares(s: State, id: Uuid)
    ensures Spares(s, s.(mq := PushDead(s.mq, id)), NIL, Gone)
  {
    hide MemberOf, Names;
    var mq' := PushDead(s.mq, id);
    assert forall q :: Log(mq', q) == Log(s.mq, q) && Cursor(mq', q) == Cursor(s.mq, q);
  }

  lemma RequeueLosesNone(s: State, w: nat, ok: bool)
    requires Inv(s) && WorkerEnabled(s, w) && s.workers[w].pc.Busy? && s.workers[w].pc.stage.Requeue?
    ensures Inv(BusyStep(s, w, ok))
  {
    hide Inv, Agree;
    InvAgrees(s);
    BusyFacts(s, w);
    RequeueAgrees(s, w, ok);
    var item := s.workers[w].pc.item;
    MarkKeeps(s.db, item.id, Queued);
    BusyDbLosesNone(s, w, WriteStatus(s.db, item.id, Queued), Delaying(s.workers[w].pc.stage.at));
  }

  lemma WorkerLosesNone(s: State, w: nat, ok: bool)
    requires Inv(s) && WorkerEnabled(s, w)
    ensures Inv(WorkerStep(s, w, ok))
  {
    hide Inv, BusyStep, LookUp, AckStep;
    match s.workers[w].pc {
      case Start => LookUpLosesNone(s, w);
      case Acking => AckLosesNone(s, w);
      case Busy(_, stage) =>
        match stage {
          case Claimed | Routed | Sending => BeforeSendLosesNone(s, w, ok);
          case Sent(_) | Counted(_) => RecordingLosesNone(s, w, ok);
          case Recorded(_) => RecordedLosesNone(s, w, ok);
          case Requeue(_) => RequeueLosesNone(s, w, ok);
          case Delaying(_) => DelayingLosesNone(s, w, ok);
          case Burying => BuryingLosesNone(s, w, ok);
        }
    }
  }

  // ---------------------------------------------------------------- every step, every run

  lemma EveryStepLosesNone(s: State, step: Step)
    requires Inv(s) && Enabled(s, step)
    ensures Inv(Apply(s, step))
  {
    hide Inv, WorkerStep, ClientStep, CancelStep, ClaimAll, SchedulerStep, HandOut, StopStep, RangeStep, RemoveStep,
      ProcessorStep, BornAll, ReclaimStep;
    match step {
      case Tick(ms) => TickLosesNone(s, ms);
      case Insert(c, news) =>
        OpenClientLosesNone(s, c);
        BornAllLosesNone(OpenClient(s, c), c, news);
      case ClientNext(c) => ClientLosesNone(s, c);
      case Cancel(id) => CancelLosesNone(s, id);
      case Fetch(k, ids) =>
        ResetSchedulerLosesNone(s, k);
        ClaimAllLosesNone(ResetScheduler(s, k), k, ids);
      case SchedulerNext(k) => SchedulerLosesNone(s, k);
      case Read(w) => ReadLosesNone(s, w);
      case WorkerNext(w, ok) => WorkerLosesNone(s, w, ok);
      case Stop(w) => StopLosesNone(s, w);
      case Reclaim(w, refs) => ReclaimLosesNone(s, w, refs);
      case Range(p, at, batch) => RangeLosesNone(s, p, at, batch);
      case Remove(p) => RemoveLosesNone(s, p);
      case ProcessorNext(p) => ProcessorLosesNone(s, p);
    }
  }

  lemma {:induction false} RunLosesNone(s: State, steps: seq<Step>)
    requires Inv(s) && ValidRun(s, steps)
    ensures Inv(After(s, steps))
    decreases |steps|
  {
    hide Inv, Apply;
    if steps != [] {
      EveryStepLosesNone(s, steps[0]);
      RunLosesNone(Apply(s, steps[0]), steps[1..]);
    }
  }

  /**
   In every reachable state every accepted notification has been decided or has recoverable work, however workers
   stop, entries are reclaimed and processors race.
   */
  lemma NothingIsLost(s0: State, steps: seq<Step>, id: Uuid)
    requires Init(s0) && ValidRun(s0, steps) && id in After(s0, steps).db.rows
    ensures Safe(After(s0, steps), id)
  {
    hide After, Agree, Safe;
    InitSafe(s0);
    RunLosesNone(s0, steps);
  }

  lemma InitSafe(s: State)
    requires Init(s)
    ensures Inv(s)
  {
    hide Agree;
    G.InitAgrees(s);
  }
}
