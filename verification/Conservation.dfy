/**
 The pipeline with one delayed processor and no ClaimStale: every step moves at most one carrier per
 notification and settles its books. Guarantees states what this means for whole runs.
 */
module Conservation {
  import opened Domain
  import opened Table
  import opened Pipeline
  import opened Agreement
  import opened Carriers
  import opened Books
  import MC = MemberCodec
  import Retry

  // ---------------------------------------------------------------- the invariant

  /** What a processor has ranged and not yet removed is still in the delayed set, and still due. */
  ghost predicate ProcessorOk(delayed: map<string, int>, now: int, proc: Processor) {
    && proc.next <= proc.gone <= |proc.batch| && proc.at <= now
    && (forall i | proc.gone <= i < |proc.batch| :: proc.batch[i] in delayed && delayed[proc.batch[i]] <= proc.at)
    && (forall i, j | proc.gone <= i < j < |proc.batch| :: proc.batch[i] != proc.batch[j])
  }

  ghost predicate LoopsOk(s: State) {
    && (forall c | c in s.clients :: ClientOk(s.clients[c]))
    && (forall k | k in s.schedulers :: s.schedulers[k].next <= |s.schedulers[k].batch|)
    && (forall p, q | p in s.processors && q in s.processors :: p == q)
    && (forall p | p in s.processors :: ProcessorOk(s.mq.delayed, s.now, s.processors[p]))
  }

  ghost predicate Inv(s: State, loc: Places) {
    Agree(s) && Located(s, loc) && Accounts(s, loc) && LoopsOk(s)
  }

  // ---------------------------------------------------------------- shared arguments

  /** A command on one row moves no carrier and leaves every other notification untouched. */
  lemma RowCommand(s: State, db': Db, loc: Places, id: Uuid)
    requires Located(s, loc) && Accounts(s, loc) && Stays(s, s.(db := db'))
    requires forall i :: i in s.db.rows <==> i in db'.rows
    requires forall i | i in s.db.rows :: SameColumns(s.db.rows[i], db'.rows[i])
    requires forall i | i in s.db.rows && i != id ::
               s.db.rows[i] == db'.rows[i] && AttemptsOf(s.db, i) == AttemptsOf(db', i)
                   && HistoryOf(s.db, i) == HistoryOf(db', i)
    requires id in s.db.rows ==>
               Account(s.now, s.providers, db'.rows[id], AttemptsOf(db', id), DeadCount(s.mq, id), HistoryOf(db', id),
                       ViewOf(s, id, Where(loc, id)))
    ensures Located(s.(db := db'), loc) && Accounts(s.(db := db'), loc)
  {
    hide At, Account, MemberOf, AttemptsOf, HistoryOf;
    var s' := s.(db := db');
    StaysLocated(s, s', loc);
    forall i | i in s'.db.rows ensures AccountAt(s', i, Where(loc, i)) {
      MemberKept(i, s.db.rows[i], db'.rows[i]);
      assert ViewOf(s', i, Where(loc, i)) == ViewOf(s, i, Where(loc, i));
      assert AccountAt(s, i, Where(loc, i));
    }
  }

  lemma WriteStatusInv(s: State, loc: Places, id: Uuid, status: Status)
    requires Inv(s, loc) && id in s.db.rows && s.db.rows[id].status != Scheduled
    requires status != Scheduled && status != Domain.Delivered && status != Domain.Failed
    ensures Inv(s.(db := WriteStatus(s.db, id, status)), loc)
  {
    hide Agree, Stays, Account, ViewOf, At, Located, ProcessorOk;
    WriteStatusAgrees(s, id, status);
    WriteStays(s, id, status);
    assert AccountAt(s, id, Where(loc, id));
    StatusAccount(s.now, s.providers, s.db.rows[id], AttemptsOf(s.db, id), DeadCount(s.mq, id), HistoryOf(s.db, id),
                  ViewOf(s, id, Where(loc, id)), status);
    RowCommand(s, WriteStatus(s.db, id, status), loc, id);
  }

  /** Carriers that move between places where nothing is in flight keep their books. */
  lemma RestingMove(s: State, s': State, loc: Places, id: Uuid, to: Carrier)
    requires Located(s, loc) && Accounts(s, loc) && Moves(s, s', id, to)
    requires s'.now == s.now && s'.providers == s.providers && s'.db == s.db
    requires s'.mq.delayed == s.mq.delayed && s'.mq.dead == s.mq.dead
    requires forall w | w in s.workers :: w in s'.workers && s'.workers[w].pc == s.workers[w].pc
    requires ViewOf(s, id, Where(loc, id)) == Resting && ViewOf(s', id, to) == Resting
    ensures Located(s', loc[id := to]) && Accounts(s', loc[id := to])
  {
    hide At, Moves, Account, MemberOf, AttemptsOf, HistoryOf, Located;
    MovesLocated(s, s', loc, id, to);
    forall i | i in s'.db.rows ensures AccountAt(s', i, Where(loc[id := to], i)) {
      assert AccountAt(s, i, Where(loc, i));
      if i != id {
        SameView(s, s', i, Where(loc, i), loc);
      }
    }
  }

  lemma SameView(s: State, s': State, id: Uuid, x: Carrier, loc: Places)
    requires Located(s, loc) && x == Where(loc, id)
    requires s'.db == s.db && s'.mq.delayed == s.mq.delayed
    requires forall w | w in s.workers :: w in s'.workers && s'.workers[w].pc == s.workers[w].pc
    ensures ViewOf(s', id, x) == ViewOf(s, id, x)
  {
    hide MemberOf;
    assert x != Gone ==> At(s, id, x);
  }

  // ---------------------------------------------------------------- clock, clients, schedulers

  lemma TickInv(s: State, loc: Places, ms: nat)
    requires Inv(s, loc)
    ensures Inv(s.(now := s.now + ms), loc)
  {
    hide Agree, MemberOf, Account, ViewOf, AttemptsOf, HistoryOf, DeadCount;
    TickAgrees(s, ms);
    var s' := s.(now := s.now + ms);
    TickStays(s, ms);
    StaysLocated(s, s', loc);
    forall i | i in s'.db.rows ensures AccountAt(s', i, Where(loc, i)) {
      assert AccountAt(s, i, Where(loc, i));
      TickView(s, ms, i, Where(loc, i));
      LaterAccount(s.now, s'.now, s.providers, s.db.rows[i], AttemptsOf(s.db, i), DeadCount(s.mq, i),
          HistoryOf(s.db, i), ViewOf(s, i, Where(loc, i)));
    }
  }

  lemma TickStays(s: State, ms: nat)
    ensures Stays(s, s.(now := s.now + ms))
  {
  }

  lemma TickView(s: State, ms: nat, id: Uuid, x: Carrier)
    ensures ViewOf(s.(now := s.now + ms), id, x) == ViewOf(s, id, x)
  {
  }

  lemma OpenClientInv(s: State, loc: Places, c: nat)
    requires Inv(s, loc) && c !in s.clients
    ensures Inv(OpenClient(s, c), loc)
  {
    hide Agree, At, Account, ViewOf, AttemptsOf, HistoryOf, DeadCount, ProcessorOk;
    OpenClientAgrees(s, c);
    OpenClientStays(s, c);
    StaysLocated(s, OpenClient(s, c), loc);
    OtherActorsAccounts(s, OpenClient(s, c), loc);
  }

  /** A step that changes neither stores nor workers keeps all books. */
  lemma OtherActorsAccounts(s: State, s': State, loc: Places)
    requires Accounts(s, loc)
    requires s'.now == s.now && s'.providers == s.providers && s'.db == s.db && s'.workers == s.workers
    requires s'.mq.delayed == s.mq.delayed && s'.mq.dead == s.mq.dead
    ensures Accounts(s', loc)
  {
    hide Account, MemberOf, AttemptsOf, HistoryOf;
    SameAccounts(s, s', loc);
  }

  lemma BornInv(s: State, loc: Places, c: nat, n: New) returns (loc': Places)
    requires Inv(s, loc) && c in s.clients && Table.Insert(s.db.rows, n).Stored?
    requires s.clients[c].next == 0 && !s.clients[c].enqueued
    ensures Inv(Born(s, c, n), loc')
    ensures loc' == loc[n.id := if n.scheduledAt.Some? then Waiting else WithClient(c, |s.clients[c].batch|)]
  {
    hide Agree, At, Located, Account, ViewOf, ProcessorOk, MemberOf, Moves;
    var s' := Born(s, c, n);
    var to := if n.scheduledAt.Some? then Waiting else WithClient(c, |s.clients[c].batch|);
    loc' := loc[n.id := to];
    BornAgrees(s, c, n);
    NewIsNotCarried(s, n.id, RowOf(n));
    BornMoves(s, c, n);
    MovesLocated(s, s', loc, n.id, to);
    NewAccount(s, c, n, to);
    forall i | i in s'.db.rows && i != n.id ensures Untouched(s, s', i, Where(loc, i)) {
      BornView(s, c, n, i, Where(loc, i));
    }
    OneAccount(s, s', loc, n.id, to);
  }

  lemma BornView(s: State, c: nat, n: New, id: Uuid, x: Carrier)
    requires c in s.clients && id != n.id
    ensures ViewOf(Born(s, c, n), id, x) == ViewOf(s, id, x)
  {
    hide MemberOf;
  }

  lemma NewAccount(s: State, c: nat, n: New, to: Carrier)
    requires Agree(s) && c in s.clients && n.id !in s.db.rows && (to.Waiting? || to.WithClient?)
    ensures AccountAt(Born(s, c, n), n.id, to)
  {
    assert DeadOk(s.db.rows, s.mq.dead);
  }

  lemma {:induction false} BornAllInv(s: State, loc: Places, c: nat, news: seq<New>) returns (loc': Places)
    requires Inv(s, loc) && c in s.clients && InsertAll(s.db.rows, news).Stored?
    requires s.clients[c].next == 0 && !s.clients[c].enqueued
    ensures Inv(BornAll(s, c, news), loc')
    ensures forall i | i in s.db.rows :: Where(loc', i) == Where(loc, i)
    decreases |news|
  {
    hide Inv;
    loc' := loc;
    if news != [] {
      loc' := BornInv(s, loc, c, news[0]);
      loc' := BornAllInv(Born(s, c, news[0]), loc', c, news[1..]);
    }
  }

  lemma ClientInv(s: State, loc: Places, c: nat) returns (loc': Places)
    requires Inv(s, loc) && ClientEnabled(s, c)
    ensures Inv(ClientStep(s, c), loc')
    ensures var item := s.clients[c].batch[s.clients[c].next];
            loc' == if item.row.status == Pending && !s.clients[c].enqueued
                    then loc[item.id := Streamed(NextRef(s.mq, item.row.priority))] else loc
  {
    hide At, Located, Moves, Accounts, MemberOf, ProcessorOk, EntriesOk, MembersOk, BatchesOk, SchedulersOk, WorkersOk,
      RowsOk;
    var s' := ClientStep(s, c);
    var client := s.clients[c];
    var item := client.batch[client.next];
    ClientAgrees(s, c);
    assert ClientItemOk(s.db.rows, s.now, item);
    assert ClientOk(client);
    loc' := loc;
    if item.row.status != Pending {
      SkipStays(s, c);
      StaysLocated(s, s', loc);
      OtherActorsAccounts(s, s', loc);
    } else if !client.enqueued {
      EnqueueMoves(s, loc, c);
      AppendKeepsRest(s.mq, item.row.priority, EntryFor(item));
      RestingMove(s, s', loc, item.id, Streamed(NextRef(s.mq, item.row.priority)));
      loc' := loc[item.id := Streamed(NextRef(s.mq, item.row.priority))];
    } else {
      WriteStatusInv(s, loc, item.id, Queued);
      var s1 := s.(db := WriteStatus(s.db, item.id, Queued));
      MarkStays(s1, c);
      StaysLocated(s1, s', loc);
      OtherActorsAccounts(s1, s', loc);
    }
  }

  lemma CancelInv(s: State, loc: Places, id: Uuid) returns (loc': Places)
    requires Inv(s, loc)
    ensures Inv(CancelStep(s, id), loc')
    ensures loc' == if id in s.db.rows && s.db.rows[id].status == Scheduled then loc[id := Gone] else loc
  {
    hide Inv, WriteStatus;
    loc' := loc;
    if id in s.db.rows && Cancellable(s.db.rows[id].status) {
      if s.db.rows[id].status == Scheduled {
        CancelWaiting(s, loc, id);
        loc' := loc[id := Gone];
      } else {
        WriteStatusInv(s, loc, id, Domain.Cancelled);
      }
    }
  }

  lemma CancelWaiting(s: State, loc: Places, id: Uuid)
    requires Inv(s, loc) && id in s.db.rows && s.db.rows[id].status == Scheduled
    ensures Inv(CancelStep(s, id), loc[id := Gone])
  {
    hide Agree, At, Moves, Located, Account, MemberOf, ProcessorOk;
    var s' := CancelStep(s, id);
    CancelAgrees(s, id);
    CancelMoves(s, loc, id);
    MovesLocated(s, s', loc, id, Gone);
    assert AccountAt(s, id, Waiting);
    StatusAccount(s.now, s.providers, s.db.rows[id], AttemptsOf(s.db, id), DeadCount(s.mq, id), HistoryOf(s.db, id),
        Resting, Domain.Cancelled);
    CancelledAccount(s.now, s.providers, s'.db.rows[id], AttemptsOf(s'.db, id), DeadCount(s.mq, id),
        HistoryOf(s'.db, id));
    OneAccount(s, s', loc, id, Gone);
  }

  lemma ResetSchedulerInv(s: State, loc: Places, k: nat)
    requires Inv(s, loc) && SchedulerIdle(s, k)
    ensures Inv(ResetScheduler(s, k), loc)
  {
    hide Agree, At, Located, Stays, Accounts, ProcessorOk;
    ResetSchedulerAgrees(s, k);
    ResetSchedulerStays(s, k);
    StaysLocated(s, ResetScheduler(s, k), loc);
    OtherActorsAccounts(s, ResetScheduler(s, k), loc);
  }

  lemma ClaimOneInv(s: State, loc: Places, k: nat, id: Uuid) returns (loc': Places)
    requires Inv(s, loc) && ClaimOneEnabled(s, k, id) && s.schedulers[k].next == 0
    ensures Inv(ClaimOne(s, k, id), loc')
    ensures loc' == loc[id := WithScheduler(k, |s.schedulers[k].batch|)]
  {
    hide Agree, At, Moves, Located, Account, MemberOf, ProcessorOk;
    var s' := ClaimOne(s, k, id);
    var to := WithScheduler(k, |s.schedulers[k].batch|);
    ClaimOneAgrees(s, k, id);
    ClaimOneMoves(s, loc, k, id);
    MovesLocated(s, s', loc, id, to);
    loc' := loc[id := to];
    assert AccountAt(s, id, Waiting);
    var h := HistoryOf(s.db, id);
    StatusAccount(s.now, s.providers, s.db.rows[id], AttemptsOf(s.db, id), DeadCount(s.mq, id), h, Resting, Pending);
    PromotedAccount(s.now, s.providers, s'.db.rows[id], AttemptsOf(s.db, id), DeadCount(s.mq, id), Marked(h, Pending),
        Resting, h.promotions + 1);
    OneAccount(s, s', loc, id, to);
  }

  lemma {:induction false} ClaimAllInv(s: State, loc: Places, k: nat, ids: seq<Uuid>) returns (loc': Places)
    requires Inv(s, loc) && k in s.schedulers && s.schedulers[k].next == 0 && ClaimAllEnabled(s, k, ids)
    ensures Inv(ClaimAll(s, k, ids), loc')
    decreases |ids|
  {
    hide Inv;
    loc' := loc;
    if ids != [] {
      loc' := ClaimOneInv(s, loc, k, ids[0]);
      loc' := ClaimAllInv(ClaimOne(s, k, ids[0]), loc', k, ids[1..]);
    }
  }

  lemma SchedulerInv(s: State, loc: Places, k: nat) returns (loc': Places)
    requires Inv(s, loc) && SchedulerEnabled(s, k)
    ensures Inv(SchedulerStep(s, k), loc')
    ensures var item := s.schedulers[k].batch[s.schedulers[k].next];
            loc' == loc[item.id := Streamed(NextRef(s.mq, item.row.priority))]
  {
    hide At, Located, Moves, Accounts, MemberOf, ProcessorOk, EntriesOk, MembersOk, BatchesOk, SchedulersOk, WorkersOk,
      RowsOk, ClientsOk;
    var item := s.schedulers[k].batch[s.schedulers[k].next];
    SchedulerAgrees(s, k);
    PollMoves(s, loc, k);
    AppendKeepsRest(s.mq, item.row.priority, EntryFor(item));
    RestingMove(s, SchedulerStep(s, k), loc, item.id, Streamed(NextRef(s.mq, item.row.priority)));
    loc' := loc[item.id := Streamed(NextRef(s.mq, item.row.priority))];
  }

  // ---------------------------------------------------------------- workers

  lemma ResetWorkerInv(s: State, loc: Places, w: nat)
    requires Inv(s, loc) && WorkerIdle(s, w)
    ensures Inv(ResetWorker(s, w), loc)
  {
    hide Agree, At, Located, Stays, Account, ProcessorOk, AttemptsOf, HistoryOf, MemberOf;
    SetInboxAgrees(s, w, []);
    ResetWorkerStays(s, w);
    StaysLocated(s, ResetWorker(s, w), loc);
    SameAccounts(s, ResetWorker(s, w), loc);
  }

  lemma HandOutInv(s: State, loc: Places, w: nat, p: Priority) returns (loc': Places)
    requires Inv(s, loc) && w in s.workers && s.workers[w].next == 0 && s.workers[w].pc == Start
    ensures Inv(HandOut(s, w, p), loc')
    ensures loc' == if Cursor(s.mq, p) < |Log(s.mq, p)|
                    then loc[Log(s.mq, p)[Cursor(s.mq, p)].id := Inboxed(w, |s.workers[w].inbox|)] else loc
  {
    hide Agree, At, Located, Moves, Accounts, ProcessorOk, AttemptsOf, HistoryOf, MemberOf;
    loc' := loc;
    if Cursor(s.mq, p) < |Log(s.mq, p)| {
      var id := Log(s.mq, p)[Cursor(s.mq, p)].id;
      HandOutAgrees(s, w, p);
      HandOutMoves(s, loc, w, p);
      RestingMove(s, HandOut(s, w, p), loc, id, Inboxed(w, |s.workers[w].inbox|));
      loc' := loc[id := Inboxed(w, |s.workers[w].inbox|)];
    }
  }

  lemma ReadInv(s: State, loc: Places, w: nat) returns (loc': Places)
    requires Inv(s, loc) && WorkerIdle(s, w)
    ensures Inv(ReadStep(s, w), loc')
  {
    hide Inv;
    ResetWorkerInv(s, loc, w);
    var s1 := ResetWorker(s, w);
    loc' := HandOutInv(s1, loc, w, High);
    var s2 := HandOut(s1, w, High);
    loc' := HandOutInv(s2, loc', w, Normal);
    loc' := HandOutInv(HandOut(s2, w, Normal), loc', w, Low);
  }

  /** What the invariant says about a worker in the middle of a message. */
  lemma BusyKnows(s: State, loc: Places, w: nat)
    requires Inv(s, loc) && WorkerEnabled(s, w) && s.workers[w].pc.Busy?
    ensures var item := s.workers[w].pc.item;
            && Where(loc, item.id) == Working(w) && item.id in loc
            && ItemOk(s.db.rows, item) && Released(s.db.rows, s.now, item.id)
            && Account(s.now, s.providers, s.db.rows[item.id], AttemptsOf(s.db, item.id), DeadCount(s.mq, item.id),
                       HistoryOf(s.db, item.id), Active(item.row, s.workers[w].pc.stage))
  {
    hide Agree, Account, AttemptsOf, HistoryOf;
    var item := s.workers[w].pc.item;
    BusyFacts(s, w);
    AtIs(s, loc, item.id, Working(w));
    assert AccountAt(s, item.id, Working(w));
  }

  /** The books of every notification but the one worker w holds stay as they are. */
  lemma OthersKeepBooks(s: State, s': State, loc: Places, w: nat, id: Uuid, to: Carrier)
    requires Located(s, loc) && Accounts(s, loc) && forall i | i != id :: Where(loc, i) != Working(w)
    requires s'.now == s.now && s'.providers == s.providers
    requires forall v | v != w && v in s.workers :: v in s'.workers && s'.workers[v] == s.workers[v]
    requires forall i :: i in s.db.rows <==> i in s'.db.rows
    requires forall i | i in s.db.rows && i != id ::
               && s.db.rows[i] == s'.db.rows[i] && AttemptsOf(s.db, i) == AttemptsOf(s'.db, i)
               && HistoryOf(s.db, i) == HistoryOf(s'.db, i) && DeadCount(s.mq, i) == DeadCount(s'.mq, i)
    requires forall m | m in s.mq.delayed :: m in s'.mq.delayed
    requires forall i | i in s.db.rows && i != id && MemberOf(i, s.db.rows[i]) in s.mq.delayed ::
               s'.mq.delayed[MemberOf(i, s.db.rows[i])] == s.mq.delayed[MemberOf(i, s.db.rows[i])]
    requires id in s.db.rows && AccountAt(s', id, to)
    ensures Accounts(s', loc[id := to])
  {
    hide Account, MemberOf, AttemptsOf, HistoryOf, DeadCount, Accounts, AccountAt;
    forall i | i in s'.db.rows && i != id ensures Untouched(s, s', i, Where(loc, i)) {
      assert Where(loc, i) != Gone ==> At(s, i, Where(loc, i));
    }
    OneAccount(s, s', loc, id, to);
  }

  /** A worker holds no notification but the one of its current message. */
  lemma HoldsOnly(s: State, loc: Places, w: nat, id: Uuid)
    requires Located(s, loc) && w in s.workers && (s.workers[w].pc.Busy? ==> s.workers[w].pc.item.id == id)
    ensures forall i | i != id :: Where(loc, i) != Working(w)
  {
    forall i | i != id ensures Where(loc, i) != Working(w) {
      assert At(s, i, Working(w)) <==> Where(loc, i) == Working(w);
    }
  }

  /** The worker goes on to another stage after one command on its own row. */
  lemma StageInv(s: State, loc: Places, w: nat, db': Db, stage: Stage)
    requires Inv(s, loc) && WorkerEnabled(s, w) && s.workers[w].pc.Busy?
    requires Agree(s.(db := db', workers := Goto(s, w, Busy(s.workers[w].pc.item, stage))))
    requires Stays(s, s.(db := db'))
    requires forall i :: i in s.db.rows <==> i in db'.rows
    requires var id := s.workers[w].pc.item.id;
             && (forall i | i in s.db.rows && i != id ::
                   && s.db.rows[i] == db'.rows[i] && AttemptsOf(s.db, i) == AttemptsOf(db', i)
                   && HistoryOf(s.db, i) == HistoryOf(db', i))
             && (id in db'.rows ==>
                   Account(s.now, s.providers, db'.rows[id], AttemptsOf(db', id), DeadCount(s.mq, id),
                       HistoryOf(db', id), Active(s.workers[w].pc.item.row, stage)))
    ensures Inv(s.(db := db', workers := Goto(s, w, Busy(s.workers[w].pc.item, stage))), loc)
  {
    hide Agree, At, Located, Stays, Account, MemberOf, AttemptsOf, HistoryOf, DeadCount, ProcessorOk;
    var item := s.workers[w].pc.item;
    BusyKnows(s, loc, w);
    var s1 := s.(db := db');
    var s' := s.(db := db', workers := Goto(s, w, Busy(item, stage)));
    StaysLocated(s, s1, loc);
    StageStays(s1, w, stage);
    assert s' == s1.(workers := Goto(s1, w, Busy(item, stage)));
    StaysLocated(s1, s', loc);
    HoldsOnly(s, loc, w, item.id);
    OthersKeepBooks(s, s', loc, w, item.id, Working(w));
    assert loc[item.id := Working(w)] == loc;
  }

  /** The worker is done with the notification; nothing carries it any more. */
  lemma FinishInv(s: State, loc: Places, w: nat, db': Db, mq': Redis)
    requires Inv(s, loc) && WorkerEnabled(s, w) && s.workers[w].pc.Busy?
    requires Agree(s.(db := db', mq := mq', workers := Goto(s, w, Acking)))
    requires Stays(s, s.(db := db'))
    requires mq'.logs == s.mq.logs && mq'.cursors == s.mq.cursors && mq'.delayed == s.mq.delayed
    requires forall i :: i in s.db.rows <==> i in db'.rows
    requires var id := s.workers[w].pc.item.id;
             && (forall i | i in s.db.rows && i != id ::
                   && s.db.rows[i] == db'.rows[i] && AttemptsOf(s.db, i) == AttemptsOf(db', i)
                   && HistoryOf(s.db, i) == HistoryOf(db', i) && DeadCount(s.mq, i) == DeadCount(mq', i))
             && (id in db'.rows ==>
                   Account(s.now, s.providers, db'.rows[id], AttemptsOf(db', id), DeadCount(mq', id),
                       HistoryOf(db', id), Finished))
    ensures Inv(s.(db := db', mq := mq', workers := Goto(s, w, Acking)), loc[s.workers[w].pc.item.id := Gone])
  {
    hide Agree, At, Located, Moves, Stays, Account, MemberOf, AttemptsOf, HistoryOf, DeadCount, ProcessorOk;
    var item := s.workers[w].pc.item;
    BusyKnows(s, loc, w);
    var s1 := s.(db := db');
    var s2 := s1.(mq := mq');
    var s' := s.(db := db', mq := mq', workers := Goto(s, w, Acking));
    StaysLocated(s, s1, loc);
    QueuesStay(s1, mq');
    StaysLocated(s1, s2, loc);
    FinishMoves(s2, loc, w);
    assert s' == s2.(workers := Goto(s2, w, Acking));
    MovesLocated(s2, s', loc, item.id, Gone);
    HoldsOnly(s, loc, w, item.id);
    OthersKeepBooks(s, s', loc, w, item.id, Gone);
  }

  lemma ClaimedInv(s: State, loc: Places, w: nat, ok: bool)
    requires Inv(s, loc) && WorkerEnabled(s, w) && s.workers[w].pc.Busy? && s.workers[w].pc.stage == Claimed
    ensures Inv(BusyStep(s, w, ok), loc)
  {
    hide Inv, Agree, At, Stays, Account, AttemptsOf, DeadCount;
    BusyKnows(s, loc, w);
    InvAgrees(s, loc);
    BeforeSendAgrees(s, w, ok);
    var item := s.workers[w].pc.item;
    WriteStays(s, item.id, Processing);
    StatusAccount(s.now, s.providers, s.db.rows[item.id], AttemptsOf(s.db, item.id), DeadCount(s.mq, item.id),
                  HistoryOf(s.db, item.id), Active(item.row, Claimed), Processing);
    ClaimedIsRouted(s.now, s.providers, SetStatus(s.db.rows, item.id, Processing)[item.id], AttemptsOf(s.db, item.id),
                    DeadCount(s.mq, item.id), Marked(HistoryOf(s.db, item.id), Processing), item.row);
    SameAttempts(s.db, WriteStatus(s.db, item.id, Processing));
    StageInv(s, loc, w, WriteStatus(s.db, item.id, Processing), Routed);
  }

  lemma ClaimedIsRouted(now: int, providers: set<Channel>, r: Row, a: seq<Attempt>, dead: nat, h: History, n: Row)
    requires Account(now, providers, r, a, dead, h, Active(n, Claimed))
    ensures Account(now, providers, r, a, dead, h, Active(n, Routed))
  {
  }

  lemma InvAgrees(s: State, loc: Places)
    requires Inv(s, loc)
    ensures Agree(s)
  {
  }

  lemma RoutedInv(s: State, loc: Places, w: nat, ok: bool) returns (loc': Places)
    requires Inv(s, loc) && WorkerEnabled(s, w) && s.workers[w].pc.Busy? && s.workers[w].pc.stage == Routed
    ensures Inv(BusyStep(s, w, ok), loc')
    ensures loc' == if s.workers[w].pc.item.row.channel in s.providers then loc
        else loc[s.workers[w].pc.item.id := Gone]
  {
    hide Inv, Agree, At, Stays, Account, AttemptsOf, DeadCount;
    BusyKnows(s, loc, w);
    InvAgrees(s, loc);
    BeforeSendAgrees(s, w, ok);
    var item := s.workers[w].pc.item;
    if item.row.channel in s.providers {
      loc' := loc;
      RowsStay(s, RecordSend(s.db, item.id, s.now));
      SendAccount(s.now, s.providers, s.db.rows[item.id], AttemptsOf(s.db, item.id), DeadCount(s.mq, item.id),
                  HistoryOf(s.db, item.id), item.row);
      SameAttempts(s.db, RecordSend(s.db, item.id, s.now));
      StageInv(s, loc, w, RecordSend(s.db, item.id, s.now), Sending);
    } else {
      loc' := loc[item.id := Gone];
      WriteStays(s, item.id, Domain.Failed);
      UnroutableAccount(s.now, s.providers, s.db.rows[item.id], AttemptsOf(s.db, item.id), DeadCount(s.mq, item.id),
                        HistoryOf(s.db, item.id), item.row);
      var db' := WriteStatus(s.db, item.id, Domain.Failed);
      var mq' := Hand(s.mq, s.workers[w].inbox[s.workers[w].next].ref);
      SameAttempts(s.db, db');
      SameDead(s.mq, mq');
      FinishInv(s, loc, w, db', mq');
    }
  }

  lemma SameAttempts(db: Db, db': Db)
    requires db.attempts == db'.attempts
    ensures forall i :: AttemptsOf(db, i) == AttemptsOf(db', i)
  {
  }

  lemma SameHistory(db: Db, db': Db)
    requires db.hist == db'.hist
    ensures forall i :: HistoryOf(db, i) == HistoryOf(db', i)
  {
  }

  lemma SameDead(mq: Redis, mq': Redis)
    requires mq.dead == mq'.dead
    ensures forall i :: DeadCount(mq, i) == DeadCount(mq', i)
  {
  }

  lemma SendingInv(s: State, loc: Places, w: nat, ok: bool)
    requires Inv(s, loc) && WorkerEnabled(s, w) && s.workers[w].pc.Busy? && s.workers[w].pc.stage == Sending
    ensures Inv(BusyStep(s, w, ok), loc)
  {
    hide Inv, Agree, At, AttemptsOf, DeadCount, HistoryOf;
    BusyKnows(s, loc, w);
    InvAgrees(s, loc);
    BeforeSendAgrees(s, w, ok);
    StageInv(s, loc, w, s.db, Sent(ok));
  }

  lemma SentInv(s: State, loc: Places, w: nat, ok: bool)
    requires Inv(s, loc) && WorkerEnabled(s, w) && s.workers[w].pc.Busy? && s.workers[w].pc.stage.Sent?
    ensures Inv(BusyStep(s, w, ok), loc)
  {
    hide Inv, Agree, At, Stays, AttemptsOf, DeadCount, HistoryOf, AllFailed, Numbered, Spaced;
    BusyKnows(s, loc, w);
    InvAgrees(s, loc);
    RecordingAgrees(s, w, ok);
    var item := s.workers[w].pc.item;
    var db' := IncrementAttempt(s.db, item.id);
    RowsStay(s, db');
    SameAttempts(s.db, db');
    SameHistory(s.db, db');
    StageInv(s, loc, w, db', Counted(s.workers[w].pc.stage.ok));
  }

  lemma CountedInv(s: State, loc: Places, w: nat, ok: bool)
    requires Inv(s, loc) && WorkerEnabled(s, w) && s.workers[w].pc.Busy? && s.workers[w].pc.stage.Counted?
    ensures Inv(BusyStep(s, w, ok), loc)
  {
    hide Inv, Agree, At, Stays, Account, DeadCount, HistoryOf;
    BusyKnows(s, loc, w);
    InvAgrees(s, loc);
    RecordingAgrees(s, w, ok);
    var item := s.workers[w].pc.item;
    var sent := s.workers[w].pc.stage.ok;
    var db' := InsertAttempt(s.db, item.id, Attempt(item.row.attemptCount + 1, sent));
    RowsStay(s, db');
    RecordAccount(s.now, s.providers, s.db.rows[item.id], AttemptsOf(s.db, item.id), DeadCount(s.mq, item.id),
                  HistoryOf(s.db, item.id), item.row, sent);
    SameHistory(s.db, db');
    StageInv(s, loc, w, db', Recorded(sent));
  }

  lemma DeliveredInv(s: State, loc: Places, w: nat, ok: bool)
    requires Inv(s, loc) && WorkerEnabled(s, w) && s.workers[w].pc.Busy? && s.workers[w].pc.stage == Recorded(true)
    ensures Inv(BusyStep(s, w, ok), loc[s.workers[w].pc.item.id := Gone])
  {
    hide Inv, Agree, At, Stays, Account, DeadCount, AttemptsOf;
    BusyKnows(s, loc, w);
    InvAgrees(s, loc);
    DeliveredAgrees(s, w, ok);
    var item := s.workers[w].pc.item;
    WriteStays(s, item.id, Domain.Delivered);
    DeliveredAccount(s.now, s.providers, s.db.rows[item.id], AttemptsOf(s.db, item.id), DeadCount(s.mq, item.id),
                     HistoryOf(s.db, item.id), item.row);
    var db' := WriteStatus(s.db, item.id, Domain.Delivered);
    var mq' := Hand(s.mq, s.workers[w].inbox[s.workers[w].next].ref);
    SameAttempts(s.db, db');
    SameDead(s.mq, mq');
    FinishInv(s, loc, w, db', mq');
  }

  lemma RejectedInv(s: State, loc: Places, w: nat, ok: bool)
    requires Inv(s, loc) && WorkerEnabled(s, w) && s.workers[w].pc.Busy? && s.workers[w].pc.stage == Recorded(false)
    ensures Inv(BusyStep(s, w, ok), loc)
  {
    hide Inv, Agree, At, Stays, Account, DeadCount, AttemptsOf;
    BusyKnows(s, loc, w);
    InvAgrees(s, loc);
    RejectedAgrees(s, w, ok);
    var item := s.workers[w].pc.item;
    if Retry.ShouldRetry(item.row.attemptCount + 1, item.row.maxRetries) {
      var db' := RecordHandled(s.db, item.id, s.now);
      RowsStay(s, db');
      RetryAccount(s.now, s.providers, s.db.rows[item.id], AttemptsOf(s.db, item.id), DeadCount(s.mq, item.id),
                   HistoryOf(s.db, item.id), item.row);
      SameAttempts(s.db, db');
      StageInv(s, loc, w, db', Requeue(Retry.RetryAt(s.now, item.row.attemptCount + 1)));
    } else {
      WriteStays(s, item.id, Domain.Failed);
      BuryAccount(s.now, s.providers, s.db.rows[item.id], AttemptsOf(s.db, item.id), DeadCount(s.mq, item.id),
                  HistoryOf(s.db, item.id), item.row);
      var db' := WriteStatus(s.db, item.id, Domain.Failed);
      SameAttempts(s.db, db');
      StageInv(s, loc, w, db', Burying);
    }
  }

  lemma RequeueInv(s: State, loc: Places, w: nat, ok: bool)
    requires Inv(s, loc) && WorkerEnabled(s, w) && s.workers[w].pc.Busy? && s.workers[w].pc.stage.Requeue?
    ensures Inv(BusyStep(s, w, ok), loc)
  {
    hide Inv, Agree, At, Stays, Account, AttemptsOf, DeadCount;
    BusyKnows(s, loc, w);
    InvAgrees(s, loc);
    RequeueAgrees(s, w, ok);
    var item := s.workers[w].pc.item;
    var at := s.workers[w].pc.stage.at;
    WriteStays(s, item.id, Queued);
    StatusAccount(s.now, s.providers, s.db.rows[item.id], AttemptsOf(s.db, item.id), DeadCount(s.mq, item.id),
                  HistoryOf(s.db, item.id), Active(item.row, Requeue(at)), Queued);
    var db' := WriteStatus(s.db, item.id, Queued);
    RequeueIsDelaying(s.now, s.providers, db'.rows[item.id], AttemptsOf(s.db, item.id), DeadCount(s.mq, item.id),
                      HistoryOf(db', item.id), item.row, at);
    SameAttempts(s.db, db');
    StageInv(s, loc, w, db', Delaying(at));
  }

  lemma RequeueIsDelaying(now: int, providers: set<Channel>, r: Row, a: seq<Attempt>, dead: nat, h: History, n: Row,
      at: int)
    requires Account(now, providers, r, a, dead, h, Active(n, Requeue(at)))
    ensures Account(now, providers, r, a, dead, h, Active(n, Delaying(at)))
    ensures Account(now, providers, r, a, dead, h, Delayed(at))
  {
  }

  lemma DelayingIsDelayed(now: int, providers: set<Channel>, r: Row, a: seq<Attempt>, dead: nat, h: History, n: Row,
      at: int)
    requires Account(now, providers, r, a, dead, h, Active(n, Delaying(at)))
    ensures Account(now, providers, r, a, dead, h, Delayed(at))
  {
  }

  lemma BuryingInv(s: State, loc: Places, w: nat, ok: bool)
    requires Inv(s, loc) && WorkerEnabled(s, w) && s.workers[w].pc.Busy? && s.workers[w].pc.stage == Burying
    ensures Inv(BusyStep(s, w, ok), loc[s.workers[w].pc.item.id := Gone])
  {
    hide Inv, Agree, At, Stays, Account, AttemptsOf, HistoryOf;
    BusyKnows(s, loc, w);
    InvAgrees(s, loc);
    BuryingAgrees(s, w, ok);
    var item := s.workers[w].pc.item;
    DeadAccount(s.now, s.providers, s.db.rows[item.id], AttemptsOf(s.db, item.id), DeadCount(s.mq, item.id),
                HistoryOf(s.db, item.id), item.row);
    var mq' := Hand(PushDead(s.mq, item.id), s.workers[w].inbox[s.workers[w].next].ref);
    RowsStay(s, s.db);
    FinishInv(s, loc, w, s.db, mq');
  }

  lemma DelayingInv(s: State, loc: Places, w: nat, ok: bool)
    requires Inv(s, loc) && WorkerEnabled(s, w) && s.workers[w].pc.Busy? && s.workers[w].pc.stage.Delaying?
    ensures Inv(BusyStep(s, w, ok), loc[s.workers[w].pc.item.id := Retrying])
  {
    hide Agree, At, Moves, Stays, Located, Account, MemberOf, AttemptsOf, HistoryOf, DeadCount, ProcessorOk,
      SameColumns, Released;
    var item := s.workers[w].pc.item;
    var at := s.workers[w].pc.stage.at;
    var mq1 := EnqueueDelayed(s.mq, item, at);
    var s1 := s.(mq := mq1, workers := Goto(s, w, Acking));
    var s' := BusyStep(s, w, ok);
    BusyKnows(s, loc, w);
    DelayingAgrees(s, w, ok);
    DelayMoves(s, loc, w, at);
    MovesLocated(s, s1, loc, item.id, Retrying);
    QueuesStay(s1, s'.mq);
    StaysLocated(s1, s', loc[item.id := Retrying]);
    DelayedBooks(s, loc, w, at);
    forall p | p in s'.processors ensures ProcessorOk(s'.mq.delayed, s'.now, s'.processors[p]) {
      DelayKeepsProcessor(s, loc, w, at, p);
    }
  }

  lemma DelayedBooks(s: State, loc: Places, w: nat, at: int)
    requires Inv(s, loc) && WorkerEnabled(s, w) && s.workers[w].pc.Busy? && s.workers[w].pc.stage == Delaying(at)
    ensures Accounts(BusyStep(s, w, false), loc[s.workers[w].pc.item.id := Retrying])
  {
    hide Agree, At, Account, MemberOf, AttemptsOf, HistoryOf, DeadCount, LoopsOk, Released;
    var item := s.workers[w].pc.item;
    var s' := BusyStep(s, w, false);
    BusyKnows(s, loc, w);
    MemberKept(item.id, item.row, s.db.rows[item.id]);
    DelayingIsDelayed(s.now, s.providers, s.db.rows[item.id], AttemptsOf(s.db, item.id), DeadCount(s.mq, item.id),
                      HistoryOf(s.db, item.id), item.row, at);
    SameDead(s.mq, s'.mq);
    forall i | i in s.db.rows && i != item.id ensures MemberOf(i, s.db.rows[i]) != MemberOf(item.id, item.row) {
      MembersDiffer(i, s.db.rows[i], item.id, item.row);
    }
    HoldsOnly(s, loc, w, item.id);
    OthersKeepBooks(s, s', loc, w, item.id, Retrying);
  }

  /** A processor about to remove its batch has not got the member being re-added: its carrier is elsewhere. */
  lemma DelayKeepsProcessor(s: State, loc: Places, w: nat, at: int, p: nat)
    requires Inv(s, loc) && WorkerEnabled(s, w) && s.workers[w].pc.Busy? && p in s.processors
    ensures ProcessorOk(EnqueueDelayed(s.mq, s.workers[w].pc.item, at).delayed, s.now, s.processors[p])
  {
    hide Agree, Accounts, Account, MemberOf;
    var item := s.workers[w].pc.item;
    var proc := s.processors[p];
    BusyKnows(s, loc, w);
    MemberKept(item.id, item.row, s.db.rows[item.id]);
    assert !At(s, item.id, Retrying);
    assert ProcessorOk(s.mq.delayed, s.now, proc);
  }

  lemma LookUpInv(s: State, loc: Places, w: nat) returns (loc': Places)
    requires Inv(s, loc) && WorkerEnabled(s, w) && s.workers[w].pc == Start
    ensures Inv(LookUp(s, w), loc')
    ensures var id := s.workers[w].inbox[s.workers[w].next].id;
            id in s.db.rows && loc' == loc[id := if Terminal(s.db.rows[id].status) then Gone else Working(w)]
  {
    hide Agree, At, Moves, Stays, Located, Account, MemberOf, AttemptsOf, HistoryOf, DeadCount, ProcessorOk, Accounts,
      AccountAt, Terminal;
    var m := s.workers[w].inbox[s.workers[w].next];
    LookUpAgrees(s, w);
    LookUpReads(s, w);
    LookUpLoops(s, w);
    hide LoopsOk;
    var s' := LookUp(s, w);
    var to := if Terminal(s.db.rows[m.id].status) then Gone else Working(w);
    loc' := loc[m.id := to];
    var s1 := s.(mq := s'.mq);
    QueuesStay(s, s'.mq);
    StaysLocated(s, s1, loc);
    StartMoves(s1, loc, w, s'.workers[w].pc);
    assert s' == s1.(workers := Goto(s1, w, s'.workers[w].pc));
    MovesLocated(s1, s', loc, m.id, to);
    LookUpBooks(s, loc, w);
    SameDead(s.mq, s'.mq);
    HoldsOnly(s, loc, w, m.id);
    OthersKeepBooks(s, s', loc, w, m.id, to);
  }

  lemma LookUpLoops(s: State, w: nat)
    requires LoopsOk(s) && WorkerEnabled(s, w)
    ensures LoopsOk(LookUp(s, w))
  {
    hide ProcessorOk;
  }

  lemma LookUpReads(s: State, w: nat)
    requires Agree(s) && WorkerEnabled(s, w)
    ensures var id := s.workers[w].inbox[s.workers[w].next].id;
            && id in s.db.rows && RowOk(s.db.rows[id], HistoryOf(s.db, id))
  {
    var m := s.workers[w].inbox[s.workers[w].next];
    assert WorkerOk(s.db.rows, s.mq, s.workers[w]);
    assert MessageOk(s.mq, m);
    MessageReleased(s, m);
  }

  /** A row found finished can only have been cancelled: its carrier is still here. */
  lemma LookUpBooks(s: State, loc: Places, w: nat)
    requires Inv(s, loc) && WorkerEnabled(s, w) && s.workers[w].pc == Start
    ensures var id := s.workers[w].inbox[s.workers[w].next].id;
            id in s.db.rows && AccountAt(LookUp(s, w), id, if Terminal(s.db.rows[id].status) then Gone else Working(w))
  {
    hide Agree, MemberOf, AttemptsOf, HistoryOf, LoopsOk, Spaced, AllFailed, Numbered, Ready;
    var id := s.workers[w].inbox[s.workers[w].next].id;
    LookUpReads(s, w);
    AtIs(s, loc, id, Inboxed(w, s.workers[w].next));
    assert AccountAt(s, id, Inboxed(w, s.workers[w].next));
    SameDead(s.mq, LookUp(s, w).mq);
    if Terminal(s.db.rows[id].status) {
      CancelledAccount(s.now, s.providers, s.db.rows[id], AttemptsOf(s.db, id), DeadCount(s.mq, id),
          HistoryOf(s.db, id));
    } else {
      ClaimedAccount(s.now, s.providers, s.db.rows[id], AttemptsOf(s.db, id), DeadCount(s.mq, id), HistoryOf(s.db, id));
    }
  }

  lemma AckInv(s: State, loc: Places, w: nat)
    requires Inv(s, loc) && WorkerEnabled(s, w) && s.workers[w].pc == Acking
    ensures Inv(AckStep(s, w), loc)
  {
    hide Agree, At, Located, Stays, Account, ProcessorOk, AttemptsOf, HistoryOf, MemberOf;
    AckAgrees(s, w);
    AckStays(s, w);
    StaysLocated(s, AckStep(s, w), loc);
    SameAccounts(s, AckStep(s, w), loc);
  }

  lemma StopInv(s: State, loc: Places, w: nat)
    requires Inv(s, loc) && StopEnabled(s, w)
    ensures Inv(StopStep(s, w), loc)
  {
    hide Agree, At, Located, Stays, Account, ProcessorOk, AttemptsOf, HistoryOf, MemberOf;
    StopAgrees(s, w);
    StopStays(s, w);
    StaysLocated(s, StopStep(s, w), loc);
    SameAccounts(s, StopStep(s, w), loc);
  }

  lemma BusyInv(s: State, loc: Places, w: nat, ok: bool) returns (loc': Places)
    requires Inv(s, loc) && WorkerEnabled(s, w) && s.workers[w].pc.Busy?
    ensures Inv(BusyStep(s, w, ok), loc')
    ensures var pc := s.workers[w].pc;
            loc' == match pc.stage
                    case Routed => if pc.item.row.channel in s.providers then loc else loc[pc.item.id := Gone]
                    case Recorded(sent) => if sent then loc[pc.item.id := Gone] else loc
                    case Delaying(_) => loc[pc.item.id := Retrying]
                    case Burying => loc[pc.item.id := Gone]
                    case _ => loc
  {
    hide Inv, BusyStep;
    var id := s.workers[w].pc.item.id;
    loc' := loc;
    match s.workers[w].pc.stage {
      case Claimed => ClaimedInv(s, loc, w, ok);
      case Routed => loc' := RoutedInv(s, loc, w, ok);
      case Sending => SendingInv(s, loc, w, ok);
      case Sent(_) => SentInv(s, loc, w, ok);
      case Counted(_) => CountedInv(s, loc, w, ok);
      case Recorded(sent) =>
        if sent {
          DeliveredInv(s, loc, w, ok);
          loc' := loc[id := Gone];
        } else {
          RejectedInv(s, loc, w, ok);
        }
      case Requeue(_) => RequeueInv(s, loc, w, ok);
      case Delaying(_) =>
        DelayingInv(s, loc, w, ok);
        loc' := loc[id := Retrying];
      case Burying =>
        BuryingInv(s, loc, w, ok);
        loc' := loc[id := Gone];
    }
  }

  // ---------------------------------------------------------------- delayed processors

  lemma RangeInv(s: State, loc: Places, p: nat, at: int, batch: seq<string>)
    requires Inv(s, loc) && RangeEnabled(s, p, at, batch)
    ensures Inv(RangeStep(s, p, at, batch), loc)
  {
    hide Agree, At, Located, Stays, Accounts;
    RangeAgrees(s, p, at, batch);
    RangeStays(s, p, at, batch);
    StaysLocated(s, RangeStep(s, p, at, batch), loc);
    OtherActorsAccounts(s, RangeStep(s, p, at, batch), loc);
  }

  lemma RemoveOneInv(s: State, loc: Places, p: nat) returns (loc': Places)
    requires Inv(s, loc) && RemoveEnabled(s, p)
    ensures Inv(RemoveOne(s, p), loc')
    ensures var d := MC.Decode(s.processors[p].batch[s.processors[p].gone]);
            && d.Some? && Where(loc, d.value.id) == Retrying
            && loc' == loc[d.value.id := Popped(p, s.processors[p].gone)]
  {
    hide Agree, At, Moves, Located, Account, MemberOf, AttemptsOf, HistoryOf, DeadCount;
    var s' := RemoveOne(s, p);
    var proc := s.processors[p];
    var m := proc.batch[proc.gone];
    assert ProcessorOk(s.mq.delayed, s.now, proc);
    RemoveOneAgrees(s, p);
    BatchNames(s, p, proc.gone);
    var id := MC.Decode(m).value.id;
    var to := Popped(p, proc.gone);
    loc' := loc[id := to];
    RemoveOneMoves(s, loc, p, id);
    MovesLocated(s, s', loc, id, to);
    assert AccountAt(s, id, Retrying);
    DueAccount(s.now, s.providers, s.db.rows[id], AttemptsOf(s.db, id), DeadCount(s.mq, id), HistoryOf(s.db, id),
        s.mq.delayed[m]);
    SameDead(s.mq, s'.mq);
    forall i | i in s'.db.rows && i != id ensures Untouched(s, s', i, Where(loc, i)) {
      MembersDiffer(i, s.db.rows[i], id, s.db.rows[id]);
    }
    OneAccount(s, s', loc, id, to);
  }

  lemma DueAccount(now: int, providers: set<Channel>, r: Row, a: seq<Attempt>, dead: nat, h: History, score: int)
    requires Account(now, providers, r, a, dead, h, Delayed(score)) && score <= now
    ensures Account(now, providers, r, a, dead, h, Resting)
  {
  }

  lemma {:induction false} RemoveInv(s: State, loc: Places, p: nat) returns (loc': Places)
    requires Inv(s, loc) && RemoveEnabled(s, p)
    ensures Inv(RemoveStep(s, p), loc')
    decreases |s.processors[p].batch| - s.processors[p].gone
  {
    hide Inv;
    loc' := RemoveOneInv(s, loc, p);
    if RemoveEnabled(RemoveOne(s, p), p) {
      loc' := RemoveInv(RemoveOne(s, p), loc', p);
    }
  }

  lemma ProcessorInv(s: State, loc: Places, p: nat) returns (loc': Places)
    requires Inv(s, loc) && ProcessorEnabled(s, p)
    ensures Inv(ProcessorStep(s, p), loc')
    ensures var d := MC.Decode(s.processors[p].batch[s.processors[p].next]);
            && d.Some? && d.value.id in s.db.rows && Where(loc, d.value.id) == Popped(p, s.processors[p].next)
            && loc' == loc[d.value.id := Streamed(NextRef(s.mq, s.db.rows[d.value.id].priority))]
  {
    hide Agree, At, Moves, Located, Accounts, MemberOf, Redeliver, AttemptsOf, HistoryOf, DeadCount;
    var proc := s.processors[p];
    var m := proc.batch[proc.next];
    ProcessorAgrees(s, p);
    RedeliverMoves(s, loc, p);
    var id := MC.Decode(m).value.id;
    var to := Streamed(NextRef(s.mq, s.db.rows[id].priority));
    loc' := loc[id := to];
    RedeliverKeepsRest(s, p);
    RestingMove(s, ProcessorStep(s, p), loc, id, to);
  }

  lemma RedeliverKeepsRest(s: State, p: nat)
    requires Agree(s) && ProcessorEnabled(s, p)
    ensures var mq' := ProcessorStep(s, p).mq;
            mq'.delayed == s.mq.delayed && mq'.dead == s.mq.dead
  {
    hide Agree;
    BatchNames(s, p, s.processors[p].next);
  }

  // ---------------------------------------------------------------- every step, every run

  lemma WorkerInv(s: State, loc: Places, w: nat, ok: bool) returns (loc': Places)
    requires Inv(s, loc) && WorkerEnabled(s, w)
    ensures Inv(WorkerStep(s, w, ok), loc')
  {
    hide Inv, BusyStep, LookUp, AckStep;
    loc' := loc;
    match s.workers[w].pc {
      case Start => loc' := LookUpInv(s, loc, w);
      case Busy(_, _) => loc' := BusyInv(s, loc, w, ok);
      case Acking => AckInv(s, loc, w);
    }
  }

  lemma StepInv(s: State, loc: Places, step: Step) returns (loc': Places)
    requires Inv(s, loc) && Enabled(s, step) && !step.Reclaim?
    ensures Inv(Apply(s, step), loc')
  {
    hide Inv, WorkerStep, ClientStep, CancelStep, ClaimAll, SchedulerStep, HandOut, StopStep, RangeStep, RemoveStep,
      ProcessorStep, BornAll;
    loc' := loc;
    match step {
      case Tick(ms) => TickInv(s, loc, ms);
      case Insert(c, news) =>
        OpenClientInv(s, loc, c);
        loc' := BornAllInv(OpenClient(s, c), loc, c, news);
      case ClientNext(c) => loc' := ClientInv(s, loc, c);
      case Cancel(id) => loc' := CancelInv(s, loc, id);
      case Fetch(k, ids) =>
        ResetSchedulerInv(s, loc, k);
        loc' := ClaimAllInv(ResetScheduler(s, k), loc, k, ids);
      case SchedulerNext(k) => loc' := SchedulerInv(s, loc, k);
      case Read(w) => loc' := ReadInv(s, loc, w);
      case WorkerNext(w, ok) => loc' := WorkerInv(s, loc, w, ok);
      case Stop(w) => StopInv(s, loc, w);
      case Range(p, at, batch) => RangeInv(s, loc, p, at, batch);
      case Remove(p) => loc' := RemoveInv(s, loc, p);
      case ProcessorNext(p) => loc' := ProcessorInv(s, loc, p);
    }
  }

  /** A run of configuration A: ClaimStale never redelivers. */
  predicate NoReclaim(steps: seq<Step>) {
    forall i | 0 <= i < |steps| :: !steps[i].Reclaim?
  }

  lemma {:induction false} RunInv(s: State, loc: Places, steps: seq<Step>) returns (loc': Places)
    requires Inv(s, loc) && ValidRun(s, steps) && NoReclaim(steps)
    ensures Inv(After(s, steps), loc')
    decreases |steps|
  {
    hide Inv, Apply;
    loc' := loc;
    if steps != [] {
      loc' := StepInv(s, loc, steps[0]);
      loc' := RunInv(Apply(s, steps[0]), loc', steps[1..]);
    }
  }
}
