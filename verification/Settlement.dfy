/**
 What is over stays over: a notification that has lost its last carrier never gets another one, so its outcome is
 final. Hence also a notification whose enqueue failed is never sent, for nothing enqueues it again.
 */
module Settlement {
  import opened Domain
  import opened Table
  import opened Pipeline
  import opened Agreement
  import opened Carriers
  import opened Books
  import opened Conservation
  import opened Timeline
  import D = Drain
  import G = Guarantees
  import Retry

  // ---------------------------------------------------------------- books change only where a worker acts

  /** The same sends and recorded attempts, and neither `delivered` nor `failed` newly written. */
  ghost predicate KeepsRecord(db: Db, db': Db, id: Uuid) {
    var h, h' := HistoryOf(db, id), HistoryOf(db', id);
    && id in db.rows && id in db'.rows
    && db'.rows[id].attemptCount == db.rows[id].attemptCount && SameColumns(db.rows[id], db'.rows[id])
    && AttemptsOf(db', id) == AttemptsOf(db, id) && h'.sends == h.sends && h.marked <= h'.marked
    && (Delivered in h'.marked <==> Delivered in h.marked) && (Failed in h'.marked <==> Failed in h.marked)
  }

  /** And the same dead letters. */
  ghost predicate SameBooks(s: State, s': State, id: Uuid) {
    KeepsRecord(s.db, s'.db, id) && DeadCount(s'.mq, id) == DeadCount(s.mq, id)
  }

  lemma KeepsRecordSelf(db: Db, id: Uuid)
    requires id in db.rows
    ensures KeepsRecord(db, db, id)
  {
  }

  lemma WriteKeepsRecord(db: Db, other: Uuid, status: Status, id: Uuid)
    requires id in db.rows && (other == id ==> status != Delivered && status != Failed)
    ensures KeepsRecord(db, WriteStatus(db, other, status), id)
  {
  }

  lemma CommandsKeepRecord(db: Db, other: Uuid, a: Attempt, now: int, id: Uuid)
    requires id in db.rows && other != id
    ensures KeepsRecord(db, IncrementAttempt(db, other), id)
    ensures KeepsRecord(db, InsertAttempt(db, other, a), id)
    ensures KeepsRecord(db, RecordSend(db, other, now), id)
    ensures KeepsRecord(db, RecordHandled(db, other, now), id)
  {
  }

  lemma KeepsRecordOn(a: Db, b: Db, c: Db, id: Uuid)
    requires KeepsRecord(a, b, id) && KeepsRecord(b, c, id)
    ensures KeepsRecord(a, c, id)
  {
  }

  /** A worker is about to act on notification id. */
  predicate ActsOn(s: State, step: Step, id: Uuid) {
    step.WorkerNext? && step.w in s.workers && s.workers[step.w].pc.Busy? && s.workers[step.w].pc.item.id == id
  }

  lemma BusyKeepsRecord(s: State, w: nat, ok: bool, id: Uuid)
    requires WorkerEnabled(s, w) && s.workers[w].pc.Busy? && s.workers[w].pc.item.id != id && id in s.db.rows
    ensures KeepsRecord(s.db, BusyStep(s, w, ok).db, id)
    ensures DeadCount(BusyStep(s, w, ok).mq, id) == DeadCount(s.mq, id)
  {
    hide WriteStatus, IncrementAttempt, InsertAttempt, RecordSend, RecordHandled, KeepsRecord, EnqueueDelayed;
    var other := s.workers[w].pc.item.id;
    var n := s.workers[w].pc.item.row;
    match s.workers[w].pc.stage {
      case Claimed => WriteKeepsRecord(s.db, other, Processing, id);
      case Routed =>
        WriteKeepsRecord(s.db, other, Failed, id);
        CommandsKeepRecord(s.db, other, Attempt(0, ok), s.now, id);
      case Sending => KeepsRecordSelf(s.db, id);
      case Sent(sent) => CommandsKeepRecord(s.db, other, Attempt(0, ok), s.now, id);
      case Counted(sent) => CommandsKeepRecord(s.db, other, Attempt(n.attemptCount + 1, sent), s.now, id);
      case Recorded(sent) =>
        WriteKeepsRecord(s.db, other, Delivered, id);
        WriteKeepsRecord(s.db, other, Failed, id);
        CommandsKeepRecord(s.db, other, Attempt(0, ok), s.now, id);
      case Requeue(_) => WriteKeepsRecord(s.db, other, Queued, id);
      case Delaying(_) =>
        KeepsRecordSelf(s.db, id);
        DelayIsNoDeath(s.mq, s.workers[w].pc.item, s.workers[w].pc.stage.at);
      case Burying => KeepsRecordSelf(s.db, id);
    }
  }

  lemma DelayIsNoDeath(mq: Redis, item: Item, at: int)
    ensures EnqueueDelayed(mq, item, at).dead == mq.dead
  {
  }

  lemma WorkerKeepsRecord(s: State, w: nat, ok: bool, id: Uuid)
    requires WorkerEnabled(s, w) && id in s.db.rows && !ActsOn(s, WorkerNext(w, ok), id)
    ensures SameBooks(s, WorkerStep(s, w, ok), id)
  {
    hide BusyStep, KeepsRecord;
    KeepsRecordSelf(s.db, id);
    if s.workers[w].pc.Busy? {
      BusyKeepsRecord(s, w, ok, id);
    }
  }

  lemma {:induction false} BornAllKeepsRecord(s: State, c: nat, news: seq<New>, id: Uuid)
    requires c in s.clients && InsertAll(s.db.rows, news).Stored? && id in s.db.rows
    ensures KeepsRecord(s.db, BornAll(s, c, news).db, id) && BornAll(s, c, news).mq == s.mq
    decreases |news|
  {
    if news != [] {
      BornAllKeepsRecord(Born(s, c, news[0]), c, news[1..], id);
    }
  }

  lemma PromoteKeepsRecord(db: Db, other: Uuid, id: Uuid)
    requires id in db.rows
    ensures KeepsRecord(db, PromoteRow(db, other), id)
  {
  }

  lemma {:induction false} ClaimAllKeepsRecord(s: State, k: nat, ids: seq<Uuid>, id: Uuid)
    requires ClaimAllEnabled(s, k, ids) && id in s.db.rows
    ensures KeepsRecord(s.db, ClaimAll(s, k, ids).db, id) && ClaimAll(s, k, ids).mq == s.mq
    decreases |ids|
  {
    hide PromoteRow;
    if ids != [] {
      var s1 := ClaimOne(s, k, ids[0]);
      PromoteKeepsRecord(s.db, ids[0], id);
      ClaimAllKeepsRecord(s1, k, ids[1..], id);
      KeepsRecordOn(s.db, s1.db, ClaimAll(s1, k, ids[1..]).db, id);
    }
  }

  lemma HandOutBuriesNone(s: State, w: nat, p: Priority)
    requires w in s.workers
    ensures HandOut(s, w, p).db == s.db && HandOut(s, w, p).mq.dead == s.mq.dead && w in HandOut(s, w, p).workers
  {
  }

  lemma ReadBuriesNone(s: State, w: nat)
    requires WorkerIdle(s, w)
    ensures ReadStep(s, w).db == s.db && ReadStep(s, w).mq.dead == s.mq.dead
  {
    hide HandOut;
    var s1 := ResetWorker(s, w);
    HandOutBuriesNone(s1, w, High);
    HandOutBuriesNone(HandOut(s1, w, High), w, Normal);
    HandOutBuriesNone(HandOut(HandOut(s1, w, High), w, Normal), w, Low);
  }

  /** No step changes a notification's books unless a worker acts on it. */
  lemma StepKeepsRecord(s: State, step: Step, id: Uuid)
    requires Enabled(s, step) && id in s.db.rows && !ActsOn(s, step, id)
    ensures SameBooks(s, Apply(s, step), id)
  {
    hide BornAll, ClaimAll, ReadStep, RemoveStep, WorkerStep, WriteStatus, KeepsRecord, InsertAll, DueBatch;
    KeepsRecordSelf(s.db, id);
    match step {
      case Insert(c, news) => BornAllKeepsRecord(OpenClient(s, c), c, news, id);
      case ClientNext(c) => WriteKeepsRecord(s.db, s.clients[c].batch[s.clients[c].next].id, Queued, id);
      case Cancel(i) => WriteKeepsRecord(s.db, i, Cancelled, id);
      case Fetch(k, ids) => ClaimAllKeepsRecord(ResetScheduler(s, k), k, ids, id);
      case Read(w) => ReadBuriesNone(s, w);
      case WorkerNext(w, ok) => WorkerKeepsRecord(s, w, ok, id);
      case Remove(p) => G.RemovesBatch(s, p);
      case ProcessorNext(p) => RedeliverBuriesNone(s.mq, s.processors[p].batch[s.processors[p].next]);
      case _ =>
    }
  }

  lemma RedeliverBuriesNone(mq: Redis, member: string)
    ensures Redeliver(mq, member).dead == mq.dead
  {
  }

  // ---------------------------------------------------------------- outcomes are final

  lemma GoneStays(s: State, loc: Places, step: Step, id: Uuid) returns (loc': Places)
    requires Inv(s, loc) && Enabled(s, step) && !step.Reclaim? && id in s.db.rows && Where(loc, id) == Gone
    ensures Inv(Apply(s, step), loc') && Where(loc', id) == Gone && SameBooks(s, Apply(s, step), id)
  {
    hide Inv, SameBooks, At, D.Rank;
    assert !ActsOn(s, step, id) by {
      GoneHasNoWorker(s, loc, step, id);
    }
    StepKeepsRecord(s, step, id);
    if step.Insert? {
      hide BornAll;
      OpenClientInv(s, loc, step.c);
      loc' := BornAllInv(OpenClient(s, step.c), loc, step.c, step.news);
    } else {
      hide Apply, Enabled;
      StepGrows(s, step);
      loc' := D.StepLowers(s, loc, step);
      GoneIsLowest(s, loc, Apply(s, step), loc', id);
    }
  }

  lemma GoneHasNoWorker(s: State, loc: Places, step: Step, id: Uuid)
    requires Inv(s, loc) && Where(loc, id) == Gone
    ensures !ActsOn(s, step, id)
  {
    hide Agree, Accounts, LoopsOk;
    if ActsOn(s, step, id) {
      ActsIsAt(s, step, id);
    }
  }

  lemma ActsIsAt(s: State, step: Step, id: Uuid)
    requires ActsOn(s, step, id)
    ensures exists w :: At(s, id, Working(w))
  {
    assert At(s, id, Working(step.w));
  }

  lemma GoneIsLowest(s: State, loc: Places, s': State, loc': Places, id: Uuid)
    requires D.Lowers(s, loc, s', loc') && Inv(s', loc') && id in s.db.rows && Where(loc, id) == Gone
    ensures Where(loc', id) == Gone
  {
    hide Inv;
    assert id in s'.db.rows;
    D.RankPositive(s', loc', id);
  }

  lemma {:induction false} GoneForGood(s: State, loc: Places, steps: seq<Step>, id: Uuid) returns (loc': Places)
    requires Inv(s, loc) && ValidRun(s, steps) && NoReclaim(steps) && id in s.db.rows && Where(loc, id) == Gone
    ensures Inv(After(s, steps), loc') && Where(loc', id) == Gone && SameBooks(s, After(s, steps), id)
    decreases |steps|
  {
    hide Inv, Apply, Enabled, HistoryOf, AttemptsOf, DeadCount;
    loc' := loc;
    if steps != [] {
      loc' := GoneStays(s, loc, steps[0], id);
      loc' := GoneForGood(Apply(s, steps[0]), loc', steps[1..], id);
    }
  }

  ghost predicate NoCarrier(s: State, id: Uuid) {
    forall x :: !At(s, id, x)
  }

  // Which of the four outcomes a notification without a carrier has reached.
  datatype Outcome = Delivery | Burial | Cancellation | NoRoute

  ghost predicate Reached(s: State, id: Uuid, o: Outcome)
    requires id in s.db.rows
  {
    var r, a, dead, h := s.db.rows[id], AttemptsOf(s.db, id), DeadCount(s.mq, id), HistoryOf(s.db, id);
    match o
    case Delivery => WasDelivered(r, a, dead, h)
    case Burial => WasBuried(r, a, dead, h)
    case Cancellation => WasCancelled(r, a, dead, h)
    case NoRoute => WasUnroutable(s.providers, r, a, dead, h)
  }

  lemma OutcomeKept(s: State, s': State, id: Uuid, o: Outcome)
    requires SameBooks(s, s', id) && s'.providers == s.providers && Reached(s, id, o)
    ensures Reached(s', id, o)
  {
  }

  lemma {:induction false} SameProviders(s: State, steps: seq<Step>)
    requires ValidRun(s, steps)
    ensures After(s, steps).providers == s.providers
    decreases |steps|
  {
    hide Apply, Enabled;
    if steps != [] {
      StepKeepsProviders(s, steps[0]);
      SameProviders(Apply(s, steps[0]), steps[1..]);
    }
  }

  /**
   A notification with no carrier has none in any continuation without ClaimStale: nothing more is sent, recorded or
   buried for it, and the outcome it has reached, it has for good.
   */
  lemma SettledIsFinal(s0: State, steps: seq<Step>, more: seq<Step>, id: Uuid) returns (o: Outcome)
    requires G.RunA(s0, steps) && id in After(s0, steps).db.rows && NoCarrier(After(s0, steps), id)
    requires ValidRun(After(s0, steps), more) && NoReclaim(more)
    ensures var s, s' := After(s0, steps), After(After(s0, steps), more);
            NoCarrier(s', id) && SameBooks(s, s', id) && Reached(s, id, o) && Reached(s', id, o)
  {
    hide After, Inv, At, SameBooks, Reached, ValidRun;
    var s := After(s0, steps);
    var loc := G.ReachedInv(s0, steps);
    HereIsNone(s, loc, id);
    o := ReachedOne(s0, steps, id);
    var loc' := GoneForGood(s, loc, more, id);
    SameProviders(s, more);
    OutcomeKept(s, After(s, more), id, o);
    NoneIsHere(After(s, more), loc', id);
  }

  lemma ReachedOne(s0: State, steps: seq<Step>, id: Uuid) returns (o: Outcome)
    requires G.RunA(s0, steps) && id in After(s0, steps).db.rows && NoCarrier(After(s0, steps), id)
    ensures Reached(After(s0, steps), id, o)
  {
    hide After, At, AttemptsOf, HistoryOf, DeadCount, WasDelivered, WasBuried, WasCancelled, WasUnroutable;
    G.ExactlyOneOutcome(s0, steps, id);
    var s := After(s0, steps);
    var r, a, dead, h := s.db.rows[id], AttemptsOf(s.db, id), DeadCount(s.mq, id), HistoryOf(s.db, id);
    o := if WasDelivered(r, a, dead, h) then Delivery
         else if WasBuried(r, a, dead, h) then Burial
         else if WasCancelled(r, a, dead, h) then Cancellation
         else NoRoute;
  }

  lemma HereIsNone(s: State, loc: Places, id: Uuid)
    requires Inv(s, loc) && NoCarrier(s, id)
    ensures Where(loc, id) == Gone
  {
    hide Agree, Accounts, LoopsOk, At;
    assert At(s, id, Where(loc, id)) <==> Where(loc, id) != Gone;
  }

  lemma NoneIsHere(s: State, loc: Places, id: Uuid)
    requires Inv(s, loc) && Where(loc, id) == Gone
    ensures NoCarrier(s, id)
  {
    hide Agree, Accounts, LoopsOk, At;
  }

  lemma StepKeepsProviders(s: State, step: Step)
    requires Enabled(s, step)
    ensures Apply(s, step).providers == s.providers
  {
    hide BornAll, ClaimAll, ReadStep, RemoveStep, BusyStep;
    match step {
      case Insert(c, news) => BornAllKeepsProviders(OpenClient(s, c), c, news);
      case Fetch(k, ids) => ClaimAllKeepsProviders(ResetScheduler(s, k), k, ids);
      case Read(w) => ReadKeepsProviders(s, w);
      case WorkerNext(w, ok) => if s.workers[w].pc.Busy? { BusyKeepsProviders(s, w, ok); }
      case Remove(p) => G.RemovesBatch(s, p);
      case _ =>
    }
  }

  lemma {:induction false} BornAllKeepsProviders(s: State, c: nat, news: seq<New>)
    requires c in s.clients
    ensures BornAll(s, c, news).providers == s.providers
    decreases |news|
  {
    if news != [] {
      BornAllKeepsProviders(Born(s, c, news[0]), c, news[1..]);
    }
  }

  lemma {:induction false} ClaimAllKeepsProviders(s: State, k: nat, ids: seq<Uuid>)
    requires ClaimAllEnabled(s, k, ids)
    ensures ClaimAll(s, k, ids).providers == s.providers
    decreases |ids|
  {
    if ids != [] {
      ClaimAllKeepsProviders(ClaimOne(s, k, ids[0]), k, ids[1..]);
    }
  }

  lemma ReadKeepsProviders(s: State, w: nat)
    requires WorkerIdle(s, w)
    ensures ReadStep(s, w).providers == s.providers
  {
  }

  lemma BusyKeepsProviders(s: State, w: nat, ok: bool)
    requires WorkerEnabled(s, w) && s.workers[w].pc.Busy?
    ensures BusyStep(s, w, ok).providers == s.providers
  {
  }

  // ---------------------------------------------------------------- a failed enqueue

  /** Service.Create's XADD failed: the error is logged, the row stays `pending`, and the loop goes on. */
  predicate EnqueueDue(s: State, c: nat) {
    ClientEnabled(s, c) && s.clients[c].batch[s.clients[c].next].row.status == Pending && !s.clients[c].enqueued
  }

  function FailedEnqueue(s: State, c: nat): State
    requires EnqueueDue(s, c)
  {
    s.(clients := s.clients[c := s.clients[c].(next := s.clients[c].next + 1)])
  }

  /** State s beside one more client, which holds the item and never takes a step. */
  function Beside(s: State, d: nat, idle: Client): State {
    s.(clients := s.clients[d := idle])
  }

  ghost predicate Avoids(s: State, step: Step, d: nat) {
    d !in s.clients && !(step.Insert? && step.c == d)
  }

  lemma {:induction false} BornAllBeside(s: State, c: nat, news: seq<New>, d: nat, idle: Client)
    requires c in s.clients && c != d
    ensures BornAll(Beside(s, d, idle), c, news) == Beside(BornAll(s, c, news), d, idle)
    ensures BornAll(s, c, news).clients.Keys == s.clients.Keys
    decreases |news|
  {
    if news != [] {
      var s1 := Born(s, c, news[0]);
      assert Born(Beside(s, d, idle), c, news[0]) == Beside(s1, d, idle) by {
        assert Born(Beside(s, d, idle), c, news[0]).clients == Beside(s1, d, idle).clients;
      }
      hide Born;
      BornAllBeside(s1, c, news[1..], d, idle);
    }
  }

  lemma {:induction false} ClaimAllBeside(s: State, k: nat, ids: seq<Uuid>, d: nat, idle: Client)
    requires ClaimAllEnabled(s, k, ids)
    ensures ClaimAllEnabled(Beside(s, d, idle), k, ids)
    ensures ClaimAll(Beside(s, d, idle), k, ids) == Beside(ClaimAll(s, k, ids), d, idle)
    ensures ClaimAll(s, k, ids).clients == s.clients
    decreases |ids|
  {
    if ids != [] {
      var s1 := ClaimOne(s, k, ids[0]);
      assert ClaimOne(Beside(s, d, idle), k, ids[0]) == Beside(s1, d, idle);
      ClaimAllBeside(s1, k, ids[1..], d, idle);
    }
  }

  lemma HandOutBeside(s: State, w: nat, p: Priority, d: nat, idle: Client)
    requires w in s.workers
    ensures w in HandOut(s, w, p).workers && HandOut(s, w, p).clients == s.clients
    ensures HandOut(Beside(s, d, idle), w, p) == Beside(HandOut(s, w, p), d, idle)
  {
  }

  lemma ReadBeside(s: State, w: nat, d: nat, idle: Client)
    requires WorkerIdle(s, w)
    ensures ReadStep(s, w).clients == s.clients
    ensures ReadStep(Beside(s, d, idle), w) == Beside(ReadStep(s, w), d, idle)
  {
    hide HandOut;
    var s1 := ResetWorker(s, w);
    assert ResetWorker(Beside(s, d, idle), w) == Beside(s1, d, idle);
    HandOutBeside(s1, w, High, d, idle);
    HandOutBeside(HandOut(s1, w, High), w, Normal, d, idle);
    HandOutBeside(HandOut(HandOut(s1, w, High), w, Normal), w, Low, d, idle);
  }

  lemma SendingBeside(s: State, w: nat, ok: bool, d: nat, idle: Client)
    requires WorkerEnabled(s, w) && s.workers[w].pc.Busy?
    requires var stage := s.workers[w].pc.stage;
             stage.Claimed? || stage.Routed? || stage.Sending? || stage.Sent? || stage.Counted?
    ensures BusyStep(Beside(s, d, idle), w, ok) == Beside(BusyStep(s, w, ok), d, idle)
  {
    hide WriteStatus, IncrementAttempt, InsertAttempt, RecordSend, Hand;
    match s.workers[w].pc.stage {
      case Claimed =>
      case Routed =>
      case Sending =>
      case Sent(_) =>
      case Counted(_) =>
    }
  }

  lemma ActingBeside(s: State, w: nat, ok: bool, d: nat, idle: Client)
    requires WorkerEnabled(s, w) && s.workers[w].pc.Busy?
    requires var stage := s.workers[w].pc.stage;
             stage.Recorded? || stage.Requeue? || stage.Delaying? || stage.Burying?
    ensures BusyStep(Beside(s, d, idle), w, ok) == Beside(BusyStep(s, w, ok), d, idle)
  {
    hide WriteStatus, RecordHandled, Hand, EnqueueDelayed, PushDead, Retry.Backoff, Retry.ShouldRetry;
    match s.workers[w].pc.stage {
      case Recorded(_) =>
      case Requeue(_) =>
      case Delaying(_) =>
      case Burying =>
    }
  }

  lemma BusyBeside(s: State, w: nat, ok: bool, d: nat, idle: Client)
    requires WorkerEnabled(s, w) && s.workers[w].pc.Busy?
    ensures BusyStep(s, w, ok).clients == s.clients
    ensures BusyStep(Beside(s, d, idle), w, ok) == Beside(BusyStep(s, w, ok), d, idle)
  {
    hide BusyStep;
    BusyWorkers(s, w, ok);
    match s.workers[w].pc.stage {
      case Claimed | Routed | Sending | Sent(_) | Counted(_) => SendingBeside(s, w, ok, d, idle);
      case Recorded(_) | Requeue(_) | Delaying(_) | Burying => ActingBeside(s, w, ok, d, idle);
    }
  }

  lemma WorkerBeside(s: State, w: nat, ok: bool, d: nat, idle: Client)
    requires WorkerEnabled(s, w)
    ensures WorkerStep(s, w, ok).clients == s.clients
    ensures WorkerStep(Beside(s, d, idle), w, ok) == Beside(WorkerStep(s, w, ok), d, idle)
  {
    hide BusyStep;
    if s.workers[w].pc.Busy? {
      BusyBeside(s, w, ok, d, idle);
    }
  }

  lemma RemoveBeside(s: State, p: nat, d: nat, idle: Client)
    requires RemoveEnabled(s, p)
    ensures RemoveStep(s, p).clients == s.clients
    ensures RemoveStep(Beside(s, d, idle), p) == Beside(RemoveStep(s, p), d, idle)
  {
    hide RemoveStep;
    G.RemovesBatch(s, p);
    G.RemovesBatch(Beside(s, d, idle), p);
  }

  lemma ClientBeside(s: State, c: nat, d: nat, idle: Client)
    requires ClientEnabled(s, c) && c != d
    ensures ClientStep(s, c).clients.Keys == s.clients.Keys
    ensures ClientStep(Beside(s, d, idle), c) == Beside(ClientStep(s, c), d, idle)
  {
    hide WriteStatus, EnqueueItem;
    var client := ClientStep(s, c).clients[c];
    assert s.clients[d := idle][c := client] == s.clients[c := client][d := idle];
  }

  lemma InsertBeside(s: State, c: nat, news: seq<New>, d: nat, idle: Client)
    requires InsertEnabled(s, c, news) && c != d && d !in s.clients
    ensures InsertEnabled(Beside(s, d, idle), c, news)
    ensures InsertStep(Beside(s, d, idle), c, news) == Beside(InsertStep(s, c, news), d, idle)
    ensures d !in InsertStep(s, c, news).clients
  {
    hide BornAll, InsertAll;
    BornAllBeside(OpenClient(s, c), c, news, d, idle);
    assert OpenClient(Beside(s, d, idle), c).clients == Beside(OpenClient(s, c), d, idle).clients;
    assert d !in OpenClient(s, c).clients.Keys;
  }

  lemma FetchBeside(s: State, k: nat, ids: seq<Uuid>, d: nat, idle: Client)
    requires FetchEnabled(s, k, ids)
    ensures FetchEnabled(Beside(s, d, idle), k, ids)
    ensures FetchStep(Beside(s, d, idle), k, ids) == Beside(FetchStep(s, k, ids), d, idle)
    ensures FetchStep(s, k, ids).clients == s.clients
  {
    hide ClaimAll, ClaimAllEnabled;
    assert ResetScheduler(Beside(s, d, idle), k) == Beside(ResetScheduler(s, k), d, idle);
    ClaimAllBeside(ResetScheduler(s, k), k, ids, d, idle);
  }

  /** Whatever can happen can happen beside a client that never runs, with the same effect. */
  lemma StepBeside(s: State, step: Step, d: nat, idle: Client)
    requires Enabled(s, step) && Avoids(s, step, d)
    ensures Enabled(Beside(s, d, idle), step)
    ensures Apply(Beside(s, d, idle), step) == Beside(Apply(s, step), d, idle)
    ensures d !in Apply(s, step).clients
  {
    hide InsertStep, InsertEnabled, FetchStep, FetchEnabled, ReadStep, RemoveStep, WorkerStep, ClientStep, WriteStatus;
    hide DueBatch, Redeliver;
    match step {
      case Insert(c, news) => InsertBeside(s, c, news, d, idle);
      case ClientNext(c) => ClientBeside(s, c, d, idle);
      case Fetch(k, ids) => FetchBeside(s, k, ids, d, idle);
      case Read(w) => ReadBeside(s, w, d, idle);
      case WorkerNext(w, ok) => WorkerBeside(s, w, ok, d, idle);
      case Remove(p) => RemoveBeside(s, p, d, idle);
      case _ =>
    }
  }

  function Holding(item: Item): Client {
    Client([item], 0, false)
  }

  /** The item of a failed enqueue might as well be held by a client that never runs. */
  lemma FailureIsIdling(s: State, loc: Places, c: nat, d: nat)
    requires Inv(s, loc) && EnqueueDue(s, c) && d !in s.clients
    ensures var item := s.clients[c].batch[s.clients[c].next];
            Inv(Beside(FailedEnqueue(s, c), d, Holding(item)), loc[item.id := WithClient(d, 0)])
  {
    hide Located, Accounts, Agree, At, Moves, ProcessorOk;
    var item := s.clients[c].batch[s.clients[c].next];
    var s' := Beside(FailedEnqueue(s, c), d, Holding(item));
    FailureAgrees(s, c, d);
    FailureMoves(s, loc, c, d);
    RestingMove(s, s', loc, item.id, WithClient(d, 0));
    FailureLoopsOk(s, c, d);
  }

  lemma FailureLoopsOk(s: State, c: nat, d: nat)
    requires LoopsOk(s) && EnqueueDue(s, c) && d !in s.clients
    ensures LoopsOk(Beside(FailedEnqueue(s, c), d, Holding(s.clients[c].batch[s.clients[c].next])))
  {
    hide ProcessorOk;
  }

  lemma FailureAgrees(s: State, c: nat, d: nat)
    requires Agree(s) && EnqueueDue(s, c) && d !in s.clients
    ensures Agree(Beside(FailedEnqueue(s, c), d, Holding(s.clients[c].batch[s.clients[c].next])))
  {
    hide EntriesOk, MembersOk, BatchesOk, SchedulersOk, WorkersOk, RowsOk, RefsOk, DeadOk, ClientItemOk;
    var item := s.clients[c].batch[s.clients[c].next];
    var s' := Beside(FailedEnqueue(s, c), d, Holding(item));
    forall c', i | c' in s'.clients && 0 <= i < |s'.clients[c'].batch|
      ensures ClientItemOk(s'.db.rows, s'.now, s'.clients[c'].batch[i])
    {
      if c' == d {
        assert ClientItemOk(s.db.rows, s.now, s.clients[c].batch[s.clients[c].next]);
      } else {
        assert ClientItemOk(s.db.rows, s.now, s.clients[c'].batch[i]);
      }
    }
  }

  lemma FailureMoves(s: State, loc: Places, c: nat, d: nat)
    requires Located(s, loc) && EnqueueDue(s, c) && d !in s.clients
    ensures var item := s.clients[c].batch[s.clients[c].next];
            && Moves(s, Beside(FailedEnqueue(s, c), d, Holding(item)), item.id, WithClient(d, 0))
            && Where(loc, item.id) == WithClient(c, s.clients[c].next)
  {
    hide MemberOf, Names;
    var client := s.clients[c];
    var item := client.batch[client.next];
    var s' := Beside(FailedEnqueue(s, c), d, Holding(item));
    AtIs(s, loc, item.id, WithClient(c, client.next));
    hide Located;
    forall i, x
      ensures At(s', i, x) <==> (i != item.id && At(s, i, x)) || (i == item.id && x == WithClient(d, 0))
    {
      assert At(s, item.id, x) ==> x == WithClient(c, client.next);
    }
  }

  lemma InvHasRow(s: State, loc: Places, d: nat)
    requires Inv(s, loc) && d in s.clients && s.clients[d].batch != []
    ensures s.clients[d].batch[0].id in s.db.rows
  {
    hide Located, Accounts, LoopsOk;
    assert ClientItemOk(s.db.rows, s.now, s.clients[d].batch[0]);
  }

  lemma {:induction false} FreshNat(used: set<nat>) returns (d: nat)
    ensures forall u | u in used :: u < d
    decreases |used|
  {
    d := 0;
    if used != {} {
      var u :| u in used;
      var e := FreshNat(used - {u});
      d := if u < e then e else u + 1;
      assert forall v | v in used :: v == u || v in used - {u};
    }
  }

  // ---------------------------------------------------------------- runs in which enqueues fail

  // A step of configuration A, or a creating client whose enqueue fails.
  datatype Move = Made(step: Step) | Lost(c: nat)

  ghost predicate CanMove(s: State, move: Move) {
    match move
    case Made(step) => Enabled(s, step) && !step.Reclaim?
    case Lost(c) => EnqueueDue(s, c)
  }

  ghost function Moved(s: State, move: Move): State
    requires CanMove(s, move)
  {
    match move
    case Made(step) => Apply(s, step)
    case Lost(c) => FailedEnqueue(s, c)
  }

  /** A run of configuration A in which any number of enqueues fail, at any time. */
  ghost predicate CanRun(s: State, moves: seq<Move>)
    decreases |moves|
  {
    moves == [] || (CanMove(s, moves[0]) && CanRun(Moved(s, moves[0]), moves[1..]))
  }

  ghost function Ran(s: State, moves: seq<Move>): State
    requires CanRun(s, moves)
    decreases |moves|
  {
    if moves == [] then s else Ran(Moved(s, moves[0]), moves[1..])
  }

  /** State s beside clients that each hold one lost item and never take a step. */
  function BesideAll(s: State, idlers: map<nat, Client>): State {
    s.(clients := s.clients + idlers)
  }

  ghost predicate Apart(s: State, idlers: map<nat, Client>) {
    forall d | d in idlers :: d !in s.clients
  }

  lemma {:induction false} StepBesideAll(s: State, step: Step, idlers: map<nat, Client>)
    requires Enabled(s, step) && Apart(s, idlers) && (step.Insert? ==> step.c !in idlers)
    ensures Enabled(BesideAll(s, idlers), step)
    ensures Apply(BesideAll(s, idlers), step) == BesideAll(Apply(s, step), idlers)
    ensures Apart(Apply(s, step), idlers)
    decreases |idlers|
  {
    hide Enabled, Apply;
    if idlers == map[] {
      NobodyBeside(s, idlers);
      NobodyBeside(Apply(s, step), idlers);
    } else {
      var d :| d in idlers;
      var others := idlers - {d};
      assert |others.Keys| < |idlers.Keys| by { assert others.Keys == idlers.Keys - {d}; }
      StepBesideAll(s, step, others);
      var s1 := BesideAll(s, others);
      StepBeside(s1, step, d, idlers[d]);
      OneMoreBeside(s, idlers, d);
      OneMoreBeside(Apply(s, step), idlers, d);
    }
  }

  lemma NobodyBeside(s: State, idlers: map<nat, Client>)
    requires idlers == map[]
    ensures BesideAll(s, idlers) == s
  {
    assert s.clients + idlers == s.clients;
  }

  lemma OneMoreBeside(s: State, idlers: map<nat, Client>, d: nat)
    requires d in idlers
    ensures BesideAll(s, idlers) == Beside(BesideAll(s, idlers - {d}), d, idlers[d])
    ensures d in BesideAll(s, idlers - {d}).clients ==> d in s.clients
  {
    assert s.clients + idlers == (s.clients + (idlers - {d}))[d := idlers[d]];
  }

  /** Beside the idlers, state s keeps the invariant, and no client named in names will ever be one of them. */
  ghost predicate Backed(s: State, idlers: map<nat, Client>, loc: Places, names: set<nat>) {
    Inv(BesideAll(s, idlers), loc) && Apart(s, idlers) && idlers.Keys !! names
  }

  ghost predicate Extends(idlers: map<nat, Client>, idlers': map<nat, Client>) {
    forall d | d in idlers :: d in idlers' && idlers'[d] == idlers[d]
  }

  predicate Announced(move: Move, names: set<nat>) {
    move.Made? && move.step.Insert? ==> move.step.c in names
  }

  lemma LostIsBacked(s: State, idlers: map<nat, Client>, loc: Places, names: set<nat>, c: nat, d: nat)
    returns (loc': Places)
    requires Backed(s, idlers, loc, names) && EnqueueDue(s, c)
    requires d !in s.clients && d !in idlers && d !in names
    ensures var item := s.clients[c].batch[s.clients[c].next];
            Backed(FailedEnqueue(s, c), idlers[d := Holding(item)], loc', names)
  {
    hide Inv;
    var item := s.clients[c].batch[s.clients[c].next];
    var s1 := BesideAll(s, idlers);
    assert s1.clients[c] == s.clients[c];
    FailureIsIdling(s1, loc, c, d);
    loc' := loc[item.id := WithClient(d, 0)];
    assert Beside(FailedEnqueue(s1, c), d, Holding(item)).clients
        == BesideAll(FailedEnqueue(s, c), idlers[d := Holding(item)]).clients;
  }

  /** One move: a step happens beside the idlers too, and a failure adds one. */
  lemma MoveIsBacked(s: State, idlers: map<nat, Client>, loc: Places, names: set<nat>, move: Move)
    returns (idlers': map<nat, Client>, loc': Places)
    requires Backed(s, idlers, loc, names) && CanMove(s, move) && Announced(move, names)
    ensures Backed(Moved(s, move), idlers', loc', names) && Extends(idlers, idlers')
  {
    hide Inv, Apply, Enabled;
    match move {
      case Made(step) =>
        hide EnqueueDue, FailedEnqueue;
        idlers' := idlers;
        StepBesideAll(s, step, idlers);
        loc' := StepInv(BesideAll(s, idlers), loc, step);
      case Lost(c) =>
        var d := FreshNat(s.clients.Keys + idlers.Keys + names);
        assert d !in s.clients.Keys && d !in idlers.Keys && d !in names;
        loc' := LostIsBacked(s, idlers, loc, names, c, d);
        idlers' := idlers[d := Holding(s.clients[c].batch[s.clients[c].next])];
    }
  }

  function Opened(moves: seq<Move>): set<nat> {
    if moves == [] then {}
    else (if moves[0].Made? && moves[0].step.Insert? then {moves[0].step.c} else {}) + Opened(moves[1..])
  }

  lemma {:induction false} RunIsBacked(
    s: State, idlers: map<nat, Client>, loc: Places, names: set<nat>, moves: seq<Move>)
    returns (idlers': map<nat, Client>, loc': Places)
    requires Backed(s, idlers, loc, names) && CanRun(s, moves) && Opened(moves) <= names
    ensures Backed(Ran(s, moves), idlers', loc', names) && Extends(idlers, idlers')
    decreases |moves|
  {
    hide Backed, CanMove, Moved;
    idlers', loc' := idlers, loc;
    if moves != [] {
      idlers', loc' := MoveIsBacked(s, idlers, loc, names, moves[0]);
      idlers', loc' := RunIsBacked(Moved(s, moves[0]), idlers', loc', names, moves[1..]);
    }
  }

  lemma InitIsBacked(s: State, names: set<nat>)
    requires Init(s) && G.OneProcessor(s)
    ensures Backed(s, map[], map[], names)
  {
    hide Inv;
    G.InitInv(s);
    NobodyBeside(s, map[]);
  }

  lemma BackedHasOneCarrier(s: State, idlers: map<nat, Client>, loc: Places, names: set<nat>)
    requires Backed(s, idlers, loc, names)
    ensures OneCarrier(s)
  {
    hide Agree, Accounts, LoopsOk, At;
    forall id, x, y | At(s, id, x) && At(s, id, y) ensures x == y {
      AtBesideAll(s, idlers, id, x);
      AtBesideAll(s, idlers, id, y);
    }
  }

  lemma AtBesideAll(s: State, idlers: map<nat, Client>, id: Uuid, x: Carrier)
    requires Apart(s, idlers) && At(s, id, x)
    ensures At(BesideAll(s, idlers), id, x) && (x.WithClient? ==> x.c !in idlers)
  {
    hide MemberOf, Names;
  }

  /** However many enqueues fail, no notification ever has two carriers. */
  lemma OneCarrierDespiteFailures(s0: State, moves: seq<Move>)
    requires Init(s0) && G.OneProcessor(s0) && CanRun(s0, moves)
    ensures OneCarrier(Ran(s0, moves))
  {
    hide Ran, CanRun, Backed, OneCarrier, Init;
    var names := Opened(moves);
    InitIsBacked(s0, names);
    var idlers, loc := RunIsBacked(s0, map[], map[], names, moves);
    BackedHasOneCarrier(Ran(s0, moves), idlers, loc, names);
  }

  // ---------------------------------------------------------------- what is lost stays lost

  /** Idler d holds the lost item. */
  predicate Holds(idlers: map<nat, Client>, d: nat, item: Item) {
    d in idlers && idlers[d] == Holding(item) && item.row.status == Pending
  }

  lemma HolderIsAlone(s: State, idlers: map<nat, Client>, loc: Places, names: set<nat>, d: nat, item: Item)
    requires Backed(s, idlers, loc, names) && Holds(idlers, d, item)
    ensures item.id in s.db.rows && NoCarrier(s, item.id)
    ensures Delivered !in HistoryOf(s.db, item.id).marked && Failed !in HistoryOf(s.db, item.id).marked
  {
    hide Agree, LoopsOk, AttemptsOf, HistoryOf, DeadCount, MemberOf, Names;
    var s' := BesideAll(s, idlers);
    assert s'.clients[d] == Holding(item);
    assert At(s', item.id, WithClient(d, 0));
    AtIs(s', loc, item.id, WithClient(d, 0));
    InvHasRow(s', loc, d);
    assert AccountAt(s', item.id, WithClient(d, 0));
    hide At;
    forall x ensures !At(s, item.id, x) {
      if At(s, item.id, x) {
        AtBesideAll(s, idlers, item.id, x);
      }
    }
  }

  lemma NobodyActs(s: State, move: Move, id: Uuid)
    requires CanMove(s, move) && NoCarrier(s, id) && id in s.db.rows
    ensures SameBooks(s, Moved(s, move), id)
  {
    hide Enabled, Apply, At, KeepsRecord;
    match move {
      case Made(step) =>
        if ActsOn(s, step, id) {
          ActsIsAt(s, step, id);
        }
        StepKeepsRecord(s, step, id);
      case Lost(c) => KeepsRecordSelf(s.db, id);
    }
  }

  lemma {:induction false} LostStaysLost(
    s: State, idlers: map<nat, Client>, loc: Places, names: set<nat>, moves: seq<Move>, d: nat, item: Item)
    returns (idlers': map<nat, Client>, loc': Places)
    requires Backed(s, idlers, loc, names) && CanRun(s, moves) && Opened(moves) <= names && Holds(idlers, d, item)
    ensures Backed(Ran(s, moves), idlers', loc', names) && Holds(idlers', d, item)
    ensures item.id in s.db.rows && SameBooks(s, Ran(s, moves), item.id)
    decreases |moves|
  {
    hide Backed, CanMove, Moved, NoCarrier, HistoryOf, AttemptsOf, DeadCount;
    idlers', loc' := idlers, loc;
    HolderIsAlone(s, idlers, loc, names, d, item);
    if moves == [] {
      KeepsRecordSelf(s.db, item.id);
    } else {
      NobodyActs(s, moves[0], item.id);
      idlers', loc' := MoveIsBacked(s, idlers, loc, names, moves[0]);
      idlers', loc' := LostStaysLost(Moved(s, moves[0]), idlers', loc', names, moves[1..], d, item);
    }
  }

  /**
   When the enqueue of a created notification fails, nothing ever makes up for it: in any continuation without
   ClaimStale, whatever schedulers run and however many enqueues have failed before or fail after, it has no carrier,
   nothing is sent for it, and it is never marked delivered or failed.
   */
  lemma FailedEnqueueIsForgotten(s0: State, before: seq<Move>, c: nat, more: seq<Move>)
    requires Init(s0) && G.OneProcessor(s0) && CanRun(s0, before) && EnqueueDue(Ran(s0, before), c)
    requires CanRun(FailedEnqueue(Ran(s0, before), c), more)
    ensures var s := Ran(s0, before);
            var id := s.clients[c].batch[s.clients[c].next].id;
            var s1 := FailedEnqueue(s, c);
            var s' := Ran(s1, more);
            && NoCarrier(s', id) && OneCarrier(s') && SameBooks(s1, s', id)
            && Delivered !in HistoryOf(s'.db, id).marked && Failed !in HistoryOf(s'.db, id).marked
  {
    hide Ran, CanRun, Backed, OneCarrier, NoCarrier, Init, Opened, HistoryOf, AttemptsOf, DeadCount, SameBooks;
    var names := Opened(before) + Opened(more);
    InitIsBacked(s0, names);
    var idlers, loc := RunIsBacked(s0, map[], map[], names, before);
    var s := Ran(s0, before);
    var item := s.clients[c].batch[s.clients[c].next];
    var d := FreshNat(s.clients.Keys + idlers.Keys + names);
    assert d !in s.clients.Keys && d !in idlers.Keys && d !in names;
    var loc1 := LostIsBacked(s, idlers, loc, names, c, d);
    var idlers1 := idlers[d := Holding(item)];
    var s1 := FailedEnqueue(s, c);
    var idlers', loc' := LostStaysLost(s1, idlers1, loc1, names, more, d, item);
    HolderIsAlone(Ran(s1, more), idlers', loc', names, d, item);
    BackedHasOneCarrier(Ran(s1, more), idlers', loc', names);
  }
}
