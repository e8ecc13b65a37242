/**
 When a terminal status is final. UpdateStatus is unconditional, so a client that has not yet written `queued`
 can overwrite any of them, and so can a worker that read the row earlier and may still write another status;
 nobody else can.
 */
module StableCancel {
  import opened Domain
  import opened Table
  import opened Pipeline
  import opened Agreement
  import opened Timeline
  import opened Carriers
  import opened Conservation
  import B = Books
  import G = Guarantees
  import S = Settlement
  import Retry

  /** The creating loop has still to enqueue notification id, or to write `queued` after doing so. */
  predicate PendingWrite(client: Client, i: nat, id: Uuid) {
    client.next <= i < |client.batch| && client.batch[i].id == id && client.batch[i].row.status == Pending
  }

  /** A running worker has read the row of notification id and has not yet made its last status write. */
  predicate WritesLater(worker: Worker, id: Uuid) {
    && !worker.stopped && worker.pc.Busy? && worker.pc.item.id == id
    && !worker.pc.stage.Delaying? && !worker.pc.stage.Burying?
  }

  /** Create has returned for id, and no running worker is between its row read and its last status write. */
  ghost predicate Quiet(s: State, id: Uuid) {
    && (forall c, i | c in s.clients :: !PendingWrite(s.clients[c], i, id))
    && (forall w | w in s.workers :: !WritesLater(s.workers[w], id))
  }

  /** The row stands at a terminal status. */
  predicate Stands(s: State, id: Uuid, status: Status) {
    id in s.db.rows && s.db.rows[id].status == status && Terminal(status)
  }

  /** All that the worker can still write for its row is the given status, and it begins no send. */
  predicate OnlyWrites(n: Row, stage: Stage, status: Status, providers: set<Channel>) {
    match stage
    case Routed => n.channel !in providers && status == Failed
    case Sent(ok) => Concludes(n, ok, status)
    case Counted(ok) => Concludes(n, ok, status)
    case Recorded(ok) => Concludes(n, ok, status)
    case _ => false
  }

  /** The status that the provider's answer leads to, when it leads to no retry. */
  predicate Concludes(n: Row, ok: bool, status: Status) {
    if ok then status == Delivered else status == Failed && !Retry.ShouldRetry(n.attemptCount + 1, n.maxRetries)
  }

  /** A running worker that holds the row and may begin a send, or write another status than the given one. */
  predicate Threatens(worker: Worker, id: Uuid, status: Status, providers: set<Channel>) {
    WritesLater(worker, id) && !OnlyWrites(worker.pc.item.row, worker.pc.stage, status, providers)
  }

  ghost predicate NobodyOwes(s: State, id: Uuid) {
    forall c, i | c in s.clients :: !PendingWrite(s.clients[c], i, id)
  }

  /** Nobody who is under way can disturb the status of notification id. */
  ghost predicate Calm(s: State, id: Uuid, status: Status) {
    && NobodyOwes(s, id)
    && (forall w | w in s.workers :: !Threatens(s.workers[w], id, status, s.providers))
  }

  lemma CalmCancelled(s: State, id: Uuid)
    ensures Calm(s, id, Cancelled) <==> Quiet(s, id)
  {
    forall w | w in s.workers
      ensures Threatens(s.workers[w], id, Cancelled, s.providers) <==> WritesLater(s.workers[w], id)
    {
    }
  }

  // ---------------------------------------------------------------- calm terminal statuses last

  ghost predicate Lasts(s: State, s': State, id: Uuid, status: Status) {
    Stands(s', id, status) && Calm(s', id, status) && SameSends(s, s', id)
  }

  lemma {:induction false} BornAllLasts(s: State, c: nat, news: seq<New>, id: Uuid, status: Status)
    requires c in s.clients && InsertAll(s.db.rows, news).Stored? && Stands(s, id, status) && Calm(s, id, status)
    ensures Stands(BornAll(s, c, news), id, status) && Calm(BornAll(s, c, news), id, status)
    decreases |news|
  {
    if news != [] {
      var s1 := Born(s, c, news[0]);
      forall c', i | c' in s1.clients ensures !PendingWrite(s1.clients[c'], i, id) {
        assert !PendingWrite(s.clients[c'], i, id);
      }
      BornAllLasts(s1, c, news[1..], id, status);
    }
  }

  lemma ClientLasts(s: State, c: nat, id: Uuid, status: Status)
    requires ClientEnabled(s, c) && Stands(s, id, status) && Calm(s, id, status)
    ensures Stands(ClientStep(s, c), id, status) && Calm(ClientStep(s, c), id, status)
  {
    var s' := ClientStep(s, c);
    assert !PendingWrite(s.clients[c], s.clients[c].next, id);
    forall c', i | c' in s'.clients ensures !PendingWrite(s'.clients[c'], i, id) {
      assert !PendingWrite(s.clients[c'], i, id);
    }
  }

  lemma HandOutLasts(s: State, w: nat, p: Priority, id: Uuid, status: Status)
    requires w in s.workers && Stands(s, id, status) && Calm(s, id, status)
    ensures Stands(HandOut(s, w, p), id, status) && Calm(HandOut(s, w, p), id, status) && w in HandOut(s, w, p).workers
  {
    forall v | v in s.workers ensures !Threatens(HandOut(s, w, p).workers[v], id, status, s.providers) {
      assert !Threatens(s.workers[v], id, status, s.providers);
    }
  }

  lemma ReadLasts(s: State, w: nat, id: Uuid, status: Status)
    requires WorkerIdle(s, w) && Stands(s, id, status) && Calm(s, id, status)
    ensures Stands(ReadStep(s, w), id, status) && Calm(ReadStep(s, w), id, status)
  {
    var s1 := ResetWorker(s, w);
    forall v | v in s.workers ensures !Threatens(s1.workers[v], id, status, s.providers) {
      assert !Threatens(s.workers[v], id, status, s.providers);
    }
    hide HandOut, Stands, Calm;
    HandOutLasts(s1, w, High, id, status);
    HandOutLasts(HandOut(s1, w, High), w, Normal, id, status);
    HandOutLasts(HandOut(HandOut(s1, w, High), w, Normal), w, Low, id, status);
  }

  /** A worker with only the same status left to write keeps it, and keeps to that. */
  lemma HolderLasts(s: State, w: nat, ok: bool, id: Uuid, status: Status)
    requires WorkerEnabled(s, w) && s.workers[w].pc.Busy? && s.workers[w].pc.item.id == id && Stands(s, id, status)
    requires OnlyWrites(s.workers[w].pc.item.row, s.workers[w].pc.stage, status, s.providers)
    ensures var s' := BusyStep(s, w, ok);
            && Stands(s', id, status) && w in s'.workers && !Threatens(s'.workers[w], id, status, s.providers)
  {
    WriteSets(s.db, id);
    CommandsRecord(s.db, id, s.now);
    hide WriteStatus, IncrementAttempt, InsertAttempt, RecordSend, RecordHandled, Hand, Retry.Backoff;
    IncrementKeepsStatus(s.db, id);
    match s.workers[w].pc.stage {
      case Routed =>
      case Sent(_) =>
      case Counted(_) =>
      case Recorded(_) =>
    }
  }

  lemma IncrementKeepsStatus(db: Db, id: Uuid)
    requires id in db.rows
    ensures id in IncrementAttempt(db, id).rows && IncrementAttempt(db, id).rows[id].status == db.rows[id].status
  {
  }

  /** A command for another notification, or of a worker that is no threat, leaves the status alone. */
  lemma BusyLasts(s: State, w: nat, ok: bool, id: Uuid, status: Status)
    requires WorkerEnabled(s, w) && s.workers[w].pc.Busy? && Stands(s, id, status) && Calm(s, id, status)
    ensures Stands(BusyStep(s, w, ok), id, status) && Calm(BusyStep(s, w, ok), id, status)
  {
    hide BusyStep, MemberOf, HistoryOf, AttemptsOf, DeadCount, Retry.Backoff, OnlyWrites;
    assert !Threatens(s.workers[w], id, status, s.providers);
    BusyChanges(s, w, ok);
    S.BusyKeepsProviders(s, w, ok);
    if WritesLater(s.workers[w], id) {
      HolderLasts(s, w, ok, id, status);
    }
    var s' := BusyStep(s, w, ok);
    forall v | v in s'.workers ensures !Threatens(s'.workers[v], id, status, s.providers) {
      assert v in s.workers && !Threatens(s.workers[v], id, status, s.providers);
    }
  }

  /** One command of processMessage leaves clients and other workers alone, and other rows. */
  lemma BusyChanges(s: State, w: nat, ok: bool)
    requires WorkerEnabled(s, w) && s.workers[w].pc.Busy?
    ensures var s' := BusyStep(s, w, ok);
            var pc := s.workers[w].pc;
            && s'.clients == s.clients
            && w in s'.workers && s'.workers == Goto(s, w, s'.workers[w].pc)
            && (s'.workers[w].pc.Busy? ==> s'.workers[w].pc.item == pc.item)
            && (forall i | i in s.db.rows && i != pc.item.id :: i in s'.db.rows && s'.db.rows[i] == s.db.rows[i])
            && (pc.stage.Delaying? || pc.stage.Burying? ==> s'.db == s.db && s'.workers[w].pc == Acking)
  {
    hide WriteStatus, IncrementAttempt, InsertAttempt, RecordSend, RecordHandled, Hand, EnqueueDelayed, PushDead,
      Retry.Backoff;
    var s' := BusyStep(s, w, ok);
    BusyWorkers(s, w, ok);
    BusyRows(s, w, ok);
  }

  lemma BusyRows(s: State, w: nat, ok: bool)
    requires WorkerEnabled(s, w) && s.workers[w].pc.Busy?
    ensures var s' := BusyStep(s, w, ok);
            forall i | i in s.db.rows && i != s.workers[w].pc.item.id ::
                i in s'.db.rows && s'.db.rows[i] == s.db.rows[i]
  {
    CommandsTouchOne(s.db, s.workers[w].pc.item.id, s.now);
    hide WriteStatus, IncrementAttempt, InsertAttempt, RecordSend, RecordHandled, Hand, EnqueueDelayed, PushDead,
      Retry.Backoff;
    match s.workers[w].pc.stage {
      case Claimed =>
      case Routed =>
      case Sending =>
      case Sent(_) =>
      case Counted(_) =>
      case Recorded(_) =>
      case Requeue(_) =>
      case Delaying(_) =>
      case Burying =>
    }
  }

  lemma CommandsTouchOne(db: Db, id: Uuid, now: int)
    ensures forall status, i | i in db.rows && i != id ::
              i in WriteStatus(db, id, status).rows && WriteStatus(db, id, status).rows[i] == db.rows[i]
    ensures forall i | i in db.rows && i != id ::
              i in IncrementAttempt(db, id).rows && IncrementAttempt(db, id).rows[i] == db.rows[i]
    ensures forall a :: InsertAttempt(db, id, a).rows == db.rows
    ensures RecordSend(db, id, now).rows == db.rows && RecordHandled(db, id, now).rows == db.rows
  {
  }

  lemma WorkerLasts(s: State, w: nat, ok: bool, id: Uuid, status: Status)
    requires WorkerEnabled(s, w) && Stands(s, id, status) && Calm(s, id, status)
    ensures Stands(WorkerStep(s, w, ok), id, status) && Calm(WorkerStep(s, w, ok), id, status)
  {
    hide BusyStep;
    if s.workers[w].pc.Busy? {
      BusyLasts(s, w, ok, id, status);
    } else {
      var s' := WorkerStep(s, w, ok);
      forall v | v in s'.workers ensures !Threatens(s'.workers[v], id, status, s.providers) {
        assert v in s.workers && !Threatens(s.workers[v], id, status, s.providers);
      }
    }
  }

  lemma CalmSendsNothing(s: State, step: Step, id: Uuid, status: Status)
    requires Enabled(s, step) && Calm(s, id, status)
    ensures !Sends(s, step, id)
  {
    if Sends(s, step, id) {
      SenderThreatens(s, step, id, status);
    }
  }

  lemma SenderThreatens(s: State, step: Step, id: Uuid, status: Status)
    requires Enabled(s, step) && Sends(s, step, id)
    ensures exists w :: w in s.workers && Threatens(s.workers[w], id, status, s.providers)
  {
    assert Threatens(s.workers[step.w], id, status, s.providers);
  }

  lemma StepLasts(s: State, step: Step, id: Uuid, status: Status)
    requires Enabled(s, step) && Stands(s, id, status) && Calm(s, id, status)
    ensures Lasts(s, Apply(s, step), id, status)
  {
    hide BornAll, ClaimAll, HandOut, RemoveStep, WorkerStep, ReadStep, ClientStep, HistoryOf;
    hide OnlyWrites;
    assert !Sends(s, step, id) by { CalmSendsNothing(s, step, id, status); }
    StepSends(s, step, id);
    S.StepKeepsProviders(s, step);
    match step {
      case Insert(c, news) => BornAllLasts(OpenClient(s, c), c, news, id, status);
      case ClientNext(c) => ClientLasts(s, c, id, status);
      case Fetch(k, ids) => ClaimAllGrows(ResetScheduler(s, k), k, ids);
      case Read(w) => ReadLasts(s, w, id, status);
      case WorkerNext(w, ok) => WorkerLasts(s, w, ok, id, status);
      case Remove(p) => G.RemovesBatch(s, p);
      case Stop(w) => StopLasts(s, w, id, status);
      case Reclaim(w, refs) => ReclaimLasts(s, w, refs, id, status);
      case _ =>
    }
  }

  lemma StopLasts(s: State, w: nat, id: Uuid, status: Status)
    requires StopEnabled(s, w) && Calm(s, id, status)
    ensures Calm(StopStep(s, w), id, status)
  {
    forall v | v in s.workers ensures !Threatens(StopStep(s, w).workers[v], id, status, s.providers) {
      assert !Threatens(s.workers[v], id, status, s.providers);
    }
  }

  lemma ReclaimLasts(s: State, w: nat, refs: seq<Ref>, id: Uuid, status: Status)
    requires ReclaimEnabled(s, w, refs) && Calm(s, id, status)
    ensures Calm(ReclaimStep(s, w, refs), id, status)
  {
    forall v | v in s.workers ensures !Threatens(ReclaimStep(s, w, refs).workers[v], id, status, s.providers) {
      assert !Threatens(s.workers[v], id, status, s.providers);
    }
  }

  lemma {:induction false} RunLasts(s: State, steps: seq<Step>, id: Uuid, status: Status)
    requires ValidRun(s, steps) && Stands(s, id, status) && Calm(s, id, status)
    ensures Lasts(s, After(s, steps), id, status)
    decreases |steps|
  {
    hide Apply, Calm, Enabled, Stands;
    if steps != [] {
      StepLasts(s, steps[0], id, status);
      RunLasts(Apply(s, steps[0]), steps[1..], id, status);
    }
  }

  // ---------------------------------------------------------------- the others can be overwritten

  /** The creating client's loop, left to itself, ends up writing `queued`. */
  lemma {:induction false} ClientOverwrites(s: State, c: nat, i: nat, id: Uuid) returns (steps: seq<Step>)
    requires c in s.clients && PendingWrite(s.clients[c], i, id) && id in s.db.rows
    ensures ValidRun(s, steps) && NoReclaim(steps)
    ensures id in After(s, steps).db.rows && After(s, steps).db.rows[id].status == Queued
    decreases i - s.clients[c].next, if s.clients[c].enqueued then 0 else 1
  {
    hide EnqueueItem, HistoryOf;
    var s1 := ClientStep(s, c);
    assert Enabled(s, ClientNext(c)) && Apply(s, ClientNext(c)) == s1;
    if s.clients[c].next == i && s.clients[c].enqueued {
      steps := [ClientNext(c)];
      OneStep(s, ClientNext(c));
    } else {
      var rest := ClientOverwrites(s1, c, i, id);
      steps := [ClientNext(c)] + rest;
      FirstStep(s, ClientNext(c), rest);
    }
  }

  function StagesLeft(stage: Stage): nat {
    match stage
    case Sending => 5
    case Sent(_) => 4
    case Counted(_) => 3
    case Recorded(_) => 2
    case Requeue(_) => 1
    case _ => 0
  }

  ghost predicate Overwritten(s: State, s': State, id: Uuid, status: Status) {
    !Stands(s', id, status) || !SameSends(s, s', id)
  }

  // The provider's answer that leads away from the status.
  function Contrary(status: Status): bool {
    status != Delivered
  }

  ghost predicate Closer(s: State, s': State, w: nat, id: Uuid, status: Status)
    requires w in s.workers && s.workers[w].pc.Busy?
  {
    || Overwritten(s, s', id, status)
    || (&& WorkerEnabled(s', w) && Threatens(s'.workers[w], id, status, s'.providers)
        && id in s'.db.rows && SameSends(s, s', id)
        && StagesLeft(s'.workers[w].pc.stage) < StagesLeft(s.workers[w].pc.stage))
  }

  lemma UnsentComesCloser(s: State, w: nat, id: Uuid, status: Status)
    requires WorkerEnabled(s, w) && Threatens(s.workers[w], id, status, s.providers)
    requires id in s.db.rows && Terminal(status)
    requires s.workers[w].pc.stage.Claimed? || s.workers[w].pc.stage.Routed?
    ensures Closer(s, BusyStep(s, w, Contrary(status)), w, id, status)
  {
    CommandsRecord(s.db, id, s.now);
    WriteSets(s.db, id);
    hide IncrementAttempt, InsertAttempt, RecordSend, WriteStatus, HistoryOf, Hand;
    match s.workers[w].pc.stage {
      case Claimed =>
      case Routed =>
    }
  }

  lemma SentComesCloser(s: State, w: nat, id: Uuid, status: Status)
    requires WorkerEnabled(s, w) && Threatens(s.workers[w], id, status, s.providers)
    requires id in s.db.rows && Terminal(status)
    requires s.workers[w].pc.stage.Sending? || s.workers[w].pc.stage.Sent? || s.workers[w].pc.stage.Counted?
    ensures Closer(s, BusyStep(s, w, Contrary(status)), w, id, status)
  {
    CommandsRecord(s.db, id, s.now);
    hide IncrementAttempt, InsertAttempt, RecordSend, WriteStatus, HistoryOf, Hand, Overwritten, Retry.ShouldRetry;
    match s.workers[w].pc.stage {
      case Sending =>
      case Sent(_) =>
      case Counted(_) =>
    }
  }

  lemma LateStageComesCloser(s: State, w: nat, id: Uuid, status: Status)
    requires WorkerEnabled(s, w) && Threatens(s.workers[w], id, status, s.providers)
    requires id in s.db.rows && Terminal(status)
    requires s.workers[w].pc.stage.Recorded? || s.workers[w].pc.stage.Requeue?
    ensures Closer(s, BusyStep(s, w, Contrary(status)), w, id, status)
  {
    CommandsRecord(s.db, id, s.now);
    WriteSets(s.db, id);
    hide RecordHandled, WriteStatus, HistoryOf, Retry.Backoff, Hand;
  }

  lemma WriteSets(db: Db, id: Uuid)
    requires id in db.rows
    ensures forall status ::
        id in WriteStatus(db, id, status).rows && WriteStatus(db, id, status).rows[id].status == status
  {
  }

  /** One command of a worker in the middle of a message: it overwrites, or comes closer to doing so. */
  lemma WorkerComesCloser(s: State, w: nat, id: Uuid, status: Status)
    requires WorkerEnabled(s, w) && Threatens(s.workers[w], id, status, s.providers)
    requires id in s.db.rows && Terminal(status)
    ensures Closer(s, BusyStep(s, w, Contrary(status)), w, id, status)
  {
    hide Closer, BusyStep;
    match s.workers[w].pc.stage {
      case Claimed | Routed => UnsentComesCloser(s, w, id, status);
      case Sending | Sent(_) | Counted(_) => SentComesCloser(s, w, id, status);
      case Recorded(_) | Requeue(_) => LateStageComesCloser(s, w, id, status);
    }
  }

  lemma CommandsRecord(db: Db, id: Uuid, now: int)
    requires id in db.rows
    ensures id in IncrementAttempt(db, id).rows
    ensures HistoryOf(IncrementAttempt(db, id), id).sends == HistoryOf(db, id).sends
    ensures forall a :: InsertAttempt(db, id, a).rows == db.rows
    ensures forall a :: HistoryOf(InsertAttempt(db, id, a), id).sends == HistoryOf(db, id).sends
    ensures RecordHandled(db, id, now).rows == db.rows
    ensures HistoryOf(RecordHandled(db, id, now), id).sends == HistoryOf(db, id).sends
    ensures HistoryOf(RecordSend(db, id, now), id).sends != HistoryOf(db, id).sends
  {
  }

  lemma {:induction false} WorkerOverwrites(s: State, w: nat, id: Uuid, status: Status) returns (steps: seq<Step>)
    requires WorkerEnabled(s, w) && Threatens(s.workers[w], id, status, s.providers)
    requires id in s.db.rows && Terminal(status)
    ensures ValidRun(s, steps) && NoReclaim(steps) && Overwritten(s, After(s, steps), id, status)
    decreases StagesLeft(s.workers[w].pc.stage)
  {
    var step := WorkerNext(w, Contrary(status));
    WorkerComesCloser(s, w, id, status);
    assert Enabled(s, step) && Apply(s, step) == BusyStep(s, w, Contrary(status));
    hide BusyStep, Apply, HistoryOf, ValidRun, After;
    if Overwritten(s, BusyStep(s, w, Contrary(status)), id, status) {
      steps := [step];
      OneStep(s, step);
    } else {
      var rest := WorkerOverwrites(BusyStep(s, w, Contrary(status)), w, id, status);
      steps := [step] + rest;
      FirstStep(s, step, rest);
    }
  }

  /** In every continuation, with ClaimStale or without, the status stays and no send begins. */
  ghost predicate FinalFrom(s: State, id: Uuid, status: Status) {
    forall steps | ValidRun(s, steps) :: Stands(After(s, steps), id, status) && SameSends(s, After(s, steps), id)
  }

  /** The same, in every continuation without ClaimStale. */
  ghost predicate FinalWithoutReclaim(s: State, id: Uuid, status: Status) {
    forall steps | ValidRun(s, steps) && NoReclaim(steps) ::
      Stands(After(s, steps), id, status) && SameSends(s, After(s, steps), id)
  }

  lemma CalmIsFinal(s: State, id: Uuid, status: Status)
    requires Stands(s, id, status) && Calm(s, id, status)
    ensures FinalFrom(s, id, status)
  {
    hide After, ValidRun, Calm, HistoryOf;
    forall steps | ValidRun(s, steps)
      ensures Stands(After(s, steps), id, status) && SameSends(s, After(s, steps), id)
    {
      RunLasts(s, steps, id, status);
    }
  }

  lemma FinalIsFinalWithout(s: State, id: Uuid, status: Status)
    requires FinalFrom(s, id, status)
    ensures FinalWithoutReclaim(s, id, status)
  {
    hide After, ValidRun, Stands, HistoryOf;
  }

  lemma FinalAt(s: State, id: Uuid, status: Status, steps: seq<Step>)
    requires FinalWithoutReclaim(s, id, status) && ValidRun(s, steps) && NoReclaim(steps)
    ensures Stands(After(s, steps), id, status) && SameSends(s, After(s, steps), id)
  {
  }

  lemma FinalIsCalm(s: State, id: Uuid, status: Status)
    requires Agree(s) && Stands(s, id, status) && FinalWithoutReclaim(s, id, status)
    ensures Calm(s, id, status)
  {
    hide After, ValidRun, HistoryOf, Agree, Threatens;
    forall c, i | c in s.clients ensures !PendingWrite(s.clients[c], i, id) {
      if i >= 0 && PendingWrite(s.clients[c], i, id) {
        var steps := ClientOverwrites(s, c, i, id);
        FinalAt(s, id, status, steps);
      }
    }
    forall w | w in s.workers ensures !Threatens(s.workers[w], id, status, s.providers) {
      if Threatens(s.workers[w], id, status, s.providers) {
        ThreatIsEnabled(s, w, id, status);
        var steps := WorkerOverwrites(s, w, id, status);
        FinalAt(s, id, status, steps);
      }
    }
  }

  lemma ThreatIsEnabled(s: State, w: nat, id: Uuid, status: Status)
    requires Agree(s) && w in s.workers && Threatens(s.workers[w], id, status, s.providers)
    ensures WorkerEnabled(s, w)
  {
    assert WorkerOk(s.db.rows, s.mq, s.workers[w]);
  }

  lemma FinalIffCalm(s: State, id: Uuid, status: Status)
    requires Agree(s) && Stands(s, id, status)
    ensures FinalFrom(s, id, status) <==> Calm(s, id, status)
    ensures FinalWithoutReclaim(s, id, status) <==> Calm(s, id, status)
  {
    hide After, Agree, FinalFrom, FinalWithoutReclaim, Calm, Stands;
    if Calm(s, id, status) {
      CalmIsFinal(s, id, status);
    }
    if FinalFrom(s, id, status) {
      FinalIsFinalWithout(s, id, status);
    }
    if FinalWithoutReclaim(s, id, status) {
      FinalIsCalm(s, id, status);
    }
  }

  /**
   In every reachable state, with ClaimStale and any number of processors, a row's terminal status is final exactly
   when no creating client has still to process the notification and every running worker that holds it can only
   write that same status. It makes no difference whether the continuations may reclaim.
   */
  lemma TerminalIsFinalIff(s0: State, steps: seq<Step>, id: Uuid, status: Status)
    requires Init(s0) && ValidRun(s0, steps) && Stands(After(s0, steps), id, status)
    ensures FinalFrom(After(s0, steps), id, status) <==> Calm(After(s0, steps), id, status)
    ensures FinalWithoutReclaim(After(s0, steps), id, status) <==> Calm(After(s0, steps), id, status)
  {
    hide After, Agree, FinalFrom, FinalWithoutReclaim, Calm, Stands;
    G.InitAgrees(s0);
    RunAgrees(s0, steps);
    FinalIffCalm(After(s0, steps), id, status);
  }

  /**
   A Cancel that succeeds is final, wherever the notification's carrier is, exactly when Create has returned for the
   notification and no running worker is between its row read and its last status write.
   */
  lemma CancelIsFinalIff(s0: State, steps: seq<Step>, id: Uuid)
    requires Init(s0) && ValidRun(s0, steps)
    requires var s := After(s0, steps); id in s.db.rows && Cancellable(s.db.rows[id].status)
    ensures var s := After(s0, steps);
            && (FinalFrom(CancelStep(s, id), id, Cancelled) <==> Quiet(s, id))
            && (FinalWithoutReclaim(CancelStep(s, id), id, Cancelled) <==> Quiet(s, id))
  {
    hide After, Agree, FinalFrom, FinalWithoutReclaim, Calm;
    var s := After(s0, steps);
    var s' := CancelStep(s, id);
    G.InitAgrees(s0);
    RunAgrees(s0, steps);
    CancelAgrees(s, id);
    assert Quiet(s', id) <==> Quiet(s, id);
    CalmCancelled(s', id);
    FinalIffCalm(s', id, Cancelled);
  }

  // ---------------------------------------------------------------- delivered and failed

  /** Once a notification has been marked delivered or failed, at most a dead-letter push is left to do for it. */
  lemma DecidedBooks(
    now: int, providers: set<Channel>, r: Row, a: seq<Attempt>, dead: nat, h: History, v: B.View)
    requires B.Account(now, providers, r, a, dead, h, v) && (Delivered in h.marked || Failed in h.marked)
    ensures v.Finished? || (v.Active? && v.stage == Burying)
  {
  }

  lemma DecidedIsUnwritten(s: State, loc: Places, id: Uuid)
    requires Inv(s, loc) && (Stands(s, id, Delivered) || Stands(s, id, Failed))
    ensures forall w | w in s.workers :: !WritesLater(s.workers[w], id)
  {
    hide Agree, Located, LoopsOk, B.Account, HistoryOf, AttemptsOf, DeadCount, MemberOf;
    MarkedAsItStands(s, loc, id);
    var v := B.ViewOf(s, id, Where(loc, id));
    assert B.AccountAt(s, id, Where(loc, id));
    DecidedBooks(s.now, s.providers, s.db.rows[id], AttemptsOf(s.db, id), DeadCount(s.mq, id), HistoryOf(s.db, id), v);
    forall w | w in s.workers ensures !WritesLater(s.workers[w], id) {
      if WritesLater(s.workers[w], id) {
        AtIs(s, loc, id, Working(w));
      }
    }
  }

  lemma MarkedAsItStands(s: State, loc: Places, id: Uuid)
    requires Inv(s, loc) && id in s.db.rows && Terminal(s.db.rows[id].status)
    ensures s.db.rows[id].status in HistoryOf(s.db, id).marked
  {
    hide B.Accounts, Located, LoopsOk;
    assert RowOk(s.db.rows[id], HistoryOf(s.db, id));
  }

  /** In every continuation without ClaimStale the row reads the status, whatever is sent. */
  ghost predicate ReadsForEver(s: State, id: Uuid, status: Status) {
    forall steps | ValidRun(s, steps) && NoReclaim(steps) :: Stands(After(s, steps), id, status)
  }

  lemma ReadsAt(s: State, id: Uuid, status: Status, steps: seq<Step>)
    requires ReadsForEver(s, id, status) && ValidRun(s, steps) && NoReclaim(steps)
    ensures Stands(After(s, steps), id, status)
  {
  }

  lemma ReadsIsUnowed(s: State, id: Uuid, status: Status)
    requires Stands(s, id, status) && ReadsForEver(s, id, status)
    ensures NobodyOwes(s, id)
  {
    hide After, ValidRun, HistoryOf;
    forall c, i | c in s.clients ensures !PendingWrite(s.clients[c], i, id) {
      if i >= 0 && PendingWrite(s.clients[c], i, id) {
        var steps := ClientOverwrites(s, c, i, id);
        ReadsAt(s, id, status, steps);
      }
    }
  }

  /**
   In configuration A a row that reads `delivered` or `failed` reads so for ever exactly when no creating client has
   still to process the notification; then, with ClaimStale too, no send begins either.
   */
  lemma OutcomeIsFinalIff(s0: State, steps: seq<Step>, id: Uuid, status: Status)
    requires G.RunA(s0, steps) && (status == Delivered || status == Failed)
    requires Stands(After(s0, steps), id, status)
    ensures ReadsForEver(After(s0, steps), id, status) <==> NobodyOwes(After(s0, steps), id)
    ensures FinalFrom(After(s0, steps), id, status) <==> NobodyOwes(After(s0, steps), id)
  {
    hide After, Inv, FinalFrom, FinalWithoutReclaim, ReadsForEver, Stands, HistoryOf;
    var s := After(s0, steps);
    var loc := G.ReachedInv(s0, steps);
    DecidedIsUnwritten(s, loc, id);
    assert NobodyOwes(s, id) <==> Calm(s, id, status);
    TerminalIsFinalIff(s0, steps, id, status);
    if FinalFrom(s, id, status) {
      FinalReads(s, id, status);
    }
    if ReadsForEver(s, id, status) {
      ReadsIsUnowed(s, id, status);
    }
  }

  lemma FinalReads(s: State, id: Uuid, status: Status)
    requires FinalFrom(s, id, status)
    ensures ReadsForEver(s, id, status)
  {
    hide After, ValidRun, Stands, HistoryOf;
  }
}
