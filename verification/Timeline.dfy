/**
 What no step ever undoes, with or without ClaimStale and with any number of processors: rows are never
 deleted or re-keyed, nothing returns to `scheduled`, and a send begins only where a worker routes a row.
 */
module Timeline {
  import opened Domain
  import opened Table
  import opened Pipeline
  import opened Agreement
  import G = Guarantees
  import Retry

  ghost predicate Grows(s: State, s': State) {
    RowsKept(s.db.rows, s.now, s'.db.rows, s'.now)
  }

  /** A worker is about to hand notification id to a provider. */
  predicate Sends(s: State, step: Step, id: Uuid) {
    && step.WorkerNext? && step.w in s.workers && s.workers[step.w].pc.Busy?
    && s.workers[step.w].pc.item.id == id && s.workers[step.w].pc.stage == Routed
    && s.workers[step.w].pc.item.row.channel in s.providers
  }

  ghost predicate SameSends(s: State, s': State, id: Uuid) {
    HistoryOf(s'.db, id).sends == HistoryOf(s.db, id).sends
  }

  lemma {:induction false} BornAllGrows(s: State, c: nat, news: seq<New>)
    requires c in s.clients && InsertAll(s.db.rows, news).Stored?
    ensures Grows(s, BornAll(s, c, news))
    ensures forall id | id in s.db.rows ::
              BornAll(s, c, news).db.rows[id] == s.db.rows[id] && SameSends(s, BornAll(s, c, news), id)
    decreases |news|
  {
    if news != [] {
      BornAllGrows(Born(s, c, news[0]), c, news[1..]);
    }
  }

  lemma ClaimOneGrows(s: State, k: nat, id: Uuid)
    requires ClaimOneEnabled(s, k, id)
    ensures Grows(s, ClaimOne(s, k, id))
    ensures forall i :: SameSends(s, ClaimOne(s, k, id), i)
    ensures forall i | i in s.db.rows && s.db.rows[i].status != Scheduled ::
        ClaimOne(s, k, id).db.rows[i] == s.db.rows[i]
    ensures ClaimOne(s, k, id).clients == s.clients && ClaimOne(s, k, id).workers == s.workers
  {
  }

  lemma {:induction false} ClaimAllGrows(s: State, k: nat, ids: seq<Uuid>)
    requires ClaimAllEnabled(s, k, ids)
    ensures Grows(s, ClaimAll(s, k, ids))
    ensures forall i :: SameSends(s, ClaimAll(s, k, ids), i)
    ensures forall i | i in s.db.rows && s.db.rows[i].status != Scheduled ::
              i in ClaimAll(s, k, ids).db.rows && ClaimAll(s, k, ids).db.rows[i] == s.db.rows[i]
    ensures ClaimAll(s, k, ids).clients == s.clients && ClaimAll(s, k, ids).workers == s.workers
    decreases |ids|
  {
    if ids != [] {
      var s1 := ClaimOne(s, k, ids[0]);
      ClaimOneGrows(s, k, ids[0]);
      ClaimAllGrows(s1, k, ids[1..]);
      hide ClaimOne;
      forall i ensures SameSends(s, ClaimAll(s1, k, ids[1..]), i) {
        assert SameSends(s, s1, i) && SameSends(s1, ClaimAll(s1, k, ids[1..]), i);
      }
    }
  }

  lemma HandOutDb(s: State, w: nat, p: Priority)
    requires w in s.workers
    ensures HandOut(s, w, p).db == s.db && HandOut(s, w, p).now == s.now && w in HandOut(s, w, p).workers
  {
  }

  lemma WriteGrows(s: State, id: Uuid, status: Status)
    requires status != Scheduled
    ensures RowsKept(s.db.rows, s.now, WriteStatus(s.db, id, status).rows, s.now)
  {
  }

  /** Every database command of processMessage keeps the rows, and only the one that begins a send adds to the sends. */
  lemma CommandsGrow(s: State, id: Uuid, a: Attempt, i: Uuid)
    ensures RowsKept(s.db.rows, s.now, s.db.rows, s.now)
    ensures RowsKept(s.db.rows, s.now, IncrementAttempt(s.db, id).rows, s.now)
    ensures RowsKept(s.db.rows, s.now, InsertAttempt(s.db, id, a).rows, s.now)
    ensures RowsKept(s.db.rows, s.now, RecordSend(s.db, id, s.now).rows, s.now)
    ensures RowsKept(s.db.rows, s.now, RecordHandled(s.db, id, s.now).rows, s.now)
    ensures HistoryOf(IncrementAttempt(s.db, id), i).sends == HistoryOf(s.db, i).sends
    ensures HistoryOf(InsertAttempt(s.db, id, a), i).sends == HistoryOf(s.db, i).sends
    ensures HistoryOf(RecordHandled(s.db, id, s.now), i).sends == HistoryOf(s.db, i).sends
    ensures i != id ==> HistoryOf(RecordSend(s.db, id, s.now), i).sends == HistoryOf(s.db, i).sends
  {
  }

  lemma WriteKeepsSends(db: Db, id: Uuid, status: Status, i: Uuid)
    ensures HistoryOf(WriteStatus(db, id, status), i).sends == HistoryOf(db, i).sends
  {
  }

  lemma BeforeSendGrows(s: State, w: nat, ok: bool, i: Uuid)
    requires WorkerEnabled(s, w) && s.workers[w].pc.Busy?
    requires s.workers[w].pc.stage.Claimed? || s.workers[w].pc.stage.Routed? || s.workers[w].pc.stage.Sending?
    ensures Grows(s, BusyStep(s, w, ok))
    ensures !Sends(s, WorkerNext(w, ok), i) ==> SameSends(s, BusyStep(s, w, ok), i)
  {
    hide WriteStatus, IncrementAttempt, InsertAttempt, RecordSend, RecordHandled, HistoryOf, RowsKept;
    var id := s.workers[w].pc.item.id;
    var n := s.workers[w].pc.item.row;
    WriteGrows(s, id, Processing);
    WriteKeepsSends(s.db, id, Processing, i);
    WriteGrows(s, id, Failed);
    WriteKeepsSends(s.db, id, Failed, i);
    CommandsGrow(s, id, Attempt(0, ok), i);
  }

  lemma RecordingGrows(s: State, w: nat, ok: bool, i: Uuid)
    requires WorkerEnabled(s, w) && s.workers[w].pc.Busy?
    requires s.workers[w].pc.stage.Sent? || s.workers[w].pc.stage.Counted?
    ensures Grows(s, BusyStep(s, w, ok))
    ensures !Sends(s, WorkerNext(w, ok), i) ==> SameSends(s, BusyStep(s, w, ok), i)
  {
    hide WriteStatus, IncrementAttempt, InsertAttempt, RecordSend, RecordHandled, HistoryOf, RowsKept;
    var id := s.workers[w].pc.item.id;
    var n := s.workers[w].pc.item.row;
    CommandsGrow(s, id, Attempt(n.attemptCount + 1, s.workers[w].pc.stage.ok), i);
  }

  lemma RecordedGrows(s: State, w: nat, ok: bool, i: Uuid)
    requires WorkerEnabled(s, w) && s.workers[w].pc.Busy?
    requires s.workers[w].pc.stage.Recorded?
    ensures Grows(s, BusyStep(s, w, ok))
    ensures !Sends(s, WorkerNext(w, ok), i) ==> SameSends(s, BusyStep(s, w, ok), i)
  {
    hide WriteStatus, IncrementAttempt, InsertAttempt, RecordSend, RecordHandled, HistoryOf, RowsKept;
    var id := s.workers[w].pc.item.id;
    var n := s.workers[w].pc.item.row;
    WriteGrows(s, id, Delivered);
    WriteKeepsSends(s.db, id, Delivered, i);
    WriteGrows(s, id, Failed);
    WriteKeepsSends(s.db, id, Failed, i);
    CommandsGrow(s, id, Attempt(0, ok), i);
  }

  lemma PassingOnGrows(s: State, w: nat, ok: bool, i: Uuid)
    requires WorkerEnabled(s, w) && s.workers[w].pc.Busy?
    requires s.workers[w].pc.stage.Requeue? || s.workers[w].pc.stage.Delaying? || s.workers[w].pc.stage.Burying?
    ensures Grows(s, BusyStep(s, w, ok))
    ensures !Sends(s, WorkerNext(w, ok), i) ==> SameSends(s, BusyStep(s, w, ok), i)
  {
    hide WriteStatus, IncrementAttempt, InsertAttempt, RecordSend, RecordHandled, HistoryOf, RowsKept;
    var id := s.workers[w].pc.item.id;
    var n := s.workers[w].pc.item.row;
    WriteGrows(s, id, Queued);
    WriteKeepsSends(s.db, id, Queued, i);
    CommandsGrow(s, id, Attempt(0, ok), i);
  }

  lemma WorkerGrows(s: State, w: nat, ok: bool, i: Uuid)
    requires WorkerEnabled(s, w)
    ensures Grows(s, WorkerStep(s, w, ok))
    ensures !Sends(s, WorkerNext(w, ok), i) ==> SameSends(s, WorkerStep(s, w, ok), i)
  {
    hide BusyStep, RowsKept;
    CommandsGrow(s, 0, Attempt(0, ok), i);
    if s.workers[w].pc.Busy? {
      match s.workers[w].pc.stage {
        case Claimed | Routed | Sending => BeforeSendGrows(s, w, ok, i);
        case Sent(_) | Counted(_) => RecordingGrows(s, w, ok, i);
        case Recorded(_) => RecordedGrows(s, w, ok, i);
        case Requeue(_) | Delaying(_) | Burying => PassingOnGrows(s, w, ok, i);
      }
    }
  }

  lemma StepGrows(s: State, step: Step)
    requires Enabled(s, step)
    ensures Grows(s, Apply(s, step))
  {
    hide BornAll, ClaimAll, HandOut, RemoveStep, WorkerStep, RowsKept, WriteStatus;
    assert RowsKept(s.db.rows, s.now, s.db.rows, s.now) by { RowsKeptReflexive(s); }
    match step {
      case Tick(ms) => TickGrows(s, ms);
      case Insert(c, news) => BornAllGrows(OpenClient(s, c), c, news);
      case ClientNext(c) => WriteGrows(s, s.clients[c].batch[s.clients[c].next].id, Queued);
      case Cancel(id) => WriteGrows(s, id, Cancelled);
      case Fetch(k, ids) => ClaimAllGrows(ResetScheduler(s, k), k, ids);
      case Read(w) => ReadDb(s, w);
      case WorkerNext(w, ok) => WorkerGrows(s, w, ok, 0);
      case Remove(p) => G.RemovesBatch(s, p);
      case _ =>
    }
  }

  lemma RowsKeptReflexive(s: State)
    ensures Grows(s, s)
  {
  }

  lemma TickGrows(s: State, ms: nat)
    ensures Grows(s, s.(now := s.now + ms))
  {
  }

  lemma ReadDb(s: State, w: nat)
    requires WorkerIdle(s, w)
    ensures ReadStep(s, w).db == s.db && ReadStep(s, w).now == s.now
  {
    hide HandOut;
    HandOutDb(ResetWorker(s, w), w, High);
    HandOutDb(HandOut(ResetWorker(s, w), w, High), w, Normal);
    HandOutDb(HandOut(HandOut(ResetWorker(s, w), w, High), w, Normal), w, Low);
  }

  lemma StepSends(s: State, step: Step, id: Uuid)
    requires Enabled(s, step) && id in s.db.rows && !Sends(s, step, id)
    ensures SameSends(s, Apply(s, step), id)
  {
    hide BornAll, ClaimAll, HandOut, RemoveStep, WorkerStep, WriteStatus, HistoryOf;
    match step {
      case Insert(c, news) => BornAllGrows(OpenClient(s, c), c, news);
      case ClientNext(c) => WriteKeepsSends(s.db, s.clients[c].batch[s.clients[c].next].id, Queued, id);
      case Cancel(i) => WriteKeepsSends(s.db, i, Cancelled, id);
      case Fetch(k, ids) =>
        ClaimAllGrows(ResetScheduler(s, k), k, ids);
        assert SameSends(ResetScheduler(s, k), ClaimAll(ResetScheduler(s, k), k, ids), id);
      case Read(w) => ReadDb(s, w);
      case WorkerNext(w, ok) => WorkerGrows(s, w, ok, id);
      case Remove(p) => G.RemovesBatch(s, p);
      case _ =>
    }
  }

  lemma {:induction false} RunGrows(s: State, steps: seq<Step>)
    requires ValidRun(s, steps)
    ensures Grows(s, After(s, steps))
    decreases |steps|
  {
    hide Apply;
    if steps != [] {
      StepGrows(s, steps[0]);
      RunGrows(Apply(s, steps[0]), steps[1..]);
    }
  }

  lemma {:induction false} RunSplit(s: State, a: seq<Step>, b: seq<Step>)
    requires ValidRun(s, a + b)
    ensures ValidRun(s, a) && ValidRun(After(s, a), b) && After(s, a + b) == After(After(s, a), b)
    decreases |a|
  {
    hide Apply, Enabled;
    if a == [] {
      assert a + b == b;
    } else {
      assert (a + b)[1..] == a[1..] + b;
      RunSplit(Apply(s, a[0]), a[1..], b);
    }
  }

  lemma {:induction false} RunJoin(s: State, a: seq<Step>, b: seq<Step>)
    requires ValidRun(s, a) && ValidRun(After(s, a), b)
    ensures ValidRun(s, a + b) && After(s, a + b) == After(After(s, a), b)
    decreases |a|
  {
    hide Apply, Enabled;
    if a == [] {
      assert a + b == b;
    } else {
      assert (a + b)[1..] == a[1..] + b;
      RunJoin(Apply(s, a[0]), a[1..], b);
    }
  }

  /** processMessage changes no process but its own worker. */
  lemma BusyWorkers(s: State, w: nat, ok: bool)
    requires WorkerEnabled(s, w) && s.workers[w].pc.Busy?
    ensures var s' := BusyStep(s, w, ok);
            && s'.clients == s.clients && s'.schedulers == s.schedulers && s'.processors == s.processors
            && w in s'.workers && s'.workers == Goto(s, w, s'.workers[w].pc)
            && (s'.workers[w].pc.Busy? ==> s'.workers[w].pc.item == s.workers[w].pc.item)
  {
    hide WriteStatus, IncrementAttempt, InsertAttempt, RecordSend, RecordHandled, Hand, EnqueueDelayed, PushDead,
      Retry.Backoff;
    match s.workers[w].pc.stage {
      case Claimed =>
      case Routed =>
      case Sending =>
      case Sent(_) =>
      case Counted(_) =>
      case Recorded(_) =>
      case Requeue(_) =>
      case Delaying(_) =>
      case Burying =>
    }
  }

  lemma OneStep(s: State, step: Step)
    requires Enabled(s, step)
    ensures ValidRun(s, [step]) && After(s, [step]) == Apply(s, step)
  {
    hide Enabled, Apply;
    assert [step][1..] == [];
    assert ValidRun(Apply(s, step), []);
  }

  lemma FirstStep(s: State, step: Step, rest: seq<Step>)
    requires Enabled(s, step) && ValidRun(Apply(s, step), rest)
    ensures ValidRun(s, [step] + rest) && After(s, [step] + rest) == After(Apply(s, step), rest)
  {
    hide Enabled, Apply;
    assert ([step] + rest)[1..] == rest;
  }

  /**
   Scheduled notifications, in every run with any number of schedulers: promoted at most once, not at all while
   the row is `scheduled`; once it has left `scheduled` it never returns; and no send begins before scheduled_at.
   */
  lemma ScheduledPromotion(s0: State, steps: seq<Step>, more: seq<Step>, id: Uuid)
    requires Init(s0) && ValidRun(s0, steps + more)
    requires ValidRun(s0, steps) && id in After(s0, steps).db.rows
    ensures ValidRun(After(s0, steps), more) && id in After(After(s0, steps), more).db.rows
    ensures var s, s' := After(s0, steps), After(After(s0, steps), more);
            && HistoryOf(s'.db, id).promotions <= 1
            && (s'.db.rows[id].status == Scheduled ==> HistoryOf(s'.db, id).promotions == 0)
            && (s.db.rows[id].status != Scheduled ==> s'.db.rows[id].status != Scheduled)
            && s'.db.rows[id].scheduledAt == s.db.rows[id].scheduledAt
            && (forall i | 0 <= i < |HistoryOf(s'.db, id).sends| ::
                 NotBefore(s'.db.rows[id], HistoryOf(s'.db, id).sends[i]))
  {
    hide After, Agree;
    RunSplit(s0, steps, more);
    RunGrows(After(s0, steps), more);
    G.InitAgrees(s0);
    RunAgrees(s0, steps + more);
    AgreeRow(After(s0, steps + more), id);
  }

  lemma AgreeRow(s: State, id: Uuid)
    requires Agree(s) && id in s.db.rows
    ensures RowOk(s.db.rows[id], HistoryOf(s.db, id))
  {
  }

  /**
   In every run, with any number of processors and with ClaimStale: each stream entry names an existing row, carries
   its channel and sits in the stream of its priority; each delayed or popped member is the text of an existing row.
   */
  lemma CarriersMatchRows(s0: State, steps: seq<Step>)
    requires Init(s0) && ValidRun(s0, steps)
    ensures var s := After(s0, steps);
            && (forall p, i | 0 <= i < |Log(s.mq, p)| ::
                  var e := Log(s.mq, p)[i];
                  e.id in s.db.rows && e.channel == ChannelText(s.db.rows[e.id].channel)
                      && s.db.rows[e.id].priority == p)
            && (forall m | m in s.mq.delayed :: IsMemberOfRow(s.db.rows, m))
            && (forall q, i | q in s.processors && 0 <= i < |s.processors[q].batch| ::
                 IsMemberOfRow(s.db.rows, s.processors[q].batch[i]))
  {
    hide After;
    G.InitAgrees(s0);
    RunAgrees(s0, steps);
    var s := After(s0, steps);
    forall p, i | 0 <= i < |Log(s.mq, p)|
      ensures var e := Log(s.mq, p)[i];
              e.id in s.db.rows && e.channel == ChannelText(s.db.rows[e.id].channel) && s.db.rows[e.id].priority == p
    {
      assert EntryOk(s.db.rows, s.now, p, Log(s.mq, p)[i]);
    }
    forall m | m in s.mq.delayed ensures IsMemberOfRow(s.db.rows, m) {
      MemberNamesRow(s.db.rows, s.now, m);
    }
    forall q, i | q in s.processors && 0 <= i < |s.processors[q].batch|
      ensures IsMemberOfRow(s.db.rows, s.processors[q].batch[i])
    {
      MemberNamesRow(s.db.rows, s.now, s.processors[q].batch[i]);
    }
  }

  ghost predicate IsMemberOfRow(rows: Rows, m: string) {
    exists id :: id in rows && m == MemberOf(id, rows[id])
  }

  lemma MemberNamesRow(rows: Rows, now: int, m: string)
    requires MemberOk(rows, now, m)
    ensures IsMemberOfRow(rows, m)
  {
    hide MemberOf;
  }

  /** Idempotency keys stay unique among all stored notifications in every run. */
  lemma KeysStayUnique(s0: State, steps: seq<Step>)
    requires Init(s0) && ValidRun(s0, steps)
    ensures UniqueKeys(After(s0, steps).db.rows)
  {
    G.InitAgrees(s0);
    RunAgrees(s0, steps);
  }
}
