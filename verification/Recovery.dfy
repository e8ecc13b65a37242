/**
 Progress with crashes: as long as one worker runs, ClaimStale and the loops can bring every notification to a
 decision, whatever the others have left behind and however the provider answers.
 */
module Recovery {
  import opened Domain
  import opened Table
  import opened Pipeline
  import opened Agreement
  import opened Carriers
  import opened NoLoss
  import opened Timeline
  import A = Alone
  import D = Drain
  import G = Guarantees
  import MC = MemberCodec
  import Retry
  import S = Settlement

  // ---------------------------------------------------------------- driving the loops

  ghost predicate Bounded(s: State) {
    forall k | k in s.schedulers :: s.schedulers[k].next <= |s.schedulers[k].batch|
  }

  /** Worker w runs and is idle, and there are schedulers and processors to drive. */
  ghost predicate OnDuty(s: State, w: nat) {
    Inv(s) && Bounded(s) && WorkerIdle(s, w) && s.schedulers.Keys != {} && s.processors.Keys != {}
  }

  /** No client arrives or cancels, no worker stops, and the provider answers as the oracle says. */
  predicate Obeys(s: State, step: Step, answer: D.Oracle) {
    !step.Insert? && !step.Cancel? && !step.Stop? && (step.WorkerNext? ==> step.ok == answer(s))
  }

  ghost predicate Obey(s: State, steps: seq<Step>, answer: D.Oracle)
    requires ValidRun(s, steps)
    decreases |steps|
  {
    steps == [] || (Obeys(s, steps[0], answer) && Obey(Apply(s, steps[0]), steps[1..], answer))
  }

  /** No row comes or goes, decisions stand, and attempts are only ever counted up. */
  ghost predicate Kept(s: State, s': State) {
    && s'.db.rows.Keys == s.db.rows.Keys
    && forall i | i in s.db.rows ::
         && i in s'.db.rows && SameColumns(s.db.rows[i], s'.db.rows[i]) && (Decided(s.db, i) ==> Decided(s'.db, i))
         && s.db.rows[i].attemptCount <= s'.db.rows[i].attemptCount
  }

  ghost predicate SameCount(s: State, s': State, id: Uuid) {
    id in s.db.rows && id in s'.db.rows && s'.db.rows[id].attemptCount == s.db.rows[id].attemptCount
  }

  ghost predicate Drives(s: State, steps: seq<Step>, w: nat, answer: D.Oracle) {
    ValidRun(s, steps) && Obey(s, steps, answer) && OnDuty(After(s, steps), w) && Kept(s, After(s, steps))
  }

  lemma KeptTwice(s: State, s1: State, s2: State)
    requires Kept(s, s1) && Kept(s1, s2)
    ensures Kept(s, s2)
  {
    hide Decided;
  }

  lemma {:induction false} ObeyJoin(s: State, a: seq<Step>, b: seq<Step>, answer: D.Oracle)
    requires ValidRun(s, a) && ValidRun(After(s, a), b) && Obey(s, a, answer) && Obey(After(s, a), b, answer)
    ensures ValidRun(s, a + b) && Obey(s, a + b, answer) && After(s, a + b) == After(After(s, a), b)
    decreases |a|
  {
    hide Apply, Enabled, Obeys;
    RunJoin(s, a, b);
    if a == [] {
      assert a + b == b;
    } else {
      assert (a + b)[1..] == a[1..] + b;
      ObeyJoin(Apply(s, a[0]), a[1..], b, answer);
    }
  }

  lemma DrivesJoin(s: State, a: seq<Step>, b: seq<Step>, w: nat, answer: D.Oracle)
    requires Drives(s, a, w, answer) && Drives(After(s, a), b, w, answer)
    ensures Drives(s, a + b, w, answer) && After(s, a + b) == After(After(s, a), b)
  {
    hide After, ValidRun, Obey, OnDuty, Kept;
    ObeyJoin(s, a, b, answer);
    KeptTwice(s, After(s, a), After(After(s, a), b));
  }

  lemma DrivesNowhere(s: State, w: nat, answer: D.Oracle)
    requires OnDuty(s, w)
    ensures Drives(s, [], w, answer)
  {
    hide OnDuty;
  }

  /** The steps of clients, schedulers and processors, and the clock. */
  predicate Background(step: Step) {
    || step.Tick? || step.ClientNext? || step.Fetch? || step.SchedulerNext? || step.Range? || step.Remove?
    || step.ProcessorNext?
  }

  lemma WriteKeepsKeys(db: Db, id: Uuid, status: Status)
    ensures WriteStatus(db, id, status).rows.Keys == db.rows.Keys
  {
  }

  lemma {:induction false} ClaimAllFrame(s: State, k: nat, ids: seq<Uuid>)
    requires ClaimAllEnabled(s, k, ids)
    ensures var s' := ClaimAll(s, k, ids);
            && s'.db.rows.Keys == s.db.rows.Keys && s'.workers == s.workers && s'.processors == s.processors
            && s'.schedulers.Keys == s.schedulers.Keys
            && forall j | j in s.schedulers ::
                 && j in s'.schedulers && s'.schedulers[j].next == s.schedulers[j].next
                 && |s.schedulers[j].batch| <= |s'.schedulers[j].batch|
    decreases |ids|
  {
    if ids != [] {
      var s1 := ClaimOne(s, k, ids[0]);
      assert s1.db.rows.Keys == s.db.rows.Keys;
      assert s1.schedulers.Keys == s.schedulers.Keys;
      ClaimAllFrame(s1, k, ids[1..]);
    }
  }

  /** They leave the workers alone, and the set of rows. */
  lemma BackgroundFrame(s: State, step: Step)
    requires Enabled(s, step) && Background(step) && Bounded(s)
    ensures var s' := Apply(s, step);
            && s'.workers == s.workers && s'.db.rows.Keys == s.db.rows.Keys
            && s'.schedulers.Keys == s.schedulers.Keys && s'.processors.Keys == s.processors.Keys && Bounded(s')
  {
    hide ClaimAll, RemoveStep, WriteStatus, DueBatch, Redeliver, EnqueueItem;
    match step {
      case ClientNext(c) => WriteKeepsKeys(s.db, s.clients[c].batch[s.clients[c].next].id, Queued);
      case Fetch(k, ids) =>
        ClaimAllFrame(ResetScheduler(s, k), k, ids);
        assert ResetScheduler(s, k).schedulers.Keys == s.schedulers.Keys;
      case Remove(p) =>
        G.RemovesBatch(s, p);
        assert RemoveStep(s, p).processors.Keys == s.processors.Keys;
      case Range(p, at, batch) => assert RangeStep(s, p, at, batch).processors.Keys == s.processors.Keys;
      case ProcessorNext(p) => assert ProcessorStep(s, p).processors.Keys == s.processors.Keys;
      case SchedulerNext(k) => assert SchedulerStep(s, k).schedulers.Keys == s.schedulers.Keys;
      case _ =>
    }
  }

  /** So worker w is as ready as before, and no attempt is counted. */
  lemma BackgroundStep(s: State, step: Step, w: nat, answer: D.Oracle)
    requires OnDuty(s, w) && Enabled(s, step) && Background(step)
    ensures Drives(s, [step], w, answer) && After(s, [step]) == Apply(s, step)
    ensures forall i | i in s.db.rows :: SameCount(s, Apply(s, step), i)
  {
    hide Apply, Enabled, Inv, Bounded;
    EveryStepLosesNone(s, step);
    BackgroundFrame(s, step);
    OneStep(s, step);
    var s' := Apply(s, step);
    assert Obey(s', [], answer);
    assert [step][1..] == [];
    forall i | i in s.db.rows
      ensures SameCount(s, s', i) && SameColumns(s.db.rows[i], s'.db.rows[i])
          && (Decided(s.db, i) ==> Decided(s'.db, i))
    {
      S.StepKeepsRecord(s, step, i);
    }
  }

  /** A quiet step, and then a run that drives on. */
  lemma ThenDrives(s: State, step: Step, rest: seq<Step>, w: nat, answer: D.Oracle) returns (steps: seq<Step>)
    requires OnDuty(s, w) && Enabled(s, step) && Background(step) && Drives(Apply(s, step), rest, w, answer)
    ensures Drives(s, steps, w, answer) && After(s, steps) == After(Apply(s, step), rest)
    ensures forall i | i in s.db.rows :: SameCount(s, Apply(s, step), i)
  {
    hide Apply, Enabled, Drives, OnDuty, Background, After;
    BackgroundStep(s, step, w, answer);
    steps := [step] + rest;
    DrivesJoin(s, [step], rest, w, answer);
  }

  // ---------------------------------------------------------------- onto a stream

  predicate OnStream(s: State, id: Uuid, ref: Ref) {
    Recoverable(s, id, Streamed(ref))
  }

  /** The notification has reached a stream without another attempt. */
  ghost predicate Lands(s: State, steps: seq<Step>, w: nat, answer: D.Oracle, id: Uuid, ref: Ref) {
    && Drives(s, steps, w, answer)
    && OnStream(After(s, steps), id, ref) && SameCount(s, After(s, steps), id)
  }

  lemma LandsLater(s: State, step: Step, rest: seq<Step>, w: nat, answer: D.Oracle, id: Uuid, ref: Ref)
    returns (steps: seq<Step>)
    requires OnDuty(s, w) && Enabled(s, step) && Background(step) && id in s.db.rows
    requires Lands(Apply(s, step), rest, w, answer, id, ref)
    ensures Lands(s, steps, w, answer, id, ref)
  {
    hide Apply, Enabled, Drives, OnDuty, Background, After, OnStream;
    steps := ThenDrives(s, step, rest, w, answer);
    assert SameCount(s, Apply(s, step), id);
  }

  lemma LandsNow(s: State, step: Step, w: nat, answer: D.Oracle, id: Uuid, ref: Ref) returns (steps: seq<Step>)
    requires OnDuty(s, w) && Enabled(s, step) && Background(step)
    requires id in s.db.rows && OnStream(Apply(s, step), id, ref)
    ensures Lands(s, steps, w, answer, id, ref)
  {
    hide Apply, Enabled, Drives, OnDuty, Background, After, OnStream;
    BackgroundStep(s, step, w, answer);
    steps := [step];
  }

  lemma EnqueueLands(s: State, c: nat)
    requires RefsOk(s.mq) && ClientEnabled(s, c) && s.clients[c].batch[s.clients[c].next].row.status == Pending
    requires !s.clients[c].enqueued
    ensures var item := s.clients[c].batch[s.clients[c].next];
            OnStream(ClientStep(s, c), item.id, NextRef(s.mq, item.row.priority))
  {
    hide RefsOk;
    var item := s.clients[c].batch[s.clients[c].next];
    AppendSpares(s, item.row.priority, EntryFor(item));
  }

  lemma OnDutyFacts(s: State, w: nat)
    requires OnDuty(s, w)
    ensures Agree(s) && RefsOk(s.mq) && RowsOk(s.db)
    ensures forall c | c in s.clients :: ClientOk(s.clients[c])
    ensures forall p | p in s.processors :: ProcessorBounds(s.processors[p])
  {
  }

  lemma {:induction false} ClientLands(s: State, w: nat, answer: D.Oracle, c: nat, i: nat, id: Uuid)
    returns (steps: seq<Step>, ref: Ref)
    requires OnDuty(s, w) && id in s.db.rows && At(s, id, WithClient(c, i))
    ensures Lands(s, steps, w, answer, id, ref)
    decreases i - s.clients[c].next, if s.clients[c].enqueued then 0 else 1
  {
    hide OnDuty, Lands, OnStream, WriteStatus, EnqueueItem, Agree;
    OnDutyFacts(s, w);
    var step := ClientNext(c);
    var client := s.clients[c];
    assert Enabled(s, step);
    if client.next == i {
      ref := NextRef(s.mq, client.batch[i].row.priority);
      EnqueueLands(s, c);
      steps := LandsNow(s, step, w, answer, id, ref);
    } else {
      assert At(ClientStep(s, c), id, WithClient(c, i));
      BackgroundStep(s, step, w, answer);
      var rest;
      rest, ref := ClientLands(Apply(s, step), w, answer, c, i, id);
      steps := LandsLater(s, step, rest, w, answer, id, ref);
    }
  }

  lemma SchedulerEnqueueLands(s: State, k: nat)
    requires RefsOk(s.mq) && SchedulerEnabled(s, k)
    ensures var item := s.schedulers[k].batch[s.schedulers[k].next];
            OnStream(SchedulerStep(s, k), item.id, NextRef(s.mq, item.row.priority))
  {
    hide RefsOk;
    var item := s.schedulers[k].batch[s.schedulers[k].next];
    AppendSpares(s, item.row.priority, EntryFor(item));
  }

  lemma {:induction false} SchedulerLands(s: State, w: nat, answer: D.Oracle, k: nat, i: nat, id: Uuid)
    returns (steps: seq<Step>, ref: Ref)
    requires OnDuty(s, w) && id in s.db.rows && At(s, id, WithScheduler(k, i))
    ensures Lands(s, steps, w, answer, id, ref)
    decreases i - s.schedulers[k].next
  {
    hide OnDuty, Lands, OnStream, EnqueueItem, Agree;
    OnDutyFacts(s, w);
    var step := SchedulerNext(k);
    var sched := s.schedulers[k];
    assert Enabled(s, step);
    if sched.next == i {
      ref := NextRef(s.mq, sched.batch[i].row.priority);
      SchedulerEnqueueLands(s, k);
      steps := LandsNow(s, step, w, answer, id, ref);
    } else {
      assert At(SchedulerStep(s, k), id, WithScheduler(k, i));
      BackgroundStep(s, step, w, answer);
      var rest;
      rest, ref := SchedulerLands(Apply(s, step), w, answer, k, i, id);
      steps := LandsLater(s, step, rest, w, answer, id, ref);
    }
  }

  /** The scheduler finishes its batch, waits for the scheduled time and claims the row. */
  lemma {:induction false} WaitingLands(s: State, w: nat, answer: D.Oracle, k: nat, id: Uuid)
    returns (steps: seq<Step>, ref: Ref)
    requires OnDuty(s, w) && id in s.db.rows && s.db.rows[id].status == Scheduled && k in s.schedulers
    ensures Lands(s, steps, w, answer, id, ref)
    decreases |s.schedulers[k].batch| - s.schedulers[k].next
  {
    hide Lands, OnStream, EnqueueItem, Agree, Inv, NoneLost;
    if SchedulerEnabled(s, k) {
      var step := SchedulerNext(k);
      assert Enabled(s, step);
      BackgroundStep(s, step, w, answer);
      var rest;
      rest, ref := WaitingLands(Apply(s, step), w, answer, k, id);
      steps := LandsLater(s, step, rest, w, answer, id, ref);
    } else {
      assert SchedulerIdle(s, k);
      steps, ref := IdleSchedulerLands(s, w, answer, k, id);
    }
  }

  lemma IdleSchedulerLands(s: State, w: nat, answer: D.Oracle, k: nat, id: Uuid) returns (steps: seq<Step>, ref: Ref)
    requires OnDuty(s, w) && id in s.db.rows && s.db.rows[id].status == Scheduled && SchedulerIdle(s, k)
    ensures Lands(s, steps, w, answer, id, ref)
  {
    hide Lands, OnStream, EnqueueItem, Agree, Inv, NoneLost;
    IsScheduled(s, w, id);
    var due := s.db.rows[id].scheduledAt.value;
    var tick, fetch := Tick(if due <= s.now then 0 else due - s.now), Fetch(k, [id]);
    var s1 := Apply(s, tick);
    BackgroundStep(s, tick, w, answer);
    D.ClaimJust(ResetScheduler(s1, k), k, id);
    assert Enabled(s1, fetch);
    var s2 := Apply(s1, fetch);
    BackgroundStep(s1, fetch, w, answer);
    JustClaimed(s1, k, id);
    hide Apply, Enabled, OnDuty, At, Background;
    var rest;
    rest, ref := SchedulerLands(s2, w, answer, k, 0, id);
    rest := LandsLater(s1, fetch, rest, w, answer, id, ref);
    steps := LandsLater(s, tick, rest, w, answer, id, ref);
  }

  lemma IsScheduled(s: State, w: nat, id: Uuid)
    requires OnDuty(s, w) && id in s.db.rows && s.db.rows[id].status == Scheduled
    ensures s.db.rows[id].scheduledAt.Some?
  {
    hide OnDuty;
    OnDutyFacts(s, w);
    hide Agree;
    assert RowOk(s.db.rows[id], HistoryOf(s.db, id));
  }

  lemma JustClaimed(s: State, k: nat, id: Uuid)
    requires FetchEnabled(s, k, [id])
    ensures At(FetchStep(s, k, [id]), id, WithScheduler(k, 0))
    ensures id in FetchStep(s, k, [id]).db.rows
  {
    var s0 := ResetScheduler(s, k);
    assert [id][0] == id && [id][1..] == [];
    var s1 := ClaimOne(s0, k, id);
    assert ClaimAll(s1, k, []) == s1;
    assert s0.schedulers[k].batch == [];
  }

  // ---------------------------------------------------------------- out of the delayed set

  ghost predicate OnSomeStream(s: State, id: Uuid) {
    exists ref :: OnStream(s, id, ref)
  }

  ghost predicate PoppedBy(s: State, p: nat, id: Uuid) {
    exists i :: At(s, id, Popped(p, i))
  }

  /** Processor p can put the notification on a stream, or already has. */
  ghost predicate InReach(s: State, p: nat, id: Uuid) {
    At(s, id, Retrying) || PoppedBy(s, p, id) || OnSomeStream(s, id)
  }

  lemma SparedReach(s: State, s': State, p: nat, id: Uuid, other: Uuid, x: Carrier)
    requires Spares(s, s', other, x) && InReach(s, p, id)
    requires id == other ==> InReach(s', p, id) || !Recoverable(s, id, x)
    ensures InReach(s', p, id)
  {
    hide At;
    if At(s, id, Retrying) {
      assert Recoverable(s, id, Retrying);
    } else if i :| At(s, id, Popped(p, i)) {
      assert Recoverable(s, id, Popped(p, i));
      if !(id == other && x == Popped(p, i)) {
        assert Recoverable(s', id, Popped(p, i));
        assert At(s', id, Popped(p, i));
      }
    } else {
      var ref :| OnStream(s, id, ref);
      if !(id == other && x == Streamed(ref)) {
        assert OnStream(s', id, ref);
      }
    }
  }

  lemma RemoveOneReaches(s: State, p: nat, id: Uuid)
    requires Agree(s) && RemoveEnabled(s, p) && ProcessorBounds(s.processors[p]) && InReach(s, p, id)
    ensures InReach(RemoveOne(s, p), p, id) && ProcessorBounds(RemoveOne(s, p).processors[p])
  {
    hide Agree, MemberOf, Recoverable, InReach;
    var proc := s.processors[p];
    BatchNames(s, p, proc.gone);
    var other := MC.Decode(proc.batch[proc.gone]).value.id;
    RemoveOneSpares(s, p, other);
    if other == id {
      ReachesPopped(RemoveOne(s, p), p, proc.gone, id);
    }
    hide RemoveOne;
    SparedReach(s, RemoveOne(s, p), p, id, other, Retrying);
  }

  lemma ReachesPopped(s: State, p: nat, i: nat, id: Uuid)
    requires At(s, id, Popped(p, i))
    ensures InReach(s, p, id)
  {
    hide At;
  }

  lemma {:induction false} RemoveReaches(s: State, p: nat, id: Uuid)
    requires Inv(s) && RemoveEnabled(s, p) && InReach(s, p, id)
    ensures InReach(RemoveStep(s, p), p, id)
    decreases |s.processors[p].batch| - s.processors[p].gone
  {
    hide Inv, InReach, Agree;
    InvParts(s);
    RemoveOneReaches(s, p, id);
    RemoveOneLosesNone(s, p);
    if RemoveEnabled(RemoveOne(s, p), p) {
      RemoveReaches(RemoveOne(s, p), p, id);
    }
  }

  lemma InvParts(s: State)
    requires Inv(s)
    ensures Agree(s) && NoneLost(s) && forall p | p in s.processors :: ProcessorBounds(s.processors[p])
  {
  }

  lemma RedeliverReaches(s: State, p: nat, id: Uuid)
    requires Agree(s) && ProcessorEnabled(s, p) && InReach(s, p, id)
    ensures InReach(ProcessorStep(s, p), p, id)
  {
    hide Agree, MemberOf, At, Recoverable, InReach, Redeliver, Append, RefsOk;
    var proc := s.processors[p];
    var s' := ProcessorStep(s, p);
    var other, priority := RedeliverAppends(s, p);
    var e := Entry(other, ChannelText(s.db.rows[other].channel));
    AppendSpares(s, priority, e);
    var s1 := s.(mq := s'.mq);
    ProcessorMoveSpares(s1, p, other);
    SparesBoth(s, s1, s', other, Popped(p, proc.next));
    if other == id {
      StreamSurvives(s1, s', id, NextRef(s.mq, priority));
      ReachesStream(s', p, id, NextRef(s.mq, priority));
    }
    SparedReach(s, s', p, id, other, Popped(p, proc.next));
  }

  /** The next member of a batch names a row, whose entry is appended to the stream of its priority. */
  lemma RedeliverAppends(s: State, p: nat) returns (id: Uuid, priority: Priority)
    requires Agree(s) && ProcessorEnabled(s, p)
    ensures RefsOk(s.mq) && id in s.db.rows && Names(s.processors[p].batch[s.processors[p].next], id)
    ensures ProcessorStep(s, p).mq == Append(s.mq, priority, Entry(id, ChannelText(s.db.rows[id].channel)))
  {
    var m := s.processors[p].batch[s.processors[p].next];
    assert MemberOk(s.db.rows, s.now, m);
    BatchNames(s, p, s.processors[p].next);
    hide Agree, MemberOk, Redeliver, Append, RefsOk;
    RedeliverIs(s.db.rows, s.now, s.mq, m);
    id := MC.Decode(m).value.id;
    priority := s.db.rows[id].priority;
  }

  lemma StreamSurvives(s: State, s': State, id: Uuid, ref: Ref)
    requires Recoverable(s, id, Streamed(ref)) && s'.mq == s.mq
    ensures OnStream(s', id, ref)
  {
  }

  lemma ReachesStream(s: State, p: nat, id: Uuid, ref: Ref)
    requires OnStream(s, id, ref)
    ensures InReach(s, p, id)
  {
    hide OnStream;
  }

  function Work(proc: Processor): int {
    2 * (|proc.batch| - proc.next) + if proc.gone < |proc.batch| then 1 else 0
  }

  lemma Fewer(delayed: map<string, int>, gone: set<string>)
    ensures |delayed - gone| <= |delayed|
    ensures (exists m :: m in gone && m in delayed) ==> |delayed - gone| < |delayed|
  {
    var lost := delayed.Keys * gone;
    assert (delayed - gone).Keys == delayed.Keys - lost;
    assert delayed.Keys == (delayed.Keys - lost) + lost;
    if m :| m in gone && m in delayed {
      assert m in lost;
    }
  }

  /** One step of a processor that is not idle. */
  lemma ProcessorWorks(s: State, w: nat, answer: D.Oracle, p: nat, id: Uuid) returns (step: Step)
    requires OnDuty(s, w) && p in s.processors && !ProcessorIdle(s, p) && InReach(s, p, id) && id in s.db.rows
    ensures Enabled(s, step) && Background(step) && InReach(Apply(s, step), p, id)
    ensures var s' := Apply(s, step);
            p in s'.processors && Work(s'.processors[p]) < Work(s.processors[p]) && |s'.mq.delayed| <= |s.mq.delayed|
  {
    hide OnDuty, Inv, InReach, Enabled, Apply, RemoveStep, ProcessorStep, Work, RemoveEnabled, ProcessorEnabled,
      ProcessorIdle;
    OnDutyInv(s, w);
    ProcessorSteps(s, p);
    if RemoveEnabled(s, p) {
      step := Remove(p);
      RemoveWorks(s, p, id);
    } else {
      step := ProcessorNext(p);
      InvParts(s);
      RedeliverWorks(s, p, id);
    }
  }

  lemma ProcessorSteps(s: State, p: nat)
    ensures RemoveEnabled(s, p) ==> Enabled(s, Remove(p)) && Apply(s, Remove(p)) == RemoveStep(s, p)
    ensures ProcessorEnabled(s, p) ==> Enabled(s, ProcessorNext(p)) && Apply(s, ProcessorNext(p)) == ProcessorStep(s, p)
  {
    hide RemoveStep, ProcessorStep, RemoveEnabled, ProcessorEnabled;
  }

  lemma RemoveWorks(s: State, p: nat, id: Uuid)
    requires Inv(s) && RemoveEnabled(s, p) && InReach(s, p, id)
    ensures var s' := RemoveStep(s, p);
            && InReach(s', p, id) && p in s'.processors && Work(s'.processors[p]) < Work(s.processors[p])
            && |s'.mq.delayed| <= |s.mq.delayed|
  {
    hide Inv, InReach, RemoveStep;
    RemoveReaches(s, p, id);
    G.RemovesBatch(s, p);
    Fewer(s.mq.delayed, Elements(s.processors[p].batch[s.processors[p].gone..]));
  }

  lemma RedeliverWorks(s: State, p: nat, id: Uuid)
    requires Agree(s) && p in s.processors && ProcessorBounds(s.processors[p])
    requires !RemoveEnabled(s, p) && !ProcessorIdle(s, p) && InReach(s, p, id)
    ensures ProcessorEnabled(s, p)
    ensures var s' := ProcessorStep(s, p);
            && InReach(s', p, id) && p in s'.processors && Work(s'.processors[p]) < Work(s.processors[p])
            && |s'.mq.delayed| <= |s.mq.delayed|
  {
    hide Agree, InReach;
    RedeliverReaches(s, p, id);
    RedeliverDelaysNone(s.mq, s.processors[p].batch[s.processors[p].next]);
    hide Redeliver;
  }

  lemma RedeliverDelaysNone(mq: Redis, member: string)
    ensures Redeliver(mq, member).delayed == mq.delayed
  {
  }

  lemma OnDutyInv(s: State, w: nat)
    requires OnDuty(s, w)
    ensures Inv(s)
  {
  }

  /** The processor finishes its batch; the notification is then still delayed, or on a stream. */
  lemma {:induction false} BatchFinishes(s: State, w: nat, answer: D.Oracle, p: nat, id: Uuid)
    returns (steps: seq<Step>)
    requires OnDuty(s, w) && p in s.processors && InReach(s, p, id) && id in s.db.rows
    ensures Drives(s, steps, w, answer) && SameCount(s, After(s, steps), id)
    ensures var s' := After(s, steps); ProcessorIdle(s', p) && InReach(s', p, id) && |s'.mq.delayed| <= |s.mq.delayed|
    decreases Work(s.processors[p])
  {
    hide OnDuty, InReach, Apply, Enabled, Drives;
    WorkIsNatural(s, w, p);
    if ProcessorIdle(s, p) {
      steps := [];
      DrivesNowhere(s, w, answer);
    } else {
      var step := ProcessorWorks(s, w, answer, p, id);
      BackgroundStep(s, step, w, answer);
      DrivesOnDuty(s, [step], w, answer, id);
      assert SameCount(s, Apply(s, step), id);
      WorkIsNatural(Apply(s, step), w, p);
      var rest := BatchFinishes(Apply(s, step), w, answer, p, id);
      steps := ThenDrives(s, step, rest, w, answer);
    }
  }

  lemma DrivesOnDuty(s: State, steps: seq<Step>, w: nat, answer: D.Oracle, id: Uuid)
    requires Drives(s, steps, w, answer)
    ensures ValidRun(s, steps) && OnDuty(After(s, steps), w) && Kept(s, After(s, steps))
    ensures id in s.db.rows ==> id in After(s, steps).db.rows
  {
  }

  lemma WorkIsNatural(s: State, w: nat, p: nat)
    requires OnDuty(s, w) && p in s.processors
    ensures Work(s.processors[p]) >= 0
  {
    OnDutyFacts(s, w);
    hide OnDuty;
  }

  lemma IdleReach(s: State, p: nat, id: Uuid)
    requires ProcessorIdle(s, p) && InReach(s, p, id) && !OnSomeStream(s, id)
    ensures At(s, id, Retrying)
  {
    hide OnSomeStream;
  }

  /** Pop by pop, the processor gets to the notification's member. */
  lemma {:induction false} ProcessorLands(s: State, w: nat, answer: D.Oracle, p: nat, id: Uuid)
    returns (steps: seq<Step>, ref: Ref)
    requires OnDuty(s, w) && p in s.processors && InReach(s, p, id) && id in s.db.rows
    ensures Lands(s, steps, w, answer, id, ref)
    decreases |s.mq.delayed|
  {
    hide OnDuty, InReach, Drives, OnStream, At, Apply, Enabled, Background;
    var finish := BatchFinishes(s, w, answer, p, id);
    DrivesOnDuty(s, finish, w, answer, id);
    var s1 := After(s, finish);
    if r :| OnStream(s1, id, r) {
      steps, ref := finish, r;
    } else {
      IdleReach(s1, p, id);
      var pop := Pops(s1, w, answer, p, id);
      DrivesOnDuty(s1, pop, w, answer, id);
      hide After;
      var rest;
      rest, ref := ProcessorLands(After(s1, pop), w, answer, p, id);
      var more := LandsAfter(s1, pop, rest, w, answer, id, ref);
      steps := LandsAfter(s, finish, more, w, answer, id, ref);
    }
  }

  lemma LandsAfter(s: State, a: seq<Step>, b: seq<Step>, w: nat, answer: D.Oracle, id: Uuid, ref: Ref)
    returns (steps: seq<Step>)
    requires Drives(s, a, w, answer) && SameCount(s, After(s, a), id)
    requires Lands(After(s, a), b, w, answer, id, ref)
    ensures Lands(s, steps, w, answer, id, ref)
  {
    hide Drives, OnStream, After;
    DrivesJoin(s, a, b, w, answer);
    steps := a + b;
  }

  /** An idle processor waits for the member's retry time and ranges a batch. */
  lemma Ranges(s: State, w: nat, answer: D.Oracle, p: nat, id: Uuid) returns (steps: seq<Step>)
    requires OnDuty(s, w) && ProcessorIdle(s, p) && At(s, id, Retrying) && id in s.db.rows
    ensures Drives(s, steps, w, answer) && SameCount(s, After(s, steps), id)
    ensures var s' := After(s, steps);
            && s'.mq == s.mq && RemoveEnabled(s', p) && At(s', id, Retrying)
            && s'.processors[p].gone == 0 && s'.processors[p].batch[0] in s'.mq.delayed
  {
    hide OnDuty, DueBatch, MemberOf;
    var m := MemberOf(id, s.db.rows[id]);
    var tick := Tick(if s.mq.delayed[m] <= s.now then 0 else s.mq.delayed[m] - s.now);
    var s1 := Apply(s, tick);
    var batch := D.SomeBatch(s.mq.delayed, s1.now, POP_LIMIT, m);
    var range := Range(p, s1.now, batch);
    BatchIsDelayed(s.mq.delayed, s1.now, batch);
    assert Enabled(s1, range);
    var s2 := Apply(s1, range);
    assert RemoveEnabled(s2, p) && At(s2, id, Retrying) && s2.mq == s.mq;
    hide At, Drives, Apply, Enabled;
    BackgroundStep(s, tick, w, answer);
    DrivesOnDuty(s, [tick], w, answer, id);
    BackgroundStep(s1, range, w, answer);
    steps := ThenDrives(s, tick, [range], w, answer);
  }

  /** And pops it. */
  lemma Pops(s: State, w: nat, answer: D.Oracle, p: nat, id: Uuid) returns (steps: seq<Step>)
    requires OnDuty(s, w) && ProcessorIdle(s, p) && At(s, id, Retrying) && id in s.db.rows
    ensures Drives(s, steps, w, answer) && SameCount(s, After(s, steps), id)
    ensures var s' := After(s, steps); p in s'.processors && InReach(s', p, id) && |s'.mq.delayed| < |s.mq.delayed|
  {
    hide OnDuty, At, Drives, InReach, After;
    var remove := Remove(p);
    var range := Ranges(s, w, answer, p, id);
    DrivesOnDuty(s, range, w, answer, id);
    var s2 := After(s, range);
    assert Enabled(s2, remove) && Background(remove) && Apply(s2, remove) == RemoveStep(s2, p);
    hide Apply, Enabled;
    RemovesSome(s2, p, w, id);
    BackgroundStep(s2, remove, w, answer);
    assert SameCount(s2, Apply(s2, remove), id);
    DrivesJoin(s, range, [remove], w, answer);
    steps := range + [remove];
  }

  lemma BatchIsDelayed(delayed: map<string, int>, at: int, batch: seq<string>)
    requires DueBatch(delayed, at, POP_LIMIT, batch) && batch != []
    ensures batch[0] in delayed
  {
  }

  lemma RemovesSome(s: State, p: nat, w: nat, id: Uuid)
    requires OnDuty(s, w) && RemoveEnabled(s, p) && At(s, id, Retrying)
    requires s.processors[p].gone == 0 && s.processors[p].batch[0] in s.mq.delayed
    ensures var s' := RemoveStep(s, p); p in s'.processors && InReach(s', p, id) && |s'.mq.delayed| < |s.mq.delayed|
  {
    hide At;
    OnDutyInv(s, w);
    assert InReach(s, p, id);
    hide OnDuty, InReach, Inv;
    RemoveReaches(s, p, id);
    G.RemovesBatch(s, p);
    var batch := s.processors[p].batch;
    assert batch[0..] == batch && batch[0] in Elements(batch);
    Fewer(s.mq.delayed, Elements(batch));
  }

  // ---------------------------------------------------------------- one message

  /** One command of a worker: only an ack takes it to its next message. */
  lemma WorkerMoves(s: State, w: nat, ok: bool)
    requires WorkerEnabled(s, w)
    ensures var s' := WorkerStep(s, w, ok);
            && w in s'.workers && s'.workers[w].inbox == s.workers[w].inbox
            && s'.workers[w].stopped == s.workers[w].stopped
            && (if s.workers[w].pc == Acking
                then s'.workers[w].next == s.workers[w].next + 1 && s'.workers[w].pc == Start
                else s'.workers[w].next == s.workers[w].next && s'.workers[w].pc != Start)
  {
    if s.workers[w].pc.Busy? {
      BusyWorkers(s, w, ok);
      BusyGoesTo(s, w, ok);
      hide BusyStep;
    }
  }

  /** Where a worker stands after its next command. */
  function PcAfter(s: State, item: Item, stage: Stage, ok: bool): Pc {
    match stage
    case Claimed => Busy(item, Routed)
    case Routed => if item.row.channel in s.providers then Busy(item, Sending) else Acking
    case Sending => Busy(item, Sent(ok))
    case Sent(sent) => Busy(item, Counted(sent))
    case Counted(sent) => Busy(item, Recorded(sent))
    case Recorded(sent) =>
      var tries := item.row.attemptCount + 1;
      if sent then Acking
      else if Retry.ShouldRetry(tries, item.row.maxRetries) then Busy(item, Requeue(Retry.RetryAt(s.now, tries)))
      else Busy(item, Burying)
    case Requeue(at) => Busy(item, Delaying(at))
    case Delaying(_) => Acking
    case Burying => Acking
  }

  lemma BusyGoesTo(s: State, w: nat, ok: bool)
    requires WorkerEnabled(s, w) && s.workers[w].pc.Busy?
    ensures var pc := s.workers[w].pc;
            var s' := BusyStep(s, w, ok);
            w in s'.workers && s'.workers[w].pc == PcAfter(s, pc.item, pc.stage, ok)
  {
    hide WriteStatus, IncrementAttempt, InsertAttempt, RecordSend, RecordHandled, Hand, EnqueueDelayed, PushDead;
    hide Retry.Backoff;
    match s.workers[w].pc.stage {
      case Claimed =>
      case Routed =>
      case Sending =>
      case Sent(_) =>
      case Counted(_) =>
      case Recorded(_) =>
      case Requeue(_) =>
      case Delaying(_) =>
      case Burying =>
    }
  }

  lemma {:induction false} NextGrows(a: State, w: nat, ok: bool, n: nat, b: State)
    requires A.RunsTo(a, WorkerNext(w, ok), n, b) && w in a.workers
    ensures w in b.workers && a.workers[w].next <= b.workers[w].next
    ensures n > 0 && b.workers[w].next == a.workers[w].next ==> b.workers[w].pc != Start
    decreases n
  {
    hide WorkerStep;
    if n > 0 {
      WorkerMoves(a, w, ok);
      NextGrows(WorkerStep(a, w, ok), w, ok, n - 1, b);
    }
  }

  /** The worker has not got the provider's answer yet. */
  predicate Unanswered(pc: Pc) {
    match pc
    case Start => true
    case Busy(_, stage) => stage.Claimed? || stage.Routed? || stage.Sending?
    case Acking => false
  }

  function StagesToAnswer(pc: Pc): nat {
    match pc
    case Start => 3
    case Busy(_, stage) => if stage.Claimed? then 2 else if stage.Routed? then 1 else 0
    case Acking => 0
  }

  predicate AtAnswer(pc: Pc) {
    pc.Busy? && pc.stage.Sending?
  }

  /** The provider's answer matters to one command alone. */
  lemma AnswerMatters(s: State, w: nat, ok: bool, ok': bool)
    requires WorkerEnabled(s, w) && (AtAnswer(s.workers[w].pc) ==> ok == ok')
    ensures WorkerStep(s, w, ok) == WorkerStep(s, w, ok')
  {
    hide WriteStatus, IncrementAttempt, InsertAttempt, RecordSend, RecordHandled, Hand, EnqueueDelayed, PushDead;
  }

  lemma AnswerComesOnce(s: State, w: nat, ok: bool)
    requires WorkerEnabled(s, w)
    ensures var pc := s.workers[w].pc;
            var s' := WorkerStep(s, w, ok);
            && w in s'.workers
            && (!Unanswered(pc) || AtAnswer(pc) ==> s'.workers[w].pc == Start || !Unanswered(s'.workers[w].pc))
            && (Unanswered(pc) && !AtAnswer(pc) ==> StagesToAnswer(s'.workers[w].pc) < StagesToAnswer(pc))
  {
    hide BusyStep;
    if s.workers[w].pc.Busy? {
      BusyGoesTo(s, w, ok);
    }
  }

  /** The state in which the provider will be asked for the current message, if it is asked at all. */
  function Asking(s: State, w: nat): State
    decreases if w in s.workers then StagesToAnswer(s.workers[w].pc) else 0
  {
    if WorkerEnabled(s, w) && Unanswered(s.workers[w].pc) && !AtAnswer(s.workers[w].pc) then
      AnswerComesOnce(s, w, true);
      Asking(WorkerStep(s, w, true), w)
    else s
  }

  /**
   A run that ends just past the current message asks the provider once at most, so it can be had with the
   oracle's answers if its own answer is the oracle's when it asks.
   */
  lemma {:induction false} AloneObeys(a: State, w: nat, ok: bool, n: nat, b: State, answer: D.Oracle)
    returns (steps: seq<Step>)
    requires A.RunsTo(a, WorkerNext(w, ok), n, b) && WorkerEnabled(a, w)
    requires Unanswered(a.workers[w].pc) ==> ok == answer(Asking(a, w))
    requires w in b.workers && b.workers[w].pc == Start && b.workers[w].next == a.workers[w].next + 1
    ensures ValidRun(a, steps) && Obey(a, steps, answer) && After(a, steps) == b
    decreases n
  {
    hide WorkerStep;
    assert n > 0;
    var a1 := WorkerStep(a, w, ok);
    WorkerMoves(a, w, ok);
    AnswerComesOnce(a, w, ok);
    if Unanswered(a.workers[w].pc) && !AtAnswer(a.workers[w].pc) {
      AnswerMatters(a, w, ok, true);
    }
    AnswerMatters(a, w, ok, answer(a));
    var step := WorkerNext(w, answer(a));
    assert Apply(a, WorkerNext(w, ok)) == a1 && Enabled(a, step) && Apply(a, step) == a1;
    var rest;
    if a.workers[w].pc == Acking {
      NextGrows(a1, w, ok, n - 1, b);
      assert n == 1;
      rest := [];
    } else {
      rest := AloneObeys(a1, w, ok, n - 1, b, answer);
    }
    hide Apply, Enabled;
    FirstStep(a, step, rest);
    steps := [step] + rest;
    assert steps[1..] == rest;
  }

  /** Worker w runs and is between messages. */
  ghost predicate Manned(s: State, w: nat) {
    && Inv(s) && Bounded(s) && s.schedulers.Keys != {} && s.processors.Keys != {}
    && w in s.workers && !s.workers[w].stopped && s.workers[w].pc == Start && s.workers[w].next <= |s.workers[w].inbox|
  }

  lemma HandledMarks(st: A.Stores, providers: set<Channel>, message: Message, now: int, ok: bool, i: Uuid)
    ensures HistoryOf(st.db, i).marked <= HistoryOf(A.Handled(st, providers, message, now, ok).db, i).marked
  {
    hide WriteStatus, A.SentAndRecorded, RecordHandled, EnqueueDelayed, PushDead, Ack, Hand, HistoryOf;
    var id := message.id;
    if id in st.db.rows {
      var claimed := WriteStatus(st.db, id, Processing);
      var recorded := A.SentAndRecorded(claimed, id, st.db.rows[id], now, ok);
      var noted := RecordHandled(recorded, id, now);
      WriteMarks(st.db, id, i);
      WriteMarks(claimed, id, i);
      WriteMarks(recorded, id, i);
      WriteMarks(noted, id, i);
      RecordingMarks(claimed, id, st.db.rows[id], now, ok, i);
    }
  }

  lemma WriteMarks(db: Db, id: Uuid, i: Uuid)
    ensures forall status :: HistoryOf(db, i).marked <= HistoryOf(WriteStatus(db, id, status), i).marked
  {
  }

  lemma RecordingMarks(db: Db, id: Uuid, n: Row, now: int, ok: bool, i: Uuid)
    ensures HistoryOf(A.SentAndRecorded(db, id, n, now, ok), i).marked == HistoryOf(db, i).marked
    ensures forall db' :: HistoryOf(RecordHandled(db', id, now), i).marked == HistoryOf(db', i).marked
  {
  }

  lemma HandledRefs(st: A.Stores, providers: set<Channel>, message: Message, now: int, ok: bool)
    ensures Finished(st.mq, A.Handled(st, providers, message, now, ok).mq, message.ref)
  {
    hide WriteStatus, A.SentAndRecorded, RecordHandled, MemberOf, Hand, Ack, EnqueueDelayed, PushDead, Finished;
    forall mq | mq == st.mq || (exists item, at :: mq == EnqueueDelayed(st.mq, item, at))
        || (exists id :: mq == PushDead(st.mq, id))
      ensures Finished(st.mq, Ack(mq, message.ref), message.ref)
          && Finished(st.mq, Ack(Hand(mq, message.ref), message.ref), message.ref)
    {
      AckFinishes(st.mq, mq, message.ref);
    }
  }

  /** The entry is acked, and perhaps handed off; the streams and every other entry are as before. */
  predicate Finished(mq: Redis, mq': Redis, ref: Ref) {
    && mq'.logs == mq.logs && mq'.cursors == mq.cursors
    && mq'.pel == mq.pel - {ref} && mq'.handed <= mq.handed + {ref}
  }

  lemma AckFinishes(mq: Redis, mq0: Redis, ref: Ref)
    requires mq0 == mq || (exists item, at :: mq0 == EnqueueDelayed(mq, item, at))
        || (exists id :: mq0 == PushDead(mq, id))
    ensures Finished(mq, Ack(mq0, ref), ref) && Finished(mq, Ack(Hand(mq0, ref), ref), ref)
  {
    hide MemberOf;
  }

  /** Decided, or at least one more attempt counted and attempts still left. */
  predicate Advanced(s: State, id: Uuid, count: nat) {
    && id in s.db.rows
    && (Decided(s.db, id)
         || (count < s.db.rows[id].attemptCount && s.db.rows[id].attemptCount < s.db.rows[id].maxRetries))
  }

  /** What one processMessage does to the rows, their marks and the streams. */
  ghost predicate Processed(s: State, s': State, message: Message) {
    && Kept(s, s') && Finished(s.mq, s'.mq, message.ref)
    && (forall i | i in s.db.rows && i != message.id :: SameCount(s, s', i))
    && (message.id in s.db.rows ==> Advanced(s', message.id, s.db.rows[message.id].attemptCount))
  }

  lemma TerminalIsDecided(s: State, id: Uuid)
    requires Inv(s) && id in s.db.rows && Terminal(s.db.rows[id].status)
    ensures Decided(s.db, id)
  {
    InvParts(s);
    assert RowsOk(s.db);
    hide Agree, Inv;
    assert RowOk(s.db.rows[id], HistoryOf(s.db, id));
  }

  lemma PastIsProcessed(s: State, w: nat, ok: bool)
    requires WorkerEnabled(s, w) && Inv(s)
    requires var m := s.workers[w].inbox[s.workers[w].next];
             Inv(A.Past(s, w, A.Handled(A.Stores(s.db, s.mq), s.providers, m, s.now, ok)))
    ensures var m := s.workers[w].inbox[s.workers[w].next];
            Processed(s, A.Past(s, w, A.Handled(A.Stores(s.db, s.mq), s.providers, m, s.now, ok)), m)
  {
    hide Inv, A.Handled, Finished, HistoryOf, AttemptsOf;
    var m := s.workers[w].inbox[s.workers[w].next];
    var st := A.Stores(s.db, s.mq);
    var st' := A.Handled(st, s.providers, m, s.now, ok);
    var s' := A.Past(s, w, st');
    A.HandledOutcome(st, s.providers, m, s.now, ok);
    HandledRefs(st, s.providers, m, s.now, ok);
    assert forall i :: i in s.db.rows <==> i in s'.db.rows;
    forall i | i in s.db.rows ensures Decided(s.db, i) ==> Decided(s'.db, i) {
      HandledMarks(st, s.providers, m, s.now, ok, i);
    }
    if m.id in s.db.rows {
      if Terminal(s'.db.rows[m.id].status) {
        TerminalIsDecided(s', m.id);
      }
    }
  }

  /** The worker finishes its current message, with the oracle's answer. */
  lemma ProcessOne(s: State, w: nat, answer: D.Oracle) returns (steps: seq<Step>)
    requires Manned(s, w) && s.workers[w].next < |s.workers[w].inbox|
    ensures ValidRun(s, steps) && Obey(s, steps, answer) && Manned(After(s, steps), w)
    ensures var s', worker := After(s, steps), s.workers[w];
            && s'.workers[w].inbox == worker.inbox && s'.workers[w].next == worker.next + 1
            && Processed(s, s', worker.inbox[worker.next])
  {
    hide Inv, A.Handled, Processed, ValidRun, After, Obey, A.RunsTo;
    var m := s.workers[w].inbox[s.workers[w].next];
    var ok := answer(Asking(s, w));
    var n := A.MessageRuns(s, w, ok);
    var s' := A.Past(s, w, A.Handled(A.Stores(s.db, s.mq), s.providers, m, s.now, ok));
    steps := AloneObeys(s, w, ok, n, s', answer);
    RunLosesNone(s, steps);
    PastIsProcessed(s, w, ok);
  }

  /** The tracked notification has advanced, or its entry still waits. */
  ghost predicate Tracked(s: State, id: Uuid, count: nat, ref: Ref) {
    && id in s.db.rows
    && (Advanced(s, id, count) || (s.db.rows[id].attemptCount == count && OnStream(s, id, ref)))
  }

  lemma ProcessedTracks(s: State, s': State, m: Message, id: Uuid, count: nat, ref: Ref)
    requires Agree(s) && Processed(s, s', m) && MessageOk(s.mq, m) && Tracked(s, id, count, ref)
    ensures Tracked(s', id, count, ref)
    ensures m.id == id ==> Advanced(s', id, count)
  {
    hide Agree, Decided;
    if m.id != id {
      assert SameCount(s, s', id);
      if OnStream(s, id, ref) {
        assert ref != m.ref;
        assert OnStream(s', id, ref);
      }
    }
  }

  /** The worker finishes its inbox. */
  lemma {:induction false} InboxFinishes(s: State, w: nat, answer: D.Oracle, id: Uuid, count: nat, ref: Ref)
    returns (steps: seq<Step>)
    requires Manned(s, w)
    ensures Drives(s, steps, w, answer)
    ensures Tracked(s, id, count, ref) ==> Tracked(After(s, steps), id, count, ref)
    ensures var s' := After(s, steps); s'.mq.logs == s.mq.logs && s'.mq.cursors == s.mq.cursors
    decreases |s.workers[w].inbox| - s.workers[w].next
  {
    hide Inv, Tracked, OnStream, Advanced;
    if s.workers[w].next == |s.workers[w].inbox| {
      steps := [];
      DrivesNowhere(s, w, answer);
    } else {
      var first := ProcessOne(s, w, answer);
      var s1 := After(s, first);
      InboxMessageOk(s, w);
      if Tracked(s, id, count, ref) {
        ProcessedTracks(s, s1, s.workers[w].inbox[s.workers[w].next], id, count, ref);
      }
      var rest := InboxFinishes(s1, w, answer, id, count, ref);
      hide OnDuty, Manned, ValidRun, Obey, After, Kept;
      ObeyJoin(s, first, rest, answer);
      KeptTwice(s, s1, After(s1, rest));
      steps := first + rest;
    }
  }

  lemma InboxMessageOk(s: State, w: nat)
    requires Inv(s) && WorkerEnabled(s, w)
    ensures Agree(s) && MessageOk(s.mq, s.workers[w].inbox[s.workers[w].next])
  {
    assert WorkerOk(s.db.rows, s.mq, s.workers[w]);
  }

  // ---------------------------------------------------------------- through a stream

  /** A pending entry is reclaimed and worked on. */
  lemma PendingAdvances(s: State, w: nat, answer: D.Oracle, id: Uuid, ref: Ref) returns (steps: seq<Step>)
    requires OnDuty(s, w) && id in s.db.rows && OnStream(s, id, ref) && ref in s.mq.pel
    ensures Drives(s, steps, w, answer) && Advanced(After(s, steps), id, s.db.rows[id].attemptCount)
  {
    hide Inv, Advanced;
    var reclaim := Reclaim(w, [ref]);
    assert Enabled(s, reclaim);
    EveryStepLosesNone(s, reclaim);
    OneStep(s, reclaim);
    var s1 := Apply(s, reclaim);
    assert s1 == ReclaimStep(s, w, [ref]);
    assert s1.workers[w].inbox == [MessageAt(s.mq, ref)];
    hide Apply, Enabled;
    assert Manned(s1, w);
    var work := ProcessOne(s1, w, answer);
    assert Obey(s1, [], answer) && [reclaim][1..] == [];
    hide ValidRun, Obey, After, Kept;
    ObeyJoin(s, [reclaim], work, answer);
    steps := [reclaim] + work;
    SameRowsKept(s, s1, After(s1, work));
  }

  lemma SameRowsKept(s: State, s1: State, s2: State)
    requires s1.db == s.db && Kept(s1, s2)
    ensures Kept(s, s2)
  {
  }

  lemma HandOutKeepsStream(s: State, w: nat, p: Priority, id: Uuid, ref: Ref)
    requires w in s.workers && OnStream(s, id, ref)
    ensures var s' := HandOut(s, w, p);
            && OnStream(s', id, ref) && w in s'.workers && s'.db == s.db && s'.mq.logs == s.mq.logs
            && (forall q | q != p :: Cursor(s'.mq, q) == Cursor(s.mq, q))
            && Cursor(s'.mq, p) == (if Cursor(s.mq, p) < |Log(s.mq, p)| then Cursor(s.mq, p) + 1 else Cursor(s.mq, p))
            && s'.schedulers == s.schedulers && s'.processors == s.processors
            && s'.workers[w] == s.workers[w].(inbox := s'.workers[w].inbox)
  {
  }

  /** A read leaves the entry where it was, unread or pending, and moves every unread stream's cursor. */
  lemma ReadKeepsStream(s: State, w: nat, id: Uuid, ref: Ref)
    requires WorkerIdle(s, w) && OnStream(s, id, ref)
    ensures var s' := ReadStep(s, w);
            && OnStream(s', id, ref) && w in s'.workers && s'.db == s.db && s'.mq.logs == s.mq.logs
            && (Cursor(s.mq, ref.stream) < |Log(s.mq, ref.stream)| ==>
                  Cursor(s'.mq, ref.stream) == Cursor(s.mq, ref.stream) + 1)
            && s'.schedulers == s.schedulers && s'.processors == s.processors
            && s'.workers[w] == s.workers[w].(inbox := s'.workers[w].inbox, next := 0)
  {
    hide HandOut, OnStream;
    var s0 := ResetWorker(s, w);
    assert OnStream(s0, id, ref) by { ResetKeepsStream(s, w, id, ref); }
    var s1 := HandOut(s0, w, High);
    HandOutKeepsStream(s0, w, High, id, ref);
    var s2 := HandOut(s1, w, Normal);
    HandOutKeepsStream(s1, w, Normal, id, ref);
    HandOutKeepsStream(s2, w, Low, id, ref);
  }

  lemma ResetKeepsStream(s: State, w: nat, id: Uuid, ref: Ref)
    requires w in s.workers && OnStream(s, id, ref)
    ensures OnStream(ResetWorker(s, w), id, ref)
  {
  }

  /** Read by read, the entry is handed out or found pending, and worked on. */
  lemma {:induction false} StreamAdvances(s: State, w: nat, answer: D.Oracle, id: Uuid, ref: Ref)
    returns (steps: seq<Step>)
    requires OnDuty(s, w) && id in s.db.rows && OnStream(s, id, ref)
    ensures Drives(s, steps, w, answer) && Advanced(After(s, steps), id, s.db.rows[id].attemptCount)
    decreases if Cursor(s.mq, ref.stream) <= ref.index then ref.index - Cursor(s.mq, ref.stream) + 1 else 0
  {
    if ref in s.mq.pel {
      steps := PendingAdvances(s, w, answer, id, ref);
    } else {
      steps := ReadsOn(s, w, answer, id, ref);
      hide Advanced, OnStream;
      var count := s.db.rows[id].attemptCount;
      var s1 := After(s, steps);
      DrivesOnDuty(s, steps, w, answer, id);
      if !Advanced(s1, id, count) {
        hide Drives, OnDuty, After;
        var rest := StreamAdvances(s1, w, answer, id, ref);
        DrivesJoin(s, steps, rest, w, answer);
        steps := steps + rest;
      }
    }
  }

  lemma ReadsOn(s: State, w: nat, answer: D.Oracle, id: Uuid, ref: Ref) returns (steps: seq<Step>)
    requires OnDuty(s, w) && id in s.db.rows && OnStream(s, id, ref) && ref !in s.mq.pel
    ensures Drives(s, steps, w, answer) && Tracked(After(s, steps), id, s.db.rows[id].attemptCount, ref)
    ensures Cursor(s.mq, ref.stream) <= ref.index
            && Cursor(After(s, steps).mq, ref.stream) == Cursor(s.mq, ref.stream) + 1
  {
    hide Inv, Advanced;
    var read := Read(w);
    assert Enabled(s, read);
    EveryStepLosesNone(s, read);
    OneStep(s, read);
    ReadKeepsStream(s, w, id, ref);
    var s1 := ReadStep(s, w);
    assert s1 == Apply(s, read);
    hide Apply, Enabled, ReadStep;
    assert Manned(s1, w) && Tracked(s1, id, s.db.rows[id].attemptCount, ref);
    var work := InboxFinishes(s1, w, answer, id, s.db.rows[id].attemptCount, ref);
    assert Obey(s1, [], answer) && [read][1..] == [];
    hide ValidRun, Obey, After, Kept, Manned;
    ObeyJoin(s, [read], work, answer);
    steps := [read] + work;
    SameRowsKept(s, s1, After(s1, work));
  }

  // ---------------------------------------------------------------- every notification

  /** Whatever recoverable work there is for a notification, it can be brought onto a stream. */
  lemma CarrierLands(s: State, w: nat, answer: D.Oracle, id: Uuid, x: Carrier) returns (steps: seq<Step>, ref: Ref)
    requires OnDuty(s, w) && id in s.db.rows && Recoverable(s, id, x)
    ensures Lands(s, steps, w, answer, id, ref)
  {
    hide Inv, Lands, At, MemberOf, Drives;
    GoneIsNothing(s, id, x);
    match x {
      case WithClient(c, i) => steps, ref := ClientLands(s, w, answer, c, i, id);
      case Waiting =>
        IsWaiting(s, id);
        var k :| k in s.schedulers.Keys;
        steps, ref := WaitingLands(s, w, answer, k, id);
      case WithScheduler(k, i) => steps, ref := SchedulerLands(s, w, answer, k, i, id);
      case Streamed(r) =>
        steps, ref := [], r;
        DrivesNowhere(s, w, answer);
        assert Lands(s, [], w, answer, id, r) by { LandsHere(s, w, answer, id, r); }
      case Retrying =>
        var p :| p in s.processors.Keys;
        assert InReach(s, p, id);
        steps, ref := ProcessorLands(s, w, answer, p, id);
      case Popped(p, i) =>
        ReachesPopped(s, p, i, id);
        IsPopped(s, p, i, id);
        steps, ref := ProcessorLands(s, w, answer, p, id);
    }
  }

  lemma LandsHere(s: State, w: nat, answer: D.Oracle, id: Uuid, ref: Ref)
    requires Drives(s, [], w, answer) && id in s.db.rows && OnStream(s, id, ref)
    ensures Lands(s, [], w, answer, id, ref)
  {
    hide Drives, OnStream;
  }

  lemma IsWaiting(s: State, id: Uuid)
    requires At(s, id, Waiting)
    ensures id in s.db.rows && s.db.rows[id].status == Scheduled
  {
  }

  lemma IsPopped(s: State, p: nat, i: nat, id: Uuid)
    requires At(s, id, Popped(p, i))
    ensures p in s.processors
  {
  }

  function TriesLeft(row: Row): nat {
    if row.attemptCount < row.maxRetries then row.maxRetries - row.attemptCount else 0
  }

  /** Attempt by attempt, one notification is brought to a decision. */
  lemma {:induction false} DecideOne(s: State, w: nat, answer: D.Oracle, id: Uuid) returns (steps: seq<Step>)
    requires OnDuty(s, w) && id in s.db.rows
    ensures Drives(s, steps, w, answer) && id in After(s, steps).db.rows && Decided(After(s, steps).db, id)
    decreases TriesLeft(s.db.rows[id])
  {
    hide OnDuty, Decided, Recoverable, After;
    if Decided(s.db, id) {
      steps := [];
      DrivesNowhere(s, w, answer);
      NowhereIsHere(s);
    } else {
      var x := SomeWork(s, w, id);
      var land, ref := CarrierLands(s, w, answer, id, x);
      var s1 := After(s, land);
      LandsIs(s, land, w, answer, id, ref);
      var advance := StreamAdvances(s1, w, answer, id, ref);
      var s2 := After(s1, advance);
      hide Drives, Lands;
      DrivesJoin(s, land, advance, w, answer);
      steps := land + advance;
      if !Decided(s2.db, id) {
        DrivesColumns(s, steps, w, answer, id);
        var rest := DecideOne(s2, w, answer, id);
        DrivesJoin(s, steps, rest, w, answer);
        steps := steps + rest;
      }
    }
  }

  lemma NowhereIsHere(s: State)
    ensures After(s, []) == s
  {
  }

  lemma LandsIs(s: State, steps: seq<Step>, w: nat, answer: D.Oracle, id: Uuid, ref: Ref)
    requires Lands(s, steps, w, answer, id, ref)
    ensures Drives(s, steps, w, answer) && ValidRun(s, steps) && OnDuty(After(s, steps), w)
    ensures OnStream(After(s, steps), id, ref) && SameCount(s, After(s, steps), id)
  {
    hide OnStream, OnDuty, After, Obey, Kept, SameCount;
  }

  lemma DrivesColumns(s: State, steps: seq<Step>, w: nat, answer: D.Oracle, id: Uuid)
    requires Drives(s, steps, w, answer) && id in s.db.rows
    ensures ValidRun(s, steps) && OnDuty(After(s, steps), w)
    ensures id in After(s, steps).db.rows && After(s, steps).db.rows[id].maxRetries == s.db.rows[id].maxRetries
  {
    hide OnDuty, After, Obey;
  }

  lemma SomeWork(s: State, w: nat, id: Uuid) returns (x: Carrier)
    requires OnDuty(s, w) && id in s.db.rows && !Decided(s.db, id)
    ensures Recoverable(s, id, x)
  {
    hide Recoverable, Decided;
    OnDutyInv(s, w);
    InvParts(s);
    hide OnDuty, Agree;
    assert Safe(s, id);
    x :| Recoverable(s, id, x);
  }

  function Undecided(db: Db): set<Uuid> {
    set id | id in db.rows && !Decided(db, id)
  }

  lemma {:induction false} DecideAll(s: State, w: nat, answer: D.Oracle) returns (steps: seq<Step>)
    requires OnDuty(s, w)
    ensures Drives(s, steps, w, answer) && Undecided(After(s, steps).db) == {}
    decreases |Undecided(s.db)|
  {
    hide OnDuty, Decided, After, Drives;
    if Undecided(s.db) == {} {
      steps := [];
      DrivesNowhere(s, w, answer);
      NowhereIsHere(s);
    } else {
      var id :| id in Undecided(s.db);
      var first := DecideOne(s, w, answer, id);
      DrivesOnDuty(s, first, w, answer, id);
      var s1 := After(s, first);
      FewerUndecided(s, s1, id);
      var rest := DecideAll(s1, w, answer);
      DrivesJoin(s, first, rest, w, answer);
      steps := first + rest;
    }
  }

  lemma FewerUndecided(s: State, s': State, id: Uuid)
    requires Kept(s, s') && id in Undecided(s.db) && Decided(s'.db, id)
    ensures |Undecided(s'.db)| < |Undecided(s.db)|
  {
    hide Decided;
    assert Undecided(s'.db) <= Undecided(s.db) - {id} by {
      forall i | i in Undecided(s'.db) ensures i in Undecided(s.db) - {id} {
        assert i in s'.db.rows.Keys;
      }
    }
    Smaller(Undecided(s'.db), Undecided(s.db) - {id});
  }

  lemma {:induction false} Smaller(a: set<Uuid>, b: set<Uuid>)
    requires a <= b
    ensures |a| <= |b|
  {
    assert b == a + (b - a);
  }

  lemma StepBounded(s: State, step: Step)
    requires Enabled(s, step) && Bounded(s)
    ensures Bounded(Apply(s, step))
  {
    if Background(step) {
      hide Apply, Enabled;
      BackgroundFrame(s, step);
    } else {
      hide BornAll, HandOut, ReadStep, BusyStep, WriteStatus, InsertAll, Bounded;
      assert Apply(s, step).schedulers == s.schedulers by {
        match step {
          case Insert(c, news) => BornAllSchedulers(OpenClient(s, c), c, news);
          case Read(w) => ReadSchedulers(s, w);
          case WorkerNext(w, ok) => if s.workers[w].pc.Busy? { BusyWorkers(s, w, ok); }
          case _ =>
        }
      }
      SameSchedulers(s, Apply(s, step));
    }
  }

  lemma SameSchedulers(s: State, s': State)
    requires Bounded(s) && s'.schedulers == s.schedulers
    ensures Bounded(s')
  {
  }

  lemma {:induction false} BornAllSchedulers(s: State, c: nat, news: seq<New>)
    requires c in s.clients
    ensures BornAll(s, c, news).schedulers == s.schedulers
    decreases |news|
  {
    if news != [] {
      BornAllSchedulers(Born(s, c, news[0]), c, news[1..]);
    }
  }

  lemma ReadSchedulers(s: State, w: nat)
    requires WorkerIdle(s, w)
    ensures ReadStep(s, w).schedulers == s.schedulers
  {
  }

  lemma {:induction false} RunBounded(s: State, steps: seq<Step>)
    requires ValidRun(s, steps) && Bounded(s)
    ensures Bounded(After(s, steps))
    decreases |steps|
  {
    hide Apply, Enabled, Bounded;
    if steps != [] {
      StepBounded(s, steps[0]);
      RunBounded(Apply(s, steps[0]), steps[1..]);
    }
  }

  // ---------------------------------------------------------------- a worker in the middle of a message

  /** Rows and decisions stand, and attempts are only counted up, for one notification. */
  ghost predicate Onward(db: Db, db': Db, i: Uuid) {
    && db'.rows.Keys == db.rows.Keys && HistoryOf(db, i).marked <= HistoryOf(db', i).marked
    && (i in db.rows ==>
          && i in db'.rows && SameColumns(db.rows[i], db'.rows[i])
          && db.rows[i].attemptCount <= db'.rows[i].attemptCount)
  }

  lemma WriteOnward(db: Db, id: Uuid, status: Status, i: Uuid)
    ensures Onward(db, WriteStatus(db, id, status), i)
  {
  }

  lemma CommandsOnward(db: Db, id: Uuid, a: Attempt, now: int, i: Uuid)
    ensures Onward(db, db, i)
    ensures Onward(db, IncrementAttempt(db, id), i)
    ensures Onward(db, InsertAttempt(db, id, a), i)
    ensures Onward(db, RecordSend(db, id, now), i)
    ensures Onward(db, RecordHandled(db, id, now), i)
  {
  }

  lemma WorkerOnward(s: State, w: nat, ok: bool, i: Uuid)
    requires WorkerEnabled(s, w)
    ensures Onward(s.db, WorkerStep(s, w, ok).db, i)
  {
    hide BusyStep, Onward;
    CommandsOnward(s.db, 0, Attempt(0, ok), s.now, i);
    if s.workers[w].pc.Busy? {
      BusyOnward(s, w, ok, i);
    }
  }

  lemma BusyOnward(s: State, w: nat, ok: bool, i: Uuid)
    requires WorkerEnabled(s, w) && s.workers[w].pc.Busy?
    ensures Onward(s.db, BusyStep(s, w, ok).db, i)
  {
    hide WriteStatus, IncrementAttempt, InsertAttempt, RecordSend, RecordHandled, Hand, EnqueueDelayed, PushDead;
    hide Onward;
    var id, n := s.workers[w].pc.item.id, s.workers[w].pc.item.row;
    CommandsOnward(s.db, id, Attempt(0, ok), s.now, i);
    match s.workers[w].pc.stage {
      case Claimed => WriteOnward(s.db, id, Processing, i);
      case Routed => WriteOnward(s.db, id, Failed, i);
      case Sending =>
      case Sent(_) =>
      case Counted(sent) => CommandsOnward(s.db, id, Attempt(n.attemptCount + 1, sent), s.now, i);
      case Recorded(_) =>
        WriteOnward(s.db, id, Delivered, i);
        WriteOnward(s.db, id, Failed, i);
      case Requeue(_) => WriteOnward(s.db, id, Queued, i);
      case Delaying(_) =>
      case Burying =>
    }
  }

  lemma WorkerKept(s: State, w: nat, ok: bool)
    requires WorkerEnabled(s, w)
    ensures Kept(s, WorkerStep(s, w, ok))
  {
    hide WorkerStep;
    WorkerOnward(s, w, ok, 0);
    forall i | i in s.db.rows ensures Onward(s.db, WorkerStep(s, w, ok).db, i) {
      WorkerOnward(s, w, ok, i);
    }
  }

  function StagesToStart(pc: Pc): nat {
    match pc
    case Start => 0
    case Acking => 1
    case Busy(_, stage) =>
      match stage
      case Claimed => 9
      case Routed => 8
      case Sending => 7
      case Sent(_) => 6
      case Counted(_) => 5
      case Recorded(_) => 4
      case Requeue(_) => 3
      case Delaying(_) => 2
      case Burying => 2
  }

  /** A worker that runs, wherever it is in its message. */
  ghost predicate Running(s: State, w: nat) {
    && Inv(s) && Bounded(s) && s.schedulers.Keys != {} && s.processors.Keys != {}
    && w in s.workers && !s.workers[w].stopped
  }

  lemma StageFalls(s: State, w: nat, ok: bool)
    requires WorkerEnabled(s, w) && s.workers[w].pc != Start
    ensures w in WorkerStep(s, w, ok).workers
    ensures StagesToStart(WorkerStep(s, w, ok).workers[w].pc) < StagesToStart(s.workers[w].pc)
  {
    hide BusyStep;
    if s.workers[w].pc.Busy? {
      BusyGoesTo(s, w, ok);
    }
  }

  lemma RunsOnStep(s: State, w: nat, ok: bool)
    requires Running(s, w) && WorkerEnabled(s, w)
    ensures Running(WorkerStep(s, w, ok), w)
  {
    hide Inv, Bounded, WorkerStep;
    var step := WorkerNext(w, ok);
    assert Enabled(s, step) && Apply(s, step) == WorkerStep(s, w, ok);
    EveryStepLosesNone(s, step);
    StepBounded(s, step);
    WorkerMoves(s, w, ok);
    SameActors(s, w, ok);
  }

  lemma SameActors(s: State, w: nat, ok: bool)
    requires WorkerEnabled(s, w)
    ensures WorkerStep(s, w, ok).schedulers == s.schedulers && WorkerStep(s, w, ok).processors == s.processors
  {
    hide BusyStep;
    if s.workers[w].pc.Busy? {
      BusyWorkers(s, w, ok);
    }
  }

  lemma RunningFacts(s: State, w: nat)
    requires Running(s, w)
    ensures s.workers[w].pc != Start ==> WorkerEnabled(s, w)
    ensures s.workers[w].pc == Start ==> Manned(s, w)
  {
    InvParts(s);
    assert WorkerOk(s.db.rows, s.mq, s.workers[w]);
  }

  /** The worker gets through its current message, whatever it finds. */
  lemma {:induction false} MessageFinishes(s: State, w: nat, answer: D.Oracle) returns (steps: seq<Step>)
    requires Running(s, w)
    ensures ValidRun(s, steps) && Obey(s, steps, answer) && Manned(After(s, steps), w) && Kept(s, After(s, steps))
    decreases StagesToStart(s.workers[w].pc)
  {
    hide Running, Manned, Kept;
    RunningFacts(s, w);
    if s.workers[w].pc == Start {
      steps := [];
      KeptHere(s);
    } else {
      var step := WorkerNext(w, answer(s));
      var s1 := WorkerStep(s, w, answer(s));
      assert Enabled(s, step) && Apply(s, step) == s1;
      RunsOnStep(s, w, answer(s));
      StageFalls(s, w, answer(s));
      WorkerKept(s, w, answer(s));
      hide Apply, Enabled, WorkerStep;
      var rest := MessageFinishes(s1, w, answer);
      FirstStep(s, step, rest);
      steps := [step] + rest;
      assert steps[1..] == rest;
      KeptTwice(s, s1, After(s1, rest));
    }
  }

  lemma KeptHere(s: State)
    ensures Kept(s, s)
  {
  }

  /** And through the rest of its inbox. */
  lemma ComesOnDuty(s: State, w: nat, answer: D.Oracle) returns (steps: seq<Step>)
    requires Running(s, w)
    ensures Drives(s, steps, w, answer)
  {
    hide Running, Manned, Kept, OnDuty, After, ValidRun, Obey;
    var first := MessageFinishes(s, w, answer);
    var s1 := After(s, first);
    var rest := InboxFinishes(s1, w, answer, 0, 0, Ref(High, 0));
    steps := first + rest;
    ObeyJoin(s, first, rest, answer);
    KeptTwice(s, s1, After(s1, rest));
  }

  /**
   From every reachable state of configuration B in which there are a scheduler, a delayed processor and a running
   worker, ClaimStale and the loops can bring every notification to a decision (it has been marked delivered, failed
   or cancelled), however the provider answers state by state, wherever other workers have stopped, and whatever the
   delayed processors have done to each other.
   */
  lemma EverythingCanBeDecided(s0: State, steps: seq<Step>, answer: D.Oracle) returns (more: seq<Step>)
    requires Init(s0) && ValidRun(s0, steps) && D.Staffed(After(s0, steps))
    ensures ValidRun(After(s0, steps), more) && Obey(After(s0, steps), more, answer)
    ensures var s, s' := After(s0, steps), After(After(s0, steps), more);
            s'.db.rows.Keys == s.db.rows.Keys && forall id | id in s'.db.rows :: Decided(s'.db, id)
  {
    hide After, Inv, Decided, Init, OnDuty;
    var s := After(s0, steps);
    InitSafe(s0);
    RunLosesNone(s0, steps);
    assert Bounded(s0) by { InitBounded(s0); }
    RunBounded(s0, steps);
    var w :| w in s.workers && !s.workers[w].stopped;
    var first := ComesOnDuty(s, w, answer);
    DrivesOnDuty(s, first, w, answer, 0);
    var rest := DecideAll(After(s, first), w, answer);
    DrivesJoin(s, first, rest, w, answer);
    more := first + rest;
    forall id | id in After(s, more).db.rows ensures Decided(After(s, more).db, id) {
      assert id !in Undecided(After(s, more).db);
    }
  }

  lemma InitBounded(s: State)
    requires Init(s)
    ensures Bounded(s)
  {
  }
}
