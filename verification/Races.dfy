/**
 Runs that show which stronger promises the pipeline does not keep: `delivered` and `cancelled` can be
 overwritten, two delayed processors duplicate work, and without ClaimStale a stopped worker strands its messages.
 */
module Races {
  import opened Domain
  import opened Table
  import opened Pipeline
  import opened Agreement
  import opened Carriers
  import opened Timeline
  import C = Conservation
  import A = Alone
  import G = Guarantees
  import MC = MemberCodec
  import Retry

  // ---------------------------------------------------------------- statuses are not absorbing

  /** A worker that is in the middle of a message and will succeed. */
  predicate Succeeding(s: State, w: nat, id: Uuid) {
    && WorkerEnabled(s, w) && id in s.db.rows && s.workers[w].pc.Busy? && s.workers[w].pc.item.id == id
    && s.workers[w].pc.item.row.channel in s.providers
    && match s.workers[w].pc.stage
       case Claimed | Routed | Sending => true
       case Sent(ok) => ok
       case Counted(ok) => ok
       case Recorded(ok) => ok
       case _ => false
  }

  function StagesToDelivery(stage: Stage): nat {
    match stage
    case Claimed => 5
    case Routed => 4
    case Sending => 3
    case Sent(_) => 2
    case Counted(_) => 1
    case _ => 0
  }

  lemma SucceedsFurther(s: State, w: nat, id: Uuid)
    requires Succeeding(s, w, id) && !s.workers[w].pc.stage.Recorded?
    ensures var s' := BusyStep(s, w, true);
            && Succeeding(s', w, id)
            && StagesToDelivery(s'.workers[w].pc.stage) < StagesToDelivery(s.workers[w].pc.stage)
            && HistoryOf(s.db, id).marked <= HistoryOf(s'.db, id).marked
            && s'.clients == s.clients
  {
    CommandsKeepMarks(s.db, id, s.now);
    BusyWorkers(s, w, true);
    hide WriteStatus, IncrementAttempt, InsertAttempt, RecordSend, HistoryOf, Hand, Retry.Backoff, Retry.ShouldRetry;
    match s.workers[w].pc.stage {
      case Claimed =>
      case Routed =>
      case Sending =>
      case Sent(_) =>
      case Counted(_) =>
    }
  }

  lemma CommandsKeepMarks(db: Db, id: Uuid, now: int)
    requires id in db.rows
    ensures id in WriteStatus(db, id, Processing).rows
    ensures HistoryOf(db, id).marked <= HistoryOf(WriteStatus(db, id, Processing), id).marked
    ensures RecordSend(db, id, now).rows == db.rows
    ensures HistoryOf(db, id).marked == HistoryOf(RecordSend(db, id, now), id).marked
    ensures id in IncrementAttempt(db, id).rows
    ensures HistoryOf(db, id).marked == HistoryOf(IncrementAttempt(db, id), id).marked
    ensures forall a :: InsertAttempt(db, id, a).rows == db.rows
    ensures forall a :: HistoryOf(db, id).marked == HistoryOf(InsertAttempt(db, id, a), id).marked
  {
  }

  /** Left to itself and answered with success, the worker writes `delivered`, whatever the row says by then. */
  lemma {:induction false} Delivers(s: State, w: nat, id: Uuid) returns (steps: seq<Step>)
    requires Succeeding(s, w, id)
    ensures ValidRun(s, steps)
    ensures var s' := After(s, steps);
            && id in s'.db.rows && s'.db.rows[id].status == Delivered && s'.clients == s.clients
            && Delivered in HistoryOf(s'.db, id).marked && HistoryOf(s.db, id).marked <= HistoryOf(s'.db, id).marked
    decreases StagesToDelivery(s.workers[w].pc.stage)
  {
    var step := WorkerNext(w, true);
    assert Enabled(s, step) && Apply(s, step) == BusyStep(s, w, true);
    if s.workers[w].pc.stage.Recorded? {
      steps := [step];
      OneStep(s, step);
    } else {
      SucceedsFurther(s, w, id);
      hide BusyStep, Apply, ValidRun, After, Succeeding, HistoryOf;
      var rest := Delivers(BusyStep(s, w, true), w, id);
      steps := [step] + rest;
      FirstStep(s, step, rest);
    }
  }

  /** Create has enqueued notification n and not yet marked it; worker w has been handed the entry. */
  predicate HandedBeforeMark(s: State, c: nat, w: nat, n: New) {
    && c in s.clients && s.clients[c] == Client([Item(n.id, RowOf(n))], 0, true)
    && n.id in s.db.rows && s.db.rows[n.id] == RowOf(n)
    && w in s.workers && !s.workers[w].stopped && s.workers[w].pc == Start && s.workers[w].next == 0
    && |s.workers[w].inbox| == 1 && s.workers[w].inbox[0].id == n.id
    && n.channel in s.providers
  }

  lemma HandedBeforeMarkHappens(s0: State, w: nat, n: New) returns (steps: seq<Step>)
    requires Init(s0) && w in s0.workers && n.scheduledAt.None? && n.channel in s0.providers
    ensures ValidRun(s0, steps) && HandedBeforeMark(After(s0, steps), 0, w, n)
    ensures C.NoReclaim(steps) && SameProcessors(s0, After(s0, steps))
  {
    hide HandOut, ReadStep, ClientStep, BornAll, InsertAll, EnqueueItem;
    var insert, enqueue, read := Insert(0, [n]), ClientNext(0), Read(w);
    var s1 := OneBorn(s0, n);
    var s2 := Apply(s1, enqueue);
    OneEntry(s1, s2, n);
    assert Enabled(s1, enqueue) && Enabled(s2, read);
    HandedOver(s2, w, n);
    ReadKeepsProcessors(s2, w);
    var s3 := Apply(s2, read);
    OneStep(s2, read);
    hide Apply, Enabled, HandOut;
    FirstStep(s1, enqueue, [read]);
    FirstStep(s0, insert, [enqueue] + [read]);
    steps := [insert] + ([enqueue] + [read]);
  }

  /** Nothing has reached or left the delayed set. */
  predicate SameProcessors(s: State, s': State) {
    && s'.now == s.now && s'.providers == s.providers && s'.processors == s.processors && s'.mq.delayed == s.mq.delayed
  }

  lemma HandOutKeepsProcessors(s: State, w: nat, p: Priority)
    requires w in s.workers
    ensures SameProcessors(s, HandOut(s, w, p)) && w in HandOut(s, w, p).workers
  {
  }

  lemma ReadKeepsProcessors(s: State, w: nat)
    requires WorkerIdle(s, w)
    ensures SameProcessors(s, ReadStep(s, w))
  {
    hide HandOut;
    var s1 := ResetWorker(s, w);
    HandOutKeepsProcessors(s1, w, High);
    HandOutKeepsProcessors(HandOut(s1, w, High), w, Normal);
    HandOutKeepsProcessors(HandOut(HandOut(s1, w, High), w, Normal), w, Low);
  }

  lemma OneBorn(s0: State, n: New) returns (s1: State)
    requires Init(s0) && n.scheduledAt.None?
    ensures Enabled(s0, Insert(0, [n])) && s1 == Apply(s0, Insert(0, [n]))
    ensures s1.clients == map[0 := Client([Item(n.id, RowOf(n))], 0, false)] && s1.db.rows == map[n.id := RowOf(n)]
    ensures s1.mq == s0.mq && s1.workers == s0.workers && SameProcessors(s0, s1)
  {
    assert [n][0] == n && [n][1..] == [];
    assert InsertAll(map[n.id := RowOf(n)], []) == Stored(map[n.id := RowOf(n)]);
    var item := Item(n.id, RowOf(n));
    assert [] + [item] == [item];
    s1 := Born(OpenClient(s0, 0), 0, n);
    assert OpenClient(s0, 0).clients[0].batch == [];
    assert s1.clients[0].batch == [item];
    assert s1.clients == map[0 := Client([item], 0, false)];
    assert s1.db.rows == map[n.id := RowOf(n)];
    assert BornAll(s1, 0, []) == s1;
  }

  lemma OneEntry(s1: State, s2: State, n: New)
    requires s1.clients == map[0 := Client([Item(n.id, RowOf(n))], 0, false)]
        && s1.mq == Redis(map[], map[], {}, {}, map[], map[])
    requires n.scheduledAt.None? && s2 == ClientStep(s1, 0)
    ensures Log(s2.mq, n.priority) == [Entry(n.id, ChannelText(n.channel))]
    ensures forall p | p != n.priority :: Log(s2.mq, p) == []
    ensures forall p :: Cursor(s2.mq, p) == 0
    ensures s2.clients == map[0 := Client([Item(n.id, RowOf(n))], 0, true)]
    ensures s2.db == s1.db && s2.workers == s1.workers && SameProcessors(s1, s2)
  {
  }

  lemma HandOutNothing(s: State, w: nat, p: Priority)
    requires w in s.workers && Cursor(s.mq, p) >= |Log(s.mq, p)|
    ensures HandOut(s, w, p) == s
  {
  }

  lemma HandedOver(s: State, w: nat, n: New)
    requires w in s.workers && s.workers[w] == Worker([], 0, Start, false)
    requires Log(s.mq, n.priority) == [Entry(n.id, ChannelText(n.channel))]
    requires forall p | p != n.priority :: Log(s.mq, p) == []
    requires forall p :: Cursor(s.mq, p) == 0
    requires s.clients == map[0 := Client([Item(n.id, RowOf(n))], 0, true)]
    requires s.db.rows == map[n.id := RowOf(n)] && n.channel in s.providers
    ensures HandedBeforeMark(ReadStep(s, w), 0, w, n)
  {
    var s0 := ResetWorker(s, w);
    var s1 := HandOut(s0, w, n.priority);
    HandOutOne(s0, w, n);
    match n.priority {
      case High =>
        HandOutNothing(s1, w, Normal);
        HandOutNothing(s1, w, Low);
      case Normal =>
        HandOutNothing(s0, w, High);
        HandOutNothing(s1, w, Low);
      case Low =>
        HandOutNothing(s0, w, High);
        HandOutNothing(s0, w, Normal);
    }
  }

  lemma HandOutOne(s: State, w: nat, n: New)
    requires w in s.workers && s.workers[w] == Worker([], 0, Start, false)
    requires Log(s.mq, n.priority) == [Entry(n.id, ChannelText(n.channel))] && Cursor(s.mq, n.priority) == 0
    ensures var s' := HandOut(s, w, n.priority);
            && s'.workers
                 == s.workers[w := Worker([Message(Ref(n.priority, 0), n.id, ChannelText(n.channel))], 0, Start, false)]
            && s'.db == s.db && s'.clients == s.clients && s'.providers == s.providers
            && forall p | p != n.priority :: Log(s'.mq, p) == Log(s.mq, p) && Cursor(s'.mq, p) == Cursor(s.mq, p)
  {
    var message := MessageAt(s.mq, Ref(n.priority, 0));
    assert message == Message(Ref(n.priority, 0), n.id, ChannelText(n.channel));
    assert s.workers[w].inbox + [message] == [message];
  }

  /**
   `delivered` is not final: a worker can deliver a notification between Create's XADD and Create's own write of
   `queued`, which then replaces `delivered`.
   */
  lemma DeliveredThenQueued(s0: State, w: nat, n: New) returns (steps: seq<Step>)
    requires Init(s0) && w in s0.workers && n.scheduledAt.None? && n.channel in s0.providers
    ensures ValidRun(s0, steps)
    ensures var db := After(s0, steps).db;
            n.id in db.rows && db.rows[n.id].status == Queued && Delivered in HistoryOf(db, n.id).marked
  {
    var setup := HandedBeforeMarkHappens(s0, w, n);
    var s := After(s0, setup);
    var look, mark := WorkerNext(w, true), ClientNext(0);
    assert Enabled(s, look) && Succeeding(Apply(s, look), w, n.id);
    var rest := Delivers(Apply(s, look), w, n.id);
    var s1 := After(Apply(s, look), rest);
    assert Enabled(s1, mark);
    MarksQueued(s1, n);
    OneStep(s1, mark);
    hide Enabled, Apply, ValidRun, After, HistoryOf, Init;
    RunJoin(Apply(s, look), rest, [mark]);
    FirstStep(s, look, rest + [mark]);
    RunJoin(s0, setup, [look] + (rest + [mark]));
    steps := setup + ([look] + (rest + [mark]));
  }

  lemma MarksQueued(s: State, n: New)
    requires 0 in s.clients && s.clients[0] == Client([Item(n.id, RowOf(n))], 0, true) && n.scheduledAt.None?
    requires n.id in s.db.rows
    ensures var db := ClientStep(s, 0).db;
            && n.id in db.rows && db.rows[n.id].status == Queued
            && HistoryOf(s.db, n.id).marked <= HistoryOf(db, n.id).marked
  {
  }

  /**
   A successful Cancel is not final either: a worker that read the row before the cancellation still sends the
   notification and marks it delivered.
   */
  lemma CancelledThenDelivered(s0: State, w: nat, n: New) returns (before: seq<Step>, after: seq<Step>)
    requires Init(s0) && w in s0.workers && n.scheduledAt.None? && n.channel in s0.providers
    ensures ValidRun(s0, before)
    ensures var s := After(s0, before);
            && n.id in s.db.rows && Cancellable(s.db.rows[n.id].status) && ValidRun(CancelStep(s, n.id), after)
    ensures var db := After(CancelStep(After(s0, before), n.id), after).db;
            n.id in db.rows && db.rows[n.id].status == Delivered && Cancelled in HistoryOf(db, n.id).marked
  {
    var setup := HandedBeforeMarkHappens(s0, w, n);
    var s := After(s0, setup);
    var look := WorkerNext(w, true);
    OneStep(s, look);
    var s1 := Apply(s, look);
    assert Succeeding(s1, w, n.id) && s1.db.rows[n.id].status == Pending;
    var s2 := CancelStep(s1, n.id);
    assert Succeeding(s2, w, n.id) && Cancelled in HistoryOf(s2.db, n.id).marked;
    hide Enabled, Apply, ValidRun, After, HistoryOf, Init;
    RunJoin(s0, setup, [look]);
    before := setup + [look];
    after := Delivers(s2, w, n.id);
  }

  // ---------------------------------------------------------------- two delayed processors

  lemma RemoveLeaves(s: State, p: nat, q: nat)
    requires RemoveEnabled(s, p) && p != q && q in s.processors
    ensures var s' := RemoveStep(s, p);
            && p in s'.processors && q in s'.processors && s'.processors[q] == s.processors[q]
            && s'.processors[p] == s.processors[p].(gone := |s.processors[p].batch|)
  {
    G.RemovesBatch(s, p);
  }

  /**
   Two processors that range before either removes both get the same members, so a due notification then has two
   carriers: the pop is safe only because main starts a single processor.
   */
  lemma TwoProcessorsDuplicate(s: State, p: nat, q: nat, batch: seq<string>) returns (steps: seq<Step>)
    requires ProcessorIdle(s, p) && ProcessorIdle(s, q) && p != q
    requires DueBatch(s.mq.delayed, s.now, POP_LIMIT, batch) && batch != []
    ensures ValidRun(s, steps) && C.NoReclaim(steps)
    ensures forall i, id | 0 <= i < |batch| && Names(batch[i], id) :: TwiceCarried(After(s, steps), id, p, q, i)
  {
    var d1, d2 := Remove(p), Remove(q);
    var s2 := BothRange(s, p, q, batch);
    var s3 := RemoveStep(s2, p);
    RemoveLeaves(s2, p, q);
    var s4 := RemoveStep(s3, q);
    RemoveLeaves(s3, q, p);
    assert Enabled(s2, d1) && Enabled(s3, d2) && Apply(s2, d1) == s3 && Apply(s3, d2) == s4;
    var fin := Processor(batch, 0, s.now, |batch|);
    assert s4.processors[p] == fin && s4.processors[q] == fin;
    BothCarry(s4, p, q, fin);
    hide TwiceCarried, Names, Enabled, Apply, RemoveStep, At, DueBatch, OneCarrier, RangeStep, ProcessorIdle;
    hide RangeEnabled, RemoveEnabled;
    OneStep(s3, d2);
    FirstStep(s2, d1, [d2]);
    var r1, r2 := Range(p, s.now, batch), Range(q, s.now, batch);
    FirstStep(RangeStep(s, p, s.now, batch), r2, [d1] + [d2]);
    FirstStep(s, r1, [r2] + ([d1] + [d2]));
    steps := [r1] + ([r2] + ([d1] + [d2]));
  }

  lemma BothRange(s: State, p: nat, q: nat, batch: seq<string>) returns (s2: State)
    requires ProcessorIdle(s, p) && ProcessorIdle(s, q) && p != q
    requires DueBatch(s.mq.delayed, s.now, POP_LIMIT, batch) && batch != []
    ensures var r1, r2, s1 := Range(p, s.now, batch), Range(q, s.now, batch), RangeStep(s, p, s.now, batch);
            && Enabled(s, r1) && Apply(s, r1) == s1 && Enabled(s1, r2) && Apply(s1, r2) == s2
    ensures RemoveEnabled(s2, p) && RemoveEnabled(s2, q)
    ensures s2.processors[p] == s2.processors[q] == Processor(batch, 0, s.now, 0)
  {
    hide DueBatch;
    s2 := RangeStep(RangeStep(s, p, s.now, batch), q, s.now, batch);
  }

  /** Two carriers at once. */
  ghost predicate TwiceCarried(s: State, id: Uuid, p: nat, q: nat, i: nat) {
    At(s, id, Popped(p, i)) && At(s, id, Popped(q, i)) && !OneCarrier(s)
  }

  lemma BothCarry(s: State, p: nat, q: nat, proc: Processor)
    requires p in s.processors && q in s.processors && p != q && s.processors[p] == s.processors[q] == proc
    requires proc.next == 0 && proc.gone == |proc.batch|
    ensures forall i, id | 0 <= i < |proc.batch| && Names(proc.batch[i], id) :: TwiceCarried(s, id, p, q, i)
  {
    hide Names, OneCarrier;
    forall i, id | 0 <= i < |proc.batch| && Names(proc.batch[i], id) ensures TwiceCarried(s, id, p, q, i) {
      assert At(s, id, Popped(p, i)) && At(s, id, Popped(q, i));
      TwoPlaces(s, id, Popped(p, i), Popped(q, i));
    }
  }

  lemma TwoPlaces(s: State, id: Uuid, x: Carrier, y: Carrier)
    requires At(s, id, x) && At(s, id, y) && x != y
    ensures !OneCarrier(s)
  {
    hide At;
  }

  /** The provider fails the notification once: its member is delayed by the first back-off. */
  lemma FailsOnce(s: State, w: nat, n: New) returns (steps: seq<Step>)
    requires HandedBeforeMark(s, 0, w, n) && n.maxRetries >= 2 && n.scheduledAt.None?
    ensures ValidRun(s, steps) && C.NoReclaim(steps)
    ensures var s' := After(s, steps);
            && s'.now == s.now && s'.processors == s.processors
            && s'.mq.delayed == s.mq.delayed[MemberOf(n.id, RowOf(n)) := s.now + Retry.Backoff(1)]
  {
    hide A.Handled, MemberOf, Retry.Backoff, ValidRun, After, A.Again;
    var message := s.workers[w].inbox[0];
    var k := A.MessageAlone(s, w, false);
    steps := A.Again(WorkerNext(w, false), k);
    A.HandledQueues(A.Stores(s.db, s.mq), s.providers, message, s.now, false);
    assert A.Open(s.db, n.id);
    assert forall i | 0 <= i < |steps| :: !steps[i].Reclaim? by { AgainIsNoReclaim(w, k); }
  }

  lemma AgainIsNoReclaim(w: nat, k: nat)
    ensures C.NoReclaim(A.Again(WorkerNext(w, false), k))
  {
  }

  lemma OneDue(member: string, at: int)
    ensures DueBatch(map[member := at], at, POP_LIMIT, [member])
  {
  }

  /** After a failed send and its back-off, the only delayed member is due and both processors are idle. */
  lemma DueHappens(s0: State, p: nat, q: nat, w: nat, n: New) returns (steps: seq<Step>)
    requires Init(s0) && p in s0.processors && q in s0.processors && w in s0.workers
    requires n.scheduledAt.None? && n.channel in s0.providers && n.maxRetries >= 2
    ensures ValidRun(s0, steps) && C.NoReclaim(steps)
    ensures var s := After(s0, steps);
            && ProcessorIdle(s, p) && ProcessorIdle(s, q)
            && DueBatch(s.mq.delayed, s.now, POP_LIMIT, [MemberOf(n.id, RowOf(n))])
  {
    hide ValidRun, After, MemberOf, Retry.Backoff, HandedBeforeMark, DueBatch, Apply, Enabled;
    var setup := HandedBeforeMarkHappens(s0, w, n);
    var s := After(s0, setup);
    var fail := FailsOnce(s, w, n);
    var tick := Tick(Retry.Backoff(1));
    var s1 := After(s, fail);
    TickIs(s1, Retry.Backoff(1));
    OneStep(s1, tick);
    RunJoin(s, fail, [tick]);
    RunJoin(s0, setup, fail + [tick]);
    steps := setup + (fail + [tick]);
    assert s1.mq.delayed == map[MemberOf(n.id, RowOf(n)) := s.now + Retry.Backoff(1)];
    OneDue(MemberOf(n.id, RowOf(n)), s.now + Retry.Backoff(1));
  }

  lemma TickIs(s: State, ms: nat)
    ensures Enabled(s, Tick(ms)) && Apply(s, Tick(ms)) == s.(now := s.now + ms)
  {
  }

  lemma TwoProcessorsFail(s0: State, p: nat, q: nat, w: nat, n: New) returns (steps: seq<Step>)
    requires Init(s0) && p in s0.processors && q in s0.processors && p != q && w in s0.workers
    requires n.scheduledAt.None? && n.channel in s0.providers && n.maxRetries >= 2
    ensures ValidRun(s0, steps) && C.NoReclaim(steps) && !OneCarrier(After(s0, steps))
  {
    hide ValidRun, After, OneCarrier, DueBatch, Init, At;
    var due := DueHappens(s0, p, q, w, n);
    var s := After(s0, due);
    var member := MemberOf(n.id, RowOf(n));
    MC.DecodeInvertsMember(n.id, n.channel, n.priority);
    assert Names(member, n.id);
    var race := TwoProcessorsDuplicate(s, p, q, [member]);
    assert TwiceCarried(After(s, race), n.id, p, q, 0);
    RunJoin(s0, due, race);
    steps := due + race;
  }

  ghost predicate NeverTwoCarriers(s0: State) {
    forall steps | ValidRun(s0, steps) && C.NoReclaim(steps) :: OneCarrier(After(s0, steps))
  }

  /**
   Given a worker and a served channel, notifications keep at most one carrier in every run without ClaimStale
   exactly when main starts at most one delayed processor.
   */
  lemma OneCarrierIff(s0: State)
    requires Init(s0) && s0.workers.Keys != {} && s0.providers != {}
    ensures NeverTwoCarriers(s0) <==> G.OneProcessor(s0)
  {
    hide ValidRun, After, OneCarrier, Init;
    if G.OneProcessor(s0) {
      forall steps | ValidRun(s0, steps) && C.NoReclaim(steps) ensures OneCarrier(After(s0, steps)) {
        G.OneCarrierAlways(s0, steps);
      }
    } else {
      var p, q :| p in s0.processors && q in s0.processors && p != q;
      var w :| w in s0.workers.Keys;
      var channel :| channel in s0.providers;
      var steps := TwoProcessorsFail(s0, p, q, w, New(NIL, "", channel, Normal, None, 2));
      RunsNever(s0, steps);
    }
  }

  lemma RunsNever(s0: State, steps: seq<Step>)
    requires ValidRun(s0, steps) && C.NoReclaim(steps) && !OneCarrier(After(s0, steps))
    ensures !NeverTwoCarriers(s0)
  {
  }

  // ---------------------------------------------------------------- no ClaimStale

  /** A message in the hands of worker w: handed out and unread, or being processed. */
  predicate HeldBy(x: Carrier, w: nat) {
    match x
    case Inboxed(v, _) => v == w
    case Working(v) => v == w
    case _ => false
  }

  lemma HandOutLeaves(s: State, v: nat, p: Priority, w: nat)
    requires v in s.workers && w in s.workers && v != w
    ensures w in HandOut(s, v, p).workers && v in HandOut(s, v, p).workers
        && HandOut(s, v, p).workers[w] == s.workers[w]
  {
  }

  lemma ReadLeaves(s: State, v: nat, w: nat)
    requires WorkerIdle(s, v) && w in s.workers && v != w
    ensures w in ReadStep(s, v).workers && ReadStep(s, v).workers[w] == s.workers[w]
  {
    hide HandOut;
    var s1 := ResetWorker(s, v);
    HandOutLeaves(s1, v, High, w);
    HandOutLeaves(HandOut(s1, v, High), v, Normal, w);
    HandOutLeaves(HandOut(HandOut(s1, v, High), v, Normal), v, Low, w);
  }

  lemma {:induction false} BornAllLeaves(s: State, c: nat, news: seq<New>)
    requires c in s.clients
    ensures BornAll(s, c, news).workers == s.workers
    decreases |news|
  {
    if news != [] {
      BornAllLeaves(Born(s, c, news[0]), c, news[1..]);
    }
  }

  /** Nothing touches a worker that has stopped. */
  lemma StoppedStays(s: State, step: Step, w: nat)
    requires Enabled(s, step) && w in s.workers && s.workers[w].stopped
    ensures w in Apply(s, step).workers && Apply(s, step).workers[w] == s.workers[w]
  {
    hide BornAll, ClaimAll, HandOut, RemoveStep, BusyStep, ReadStep, ClientStep, DueBatch, InsertAll;
    match step {
      case Insert(c, news) => BornAllLeaves(OpenClient(s, c), c, news);
      case Fetch(k, ids) => ClaimAllGrows(ResetScheduler(s, k), k, ids);
      case Read(v) => ReadLeaves(s, v, w);
      case WorkerNext(v, ok) => if s.workers[v].pc.Busy? { BusyWorkers(s, v, ok); }
      case Remove(p) => G.RemovesBatch(s, p);
      case ClientNext(c) => ClientLeaves(s, c);
      case _ =>
    }
  }

  lemma ClientLeaves(s: State, c: nat)
    requires ClientEnabled(s, c)
    ensures ClientStep(s, c).workers == s.workers
  {
  }

  lemma HolderSends(s: State, loc: Places, step: Step, id: Uuid, x: Carrier, w: nat)
    requires Located(s, loc) && Enabled(s, step)
    requires w in s.workers && s.workers[w].stopped && HeldBy(x, w) && At(s, id, x)
    ensures !Sends(s, step, id)
  {
    if step.WorkerNext? {
      assert Sends(s, step, id) ==> At(s, id, Working(step.w));
    }
  }

  lemma HeldStays(s: State, s': State, id: Uuid, x: Carrier, w: nat)
    requires w in s.workers && w in s'.workers && s'.workers[w] == s.workers[w] && HeldBy(x, w) && At(s, id, x)
    ensures At(s', id, x)
  {
  }

  /** The holder never runs again, so no step sends the notification or takes the message from it. */
  lemma StrandedStep(s: State, loc: Places, step: Step, id: Uuid, x: Carrier, w: nat)
    requires Located(s, loc) && Enabled(s, step)
    requires w in s.workers && s.workers[w].stopped && id in s.db.rows && HeldBy(x, w) && At(s, id, x)
    ensures var s' := Apply(s, step);
            w in s'.workers && s'.workers[w].stopped && id in s'.db.rows && At(s', id, x) && SameSends(s, s', id)
  {
    hide Apply, Located, Enabled, At, Sends, HistoryOf, HeldBy;
    StoppedStays(s, step, w);
    StepGrows(s, step);
    HolderSends(s, loc, step, id, x, w);
    StepSends(s, step, id);
    HeldStays(s, Apply(s, step), id, x, w);
  }

  lemma InvLocated(s: State, loc: Places)
    requires C.Inv(s, loc)
    ensures Located(s, loc)
  {
  }

  lemma {:induction false} StrandedFrom(s: State, loc: Places, more: seq<Step>, id: Uuid, x: Carrier, w: nat)
    requires C.Inv(s, loc) && ValidRun(s, more) && C.NoReclaim(more)
    requires w in s.workers && s.workers[w].stopped && id in s.db.rows && HeldBy(x, w) && At(s, id, x)
    ensures At(After(s, more), id, x) && OneCarrier(After(s, more)) && SameSends(s, After(s, more), id)
    decreases |more|
  {
    hide Apply, Enabled, HistoryOf, At, OneCarrier, C.Inv, HeldBy;
    assert Located(s, loc) by { InvLocated(s, loc); }
    if more == [] {
      LocatedIsUnique(s, loc);
    } else {
      hide Located;
      StrandedStep(s, loc, more[0], id, x, w);
      var loc' := C.StepInv(s, loc, more[0]);
      StrandedFrom(Apply(s, more[0]), loc', more[1..], id, x, w);
    }
  }

  /**
   A message held by a worker that has stopped stays there for good: it remains the notification's only carrier
   and nothing more is ever sent. Only ClaimStale could free it, and nothing calls ClaimStale.
   */
  lemma StoppedWorkerStrands(s0: State, steps: seq<Step>, more: seq<Step>, id: Uuid, x: Carrier, w: nat)
    requires G.RunA(s0, steps) && ValidRun(After(s0, steps), more) && C.NoReclaim(more)
    requires var s := After(s0, steps); w in s.workers && s.workers[w].stopped && id in s.db.rows && At(s, id, x)
    requires HeldBy(x, w)
    ensures var s, s' := After(s0, steps), After(After(s0, steps), more);
            At(s', id, x) && OneCarrier(s') && SameSends(s, s', id)
  {
    hide After, C.Inv, At;
    var loc := G.ReachedInv(s0, steps);
    StrandedFrom(After(s0, steps), loc, more, id, x, w);
  }
}
