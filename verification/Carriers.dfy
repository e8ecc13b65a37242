/**
 Where a notification's work is: the carrier that will cause its next send. `At` reads a carrier off
 the stores and program counters; `Located` says that a map of single carriers describes a whole state.
 */
module Carriers {
  import opened Domain
  import opened Table
  import opened Pipeline
  import opened Agreement
  import MC = MemberCodec

  datatype Carrier =
    | WithClient(c: nat, i: nat)     // inserted, and the creating loop has not enqueued it yet
    | Waiting                        // the row is `scheduled`
    | WithScheduler(k: nat, i: nat)  // claimed, and the poll loop has not enqueued it yet
    | Streamed(ref: Ref)             // an entry no worker has been given
    | Inboxed(w: nat, i: nat)        // an entry given to worker w, which has not read the row yet
    | Working(w: nat)                // worker w has read the row and is not done with it
    | Retrying                       // a member of the delayed set
    | Popped(p: nat, i: nat)         // removed from the delayed set, not re-enqueued yet
    | Gone

  predicate Owes(client: Client, i: nat) {
    && client.next <= i < |client.batch|
    && client.batch[i].row.status == Pending
    && !(i == client.next && client.enqueued)
  }

  /** The enqueued flag is up only between the XADD of a pending notification and the write of `queued`. */
  predicate ClientOk(client: Client) {
    client.enqueued ==> client.next < |client.batch| && client.batch[client.next].row.status == Pending
  }

  predicate Unread(worker: Worker, i: nat) {
    worker.next <= i < |worker.inbox| && (i == worker.next ==> worker.pc == Start)
  }

  predicate Names(member: string, id: Uuid) {
    var d := MC.Decode(member);
    d.Some? && d.value.id == id
  }

  /** The carrier x of notification id exists in state s. */
  predicate At(s: State, id: Uuid, x: Carrier) {
    match x
    case WithClient(c, i) => c in s.clients && Owes(s.clients[c], i) && s.clients[c].batch[i].id == id
    case Waiting => id in s.db.rows && s.db.rows[id].status == Scheduled
    case WithScheduler(k, i) =>
      k in s.schedulers && s.schedulers[k].next <= i < |s.schedulers[k].batch| && s.schedulers[k].batch[i].id == id
    case Streamed(ref) =>
      Cursor(s.mq, ref.stream) <= ref.index < |Log(s.mq, ref.stream)| && Log(s.mq, ref.stream)[ref.index].id == id
    case Inboxed(w, i) => w in s.workers && Unread(s.workers[w], i) && s.workers[w].inbox[i].id == id
    case Working(w) => w in s.workers && s.workers[w].pc.Busy? && s.workers[w].pc.item.id == id
    case Retrying => id in s.db.rows && MemberOf(id, s.db.rows[id]) in s.mq.delayed
    case Popped(p, i) =>
      && p in s.processors && s.processors[p].next <= i < s.processors[p].gone
      && i < |s.processors[p].batch| && Names(s.processors[p].batch[i], id)
    case Gone => false
  }

  type Places = map<Uuid, Carrier>

  function Where(loc: Places, id: Uuid): Carrier {
    if id in loc then loc[id] else Gone
  }

  ghost predicate Located(s: State, loc: Places) {
    forall id, x :: At(s, id, x) <==> x != Gone && Where(loc, id) == x
  }

  /** At most one carrier per notification. */
  ghost predicate OneCarrier(s: State) {
    forall id, x, y :: At(s, id, x) && At(s, id, y) ==> x == y
  }

  lemma LocatedIsUnique(s: State, loc: Places)
    requires Located(s, loc)
    ensures OneCarrier(s)
  {
  }

  /** From s to s', notification id's carrier becomes `to` and every other carrier stays. */
  ghost predicate Moves(s: State, s': State, id: Uuid, to: Carrier) {
    forall i, x :: At(s', i, x) <==> (i != id && At(s, i, x)) || (i == id && x == to && x != Gone)
  }

  ghost predicate Stays(s: State, s': State) {
    forall i, x :: At(s', i, x) <==> At(s, i, x)
  }

  lemma MovesLocated(s: State, s': State, loc: Places, id: Uuid, to: Carrier)
    requires Located(s, loc) && Moves(s, s', id, to)
    ensures Located(s', loc[id := to])
  {
    hide At;
    forall i, x ensures At(s', i, x) <==> x != Gone && Where(loc[id := to], i) == x {
      assert At(s, i, x) <==> x != Gone && Where(loc, i) == x;
    }
  }

  lemma StaysLocated(s: State, s': State, loc: Places)
    requires Located(s, loc) && Stays(s, s')
    ensures Located(s', loc)
  {
    hide At;
  }

  lemma AtIs(s: State, loc: Places, id: Uuid, x: Carrier)
    requires Located(s, loc) && At(s, id, x)
    ensures Where(loc, id) == x
    ensures forall y | At(s, id, y) :: y == x
  {
  }

  // ---------------------------------------------------------------- rows

  /** A write that neither enters nor leaves `scheduled` moves nothing. */
  lemma RowsStay(s: State, db': Db)
    requires forall i :: i in s.db.rows <==> i in db'.rows
    requires forall i | i in s.db.rows ::
               SameColumns(s.db.rows[i], db'.rows[i])
                   && (s.db.rows[i].status == Scheduled <==> db'.rows[i].status == Scheduled)
    ensures Stays(s, s.(db := db'))
  {
    hide MemberOf, Names;
    var s' := s.(db := db');
    forall i, x ensures At(s', i, x) <==> At(s, i, x) {
      if i in s.db.rows {
        MemberKept(i, s.db.rows[i], db'.rows[i]);
      }
    }
  }

  lemma MemberKept(id: Uuid, r: Row, r': Row)
    requires SameColumns(r, r')
    ensures MemberOf(id, r) == MemberOf(id, r')
  {
  }

  lemma WriteStays(s: State, id: Uuid, status: Status)
    requires status != Scheduled && (id in s.db.rows ==> s.db.rows[id].status != Scheduled)
    ensures Stays(s, s.(db := WriteStatus(s.db, id, status)))
  {
    RowsStay(s, WriteStatus(s.db, id, status));
  }

  /** Cancelling a scheduled row ends its wait; cancelling any other row moves nothing. */
  lemma CancelMoves(s: State, loc: Places, id: Uuid)
    requires Located(s, loc) && id in s.db.rows && s.db.rows[id].status == Scheduled
    ensures Moves(s, CancelStep(s, id), id, Gone)
    ensures Where(loc, id) == Waiting
  {
    hide MemberOf, Names;
    var s' := CancelStep(s, id);
    AtIs(s, loc, id, Waiting);
    forall i, x ensures At(s', i, x) <==> (i != id && At(s, i, x)) || (i == id && x == Gone && x != Gone) {
      if i in s.db.rows {
        MemberKept(i, s.db.rows[i], s'.db.rows[i]);
      }
      assert At(s', i, x) ==> At(s, i, x);
    }
  }

  // ---------------------------------------------------------------- clients and schedulers

  lemma BornMoves(s: State, c: nat, n: New)
    requires c in s.clients && n.id !in s.db.rows && s.clients[c].next == 0 && !s.clients[c].enqueued
    requires forall x :: !At(s, n.id, x)
    requires MemberOf(n.id, RowOf(n)) !in s.mq.delayed
    ensures Moves(s, Born(s, c, n), n.id, if n.scheduledAt.Some? then Waiting else WithClient(c, |s.clients[c].batch|))
  {
    hide MemberOf, Names;
    var s' := Born(s, c, n);
    var to := if n.scheduledAt.Some? then Waiting else WithClient(c, |s.clients[c].batch|);
    forall i, x ensures At(s', i, x) <==> (i != n.id && At(s, i, x)) || (i == n.id && x == to && x != Gone) {
      assert i == n.id ==> !At(s, n.id, x);
    }
  }

  /** Whatever is carried has a row. */
  lemma CarriedExists(s: State, id: Uuid, x: Carrier)
    requires Agree(s) && At(s, id, x)
    ensures id in s.db.rows
  {
    hide MemberOf;
    match x {
      case WithClient(c, i) => assert ClientItemOk(s.db.rows, s.now, s.clients[c].batch[i]);
      case WithScheduler(k, i) => assert ClaimedItemOk(s.db.rows, s.now, s.schedulers[k].batch[i]);
      case Streamed(ref) => assert EntryOk(s.db.rows, s.now, ref.stream, Log(s.mq, ref.stream)[ref.index]);
      case Inboxed(w, i) =>
        var m := s.workers[w].inbox[i];
        assert WorkerOk(s.db.rows, s.mq, s.workers[w]) && MessageOk(s.mq, m);
        MessageReleased(s, m);
      case Working(w) => assert WorkerOk(s.db.rows, s.mq, s.workers[w]);
      case Popped(p, i) => assert MemberOk(s.db.rows, s.now, s.processors[p].batch[i]);
      case _ =>
    }
  }

  lemma DelayedExists(s: State, id: Uuid, row: Row)
    requires Agree(s) && MemberOf(id, row) in s.mq.delayed
    ensures id in s.db.rows
  {
    MC.DecodeInvertsMember(id, row.channel, row.priority);
    assert MemberOk(s.db.rows, s.now, MemberOf(id, row));
  }

  lemma NewIsNotCarried(s: State, id: Uuid, row: Row)
    requires Agree(s) && id !in s.db.rows
    ensures forall x :: !At(s, id, x)
    ensures MemberOf(id, row) !in s.mq.delayed
  {
    hide Agree, At, MemberOf;
    if x :| At(s, id, x) {
      CarriedExists(s, id, x);
    }
    if MemberOf(id, row) in s.mq.delayed {
      DelayedExists(s, id, row);
    }
  }

  lemma OpenClientStays(s: State, c: nat)
    requires c !in s.clients
    ensures Stays(s, OpenClient(s, c))
  {
    hide MemberOf, Names;
  }

  lemma SkipStays(s: State, c: nat)
    requires ClientEnabled(s, c) && s.clients[c].batch[s.clients[c].next].row.status != Pending
        && !s.clients[c].enqueued
    ensures Stays(s, ClientStep(s, c))
  {
    hide MemberOf, Names;
  }

  lemma MarkStays(s: State, c: nat)
    requires ClientEnabled(s, c) && s.clients[c].enqueued
    ensures Stays(s, s.(clients := s.clients[c := s.clients[c].(next := s.clients[c].next + 1, enqueued := false)]))
  {
    hide MemberOf, Names;
  }

  function NextRef(mq: Redis, p: Priority): Ref {
    Ref(p, |Log(mq, p)|)
  }

  lemma EnqueueMoves(s: State, loc: Places, c: nat)
    requires RefsOk(s.mq) && Located(s, loc) && ClientEnabled(s, c) && !s.clients[c].enqueued
    requires s.clients[c].batch[s.clients[c].next].row.status == Pending
    ensures var item := s.clients[c].batch[s.clients[c].next];
            && Moves(s, ClientStep(s, c), item.id, Streamed(NextRef(s.mq, item.row.priority)))
            && Where(loc, item.id) == WithClient(c, s.clients[c].next)
  {
    hide MemberOf, Names, RefsOk;
    var client := s.clients[c];
    var item := client.batch[client.next];
    AtIs(s, loc, item.id, WithClient(c, client.next));
    AppendMoves(s, item.row.priority, EntryFor(item));
    var s' := ClientStep(s, c);
    var to := Streamed(NextRef(s.mq, item.row.priority));
    forall i, x
      ensures At(s', i, x) <==> (i != item.id && At(s, i, x)) || (i == item.id && x == to && x != Gone)
    {
      assert At(s.(mq := s'.mq), i, x) <==> At(s, i, x) || (i == item.id && x == to);
    }
  }

  /** An appended entry is one more carrier. */
  lemma AppendMoves(s: State, p: Priority, e: Entry)
    requires RefsOk(s.mq)
    ensures forall i, x :: At(s.(mq := Append(s.mq, p, e)), i, x) <==>
                           At(s, i, x) || (i == e.id && x == Streamed(NextRef(s.mq, p)))
  {
    hide MemberOf, Names, RefsOk, Append;
    var s' := s.(mq := Append(s.mq, p, e));
    AppendFrame(s.mq, p, e);
    AppendKeepsRest(s.mq, p, e);
    CursorWithin(s.mq, p);
    forall i, x ensures At(s', i, x) <==> At(s, i, x) || (i == e.id && x == Streamed(NextRef(s.mq, p))) {
      match x {
        case Streamed(ref) =>
          if ref.index < |Log(s.mq, ref.stream)| {
            assert Log(s'.mq, ref.stream)[ref.index] == Log(s.mq, ref.stream)[ref.index];
          }
        case _ =>
      }
    }
  }

  lemma AppendKeepsRest(mq: Redis, p: Priority, e: Entry)
    ensures var mq' := Append(mq, p, e);
            mq'.delayed == mq.delayed && mq'.pel == mq.pel && mq'.handed == mq.handed && mq'.dead == mq.dead
  {
  }

  lemma CursorWithin(mq: Redis, p: Priority)
    requires RefsOk(mq)
    ensures Cursor(mq, p) <= |Log(mq, p)|
  {
  }

  lemma ResetSchedulerStays(s: State, k: nat)
    requires SchedulerIdle(s, k)
    ensures Stays(s, ResetScheduler(s, k))
  {
    hide MemberOf, Names;
  }

  lemma ClaimOneMoves(s: State, loc: Places, k: nat, id: Uuid)
    requires Located(s, loc) && ClaimOneEnabled(s, k, id) && s.schedulers[k].next == 0
    ensures Moves(s, ClaimOne(s, k, id), id, WithScheduler(k, |s.schedulers[k].batch|))
    ensures Where(loc, id) == Waiting
  {
    hide MemberOf, Names;
    var s' := ClaimOne(s, k, id);
    var to := WithScheduler(k, |s.schedulers[k].batch|);
    AtIs(s, loc, id, Waiting);
    forall i, x ensures At(s', i, x) <==> (i != id && At(s, i, x)) || (i == id && x == to && x != Gone) {
      if i in s.db.rows {
        MemberKept(i, s.db.rows[i], s'.db.rows[i]);
      }
      assert At(s', i, x) ==> At(s, i, x) || x == to;
    }
  }

  lemma PollMoves(s: State, loc: Places, k: nat)
    requires RefsOk(s.mq) && Located(s, loc) && SchedulerEnabled(s, k)
    ensures var item := s.schedulers[k].batch[s.schedulers[k].next];
            && Moves(s, SchedulerStep(s, k), item.id, Streamed(NextRef(s.mq, item.row.priority)))
            && Where(loc, item.id) == WithScheduler(k, s.schedulers[k].next)
  {
    hide MemberOf, Names, RefsOk;
    var sched := s.schedulers[k];
    var item := sched.batch[sched.next];
    AtIs(s, loc, item.id, WithScheduler(k, sched.next));
    AppendMoves(s, item.row.priority, EntryFor(item));
    var s' := SchedulerStep(s, k);
    var to := Streamed(NextRef(s.mq, item.row.priority));
    forall i, x
      ensures At(s', i, x) <==> (i != item.id && At(s, i, x)) || (i == item.id && x == to && x != Gone)
    {
      assert At(s.(mq := s'.mq), i, x) <==> At(s, i, x) || (i == item.id && x == to);
    }
  }

  // ---------------------------------------------------------------- workers

  lemma ResetWorkerStays(s: State, w: nat)
    requires WorkerIdle(s, w)
    ensures Stays(s, ResetWorker(s, w))
  {
    hide MemberOf, Names;
  }

  lemma HandOutMoves(s: State, loc: Places, w: nat, p: Priority)
    requires Located(s, loc) && w in s.workers && s.workers[w].next == 0 && s.workers[w].pc == Start
    requires Cursor(s.mq, p) < |Log(s.mq, p)|
    ensures var id := Log(s.mq, p)[Cursor(s.mq, p)].id;
            && Moves(s, HandOut(s, w, p), id, Inboxed(w, |s.workers[w].inbox|))
            && Where(loc, id) == Streamed(Ref(p, Cursor(s.mq, p)))
  {
    hide MemberOf, Names;
    var s' := HandOut(s, w, p);
    var ref := Ref(p, Cursor(s.mq, p));
    var id := Log(s.mq, p)[ref.index].id;
    var to := Inboxed(w, |s.workers[w].inbox|);
    AtIs(s, loc, id, Streamed(ref));
    assert forall q :: Log(s'.mq, q) == Log(s.mq, q);
    assert forall q | q != p :: Cursor(s'.mq, q) == Cursor(s.mq, q);
    forall i, x ensures At(s', i, x) <==> (i != id && At(s, i, x)) || (i == id && x == to && x != Gone) {
      match x {
        case Streamed(r) =>
        case Inboxed(w', j) =>
          if w' == w && j < |s.workers[w].inbox| {
            assert s'.workers[w].inbox[j] == s.workers[w].inbox[j];
          }
        case _ =>
      }
      assert At(s', i, x) ==> At(s, i, x) || x == to;
    }
  }

  /** A worker that goes on to the next stage of the same notification moves nothing. */
  lemma StageStays(s: State, w: nat, stage: Stage)
    requires WorkerEnabled(s, w) && s.workers[w].pc.Busy?
    ensures Stays(s, s.(workers := Goto(s, w, Busy(s.workers[w].pc.item, stage))))
  {
    hide MemberOf, Names;
  }

  lemma AckStays(s: State, w: nat)
    requires WorkerEnabled(s, w) && s.workers[w].pc == Acking
    ensures Stays(s, AckStep(s, w))
  {
    hide MemberOf, Names;
    var mq' := AckStep(s, w).mq;
    assert forall q :: Log(mq', q) == Log(s.mq, q) && Cursor(mq', q) == Cursor(s.mq, q);
  }

  lemma StopStays(s: State, w: nat)
    requires StopEnabled(s, w)
    ensures Stays(s, StopStep(s, w))
  {
    hide MemberOf, Names;
  }

  /** A Redis command that leaves streams, cursors and the delayed set alone moves nothing. */
  lemma QueuesStay(s: State, mq': Redis)
    requires mq'.logs == s.mq.logs && mq'.cursors == s.mq.cursors && mq'.delayed == s.mq.delayed
    ensures Stays(s, s.(mq := mq'))
  {
    hide MemberOf, Names;
    assert forall q :: Log(mq', q) == Log(s.mq, q) && Cursor(mq', q) == Cursor(s.mq, q);
  }

  lemma StartMoves(s: State, loc: Places, w: nat, pc: Pc)
    requires Located(s, loc) && WorkerEnabled(s, w) && s.workers[w].pc == Start && pc != Start
    requires pc.Busy? ==> pc.item.id == s.workers[w].inbox[s.workers[w].next].id
    ensures var id := s.workers[w].inbox[s.workers[w].next].id;
            && Moves(s, s.(workers := Goto(s, w, pc)), id, if pc.Busy? then Working(w) else Gone)
            && Where(loc, id) == Inboxed(w, s.workers[w].next)
  {
    hide MemberOf, Names;
    var worker := s.workers[w];
    var id := worker.inbox[worker.next].id;
    AtIs(s, loc, id, Inboxed(w, worker.next));
    var to := if pc.Busy? then Working(w) else Gone;
    var s' := s.(workers := Goto(s, w, pc));
    forall i, x ensures At(s', i, x) <==> (i != id && At(s, i, x)) || (i == id && x == to && x != Gone) {
      assert At(s', i, x) ==> At(s, i, x) || x == to;
    }
  }

  lemma FinishMoves(s: State, loc: Places, w: nat)
    requires Located(s, loc) && WorkerEnabled(s, w) && s.workers[w].pc.Busy?
    ensures var id := s.workers[w].pc.item.id;
            && Moves(s, s.(workers := Goto(s, w, Acking)), id, Gone)
            && Where(loc, id) == Working(w)
  {
    hide MemberOf, Names;
    var id := s.workers[w].pc.item.id;
    AtIs(s, loc, id, Working(w));
    var s' := s.(workers := Goto(s, w, Acking));
    forall i, x ensures At(s', i, x) <==> (i != id && At(s, i, x)) || (i == id && x == Gone && x != Gone) {
      assert At(s', i, x) ==> At(s, i, x);
    }
  }

  /** Writing the delayed member and being done with the message, in that order, moves the carrier. */
  lemma DelayMoves(s: State, loc: Places, w: nat, at: int)
    requires Located(s, loc) && WorkerEnabled(s, w) && s.workers[w].pc.Busy? && ItemOk(s.db.rows, s.workers[w].pc.item)
    ensures var item := s.workers[w].pc.item;
            && Moves(s, s.(mq := EnqueueDelayed(s.mq, item, at), workers := Goto(s, w, Acking)), item.id, Retrying)
            && Where(loc, item.id) == Working(w)
  {
    hide MemberOf, Names;
    var item := s.workers[w].pc.item;
    AtIs(s, loc, item.id, Working(w));
    MemberKept(item.id, item.row, s.db.rows[item.id]);
    var mq' := EnqueueDelayed(s.mq, item, at);
    assert forall q :: Log(mq', q) == Log(s.mq, q) && Cursor(mq', q) == Cursor(s.mq, q);
    var s' := s.(mq := mq', workers := Goto(s, w, Acking));
    forall i, x
      ensures At(s', i, x) <==> (i != item.id && At(s, i, x)) || (i == item.id && x == Retrying && x != Gone)
    {
      if i in s.db.rows && i != item.id {
        MembersDiffer(i, s.db.rows[i], item.id, item.row);
      }
      assert At(s', i, x) ==> At(s, i, x) || x == Retrying;
    }
  }

  lemma MembersDiffer(id: Uuid, row: Row, id': Uuid, row': Row)
    requires id != id'
    ensures MemberOf(id, row) != MemberOf(id', row')
  {
    if MemberOf(id, row) == MemberOf(id', row') {
      MC.MemberInjective(id, row.channel, row.priority, id', row'.channel, row'.priority);
    }
  }

  // ---------------------------------------------------------------- delayed processors

  lemma RangeStays(s: State, p: nat, at: int, batch: seq<string>)
    requires ProcessorIdle(s, p)
    ensures Stays(s, RangeStep(s, p, at, batch))
  {
    hide MemberOf, Names;
  }

  lemma RemoveOneMoves(s: State, loc: Places, p: nat, id: Uuid)
    requires Located(s, loc) && RemoveEnabled(s, p) && s.processors[p].next <= s.processors[p].gone
    requires id in s.db.rows && MemberOf(id, s.db.rows[id]) == s.processors[p].batch[s.processors[p].gone]
    requires s.processors[p].batch[s.processors[p].gone] in s.mq.delayed
    requires Names(s.processors[p].batch[s.processors[p].gone], id)
    ensures Moves(s, RemoveOne(s, p), id, Popped(p, s.processors[p].gone))
    ensures Where(loc, id) == Retrying
  {
    hide MemberOf, Names;
    var s' := RemoveOne(s, p);
    var proc := s.processors[p];
    AtIs(s, loc, id, Retrying);
    ZRemDrops(s, id, s.db.rows[id]);
    RemovedJoins(s.(mq := s'.mq), p, id);
    hide At;
    forall i, x
      ensures At(s', i, x) <==> (i != id && At(s, i, x)) || (i == id && x == Popped(p, proc.gone) && x != Gone)
    {
      assert At(s.(mq := s'.mq), i, x) <==> At(s, i, x) && !(i == id && x == Retrying);
    }
  }

  lemma ZRemDrops(s: State, id: Uuid, row: Row)
    requires id in s.db.rows && s.db.rows[id] == row
    ensures var s' := s.(mq := s.mq.(delayed := s.mq.delayed - {MemberOf(id, row)}));
            forall i, x :: At(s', i, x) <==> At(s, i, x) && !(i == id && x == Retrying)
  {
    hide MemberOf, Names;
    var s' := s.(mq := s.mq.(delayed := s.mq.delayed - {MemberOf(id, row)}));
    ZRemKeepsRest(s.mq, {MemberOf(id, row)});
    forall i, x ensures At(s', i, x) <==> At(s, i, x) && !(i == id && x == Retrying) {
      if i in s.db.rows && i != id {
        MembersDiffer(i, s.db.rows[i], id, row);
      }
    }
  }

  lemma RemovedJoins(s: State, p: nat, id: Uuid)
    requires RemoveEnabled(s, p) && s.processors[p].next <= s.processors[p].gone
    requires Names(s.processors[p].batch[s.processors[p].gone], id)
    ensures var proc := s.processors[p];
            var s' := s.(processors := s.processors[p := proc.(gone := proc.gone + 1)]);
            forall i, x :: At(s', i, x) <==> At(s, i, x) || (i == id && x == Popped(p, proc.gone))
  {
    hide MemberOf;
  }

  lemma ZRemKeepsRest(mq: Redis, members: set<string>)
    ensures var mq' := mq.(delayed := mq.delayed - members);
            && (forall q :: Log(mq', q) == Log(mq, q))
            && (forall q :: Cursor(mq', q) == Cursor(mq, q))
  {
  }

  lemma BatchNames(s: State, p: nat, i: nat)
    requires Agree(s) && p in s.processors && i < |s.processors[p].batch|
    ensures var m := s.processors[p].batch[i];
            var d := MC.Decode(m);
            && d.Some? && Names(m, d.value.id)
            && d.value.id in s.db.rows && m == MemberOf(d.value.id, s.db.rows[d.value.id])
  {
    hide MemberOf;
    assert MemberOk(s.db.rows, s.now, s.processors[p].batch[i]);
  }

  lemma RedeliverMoves(s: State, loc: Places, p: nat)
    requires Agree(s) && Located(s, loc) && ProcessorEnabled(s, p)
    ensures var proc := s.processors[p];
            var d := MC.Decode(proc.batch[proc.next]);
            && d.Some? && d.value.id in s.db.rows
            && Moves(s, ProcessorStep(s, p), d.value.id, Streamed(NextRef(s.mq, s.db.rows[d.value.id].priority)))
            && Where(loc, d.value.id) == Popped(p, proc.next)
  {
    hide MemberOf, RowsOk, RefsOk, WorkersOk, SchedulersOk, ClientsOk, EntriesOk, Redeliver;
    var s' := ProcessorStep(s, p);
    var proc := s.processors[p];
    var m := proc.batch[proc.next];
    assert MemberOk(s.db.rows, s.now, m);
    var id := MC.Decode(m).value.id;
    RedeliverIs(s.db.rows, s.now, s.mq, m);
    var e := Entry(id, ChannelText(s.db.rows[id].channel));
    AppendMoves(s, s.db.rows[id].priority, e);
    AtIs(s, loc, id, Popped(p, proc.next));
    var to := Streamed(NextRef(s.mq, s.db.rows[id].priority));
    forall i, x ensures At(s', i, x) <==> (i != id && At(s, i, x)) || (i == id && x == to && x != Gone) {
      assert At(s.(mq := s'.mq), i, x) <==> At(s, i, x) || (i == id && x == to);
    }
  }
}
