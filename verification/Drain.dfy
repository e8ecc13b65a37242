/**
 Progress: a measure over remaining attempts and carrier stages goes down whenever a carrier moves, and
 while some carrier exists there is always a way to move one; so the pipeline can always be drained.
 */
module Drain {
  import opened Domain
  import opened Table
  import opened Pipeline
  import opened Agreement
  import opened Carriers
  import opened Books
  import opened Conservation
  import opened Timeline
  import G = Guarantees
  import R = Races
  import MC = MemberCodec
  import Retry

  // ---------------------------------------------------------------- the measure

  function StageHeight(stage: Stage): nat {
    match stage
    case Claimed => 12
    case Routed => 11
    case Sending => 39
    case Sent(_) => 38
    case Counted(_) => 37
    case Recorded(_) => 36
    case Requeue(_) => 35
    case Delaying(_) => 34
    case Burying => 34
  }

  function Height(s: State, x: Carrier): nat {
    match x
    case WithClient(_, _) => 15
    case Waiting => 16
    case WithScheduler(_, _) => 15
    case Streamed(_) => 14
    case Inboxed(_, _) => 13
    case Working(w) => if w in s.workers && s.workers[w].pc.Busy? then StageHeight(s.workers[w].pc.stage) else 0
    case Retrying => 16
    case Popped(_, _) => 15
    case Gone => 0
  }

  function Remaining(db: Db, id: Uuid): int {
    if id in db.rows then Limit(db.rows[id]) - |HistoryOf(db, id).sends| else 0
  }

  /** How far notification id is from having no carrier: forty for every attempt left, plus the stage of this one. */
  function Rank(s: State, loc: Places, id: Uuid): int {
    if Where(loc, id) == Gone then 0 else 40 * Remaining(s.db, id) + Height(s, Where(loc, id))
  }

  lemma RankPositive(s: State, loc: Places, id: Uuid)
    requires Inv(s, loc) && id in s.db.rows
    ensures Rank(s, loc, id) >= 0
    ensures Where(loc, id) != Gone ==> Rank(s, loc, id) > 0
  {
    hide Agree, LoopsOk, MemberOf, HistoryOf, AttemptsOf, DeadCount, Spaced, Numbered, AllFailed, Ready;
    assert AccountAt(s, id, Where(loc, id));
    assert Where(loc, id) != Gone ==> At(s, id, Where(loc, id));
  }

  /** The notification is exactly where it was. */
  predicate Unmoved(s: State, loc: Places, s': State, loc': Places, id: Uuid) {
    && Where(loc', id) == Where(loc, id) && Height(s', Where(loc, id)) == Height(s, Where(loc, id))
    && Remaining(s'.db, id) == Remaining(s.db, id)
  }

  /** Every notification is where it was, or strictly closer to its end. */
  ghost predicate Lowers(s: State, loc: Places, s': State, loc': Places) {
    && (forall id :: id in s.db.rows <==> id in s'.db.rows)
    && forall id | id in s.db.rows :: Unmoved(s, loc, s', loc', id) || Rank(s', loc', id) < Rank(s, loc, id)
  }

  lemma LowersTransitive(s: State, loc: Places, s1: State, loc1: Places, s2: State, loc2: Places)
    requires Lowers(s, loc, s1, loc1) && Lowers(s1, loc1, s2, loc2)
    ensures Lowers(s, loc, s2, loc2)
    ensures forall id | id in s.db.rows && Rank(s1, loc1, id) < Rank(s, loc, id) ::
        Rank(s2, loc2, id) < Rank(s, loc, id)
    ensures forall id | id in s.db.rows && Rank(s2, loc2, id) < Rank(s1, loc1, id) ::
        Rank(s2, loc2, id) < Rank(s, loc, id)
  {
    hide Height, Remaining;
    forall id | id in s.db.rows
      ensures Unmoved(s, loc, s2, loc2, id) || Rank(s2, loc2, id) < Rank(s, loc, id)
      ensures Rank(s2, loc2, id) <= Rank(s1, loc1, id) <= Rank(s, loc, id)
    {
      assert Unmoved(s, loc, s1, loc1, id) || Rank(s1, loc1, id) < Rank(s, loc, id);
      assert Unmoved(s1, loc1, s2, loc2, id) || Rank(s2, loc2, id) < Rank(s1, loc1, id);
    }
  }

  // ---------------------------------------------------------------- every step lowers

  ghost predicate SameRemaining(db: Db, db': Db) {
    && (forall id :: id in db.rows <==> id in db'.rows)
    && forall id | id in db.rows :: Remaining(db', id) == Remaining(db, id)
  }

  ghost predicate SamePcs(s: State, s': State) {
    forall w | w in s.workers :: w in s'.workers && s'.workers[w].pc == s.workers[w].pc
  }

  lemma SameHeight(s: State, s': State, x: Carrier)
    requires SamePcs(s, s') && (x.Working? ==> x.w in s.workers)
    ensures Height(s', x) == Height(s, x)
  {
  }

  lemma Carried(s: State, loc: Places, id: Uuid)
    requires Inv(s, loc)
    ensures Where(loc, id) != Gone ==> At(s, id, Where(loc, id))
    ensures Where(loc, id).Working? ==> Where(loc, id).w in s.workers
  {
    hide Agree, Accounts, LoopsOk;
    assert At(s, id, Where(loc, id)) <==> Where(loc, id) != Gone;
  }

  /** No carrier moves. */
  lemma StayLowers(s: State, loc: Places, s': State)
    requires Inv(s, loc) && SameRemaining(s.db, s'.db) && SamePcs(s, s')
    ensures Lowers(s, loc, s', loc)
  {
    hide Remaining, Inv, Height;
    forall id | id in s.db.rows ensures Unmoved(s, loc, s', loc, id) {
      Carried(s, loc, id);
      SameHeight(s, s', Where(loc, id));
    }
  }

  /** One carrier moves down; no worker changes stage. */
  lemma MoveLowers(s: State, loc: Places, s': State, id: Uuid, to: Carrier)
    requires Inv(s, loc) && SameRemaining(s.db, s'.db) && SamePcs(s, s')
    requires Where(loc, id) != Gone && (to == Gone || Height(s', to) < Height(s, Where(loc, id)))
    requires id in s.db.rows
    ensures Lowers(s, loc, s', loc[id := to]) && Rank(s', loc[id := to], id) < Rank(s, loc, id)
  {
    hide Remaining, Inv, Height;
    RankPositive(s, loc, id);
    forall i | i in s.db.rows && i != id ensures Unmoved(s, loc, s', loc[id := to], i) {
      Carried(s, loc, i);
      SameHeight(s, s', Where(loc, i));
    }
  }

  /** Worker w does something about the notification it holds. */
  lemma WorkerLowers(s: State, loc: Places, s': State, w: nat, id: Uuid, to: Carrier)
    requires Inv(s, loc) && id in s.db.rows && Where(loc, id) != Gone
    requires forall i :: i in s.db.rows <==> i in s'.db.rows
    requires forall i | i in s.db.rows && i != id :: Remaining(s'.db, i) == Remaining(s.db, i)
    requires forall v | v in s.workers && v != w :: v in s'.workers && s'.workers[v] == s.workers[v]
    requires forall i | i != id :: Where(loc, i) != Working(w)
    requires to == Gone
             || 40 * Remaining(s'.db, id) + Height(s', to) < 40 * Remaining(s.db, id) + Height(s, Where(loc, id))
    ensures Lowers(s, loc, s', loc[id := to]) && Rank(s', loc[id := to], id) < Rank(s, loc, id)
  {
    hide Remaining, Inv;
    RankPositive(s, loc, id);
    forall i | i in s.db.rows && i != id ensures Unmoved(s, loc, s', loc[id := to], i) {
      Carried(s, loc, i);
    }
  }

  /** A status write changes nothing that the measure counts. */
  lemma WriteRemains(s: State, id: Uuid, status: Status)
    ensures SameRemaining(s.db, WriteStatus(s.db, id, status))
  {
  }

  lemma TickLowers(s: State, loc: Places, ms: nat)
    requires Inv(s, loc)
    ensures Inv(s.(now := s.now + ms), loc) && Lowers(s, loc, s.(now := s.now + ms), loc)
  {
    hide Inv;
    TickInv(s, loc, ms);
    StayLowers(s, loc, s.(now := s.now + ms));
  }

  lemma ClientLowers(s: State, loc: Places, c: nat) returns (loc': Places)
    requires Inv(s, loc) && ClientEnabled(s, c)
    ensures Inv(ClientStep(s, c), loc') && Lowers(s, loc, ClientStep(s, c), loc')
    ensures var item := s.clients[c].batch[s.clients[c].next];
            item.row.status == Pending && !s.clients[c].enqueued ==>
              item.id in s.db.rows && Rank(ClientStep(s, c), loc', item.id) < Rank(s, loc, item.id)
  {
    hide Inv, Remaining, Located;
    var item := s.clients[c].batch[s.clients[c].next];
    loc' := ClientInv(s, loc, c);
    WriteRemains(s, item.id, Queued);
    hide WriteStatus;
    if item.row.status == Pending && !s.clients[c].enqueued {
      OwedHasRow(s, loc, c);
      MoveLowers(s, loc, ClientStep(s, c), item.id, Streamed(NextRef(s.mq, item.row.priority)));
    } else {
      StayLowers(s, loc, ClientStep(s, c));
    }
  }

  lemma OwedHasRow(s: State, loc: Places, c: nat)
    requires Inv(s, loc) && ClientEnabled(s, c) && !s.clients[c].enqueued
    requires s.clients[c].batch[s.clients[c].next].row.status == Pending
    ensures var id := s.clients[c].batch[s.clients[c].next].id;
            id in s.db.rows && Where(loc, id) == WithClient(c, s.clients[c].next)
  {
    hide Accounts, LoopsOk;
    var item := s.clients[c].batch[s.clients[c].next];
    assert ClientItemOk(s.db.rows, s.now, item);
    AtIs(s, loc, item.id, WithClient(c, s.clients[c].next));
  }

  lemma CancelLowers(s: State, loc: Places, id: Uuid) returns (loc': Places)
    requires Inv(s, loc)
    ensures Inv(CancelStep(s, id), loc') && Lowers(s, loc, CancelStep(s, id), loc')
  {
    hide Inv, Remaining;
    loc' := CancelInv(s, loc, id);
    WriteRemains(s, id, Domain.Cancelled);
    if id in s.db.rows && s.db.rows[id].status == Scheduled {
      WaitingIs(s, loc, id);
      MoveLowers(s, loc, CancelStep(s, id), id, Gone);
    } else {
      StayLowers(s, loc, CancelStep(s, id));
    }
  }

  lemma WaitingIs(s: State, loc: Places, id: Uuid)
    requires Inv(s, loc) && id in s.db.rows && s.db.rows[id].status == Scheduled
    ensures Where(loc, id) == Waiting
  {
    hide Agree, Accounts, LoopsOk;
    AtIs(s, loc, id, Waiting);
  }

  lemma ClaimOneLowers(s: State, loc: Places, k: nat, id: Uuid) returns (loc': Places)
    requires Inv(s, loc) && ClaimOneEnabled(s, k, id) && s.schedulers[k].next == 0
    ensures Inv(ClaimOne(s, k, id), loc') && Lowers(s, loc, ClaimOne(s, k, id), loc')
    ensures Rank(ClaimOne(s, k, id), loc', id) < Rank(s, loc, id)
  {
    hide Inv;
    loc' := ClaimOneInv(s, loc, k, id);
    WaitingIs(s, loc, id);
    MoveLowers(s, loc, ClaimOne(s, k, id), id, WithScheduler(k, |s.schedulers[k].batch|));
  }

  lemma {:induction false} ClaimAllLowers(s: State, loc: Places, k: nat, ids: seq<Uuid>) returns (loc': Places)
    requires Inv(s, loc) && k in s.schedulers && s.schedulers[k].next == 0 && ClaimAllEnabled(s, k, ids)
    ensures Inv(ClaimAll(s, k, ids), loc') && Lowers(s, loc, ClaimAll(s, k, ids), loc')
    ensures ids != [] ==> Rank(ClaimAll(s, k, ids), loc', ids[0]) < Rank(s, loc, ids[0])
    decreases |ids|
  {
    hide Inv, Lowers, Rank;
    loc' := loc;
    if ids == [] {
      LowersReflexive(s, loc);
    } else {
      var s1 := ClaimOne(s, k, ids[0]);
      var loc1 := ClaimOneLowers(s, loc, k, ids[0]);
      loc' := ClaimAllLowers(s1, loc1, k, ids[1..]);
      LowersTransitive(s, loc, s1, loc1, ClaimAll(s, k, ids), loc');
    }
  }

  lemma LowersReflexive(s: State, loc: Places)
    ensures Lowers(s, loc, s, loc)
  {
  }

  lemma FetchLowers(s: State, loc: Places, k: nat, ids: seq<Uuid>) returns (loc': Places)
    requires Inv(s, loc) && FetchEnabled(s, k, ids)
    ensures Inv(FetchStep(s, k, ids), loc') && Lowers(s, loc, FetchStep(s, k, ids), loc')
    ensures ids != [] ==> Rank(FetchStep(s, k, ids), loc', ids[0]) < Rank(s, loc, ids[0])
  {
    hide Inv, Lowers, Rank, ClaimAll, Remaining;
    var s1 := ResetScheduler(s, k);
    ResetSchedulerInv(s, loc, k);
    StayLowers(s, loc, s1);
    loc' := ClaimAllLowers(s1, loc, k, ids);
    LowersTransitive(s, loc, s1, loc, FetchStep(s, k, ids), loc');
    SameRank(s, s1, loc);
  }

  lemma SameRank(s: State, s': State, loc: Places)
    requires s'.db == s.db && s'.workers == s.workers
    ensures forall id :: Rank(s', loc, id) == Rank(s, loc, id)
  {
  }

  lemma SchedulerLowers(s: State, loc: Places, k: nat) returns (loc': Places)
    requires Inv(s, loc) && SchedulerEnabled(s, k)
    ensures Inv(SchedulerStep(s, k), loc') && Lowers(s, loc, SchedulerStep(s, k), loc')
    ensures var id := s.schedulers[k].batch[s.schedulers[k].next].id;
            id in s.db.rows && Rank(SchedulerStep(s, k), loc', id) < Rank(s, loc, id)
  {
    hide Inv, Remaining;
    var item := s.schedulers[k].batch[s.schedulers[k].next];
    loc' := SchedulerInv(s, loc, k);
    ClaimedHasRow(s, loc, k);
    MoveLowers(s, loc, SchedulerStep(s, k), item.id, Streamed(NextRef(s.mq, item.row.priority)));
  }

  lemma ClaimedHasRow(s: State, loc: Places, k: nat)
    requires Inv(s, loc) && SchedulerEnabled(s, k)
    ensures var id := s.schedulers[k].batch[s.schedulers[k].next].id;
            id in s.db.rows && Where(loc, id) == WithScheduler(k, s.schedulers[k].next)
  {
    hide Accounts, LoopsOk;
    var item := s.schedulers[k].batch[s.schedulers[k].next];
    assert ClaimedItemOk(s.db.rows, s.now, item);
    AtIs(s, loc, item.id, WithScheduler(k, s.schedulers[k].next));
  }

  lemma HandOutLowers(s: State, loc: Places, w: nat, p: Priority) returns (loc': Places)
    requires Inv(s, loc) && w in s.workers && s.workers[w].next == 0 && s.workers[w].pc == Start
    ensures Inv(HandOut(s, w, p), loc') && Lowers(s, loc, HandOut(s, w, p), loc')
    ensures Cursor(s.mq, p) < |Log(s.mq, p)| ==>
              var id := Log(s.mq, p)[Cursor(s.mq, p)].id;
              id in s.db.rows && Rank(HandOut(s, w, p), loc', id) < Rank(s, loc, id)
    ensures forall q | q != p ::
        Log(HandOut(s, w, p).mq, q) == Log(s.mq, q) && Cursor(HandOut(s, w, p).mq, q) == Cursor(s.mq, q)
  {
    hide Inv, Remaining;
    loc' := HandOutInv(s, loc, w, p);
    if Cursor(s.mq, p) < |Log(s.mq, p)| {
      HeadHasRow(s, loc, p);
      MoveLowers(s, loc, HandOut(s, w, p), Log(s.mq, p)[Cursor(s.mq, p)].id, Inboxed(w, |s.workers[w].inbox|));
    } else {
      LowersReflexive(s, loc);
    }
  }

  lemma HeadHasRow(s: State, loc: Places, p: Priority)
    requires Inv(s, loc) && Cursor(s.mq, p) < |Log(s.mq, p)|
    ensures var id := Log(s.mq, p)[Cursor(s.mq, p)].id;
            id in s.db.rows && Where(loc, id) == Streamed(Ref(p, Cursor(s.mq, p)))
  {
    hide Accounts, LoopsOk;
    var e := Log(s.mq, p)[Cursor(s.mq, p)];
    assert EntryOk(s.db.rows, s.now, p, e);
    AtIs(s, loc, e.id, Streamed(Ref(p, Cursor(s.mq, p))));
  }

  // ---------------------------------------------------------------- the total

  ghost function Sum(s: State, loc: Places, ids: set<Uuid>): int {
    if ids == {} then 0
    else
      var id :| id in ids;
      Rank(s, loc, id) + Sum(s, loc, ids - {id})
  }

  lemma {:induction false} SumSplits(s: State, loc: Places, ids: set<Uuid>, id: Uuid)
    requires id in ids
    ensures Sum(s, loc, ids) == Rank(s, loc, id) + Sum(s, loc, ids - {id})
    decreases |ids|
  {
    hide Rank;
    var j :| j in ids && Sum(s, loc, ids) == Rank(s, loc, j) + Sum(s, loc, ids - {j});
    if j != id {
      SumSplits(s, loc, ids - {j}, id);
      SumSplits(s, loc, ids - {id}, j);
      assert ids - {j} - {id} == ids - {id} - {j};
    }
  }

  lemma {:induction false} SumLowers(s: State, loc: Places, s': State, loc': Places, ids: set<Uuid>)
    requires forall id | id in ids :: Rank(s', loc', id) <= Rank(s, loc, id)
    ensures Sum(s', loc', ids) <= Sum(s, loc, ids)
    ensures (exists id :: id in ids && Rank(s', loc', id) < Rank(s, loc, id)) ==> Sum(s', loc', ids) < Sum(s, loc, ids)
    decreases |ids|
  {
    hide Rank;
    if ids != {} {
      var id :| id in ids;
      if j :| j in ids && Rank(s', loc', j) < Rank(s, loc, j) {
        id := j;
      }
      SumSplits(s, loc, ids, id);
      SumSplits(s', loc', ids, id);
      SumLowers(s, loc, s', loc', ids - {id});
    }
  }

  /** The whole pipeline's distance from having no carrier. */
  ghost function Total(s: State, loc: Places): int {
    Sum(s, loc, s.db.rows.Keys)
  }

  lemma TotalLowers(s: State, loc: Places, s': State, loc': Places)
    requires Lowers(s, loc, s', loc')
    ensures Total(s', loc') <= Total(s, loc)
    ensures (exists id :: id in s.db.rows && Rank(s', loc', id) < Rank(s, loc, id)) ==> Total(s', loc') < Total(s, loc)
  {
    LowersRank(s, loc, s', loc');
    hide Lowers, Rank;
    SameKeys(s, loc, s', loc');
    SumLowers(s, loc, s', loc', s.db.rows.Keys);
  }

  lemma SameKeys(s: State, loc: Places, s': State, loc': Places)
    requires Lowers(s, loc, s', loc')
    ensures s'.db.rows.Keys == s.db.rows.Keys
  {
    assert forall id :: id in s.db.rows.Keys <==> id in s'.db.rows.Keys;
  }

  lemma {:induction false} SumNonNegative(s: State, loc: Places, ids: set<Uuid>)
    requires forall id | id in ids :: Rank(s, loc, id) >= 0
    ensures Sum(s, loc, ids) >= 0
    decreases |ids|
  {
    if ids != {} {
      var id :| id in ids && Sum(s, loc, ids) == Rank(s, loc, id) + Sum(s, loc, ids - {id});
      SumNonNegative(s, loc, ids - {id});
    }
  }

  lemma TotalNonNegative(s: State, loc: Places)
    requires Inv(s, loc)
    ensures Total(s, loc) >= 0
  {
    hide Inv, Rank;
    forall id | id in s.db.rows ensures Rank(s, loc, id) >= 0 {
      RankPositive(s, loc, id);
    }
    SumNonNegative(s, loc, s.db.rows.Keys);
  }

  lemma LowersRank(s: State, loc: Places, s': State, loc': Places)
    requires Lowers(s, loc, s', loc')
    ensures forall id | id in s.db.rows :: Rank(s', loc', id) <= Rank(s, loc, id)
  {
    hide Height, Remaining;
    forall id | id in s.db.rows ensures Rank(s', loc', id) <= Rank(s, loc, id) {
      assert Unmoved(s, loc, s', loc', id) || Rank(s', loc', id) < Rank(s, loc, id);
    }
  }

  lemma HandOutTotal(s: State, loc: Places, w: nat, p: Priority) returns (loc': Places)
    requires Inv(s, loc) && w in s.workers && s.workers[w].next == 0 && s.workers[w].pc == Start
    ensures Inv(HandOut(s, w, p), loc') && Lowers(s, loc, HandOut(s, w, p), loc')
    ensures Total(HandOut(s, w, p), loc') <= Total(s, loc)
    ensures Cursor(s.mq, p) < |Log(s.mq, p)| ==> Total(HandOut(s, w, p), loc') < Total(s, loc)
    ensures forall q | q != p ::
        Log(HandOut(s, w, p).mq, q) == Log(s.mq, q) && Cursor(HandOut(s, w, p).mq, q) == Cursor(s.mq, q)
    ensures var s' := HandOut(s, w, p); w in s'.workers && s'.workers[w].next == 0 && s'.workers[w].pc == Start
  {
    loc' := HandOutLowers(s, loc, w, p);
    hide Inv, Lowers, Rank, Total;
    TotalLowers(s, loc, HandOut(s, w, p), loc');
  }

  lemma ReadLowers(s: State, loc: Places, w: nat) returns (loc': Places)
    requires Inv(s, loc) && WorkerIdle(s, w)
    ensures Inv(ReadStep(s, w), loc') && Lowers(s, loc, ReadStep(s, w), loc')
    ensures (exists p :: Cursor(s.mq, p) < |Log(s.mq, p)|) ==> Total(ReadStep(s, w), loc') < Total(s, loc)
  {
    var s0 := ResetWorker(s, w);
    ResetWorkerInv(s, loc, w);
    hide Inv, Remaining, Rank, Height;
    StayLowers(s, loc, s0);
    hide Lowers, Total, HandOut;
    TotalLowers(s, loc, s0, loc);
    var loc1 := HandOutTotal(s0, loc, w, High);
    var s1 := HandOut(s0, w, High);
    var loc2 := HandOutTotal(s1, loc1, w, Normal);
    var s2 := HandOut(s1, w, Normal);
    loc' := HandOutTotal(s2, loc2, w, Low);
    LowersTransitive(s, loc, s0, loc, s1, loc1);
    LowersTransitive(s, loc, s1, loc1, s2, loc2);
    LowersTransitive(s, loc, s2, loc2, HandOut(s2, w, Low), loc');
    if p :| Cursor(s.mq, p) < |Log(s.mq, p)| {
      match p {
        case High =>
        case Normal =>
        case Low =>
      }
    }
  }

  // ---------------------------------------------------------------- workers and processors

  lemma LookUpLowers(s: State, loc: Places, w: nat) returns (loc': Places)
    requires Inv(s, loc) && WorkerEnabled(s, w) && s.workers[w].pc == Start
    ensures Inv(LookUp(s, w), loc') && Lowers(s, loc, LookUp(s, w), loc')
    ensures exists id :: id in s.db.rows && Rank(LookUp(s, w), loc', id) < Rank(s, loc, id)
  {
    hide Inv, Remaining, Located;
    var id := s.workers[w].inbox[s.workers[w].next].id;
    loc' := LookUpInv(s, loc, w);
    HandedIs(s, loc, w);
    WorkerLowers(s, loc, LookUp(s, w), w, id, if Terminal(s.db.rows[id].status) then Gone else Working(w));
  }

  lemma HandedIs(s: State, loc: Places, w: nat)
    requires Inv(s, loc) && WorkerEnabled(s, w) && s.workers[w].pc == Start
    ensures Where(loc, s.workers[w].inbox[s.workers[w].next].id) == Inboxed(w, s.workers[w].next)
    ensures forall i :: Where(loc, i) != Working(w)
  {
    hide Agree, Accounts, LoopsOk;
    AtIs(s, loc, s.workers[w].inbox[s.workers[w].next].id, Inboxed(w, s.workers[w].next));
    forall i ensures Where(loc, i) != Working(w) {
      assert At(s, i, Working(w)) <==> Where(loc, i) == Working(w);
    }
  }

  lemma AckLowers(s: State, loc: Places, w: nat)
    requires Inv(s, loc) && WorkerEnabled(s, w) && s.workers[w].pc == Acking
    ensures Inv(AckStep(s, w), loc) && Lowers(s, loc, AckStep(s, w), loc)
  {
    hide Inv, Remaining;
    AckInv(s, loc, w);
    NotHolding(s, loc, w);
    forall id | id in s.db.rows ensures Unmoved(s, loc, AckStep(s, w), loc, id) {
      Carried(s, loc, id);
    }
  }

  lemma NotHolding(s: State, loc: Places, w: nat)
    requires Inv(s, loc) && w in s.workers && !s.workers[w].pc.Busy?
    ensures forall i :: Where(loc, i) != Working(w)
  {
    hide Agree, Accounts, LoopsOk;
    forall i ensures Where(loc, i) != Working(w) {
      assert At(s, i, Working(w)) <==> Where(loc, i) == Working(w);
    }
  }

  lemma BusyLowers(s: State, loc: Places, w: nat, ok: bool) returns (loc': Places)
    requires Inv(s, loc) && WorkerEnabled(s, w) && s.workers[w].pc.Busy?
    ensures Inv(BusyStep(s, w, ok), loc') && Lowers(s, loc, BusyStep(s, w, ok), loc')
    ensures exists id :: id in s.db.rows && Rank(BusyStep(s, w, ok), loc', id) < Rank(s, loc, id)
  {
    hide Inv, Remaining, BusyStep, Located, Account, AttemptsOf, HistoryOf, DeadCount;
    var id := s.workers[w].pc.item.id;
    var s' := BusyStep(s, w, ok);
    loc' := BusyInv(s, loc, w, ok);
    BusyKnows(s, loc, w);
    LocatedOf(s, loc);
    HoldsOnly(s, loc, w, id);
    BusyRemains(s, w, ok);
    BusyWorkers(s, w, ok);
    var to := Where(loc', id);
    BusyHeight(s, w, ok, to);
    WorkerLowers(s, loc, s', w, id, to);
    assert loc[id := to] == loc';
  }

  lemma LocatedOf(s: State, loc: Places)
    requires Inv(s, loc)
    ensures Located(s, loc)
  {
  }

  /** Only notification id may have fewer attempts left, by `used`. */
  ghost predicate UsesUp(db: Db, db': Db, id: Uuid, used: nat) {
    && (forall i :: i in db.rows <==> i in db'.rows)
    && (forall i | i in db.rows && i != id :: Remaining(db', i) == Remaining(db, i))
    && Remaining(db', id) == Remaining(db, id) - used
  }

  /** A send uses up one remaining attempt of its notification; nothing else changes what remains. */
  lemma BusyRemains(s: State, w: nat, ok: bool)
    requires WorkerEnabled(s, w) && s.workers[w].pc.Busy? && s.workers[w].pc.item.id in s.db.rows
    ensures var pc := s.workers[w].pc;
            UsesUp(s.db, BusyStep(s, w, ok).db, pc.item.id,
                   if pc.stage == Routed && pc.item.row.channel in s.providers then 1 else 0)
  {
    CommandsRemain(s.db, s.workers[w].pc.item.id, s.now);
    hide WriteStatus, IncrementAttempt, InsertAttempt, RecordSend, RecordHandled, UsesUp, Hand, EnqueueDelayed,
      PushDead, Goto, Retry.Backoff;
    match s.workers[w].pc.stage {
      case Claimed =>
      case Routed =>
      case Sending =>
      case Sent(_) =>
      case Counted(_) =>
      case Recorded(_) =>
      case Requeue(_) =>
      case Delaying(_) =>
      case Burying =>
    }
  }

  lemma CommandsRemain(db: Db, id: Uuid, now: int)
    requires id in db.rows
    ensures UsesUp(db, db, id, 0)
    ensures forall status :: UsesUp(db, WriteStatus(db, id, status), id, 0)
    ensures UsesUp(db, IncrementAttempt(db, id), id, 0)
    ensures forall a :: UsesUp(db, InsertAttempt(db, id, a), id, 0)
    ensures UsesUp(db, RecordHandled(db, id, now), id, 0)
    ensures UsesUp(db, RecordSend(db, id, now), id, 1)
  {
    WritesRemain(db, id);
    RecordsRemain(db, id, now);
    hide WriteStatus, RecordSend, RecordHandled;
  }

  lemma RecordsRemain(db: Db, id: Uuid, now: int)
    requires id in db.rows
    ensures UsesUp(db, RecordHandled(db, id, now), id, 0)
    ensures UsesUp(db, RecordSend(db, id, now), id, 1)
  {
  }

  lemma WritesRemain(db: Db, id: Uuid)
    requires id in db.rows
    ensures forall status :: UsesUp(db, WriteStatus(db, id, status), id, 0)
  {
  }

  lemma BusyHeight(s: State, w: nat, ok: bool, to: Carrier)
    requires WorkerEnabled(s, w) && s.workers[w].pc.Busy?
    requires var pc := s.workers[w].pc;
             to == match pc.stage
                   case Routed => if pc.item.row.channel in s.providers then Working(w) else Gone
                   case Recorded(sent) => if sent then Gone else Working(w)
                   case Delaying(_) => Retrying
                   case Burying => Gone
                   case _ => Working(w)
    ensures var pc := s.workers[w].pc;
            to != Gone ==>
              Height(BusyStep(s, w, ok), to) <
              Height(s, Working(w)) + (if pc.stage == Routed && pc.item.row.channel in s.providers then 40 else 0)
  {
    hide WriteStatus, IncrementAttempt, InsertAttempt, RecordSend, RecordHandled, Hand, EnqueueDelayed, PushDead;
    match s.workers[w].pc.stage {
      case Claimed =>
      case Routed =>
      case Sending =>
      case Sent(_) =>
      case Counted(_) =>
      case Recorded(_) =>
      case Requeue(_) =>
      case Delaying(_) =>
      case Burying =>
    }
  }

  lemma StopLowers(s: State, loc: Places, w: nat)
    requires Inv(s, loc) && StopEnabled(s, w)
    ensures Inv(StopStep(s, w), loc) && Lowers(s, loc, StopStep(s, w), loc)
  {
    hide Inv, Remaining;
    StopInv(s, loc, w);
    StayLowers(s, loc, StopStep(s, w));
  }

  lemma RangeLowers(s: State, loc: Places, p: nat, at: int, batch: seq<string>)
    requires Inv(s, loc) && RangeEnabled(s, p, at, batch)
    ensures Inv(RangeStep(s, p, at, batch), loc) && Lowers(s, loc, RangeStep(s, p, at, batch), loc)
  {
    hide Inv, Remaining;
    RangeInv(s, loc, p, at, batch);
    StayLowers(s, loc, RangeStep(s, p, at, batch));
  }

  lemma RemoveOneLowers(s: State, loc: Places, p: nat) returns (loc': Places)
    requires Inv(s, loc) && RemoveEnabled(s, p)
    ensures Inv(RemoveOne(s, p), loc') && Lowers(s, loc, RemoveOne(s, p), loc')
    ensures exists id :: id in s.db.rows && Rank(RemoveOne(s, p), loc', id) < Rank(s, loc, id)
  {
    hide Inv, Remaining;
    loc' := RemoveOneInv(s, loc, p);
    var id := MC.Decode(s.processors[p].batch[s.processors[p].gone]).value.id;
    RetryingHasRow(s, loc, id);
    MoveLowers(s, loc, RemoveOne(s, p), id, Popped(p, s.processors[p].gone));
  }

  lemma RetryingHasRow(s: State, loc: Places, id: Uuid)
    requires Inv(s, loc) && Where(loc, id) == Retrying
    ensures id in s.db.rows
  {
    hide Agree, Accounts, LoopsOk, MemberOf;
    assert At(s, id, Retrying);
  }

  lemma {:induction false} RemoveLowers(s: State, loc: Places, p: nat) returns (loc': Places)
    requires Inv(s, loc) && RemoveEnabled(s, p)
    ensures Inv(RemoveStep(s, p), loc') && Lowers(s, loc, RemoveStep(s, p), loc')
    ensures exists id :: id in s.db.rows && Rank(RemoveStep(s, p), loc', id) < Rank(s, loc, id)
    decreases |s.processors[p].batch| - s.processors[p].gone
  {
    hide Inv, Lowers, Rank;
    var s1 := RemoveOne(s, p);
    var loc1 := RemoveOneLowers(s, loc, p);
    loc' := loc1;
    if RemoveEnabled(s1, p) {
      loc' := RemoveLowers(s1, loc1, p);
      LowersTransitive(s, loc, s1, loc1, RemoveStep(s1, p), loc');
    }
  }

  lemma ProcessorLowers(s: State, loc: Places, p: nat) returns (loc': Places)
    requires Inv(s, loc) && ProcessorEnabled(s, p)
    ensures Inv(ProcessorStep(s, p), loc') && Lowers(s, loc, ProcessorStep(s, p), loc')
    ensures exists id :: id in s.db.rows && Rank(ProcessorStep(s, p), loc', id) < Rank(s, loc, id)
  {
    hide Inv, Remaining, Redeliver;
    loc' := ProcessorInv(s, loc, p);
    var id := MC.Decode(s.processors[p].batch[s.processors[p].next]).value.id;
    MoveLowers(s, loc, ProcessorStep(s, p), id, Streamed(NextRef(s.mq, s.db.rows[id].priority)));
  }

  lemma WorkerStepLowers(s: State, loc: Places, w: nat, ok: bool) returns (loc': Places)
    requires Inv(s, loc) && WorkerEnabled(s, w)
    ensures Inv(WorkerStep(s, w, ok), loc') && Lowers(s, loc, WorkerStep(s, w, ok), loc')
    ensures s.workers[w].pc != Acking ==>
              exists id :: id in s.db.rows && Rank(WorkerStep(s, w, ok), loc', id) < Rank(s, loc, id)
  {
    hide Inv, Lowers, Rank, BusyStep, LookUp, AckStep;
    loc' := loc;
    match s.workers[w].pc {
      case Start => loc' := LookUpLowers(s, loc, w);
      case Busy(_, _) => loc' := BusyLowers(s, loc, w, ok);
      case Acking => AckLowers(s, loc, w);
    }
  }

  /** The steps that carry a notification on. */
  predicate Moving(s: State, step: Step) {
    match step
    case ClientNext(c) =>
      && c in s.clients && s.clients[c].next < |s.clients[c].batch|
      && s.clients[c].batch[s.clients[c].next].row.status == Pending && !s.clients[c].enqueued
    case Fetch(_, ids) => ids != []
    case SchedulerNext(_) => true
    case Read(_) => exists p: Priority :: Cursor(s.mq, p) < |Log(s.mq, p)|
    case WorkerNext(w, _) => w in s.workers && s.workers[w].pc != Acking
    case Remove(_) => true
    case ProcessorNext(_) => true
    case _ => false
  }

  /**
   Without new creates no step raises the measure, and every step that carries a notification on lowers it: each
   notification is left where it was or brought strictly closer to having no carrier.
   */
  lemma StepLowers(s: State, loc: Places, step: Step) returns (loc': Places)
    requires Inv(s, loc) && Enabled(s, step) && !step.Insert? && !step.Reclaim?
    ensures Inv(Apply(s, step), loc') && Lowers(s, loc, Apply(s, step), loc')
    ensures Total(Apply(s, step), loc') <= Total(s, loc)
    ensures Moving(s, step) ==> Total(Apply(s, step), loc') < Total(s, loc)
  {
    hide Inv, Lowers, Rank, Total, WorkerStep, ClientStep, CancelStep, ClaimAll, SchedulerStep, HandOut, StopStep,
      RangeStep, RemoveStep, ProcessorStep;
    loc' := loc;
    match step {
      case Tick(ms) => TickLowers(s, loc, ms);
      case ClientNext(c) => loc' := ClientLowers(s, loc, c);
      case Cancel(id) => loc' := CancelLowers(s, loc, id);
      case Fetch(k, ids) =>
        loc' := FetchLowers(s, loc, k, ids);
        if ids != [] {
          FetchedHasRow(s, k, ids);
        }
      case SchedulerNext(k) => loc' := SchedulerLowers(s, loc, k);
      case Read(w) => loc' := ReadLowers(s, loc, w);
      case WorkerNext(w, ok) => loc' := WorkerStepLowers(s, loc, w, ok);
      case Stop(w) => StopLowers(s, loc, w);
      case Range(p, at, batch) => RangeLowers(s, loc, p, at, batch);
      case Remove(p) => loc' := RemoveLowers(s, loc, p);
      case ProcessorNext(p) => loc' := ProcessorLowers(s, loc, p);
    }
    TotalLowers(s, loc, Apply(s, step), loc');
  }

  lemma FetchedHasRow(s: State, k: nat, ids: seq<Uuid>)
    requires FetchEnabled(s, k, ids) && ids != []
    ensures ids[0] in s.db.rows
  {
  }

  /** No client arrives and ClaimStale does not run; everything else may happen, in any order. */
  predicate NoNewWork(steps: seq<Step>) {
    forall i | 0 <= i < |steps| :: !steps[i].Insert? && !steps[i].Reclaim?
  }

  ghost function MoveCount(s: State, steps: seq<Step>): nat
    requires ValidRun(s, steps)
    decreases |steps|
  {
    if steps == [] then 0 else (if Moving(s, steps[0]) then 1 else 0) + MoveCount(Apply(s, steps[0]), steps[1..])
  }

  lemma {:induction false} MovesWithin(s: State, loc: Places, steps: seq<Step>)
    requires Inv(s, loc) && ValidRun(s, steps) && NoNewWork(steps)
    ensures MoveCount(s, steps) <= Total(s, loc)
    decreases |steps|
  {
    hide Inv, Total, Apply, Enabled, Moving;
    if steps == [] {
      TotalNonNegative(s, loc);
    } else {
      var loc' := StepLowers(s, loc, steps[0]);
      MovesWithin(Apply(s, steps[0]), loc', steps[1..]);
    }
  }

  /** From every reachable state there is a bound on how often a carrier can still move, whatever the interleaving. */
  lemma MovesAreBounded(s0: State, steps: seq<Step>) returns (bound: nat)
    requires G.RunA(s0, steps)
    ensures forall more | ValidRun(After(s0, steps), more) && NoNewWork(more) ::
              MoveCount(After(s0, steps), more) <= bound
  {
    hide After, Inv, Total, ValidRun, NoNewWork, MoveCount;
    var loc := G.ReachedInv(s0, steps);
    var s := After(s0, steps);
    TotalNonNegative(s, loc);
    bound := Total(s, loc);
    forall more | ValidRun(s, more) && NoNewWork(more) ensures MoveCount(s, more) <= bound {
      MovesWithin(s, loc, more);
    }
  }

  // ---------------------------------------------------------------- there is always a way on

  /** Somebody runs every loop: a scheduler, a delayed processor and a worker that has not stopped. */
  ghost predicate Staffed(s: State) {
    && s.schedulers.Keys != {} && s.processors.Keys != {}
    && exists w :: w in s.workers && !s.workers[w].stopped
  }

  /** The carrier is a message in the hands of a worker that has stopped. */
  predicate Stuck(s: State, x: Carrier) {
    match x
    case Inboxed(w, _) => w in s.workers && s.workers[w].stopped
    case Working(w) => w in s.workers && s.workers[w].stopped
    case _ => false
  }

  // How the provider answers, in whatever state it is asked.
  type Oracle = State -> bool

  ghost predicate SameStaff(s: State, s': State) {
    && s'.workers.Keys == s.workers.Keys && s'.schedulers.Keys == s.schedulers.Keys
    && s'.processors.Keys == s.processors.Keys
    && forall w | w in s.workers :: s'.workers[w].stopped == s.workers[w].stopped
  }

  /** A step of the pipeline's own loops: no client arrives, cancels or reclaims, and no worker stops. */
  predicate Plain(step: Step) {
    !step.Insert? && !step.Reclaim? && !step.Cancel? && !step.Stop?
  }

  lemma {:induction false} ClaimAllStaff(s: State, k: nat, ids: seq<Uuid>)
    requires ClaimAllEnabled(s, k, ids)
    ensures SameStaff(s, ClaimAll(s, k, ids))
    decreases |ids|
  {
    if ids != [] {
      ClaimAllStaff(ClaimOne(s, k, ids[0]), k, ids[1..]);
    }
  }

  lemma ReadStaff(s: State, w: nat)
    requires WorkerIdle(s, w)
    ensures SameStaff(s, ReadStep(s, w))
  {
    hide HandOut;
    var s0 := ResetWorker(s, w);
    HandOutStaff(s0, w, High);
    HandOutStaff(HandOut(s0, w, High), w, Normal);
    HandOutStaff(HandOut(HandOut(s0, w, High), w, Normal), w, Low);
  }

  lemma HandOutStaff(s: State, w: nat, p: Priority)
    requires w in s.workers
    ensures w in HandOut(s, w, p).workers && SameStaff(s, HandOut(s, w, p))
  {
  }

  lemma WorkerStaff(s: State, w: nat, ok: bool)
    requires WorkerEnabled(s, w)
    ensures SameStaff(s, WorkerStep(s, w, ok))
  {
    if s.workers[w].pc.Busy? {
      BusyWorkers(s, w, ok);
      hide BusyStep;
    }
  }

  lemma StepStaff(s: State, step: Step)
    requires Enabled(s, step) && Plain(step)
    ensures SameStaff(s, Apply(s, step))
  {
    hide ClaimAll, ReadStep, WorkerStep, RemoveStep, Redeliver, WriteStatus;
    match step {
      case Fetch(k, ids) => ClaimAllStaff(ResetScheduler(s, k), k, ids);
      case Read(w) => ReadStaff(s, w);
      case WorkerNext(w, ok) => WorkerStaff(s, w, ok);
      case Remove(p) => G.RemovesBatch(s, p);
      case _ =>
    }
  }

  /** A run of the pipeline's own loops in which the provider answers as the oracle says. */
  ghost predicate Follows(s: State, steps: seq<Step>, answer: Oracle)
    requires ValidRun(s, steps)
    decreases |steps|
  {
    steps == [] || (Fits(s, steps[0], answer) && Follows(Apply(s, steps[0]), steps[1..], answer))
  }

  predicate Fits(s: State, step: Step, answer: Oracle) {
    Plain(step) && (step.WorkerNext? ==> step.ok == answer(s))
  }

  lemma {:induction false} FollowsJoin(s: State, a: seq<Step>, b: seq<Step>, answer: Oracle)
    requires ValidRun(s, a) && ValidRun(After(s, a), b) && Follows(s, a, answer) && Follows(After(s, a), b, answer)
    ensures ValidRun(s, a + b) && Follows(s, a + b, answer)
    decreases |a|
  {
    hide Apply, Enabled, Fits;
    RunJoin(s, a, b);
    if a == [] {
      assert a + b == b;
    } else {
      assert (a + b)[1..] == a[1..] + b;
      FollowsJoin(Apply(s, a[0]), a[1..], b, answer);
    }
  }

  lemma {:induction false} FollowsPlain(s: State, steps: seq<Step>, answer: Oracle)
    requires ValidRun(s, steps) && Follows(s, steps, answer)
    ensures forall i | 0 <= i < |steps| :: Plain(steps[i])
    decreases |steps|
  {
    hide Apply, Enabled;
    if steps != [] {
      FollowsPlain(Apply(s, steps[0]), steps[1..], answer);
    }
  }

  /** Such a run that brings the pipeline closer to having no carrier. */
  ghost predicate Advances(s: State, loc: Places, steps: seq<Step>, loc': Places, answer: Oracle) {
    && ValidRun(s, steps) && Follows(s, steps, answer)
    && Inv(After(s, steps), loc') && Staffed(After(s, steps))
    && Total(After(s, steps), loc') < Total(s, loc)
  }

  lemma MoveOn(s: State, loc: Places, step: Step, answer: Oracle) returns (steps: seq<Step>, loc': Places)
    requires Inv(s, loc) && Staffed(s) && Enabled(s, step) && Fits(s, step, answer) && Moving(s, step)
    ensures Advances(s, loc, steps, loc', answer)
  {
    hide Inv, Total, Apply, Enabled, Moving, After, ValidRun, Follows, Staffed;
    steps := [step];
    loc' := StepLowers(s, loc, step);
    StaysStaffed(s, step);
    FollowsOne(s, step, answer);
  }

  lemma FollowsOne(s: State, step: Step, answer: Oracle)
    requires Enabled(s, step) && Fits(s, step, answer)
    ensures ValidRun(s, [step]) && After(s, [step]) == Apply(s, step) && Follows(s, [step], answer)
  {
    hide Enabled, Apply, Fits;
    OneStep(s, step);
    assert [step][1..] == [];
    assert Follows(Apply(s, step), [], answer);
  }

  lemma StaysStaffed(s: State, step: Step)
    requires Staffed(s) && Enabled(s, step) && Plain(step)
    ensures Staffed(Apply(s, step))
  {
    hide Apply, Enabled;
    StepStaff(s, step);
    var w :| w in s.workers && !s.workers[w].stopped;
    assert w in Apply(s, step).workers && !Apply(s, step).workers[w].stopped;
  }

  /** A preparatory step, and then a run that advances. */
  lemma ThenAdvance(s: State, loc: Places, step: Step, loc1: Places, rest: seq<Step>, loc': Places, answer: Oracle)
    returns (steps: seq<Step>)
    requires Enabled(s, step) && Fits(s, step, answer) && Total(Apply(s, step), loc1) <= Total(s, loc)
    requires Advances(Apply(s, step), loc1, rest, loc', answer)
    ensures Advances(s, loc, steps, loc', answer)
  {
    hide Inv, Total, Apply, Enabled, After, Follows, ValidRun, Staffed, Fits;
    steps := [step] + rest;
    FirstStep(s, step, rest);
    FollowsOne(s, step, answer);
    FollowsJoin(s, [step], rest, answer);
  }

  lemma Prepared(s: State, loc: Places, step: Step) returns (loc': Places)
    requires Inv(s, loc) && Staffed(s) && Enabled(s, step) && Plain(step)
    ensures Inv(Apply(s, step), loc') && Staffed(Apply(s, step)) && Total(Apply(s, step), loc') <= Total(s, loc)
  {
    hide Inv, Total, Apply, Enabled, Staffed;
    loc' := StepLowers(s, loc, step);
    StaysStaffed(s, step);
  }

  lemma {:induction false} ClientAdvances(s: State, loc: Places, c: nat, i: nat, answer: Oracle)
    returns (steps: seq<Step>, loc': Places)
    requires Inv(s, loc) && Staffed(s) && c in s.clients && Owes(s.clients[c], i)
    ensures Advances(s, loc, steps, loc', answer)
    decreases i - s.clients[c].next
  {
    hide Inv, Total, Staffed, Advances, WriteStatus, EnqueueItem;
    var step := ClientNext(c);
    assert Enabled(s, step);
    if Moving(s, step) {
      steps, loc' := MoveOn(s, loc, step, answer);
    } else {
      var loc1 := Prepared(s, loc, step);
      var rest;
      InvClient(s, loc, c);
      ClientKeepsOwing(s, c, i);
      rest, loc' := ClientAdvances(Apply(s, step), loc1, c, i, answer);
      steps := ThenAdvance(s, loc, step, loc1, rest, loc', answer);
    }
  }

  lemma InvClient(s: State, loc: Places, c: nat)
    requires Inv(s, loc) && c in s.clients
    ensures ClientOk(s.clients[c])
  {
    hide Agree, Accounts, Located;
  }

  lemma ClientKeepsOwing(s: State, c: nat, i: nat)
    requires ClientEnabled(s, c) && ClientOk(s.clients[c]) && Owes(s.clients[c], i)
    requires s.clients[c].batch[s.clients[c].next].row.status != Pending || s.clients[c].enqueued
    ensures var s' := ClientStep(s, c);
            c in s'.clients && Owes(s'.clients[c], i) && s.clients[c].next < s'.clients[c].next
  {
    hide WriteStatus;
  }

  lemma WorkerAdvances(s: State, loc: Places, w: nat, answer: Oracle) returns (steps: seq<Step>, loc': Places)
    requires Inv(s, loc) && Staffed(s) && w in s.workers && !s.workers[w].stopped
    requires s.workers[w].next < |s.workers[w].inbox|
             || exists p: Priority :: Cursor(s.mq, p) < |Log(s.mq, p)|
    requires s.workers[w].pc == Acking && s.workers[w].next + 1 == |s.workers[w].inbox| ==>
               exists p: Priority :: Cursor(s.mq, p) < |Log(s.mq, p)|
    ensures Advances(s, loc, steps, loc', answer)
    decreases |s.workers[w].inbox| - s.workers[w].next
  {
    hide Inv, Total, Advances;
    IdleOrEnabled(s, loc, w);
    if WorkerEnabled(s, w) {
      var step := WorkerNext(w, answer(s));
      if s.workers[w].pc != Acking {
        steps, loc' := MoveOn(s, loc, step, answer);
      } else {
        var loc1 := Prepared(s, loc, step);
        AckKeepsQueues(s, w, answer(s));
        var rest;
        rest, loc' := WorkerAdvances(AckStep(s, w), loc1, w, answer);
        steps := ThenAdvance(s, loc, step, loc1, rest, loc', answer);
      }
    } else {
      steps, loc' := MoveOn(s, loc, Read(w), answer);
    }
  }

  lemma IdleOrEnabled(s: State, loc: Places, w: nat)
    requires Inv(s, loc) && w in s.workers && !s.workers[w].stopped
    ensures WorkerEnabled(s, w) || WorkerIdle(s, w)
  {
    hide Accounts, LoopsOk, Located;
    assert WorkerOk(s.db.rows, s.mq, s.workers[w]);
  }

  lemma AckKeepsQueues(s: State, w: nat, ok: bool)
    requires WorkerEnabled(s, w) && s.workers[w].pc == Acking
    ensures var s' := AckStep(s, w);
            && Apply(s, WorkerNext(w, ok)) == s' && w in s'.workers && s'.workers[w].pc == Start
            && s'.workers[w].inbox == s.workers[w].inbox && s'.workers[w].next == s.workers[w].next + 1
            && forall p :: Cursor(s'.mq, p) == Cursor(s.mq, p) && Log(s'.mq, p) == Log(s.mq, p)
  {
  }

  lemma {:induction false} LowestOf(delayed: map<string, int>, due: set<string>) returns (m: string)
    requires due != {} && forall x | x in due :: x in delayed
    ensures m in due && forall x | x in due :: delayed[m] <= delayed[x]
    decreases |due|
  {
    m :| m in due;
    if due != {m} {
      var rest := LowestOf(delayed, due - {m});
      if delayed[rest] < delayed[m] {
        m := rest;
      }
    }
  }

  /** A range over a set with due members finds some of them. */
  lemma {:induction false} ExtendBatch(delayed: map<string, int>, at: int, limit: nat, batch: seq<string>)
    returns (full: seq<string>)
    requires |batch| <= limit
    requires forall i | 0 <= i < |batch| :: batch[i] in delayed && delayed[batch[i]] <= at
    requires forall i, j | 0 <= i < j < |batch| :: batch[i] != batch[j]
    requires forall m | m in delayed && delayed[m] <= at && m !in batch ::
               forall i | 0 <= i < |batch| :: delayed[batch[i]] <= delayed[m]
    ensures DueBatch(delayed, at, limit, full) && batch <= full
    decreases limit - |batch|
  {
    var due := set m | m in delayed && delayed[m] <= at && m !in batch;
    if |batch| == limit || due == {} {
      full := batch;
      assert forall m | m in delayed && delayed[m] <= at && m !in batch :: m in due;
    } else {
      var m := LowestOf(delayed, due);
      forall x | x in delayed && delayed[x] <= at && x !in batch + [m]
        ensures forall i | 0 <= i < |batch + [m]| :: delayed[(batch + [m])[i]] <= delayed[x]
      {
        assert x in due;
      }
      full := ExtendBatch(delayed, at, limit, batch + [m]);
    }
  }

  lemma SomeBatch(delayed: map<string, int>, at: int, limit: nat, m: string) returns (batch: seq<string>)
    requires limit > 0 && m in delayed && delayed[m] <= at
    ensures DueBatch(delayed, at, limit, batch) && batch != []
  {
    batch := ExtendBatch(delayed, at, limit, []);
  }

  lemma RetryAdvances(s: State, loc: Places, p: nat, m: string, answer: Oracle) returns (steps: seq<Step>, loc': Places)
    requires Inv(s, loc) && Staffed(s) && p in s.processors && m in s.mq.delayed
    ensures Advances(s, loc, steps, loc', answer)
  {
    hide Inv, Total, Staffed, Advances, DueBatch;
    ProcessorPlace(s, loc, p);
    if RemoveEnabled(s, p) {
      steps, loc' := MoveOn(s, loc, Remove(p), answer);
    } else if ProcessorEnabled(s, p) {
      steps, loc' := MoveOn(s, loc, ProcessorNext(p), answer);
    } else {
      var tick := Tick(if s.mq.delayed[m] <= s.now then 0 else s.mq.delayed[m] - s.now);
      var s1 := Apply(s, tick);
      var loc1 := Prepared(s, loc, tick);
      var batch := SomeBatch(s.mq.delayed, s1.now, POP_LIMIT, m);
      var range := Range(p, s1.now, batch);
      assert Enabled(s1, range);
      var loc2 := Prepared(s1, loc1, range);
      var rest;
      rest, loc' := MoveOn(Apply(s1, range), loc2, Remove(p), answer);
      rest := ThenAdvance(s1, loc1, range, loc2, rest, loc', answer);
      steps := ThenAdvance(s, loc, tick, loc1, rest, loc', answer);
    }
  }

  lemma ProcessorPlace(s: State, loc: Places, p: nat)
    requires Inv(s, loc) && p in s.processors
    ensures RemoveEnabled(s, p) || ProcessorEnabled(s, p) || ProcessorIdle(s, p)
  {
    hide Agree, Accounts, Located;
    assert ProcessorOk(s.mq.delayed, s.now, s.processors[p]);
  }

  lemma WaitingAdvances(s: State, loc: Places, k: nat, id: Uuid, answer: Oracle)
    returns (steps: seq<Step>, loc': Places)
    requires Inv(s, loc) && Staffed(s) && k in s.schedulers && id in s.db.rows && s.db.rows[id].status == Scheduled
    ensures Advances(s, loc, steps, loc', answer)
  {
    hide Inv, Total, Staffed, Advances;
    SchedulerPlace(s, loc, k, id);
    if SchedulerEnabled(s, k) {
      steps, loc' := MoveOn(s, loc, SchedulerNext(k), answer);
    } else {
      var due := s.db.rows[id].scheduledAt.value;
      var tick := Tick(if due <= s.now then 0 else due - s.now);
      var s1 := Apply(s, tick);
      var loc1 := Prepared(s, loc, tick);
      ClaimJust(ResetScheduler(s1, k), k, id);
      assert Enabled(s1, Fetch(k, [id]));
      var rest;
      rest, loc' := MoveOn(s1, loc1, Fetch(k, [id]), answer);
      steps := ThenAdvance(s, loc, tick, loc1, rest, loc', answer);
    }
  }

  lemma ClaimJust(s: State, k: nat, id: Uuid)
    requires ClaimOneEnabled(s, k, id)
    ensures ClaimAllEnabled(s, k, [id])
  {
    assert [id][1..] == [] && [id][0] == id;
    assert ClaimAllEnabled(ClaimOne(s, k, id), k, []);
  }

  lemma SchedulerPlace(s: State, loc: Places, k: nat, id: Uuid)
    requires Inv(s, loc) && k in s.schedulers && id in s.db.rows && s.db.rows[id].status == Scheduled
    ensures SchedulerEnabled(s, k) || SchedulerIdle(s, k)
    ensures s.db.rows[id].scheduledAt.Some?
  {
    hide Accounts, Located;
    assert RowOk(s.db.rows[id], HistoryOf(s.db, id));
  }

  /** Whatever carries a notification, other than a stopped worker, the loops can carry some notification on. */
  lemma CarrierAdvances(s: State, loc: Places, id: Uuid, answer: Oracle) returns (steps: seq<Step>, loc': Places)
    requires Inv(s, loc) && Staffed(s) && Where(loc, id) != Gone && !Stuck(s, Where(loc, id))
    ensures Advances(s, loc, steps, loc', answer)
  {
    hide Inv, Total, Advances, MemberOf;
    Carried(s, loc, id);
    match Where(loc, id) {
      case WithClient(c, i) => steps, loc' := ClientAdvances(s, loc, c, i, answer);
      case Waiting =>
        var k :| k in s.schedulers.Keys;
        steps, loc' := WaitingAdvances(s, loc, k, id, answer);
      case WithScheduler(k, i) => steps, loc' := MoveOn(s, loc, SchedulerNext(k), answer);
      case Streamed(ref) =>
        var w :| w in s.workers && !s.workers[w].stopped;
        steps, loc' := WorkerAdvances(s, loc, w, answer);
      case Inboxed(w, i) => steps, loc' := WorkerAdvances(s, loc, w, answer);
      case Working(w) => steps, loc' := HolderAdvances(s, loc, w, answer);
      case Retrying =>
        var p :| p in s.processors.Keys;
        steps, loc' := RetryAdvances(s, loc, p, MemberOf(id, s.db.rows[id]), answer);
      case Popped(p, i) => steps, loc' := PoppedAdvances(s, loc, p, i, answer);
    }
  }

  lemma HolderAdvances(s: State, loc: Places, w: nat, answer: Oracle) returns (steps: seq<Step>, loc': Places)
    requires Inv(s, loc) && Staffed(s) && w in s.workers && !s.workers[w].stopped && s.workers[w].pc.Busy?
    ensures Advances(s, loc, steps, loc', answer)
  {
    hide Inv, Total, Advances;
    IdleOrEnabled(s, loc, w);
    steps, loc' := MoveOn(s, loc, WorkerNext(w, answer(s)), answer);
  }

  lemma PoppedAdvances(s: State, loc: Places, p: nat, i: nat, answer: Oracle) returns (steps: seq<Step>, loc': Places)
    requires Inv(s, loc) && Staffed(s) && p in s.processors && s.processors[p].next <= i < s.processors[p].gone
    ensures Advances(s, loc, steps, loc', answer)
  {
    hide Inv, Total, Advances, Staffed;
    ProcessorPlace(s, loc, p);
    steps, loc' := MoveOn(s, loc, if RemoveEnabled(s, p) then Remove(p) else ProcessorNext(p), answer);
  }

  lemma {:induction false} Drains(s: State, loc: Places, answer: Oracle) returns (steps: seq<Step>, loc': Places)
    requires Inv(s, loc) && Staffed(s)
    ensures ValidRun(s, steps) && Follows(s, steps, answer)
    ensures Inv(After(s, steps), loc')
    ensures forall id :: Where(loc', id) == Gone || Stuck(After(s, steps), Where(loc', id))
    decreases Total(s, loc)
  {
    hide Inv, Total, Staffed, Stuck, Fits;
    TotalNonNegative(s, loc);
    if id :| Where(loc, id) != Gone && !Stuck(s, Where(loc, id)) {
      var first, loc1 := CarrierAdvances(s, loc, id, answer);
      var s1 := After(s, first);
      TotalNonNegative(s1, loc1);
      var rest;
      rest, loc' := Drains(s1, loc1, answer);
      steps := first + rest;
      RunJoin(s, first, rest);
      FollowsJoin(s, first, rest, answer);
    } else {
      steps, loc' := [], loc;
    }
  }

  ghost predicate HasCarrier(s: State, id: Uuid) {
    exists x :: At(s, id, x)
  }

  ghost predicate HeldByStopped(s: State, id: Uuid) {
    exists x :: At(s, id, x) && Stuck(s, x)
  }

  ghost predicate IsSettled(s: State, id: Uuid)
    requires id in s.db.rows
  {
    Settled(s.providers, s.db.rows[id], AttemptsOf(s.db, id), DeadCount(s.mq, id), HistoryOf(s.db, id))
  }

  /**
   From every state of a configuration A run in which every loop is staffed, whichever workers have stopped and
   however the provider will answer, the loops alone can bring every notification to exactly one outcome with
   nothing left to carry, except those whose message a stopped worker holds.
   */
  lemma EverythingCanSettle(s0: State, steps: seq<Step>, answer: Oracle) returns (more: seq<Step>)
    requires G.RunA(s0, steps) && Staffed(After(s0, steps))
    ensures ValidRun(After(s0, steps), more) && Follows(After(s0, steps), more, answer)
    ensures var s' := After(After(s0, steps), more);
            && (forall id :: HasCarrier(s', id) <==> HeldByStopped(s', id))
            && (forall id | id in s'.db.rows && !HeldByStopped(s', id) :: IsSettled(s', id))
  {
    hide After, Inv, Staffed, HasCarrier, HeldByStopped, IsSettled, Follows;
    var loc := G.ReachedInv(s0, steps);
    var loc';
    more, loc' := Drains(After(s0, steps), loc, answer);
    AllSettled(After(After(s0, steps), more), loc');
  }

  lemma AllSettled(s: State, loc: Places)
    requires Inv(s, loc) && forall id :: Where(loc, id) == Gone || Stuck(s, Where(loc, id))
    ensures forall id :: HasCarrier(s, id) <==> HeldByStopped(s, id)
    ensures forall id | id in s.db.rows && !HeldByStopped(s, id) :: IsSettled(s, id)
  {
    hide Agree, LoopsOk, At, Settled, AttemptsOf, DeadCount, HistoryOf, Spaced, Numbered, Stuck;
    forall id ensures HasCarrier(s, id) <==> HeldByStopped(s, id) {
      if x :| At(s, id, x) {
        AtIs(s, loc, id, x);
      }
    }
    forall id | id in s.db.rows && !HeldByStopped(s, id) ensures IsSettled(s, id) {
      assert At(s, id, Where(loc, id)) <==> Where(loc, id) != Gone;
      assert AccountAt(s, id, Where(loc, id));
    }
  }

  // ---------------------------------------------------------------- exactly which notifications can settle

  lemma StoppedBefore(s: State, step: Step, w: nat)
    requires Enabled(s, step) && Plain(step) && w in Apply(s, step).workers && Apply(s, step).workers[w].stopped
    ensures w in s.workers && s.workers[w].stopped && s.workers[w] == Apply(s, step).workers[w]
  {
    hide Apply, Enabled;
    StepStaff(s, step);
    assert w in s.workers.Keys;
    R.StoppedStays(s, step, w);
  }

  /** The loops stop no worker and give a stopped one nothing. */
  lemma {:induction false} HeldBefore(s: State, steps: seq<Step>, answer: Oracle, id: Uuid)
    requires ValidRun(s, steps) && Follows(s, steps, answer) && HeldByStopped(After(s, steps), id)
    ensures HeldByStopped(s, id)
    decreases |steps|
  {
    hide Apply, Enabled, At, HeldByStopped;
    if steps != [] {
      var s1 := Apply(s, steps[0]);
      HeldBefore(s1, steps[1..], answer, id);
      HeldOneBefore(s, steps[0], id);
    }
  }

  lemma HeldOneBefore(s: State, step: Step, id: Uuid)
    requires Enabled(s, step) && Plain(step) && HeldByStopped(Apply(s, step), id)
    ensures HeldByStopped(s, id)
  {
    hide Apply, Enabled, At;
    var x :| At(Apply(s, step), id, x) && Stuck(Apply(s, step), x);
    var w := match x case Inboxed(v, _) => v case Working(v) => v case _ => 0;
    StoppedBefore(s, step, w);
    R.HeldStays(Apply(s, step), s, id, x, w);
  }

  /** However the provider will answer, a notification that no stopped worker holds can be brought to its outcome. */
  lemma CanSettle(s0: State, steps: seq<Step>, id: Uuid, answer: Oracle) returns (more: seq<Step>)
    requires G.RunA(s0, steps) && Staffed(After(s0, steps)) && id in After(s0, steps).db.rows
    requires !HeldByStopped(After(s0, steps), id)
    ensures ValidRun(After(s0, steps), more) && Follows(After(s0, steps), more, answer)
    ensures var s' := After(After(s0, steps), more); !HasCarrier(s', id) && id in s'.db.rows && IsSettled(s', id)
  {
    hide After, ValidRun, Staffed, HasCarrier, HeldByStopped, IsSettled, Follows;
    more := EverythingCanSettle(s0, steps, answer);
    var s := After(s0, steps);
    if HeldByStopped(After(s, more), id) {
      HeldBefore(s, more, answer, id);
    }
    RunGrows(s, more);
  }

  /**
   Without ClaimStale and with every loop staffed, a notification can still settle exactly when no stopped worker
   holds its message.
   */
  lemma CanSettleIff(s0: State, steps: seq<Step>, id: Uuid)
    requires G.RunA(s0, steps) && Staffed(After(s0, steps)) && id in After(s0, steps).db.rows
    ensures !HeldByStopped(After(s0, steps), id) <==>
              exists more :: SettlesBy(After(s0, steps), more, id)
  {
    hide After, ValidRun, Staffed, HasCarrier, HeldByStopped, IsSettled, Follows;
    var s := After(s0, steps);
    if !HeldByStopped(s, id) {
      var more := CanSettle(s0, steps, id, _ => true);
      FollowsPlain(s, more, _ => true);
      assert SettlesBy(s, more, id);
    }
    if more :| SettlesBy(s, more, id) {
      HeldNeverSettles(s0, steps, more, id);
    }
  }

  ghost predicate SettlesBy(s: State, more: seq<Step>, id: Uuid) {
    ValidRun(s, more) && NoReclaim(more) && !HasCarrier(After(s, more), id)
  }

  lemma HeldNeverSettles(s0: State, steps: seq<Step>, more: seq<Step>, id: Uuid)
    requires G.RunA(s0, steps) && id in After(s0, steps).db.rows && SettlesBy(After(s0, steps), more, id)
    ensures !HeldByStopped(After(s0, steps), id)
  {
    hide After, ValidRun, At;
    var s := After(s0, steps);
    if x :| At(s, id, x) && Stuck(s, x) {
      var w := match x case Inboxed(v, _) => v case Working(v) => v case _ => 0;
      R.StoppedWorkerStrands(s0, steps, more, id, x, w);
    }
  }
}
