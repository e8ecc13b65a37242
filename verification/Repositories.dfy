/** internal/repository/notification.go: the statements, on the tables as they stand in the database. */
module Repositories {
  import opened Domain
  import opened Table
  import P = Pipeline
  import opened Alone

  datatype CancelError = NotFound | CannotCancel

  class NotificationRepository {
    var rows: Rows
    var attempts: map<Uuid, seq<Attempt>>
    ghost var hist: map<Uuid, P.History>

    ghost function View(): P.Db
      reads this
    {
      P.Db(rows, attempts, hist)
    }

    constructor ()
      ensures View() == P.Db(map[], map[], map[])
    {
      rows, attempts, hist := map[], map[], map[];
    }

    method Create(n: New) returns (error: Option<InsertError>)
      modifies this
      ensures match Insert(old(rows), n)
              case Stored(rows') => error == None && rows == rows' && View() == P.AddRow(old(View()), n)
              case Rejected(e) => error == Some(e) && View() == old(View())
    {
      if n.id in rows {
        return Some(Duplicate);
      }
      if KeyTaken(rows, n.key) {
        return Some(IdempotencyConflict);
      }
      rows := rows[n.id := RowOf(n)];
      attempts := attempts[n.id := []];
      hist := hist[n.id := P.History([], [], {}, 0)];
      return None;
    }

    /** One transaction: every row, or none; and every row exactly when no id or non-empty key is taken or repeated. */
    method CreateBatch(news: seq<New>) returns (error: Option<InsertError>)
      modifies this
      ensures error == if Insertable(old(rows), news) then None else Some(IdempotencyConflict)
      ensures View() == if error.None? then AddRows(old(View()), news) else old(View())
    {
      BatchAllOrNone(rows, news);
      hide Insertable, InsertAll, KeyTaken, AddRows;
      ghost var db := View();
      var tx, txAttempts := rows, attempts;
      var i := 0;
      assert news[0..] == news;
      while i < |news|
        invariant 0 <= i <= |news| && View() == old(View())
        invariant db.rows == tx && db.attempts == txAttempts
        invariant InsertAll(old(rows), news) == InsertAll(tx, news[i..])
        invariant AddRows(old(View()), news) == AddRows(db, news[i..])
      {
        var n := news[i];
        NextInsert(db, news, i);
        if n.id in tx || KeyTaken(tx, n.key) {
          return Some(IdempotencyConflict);
        }
        tx := tx[n.id := RowOf(n)];
        txAttempts := txAttempts[n.id := []];
        db := P.AddRow(db, n);
        i := i + 1;
      }
      NoMoreInserts(db, news[i..]);
      rows, attempts, hist := tx, txAttempts, db.hist;
      return None;
    }

    method GetByID(id: Uuid) returns (n: Option<Row>)
      ensures n == if id in rows then Some(rows[id]) else None
    {
      if id in rows {
        return Some(rows[id]);
      }
      return None;
    }

    /** The status changes whatever it was. */
    method UpdateStatus(id: Uuid, status: Status) returns (found: bool)
      modifies this
      ensures found == (id in old(rows))
      ensures View() == P.WriteStatus(old(View()), id, status)
    {
      ghost var h := P.HistoryOf(View(), id);
      hist := hist[id := h.(marked := h.marked + {status})];
      found := id in rows;
      if found {
        rows := rows[id := rows[id].(status := status)];
      }
    }

    method IncrementAttempt(id: Uuid)
      modifies this
      ensures View() == P.IncrementAttempt(old(View()), id)
    {
      if id in rows {
        rows := rows[id := rows[id].(attemptCount := rows[id].attemptCount + 1)];
      }
    }

    method CreateDeliveryAttempt(id: Uuid, attempt: Attempt)
      modifies this
      ensures View() == P.InsertAttempt(old(View()), id, attempt)
    {
      var recorded := if id in attempts then attempts[id] else [];
      attempts := attempts[id := recorded + [attempt]];
    }

    /** History only: a send begins. */
    ghost method NoteSend(id: Uuid, now: int)
      modifies this
      ensures View() == P.RecordSend(old(View()), id, now) && rows == old(rows) && attempts == old(attempts)
    {
      ghost var h := P.HistoryOf(View(), id);
      hist := hist[id := h.(sends := h.sends + [now])];
    }

    /** History only: a failure is handled by a retry. */
    ghost method NoteHandled(id: Uuid, now: int)
      modifies this
      ensures View() == P.RecordHandled(old(View()), id, now) && rows == old(rows) && attempts == old(attempts)
    {
      ghost var h := P.HistoryOf(View(), id);
      hist := hist[id := h.(handled := h.handled + [now])];
    }

    /** Cancels exactly a pending, scheduled or queued notification; otherwise says why not and changes nothing. */
    method Cancel(id: Uuid) returns (error: Option<CancelError>)
      modifies this
      ensures id !in old(rows) ==> error == Some(NotFound)
      ensures id in old(rows) && old(rows)[id].status in {Pending, Scheduled, Queued} ==>
                error == None && rows == old(rows)[id := old(rows)[id].(status := Cancelled)]
      ensures id in old(rows) && old(rows)[id].status in {Processing, Delivered, Failed, Cancelled} ==>
                error == Some(CannotCancel)
      ensures error.Some? ==> rows == old(rows)
      ensures View() == if error.None? then P.WriteStatus(old(View()), id, Cancelled) else old(View())
    {
      if id in rows && Cancellable(rows[id].status) {
        var _ := UpdateStatus(id, Cancelled);
        return None;
      }
      var existing := GetByID(id);
      return Some(if existing.None? then NotFound else CannotCancel);
    }

    /** The inner SELECT ... ORDER BY scheduled_at LIMIT limit FOR UPDATE, with no row locked by anyone else. */
    method SelectDue(limit: nat, now: int) returns (ids: seq<Uuid>)
      ensures EarliestDue(rows, now, limit, ids) && Earliest(rows, now, limit, ids)
    {
      ids := [];
      var left := DueIds(rows, now);
      while |ids| < limit && left != {}
        invariant |ids| <= limit
        invariant Selecting(rows, now, ids, left)
        decreases left
      {
        EarliestExists(rows, left);
        var id :| id in left && forall other | other in left ::
            rows[id].scheduledAt.value <= rows[other].scheduledAt.value;
        SelectOne(rows, now, ids, left, id);
        ids := ids + [id];
        left := left - {id};
      }
      SelectedAll(rows, now, limit, ids, left);
      EarliestDueIsEarliest(rows, now, limit, ids);
    }

    /** The claim takes exactly min(limit, due) rows, none scheduled later than a due row it leaves. */
    method FetchScheduledDue(limit: nat, now: int) returns (items: seq<Item>, ghost ids: seq<Uuid>)
      modifies this
      ensures EarliestDue(old(rows), now, limit, ids) && Earliest(old(rows), now, limit, ids)
      ensures items == ClaimedItems(old(rows), ids)
      ensures View() == PromoteAll(old(View()), ids)
    {
      var chosen := SelectDue(limit, now);
      ids := chosen;
      items := PromoteEach(chosen, now);
    }

    /** UPDATE ... SET status = 'pending' ... RETURNING, over the selected rows. */
    method PromoteEach(ids: seq<Uuid>, ghost now: int) returns (items: seq<Item>)
      requires Claimable(rows, now, ids)
      modifies this
      ensures items == ClaimedItems(old(rows), ids)
      ensures View() == PromoteAll(old(View()), ids)
    {
      hide P.PromoteRow, P.WriteStatus, PromoteAll, ClaimedItems, Claimable, Untouched;
      ghost var was := View();
      assert AllIn(was.rows, ids) && Untouched(was.rows, rows, ids, 0) by { StartUntouched(rows, now, ids); }
      items := [];
      var i := 0;
      assert ids[0..] == ids;
      while i < |ids|
        invariant 0 <= i <= |ids| && |items| == i
        invariant PromoteAll(was, ids) == PromoteAll(View(), ids[i..])
        invariant forall j | 0 <= j < i :: items[j] == Item(ids[j], was.rows[ids[j]].(status := Pending))
        invariant Untouched(was.rows, rows, ids, i)
      {
        NextPromotion(View(), ids, i);
        StillUntouched(was.rows, View(), now, ids, i);
        Promote(ids[i]);
        items := items + [Item(ids[i], rows[ids[i]])];
        i := i + 1;
      }
      NextPromotion(View(), ids, i);
      ClaimedAre(was.rows, ids, items);
    }

    /** One row of the UPDATE: `pending`, and one promotion more in its history. */
    method Promote(id: Uuid)
      modifies this
      ensures View() == P.PromoteRow(old(View()), id)
    {
      var _ := UpdateStatus(id, Pending);
      ghost var h := P.HistoryOf(View(), id);
      hist := hist[id := h.(promotions := h.promotions + 1)];
    }
  }

  lemma NextInsert(db: P.Db, news: seq<New>, i: nat)
    requires i < |news|
    ensures var n := news[i];
            InsertAll(db.rows, news[i..]) ==
              if n.id in db.rows || KeyTaken(db.rows, n.key) then Rejected(IdempotencyConflict)
              else InsertAll(db.rows[n.id := RowOf(n)], news[i + 1..])
    ensures AddRows(db, news[i..]) == AddRows(P.AddRow(db, news[i]), news[i + 1..])
  {
    assert news[i..][0] == news[i] && news[i..][1..] == news[i + 1..];
  }

  lemma NoMoreInserts(db: P.Db, news: seq<New>)
    requires news == []
    ensures InsertAll(db.rows, news) == Stored(db.rows) && AddRows(db, news) == db
  {
  }

  lemma NextPromotion(db: P.Db, ids: seq<Uuid>, i: nat)
    requires i <= |ids|
    ensures PromoteAll(db, ids[i..]) == if i == |ids| then db else PromoteAll(P.PromoteRow(db, ids[i]), ids[i + 1..])
  {
    if i < |ids| {
      assert ids[i..][0] == ids[i] && ids[i..][1..] == ids[i + 1..];
    }
  }

  lemma ClaimedAre(rows: Rows, ids: seq<Uuid>, items: seq<Item>)
    requires |items| == |ids| && forall i | 0 <= i < |ids| :: ids[i] in rows
    requires forall j | 0 <= j < |ids| :: items[j] == Item(ids[j], rows[ids[j]].(status := Pending))
    ensures items == ClaimedItems(rows, ids)
  {
  }

  predicate AllIn(rows: Rows, ids: seq<Uuid>) {
    forall j | 0 <= j < |ids| :: ids[j] in rows
  }

  predicate Untouched(was: Rows, rows: Rows, ids: seq<Uuid>, i: nat)
    requires AllIn(was, ids)
  {
    forall j | i <= j < |ids| :: ids[j] in rows && rows[ids[j]] == was[ids[j]]
  }

  lemma StartUntouched(rows: Rows, now: int, ids: seq<Uuid>)
    requires Claimable(rows, now, ids)
    ensures AllIn(rows, ids) && Untouched(rows, rows, ids, 0)
  {
  }

  lemma StillUntouched(was: Rows, db: P.Db, now: int, ids: seq<Uuid>, i: nat)
    requires i < |ids| && Claimable(was, now, ids) && Untouched(was, db.rows, ids, i)
    ensures var rows := P.PromoteRow(db, ids[i]).rows;
            ids[i] in rows && rows[ids[i]] == was[ids[i]].(status := Pending) && Untouched(was, rows, ids, i + 1)
  {
    hide P.PromoteRow;
    PromoteTouches(db, ids[i]);
  }

  lemma PromoteTouches(db: P.Db, id: Uuid)
    requires id in db.rows
    ensures var rows := P.PromoteRow(db, id).rows;
            && id in rows && rows[id] == db.rows[id].(status := Pending)
            && forall i | i in db.rows && i != id :: i in rows && rows[i] == db.rows[i]
  {
  }

  function DueIds(rows: Rows, now: int): set<Uuid> {
    set id | id in rows && Due(rows[id], now)
  }

  predicate Selecting(rows: Rows, now: int, ids: seq<Uuid>, left: set<Uuid>) {
    && Claimable(rows, now, ids)
    && left == DueIds(rows, now) - (set id | id in ids)
    && |ids| + |left| == |DueIds(rows, now)|
    && forall i, id | 0 <= i < |ids| && id in left :: rows[ids[i]].scheduledAt.value <= rows[id].scheduledAt.value
  }

  /** The choice ORDER BY scheduled_at LIMIT limit makes; rows scheduled for the same moment tie. */
  predicate EarliestDue(rows: Rows, now: int, limit: nat, ids: seq<Uuid>) {
    && Claimable(rows, now, ids)
    && |ids| == (if limit < |DueIds(rows, now)| then limit else |DueIds(rows, now)|)
    && forall i, id | 0 <= i < |ids| && id in DueIds(rows, now) && id !in ids ::
         rows[ids[i]].scheduledAt.value <= rows[id].scheduledAt.value
  }

  /**
   In terms of the columns: distinct rows, each scheduled for now or before; all such rows, when fewer than limit come
   back; never more than limit, and none left out that was scheduled earlier than one claimed.
   */
  predicate Earliest(rows: Rows, now: int, limit: nat, ids: seq<Uuid>) {
    && |ids| <= limit
    && (forall i | 0 <= i < |ids| ::
          && ids[i] in rows && rows[ids[i]].status == Scheduled
          && rows[ids[i]].scheduledAt.Some? && rows[ids[i]].scheduledAt.value <= now)
    && (forall i, j | 0 <= i < j < |ids| :: ids[i] != ids[j])
    && (forall id | id in rows && id !in ids && rows[id].status == Scheduled
                    && rows[id].scheduledAt.Some? && rows[id].scheduledAt.value <= now ::
          |ids| == limit && forall i | 0 <= i < |ids| :: rows[ids[i]].scheduledAt.value <= rows[id].scheduledAt.value)
  }

  lemma EarliestDueIsEarliest(rows: Rows, now: int, limit: nat, ids: seq<Uuid>)
    requires EarliestDue(rows, now, limit, ids)
    ensures Earliest(rows, now, limit, ids)
  {
    forall id | id in rows && id !in ids && rows[id].status == Scheduled
                && rows[id].scheduledAt.Some? && rows[id].scheduledAt.value <= now
      ensures |ids| == limit
      ensures forall i | 0 <= i < |ids| :: rows[ids[i]].scheduledAt.value <= rows[id].scheduledAt.value
    {
      assert id in DueIds(rows, now);
      if |ids| < limit {
        AllDueAreThere(DueIds(rows, now), ids);
      }
    }
  }

  /** Distinct elements of a set, as many as it has, are all of them. */
  lemma {:induction false} AllDueAreThere(due: set<Uuid>, ids: seq<Uuid>)
    requires |ids| == |due| && (forall i | 0 <= i < |ids| :: ids[i] in due)
    requires forall i, j | 0 <= i < j < |ids| :: ids[i] != ids[j]
    ensures forall id | id in due :: id in ids
    decreases |ids|
  {
    if ids != [] {
      var last := ids[|ids| - 1];
      AllDueAreThere(due - {last}, ids[..|ids| - 1]);
      forall id | id in due ensures id in ids {
        assert id == last || id in due - {last};
      }
    }
  }

  lemma {:induction false} EarliestExists(rows: Rows, left: set<Uuid>)
    requires left != {} && forall id | id in left :: id in rows && rows[id].scheduledAt.Some?
    ensures exists id :: id in left && forall other | other in left ::
        rows[id].scheduledAt.value <= rows[other].scheduledAt.value
    decreases left
  {
    var one :| one in left;
    if left != {one} {
      var rest := left - {one};
      EarliestExists(rows, rest);
      var id :| id in rest && forall other | other in rest ::
          rows[id].scheduledAt.value <= rows[other].scheduledAt.value;
      var earliest := if rows[one].scheduledAt.value < rows[id].scheduledAt.value then one else id;
      forall other | other in left ensures rows[earliest].scheduledAt.value <= rows[other].scheduledAt.value {
        assert other == one || other in rest;
      }
    }
  }

  lemma SelectOne(rows: Rows, now: int, ids: seq<Uuid>, left: set<Uuid>, id: Uuid)
    requires Selecting(rows, now, ids, left) && id in left
    requires forall other | other in left :: rows[id].scheduledAt.value <= rows[other].scheduledAt.value
    ensures Selecting(rows, now, ids + [id], left - {id})
  {
  }

  lemma SelectedAll(rows: Rows, now: int, limit: nat, ids: seq<Uuid>, left: set<Uuid>)
    requires Selecting(rows, now, ids, left) && |ids| <= limit && (|ids| < limit ==> left == {})
    ensures EarliestDue(rows, now, limit, ids)
  {
  }
}
