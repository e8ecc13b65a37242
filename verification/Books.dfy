/**
 The books kept per notification: sends, recorded attempts, attempt_count, retry times and dead-letter
 entries, tied to where the notification's carrier is.
 */
module Books {
  import opened Domain
  import opened Table
  import opened Pipeline
  import opened Agreement
  import opened Carriers
  import Retry

  // What matters of a carrier's place for the books.
  datatype View =
    | Resting                          // about to be looked at by some worker
    | Delayed(score: int)              // in the delayed set
    | Active(row: Row, stage: Stage)   // a worker holds the row as it read it
    | Finished

  function ViewOf(s: State, id: Uuid, x: Carrier): View {
    match x
    case Working(w) =>
      if w in s.workers && s.workers[w].pc.Busy? then Active(s.workers[w].pc.item.row, s.workers[w].pc.stage)
          else Finished
    case Retrying =>
      if id in s.db.rows && MemberOf(id, s.db.rows[id]) in s.mq.delayed
      then Delayed(s.mq.delayed[MemberOf(id, s.db.rows[id])]) else Finished
    case Gone => Finished
    case _ => Resting
  }

  function Limit(row: Row): nat {
    if row.maxRetries > 1 then row.maxRetries else 1
  }

  ghost predicate AllFailed(a: seq<Attempt>) {
    forall j | 0 <= j < |a| :: !a[j].ok
  }

  ghost predicate Numbered(a: seq<Attempt>) {
    forall j | 0 <= j < |a| :: a[j].number == j + 1
  }

  predicate Open(h: History) {
    Domain.Delivered !in h.marked && Domain.Failed !in h.marked
  }

  /** Nothing in flight: sends, handled failures, recorded attempts and attempt_count all agree. */
  ghost predicate Rested(r: Row, a: seq<Attempt>, dead: nat, h: History) {
    |h.sends| == |h.handled| == |a| == r.attemptCount < Limit(r) && AllFailed(a) && dead == 0 && Open(h)
  }

  /** The sends are spaced by the back-off of the failures between them. */
  ghost predicate Spaced(now: int, h: History) {
    && |h.handled| <= |h.sends| <= |h.handled| + 1
    && (forall i | 0 <= i < |h.sends| :: h.sends[i] <= now)
    && (forall i | 0 <= i < |h.handled| :: h.sends[i] <= h.handled[i] <= now)
    && (forall i | 0 < i < |h.sends| :: h.handled[i - 1] + Retry.Backoff(i) <= h.sends[i])
  }

  function RetryTime(h: History): int
    requires h.handled != []
  {
    Retry.RetryAt(h.handled[|h.handled| - 1], |h.handled|)
  }

  predicate Ready(now: int, h: History) {
    h.handled != [] ==> RetryTime(h) <= now
  }

  /** One attempt begun on snapshot n and not yet settled. */
  predicate InFlight(r: Row, a: seq<Attempt>, dead: nat, h: History, n: Row, counted: nat, recorded: nat) {
    && |h.sends| == n.attemptCount + 1 && |h.handled| == n.attemptCount < Limit(r)
    && r.attemptCount == n.attemptCount + counted && |a| == n.attemptCount + recorded
    && dead == 0 && Open(h)
  }

  ghost predicate ActiveOk(now: int, r: Row, a: seq<Attempt>, dead: nat, h: History, n: Row, stage: Stage) {
    && n.maxRetries == r.maxRetries && n.channel == r.channel
    && match stage
       case Claimed | Routed => Rested(r, a, dead, h) && Ready(now, h) && n.attemptCount == r.attemptCount
       case Sending | Sent(_) => InFlight(r, a, dead, h, n, 0, 0) && AllFailed(a)
       case Counted(_) => InFlight(r, a, dead, h, n, 1, 0) && AllFailed(a)
       case Recorded(ok) =>
         InFlight(r, a, dead, h, n, 1, 1) && AllFailed(a[..n.attemptCount]) && a[n.attemptCount].ok == ok
       case Requeue(at) => Rested(r, a, dead, h) && h.handled != [] && at == RetryTime(h)
       case Delaying(at) => Rested(r, a, dead, h) && h.handled != [] && at == RetryTime(h)
       case Burying =>
         && |h.sends| == |a| == r.attemptCount == Limit(r) && AllFailed(a) && dead == 0
         && Domain.Failed in h.marked && Domain.Delivered !in h.marked
  }

  // ---------------------------------------------------------------- outcomes

  /** One successful attempt, the last one, and no dead-letter entry. */
  ghost predicate WasDelivered(r: Row, a: seq<Attempt>, dead: nat, h: History) {
    && 0 < |a| == |h.sends| == r.attemptCount <= Limit(r)
    && AllFailed(a[..|a| - 1]) && a[|a| - 1].ok && dead == 0
    && Domain.Delivered in h.marked && Domain.Failed !in h.marked
  }

  /** Exactly max(1, max_retries) attempts, all failed, and one dead-letter entry. */
  ghost predicate WasBuried(r: Row, a: seq<Attempt>, dead: nat, h: History) {
    && |a| == |h.sends| == r.attemptCount == Limit(r) && AllFailed(a) && dead == 1
    && Domain.Failed in h.marked && Domain.Delivered !in h.marked
  }

  /** No success, no dead-letter entry, and a cancellation. */
  ghost predicate WasCancelled(r: Row, a: seq<Attempt>, dead: nat, h: History) {
    && |a| == |h.sends| == r.attemptCount < Limit(r) && AllFailed(a) && dead == 0
    && Domain.Cancelled in h.marked && Open(h)
  }

  /** No provider serves its channel: failed without a single send. */
  ghost predicate WasUnroutable(providers: set<Channel>, r: Row, a: seq<Attempt>, dead: nat, h: History) {
    && r.channel !in providers && a == [] && h.sends == [] && r.attemptCount == 0 && dead == 0
    && Domain.Failed in h.marked && Domain.Delivered !in h.marked
  }

  ghost predicate Settled(providers: set<Channel>, r: Row, a: seq<Attempt>, dead: nat, h: History) {
    || WasDelivered(r, a, dead, h) || WasBuried(r, a, dead, h)
    || WasCancelled(r, a, dead, h) || WasUnroutable(providers, r, a, dead, h)
  }

  /** The four outcomes exclude each other. */
  lemma OutcomesExclusive(providers: set<Channel>, r: Row, a: seq<Attempt>, dead: nat, h: History)
    ensures WasDelivered(r, a, dead, h) ==>
              !WasBuried(r, a, dead, h) && !WasCancelled(r, a, dead, h) && !WasUnroutable(providers, r, a, dead, h)
    ensures WasBuried(r, a, dead, h) ==> !WasCancelled(r, a, dead, h) && !WasUnroutable(providers, r, a, dead, h)
    ensures WasCancelled(r, a, dead, h) ==> !WasUnroutable(providers, r, a, dead, h)
  {
  }

  // ---------------------------------------------------------------- the books

  ghost predicate Account(now: int, providers: set<Channel>, r: Row, a: seq<Attempt>, dead: nat, h: History, v: View) {
    && Numbered(a) && Spaced(now, h)
    && (r.channel !in providers ==> h.sends == [])
    && match v
       case Resting => Rested(r, a, dead, h) && Ready(now, h)
       case Delayed(score) => Rested(r, a, dead, h) && h.handled != [] && score == RetryTime(h)
       case Active(n, stage) => ActiveOk(now, r, a, dead, h, n, stage)
       case Finished => Settled(providers, r, a, dead, h)
  }

  ghost predicate AccountAt(s: State, id: Uuid, x: Carrier)
    requires id in s.db.rows
  {
    Account(s.now, s.providers, s.db.rows[id], AttemptsOf(s.db, id), DeadCount(s.mq, id), HistoryOf(s.db, id),
        ViewOf(s, id, x))
  }

  ghost predicate Accounts(s: State, loc: Places) {
    forall id | id in s.db.rows :: AccountAt(s, id, Where(loc, id))
  }

  /** The books and the place of one notification are the same in both states. */
  ghost predicate Untouched(s: State, s': State, id: Uuid, x: Carrier) {
    && s.now == s'.now && s.providers == s'.providers
    && id in s.db.rows && id in s'.db.rows && s.db.rows[id] == s'.db.rows[id]
    && AttemptsOf(s.db, id) == AttemptsOf(s'.db, id)
    && HistoryOf(s.db, id) == HistoryOf(s'.db, id)
    && DeadCount(s.mq, id) == DeadCount(s'.mq, id)
    && ViewOf(s, id, x) == ViewOf(s', id, x)
  }

  /** A step that touches one notification only has to settle that one's books. */
  lemma OneAccount(s: State, s': State, loc: Places, id: Uuid, to: Carrier)
    requires Accounts(s, loc)
    requires forall i | i in s'.db.rows && i != id :: Untouched(s, s', i, Where(loc, i))
    requires id in s'.db.rows ==> AccountAt(s', id, to)
    ensures Accounts(s', loc[id := to])
  {
    hide Account, ViewOf, AttemptsOf, HistoryOf, DeadCount;
    forall i | i in s'.db.rows ensures AccountAt(s', i, Where(loc[id := to], i)) {
      if i != id {
        assert Untouched(s, s', i, Where(loc, i));
        assert AccountAt(s, i, Where(loc, i));
      }
    }
  }

  lemma SameAccounts(s: State, s': State, loc: Places)
    requires Accounts(s, loc)
    requires forall i | i in s'.db.rows :: Untouched(s, s', i, Where(loc, i))
    ensures Accounts(s', loc)
  {
    hide Account, ViewOf, AttemptsOf, HistoryOf, DeadCount;
    forall i | i in s'.db.rows ensures AccountAt(s', i, Where(loc, i)) {
      assert Untouched(s, s', i, Where(loc, i));
      assert AccountAt(s, i, Where(loc, i));
    }
  }

  // ---------------------------------------------------------------- one notification, one command

  lemma LaterAccount(now: int, now': int, providers: set<Channel>, r: Row, a: seq<Attempt>, dead: nat, h: History,
      v: View)
    requires Account(now, providers, r, a, dead, h, v) && now <= now'
    ensures Account(now', providers, r, a, dead, h, v)
  {
  }

  function Marked(h: History, status: Status): History {
    h.(marked := h.marked + {status})
  }

  lemma StatusActive(now: int, r: Row, a: seq<Attempt>, dead: nat, h: History, n: Row, stage: Stage, status: Status)
    requires ActiveOk(now, r, a, dead, h, n, stage) && status != Domain.Delivered && status != Domain.Failed
    ensures ActiveOk(now, r.(status := status), a, dead, Marked(h, status), n, stage)
  {
    hide AllFailed, Retry.Backoff;
  }

  lemma StatusSettled(providers: set<Channel>, r: Row, a: seq<Attempt>, dead: nat, h: History, status: Status)
    requires Settled(providers, r, a, dead, h) && status != Domain.Delivered && status != Domain.Failed
    ensures Settled(providers, r.(status := status), a, dead, Marked(h, status))
  {
    hide AllFailed;
  }

  /**
   Any status but `delivered` and `failed` may be written over a notification at any time without upsetting its
   books.
   */
  lemma StatusAccount(now: int, providers: set<Channel>, r: Row, a: seq<Attempt>, dead: nat, h: History, v: View,
      status: Status)
    requires Account(now, providers, r, a, dead, h, v)
    requires status != Domain.Delivered && status != Domain.Failed
    ensures Account(now, providers, r.(status := status), a, dead, Marked(h, status), v)
  {
    hide AllFailed, Numbered, ActiveOk, Settled, Retry.Backoff;
    match v {
      case Active(n, stage) => StatusActive(now, r, a, dead, h, n, stage, status);
      case Finished => StatusSettled(providers, r, a, dead, h, status);
      case _ =>
    }
  }

  lemma PromotedAccount(now: int, providers: set<Channel>, r: Row, a: seq<Attempt>, dead: nat, h: History, v: View,
      n: nat)
    requires Account(now, providers, r, a, dead, h, v)
    ensures Account(now, providers, r, a, dead, h.(promotions := n), v)
  {
    hide AllFailed, Numbered, ActiveOk, Settled, Retry.Backoff;
    match v {
      case Active(row, stage) => PromotedActive(now, r, a, dead, h, row, stage, n);
      case Finished => PromotedSettled(providers, r, a, dead, h, n);
      case _ =>
    }
  }

  lemma PromotedActive(now: int, r: Row, a: seq<Attempt>, dead: nat, h: History, row: Row, stage: Stage, n: nat)
    requires ActiveOk(now, r, a, dead, h, row, stage)
    ensures ActiveOk(now, r, a, dead, h.(promotions := n), row, stage)
  {
    hide AllFailed, Retry.Backoff;
  }

  lemma PromotedSettled(providers: set<Channel>, r: Row, a: seq<Attempt>, dead: nat, h: History, n: nat)
    requires Settled(providers, r, a, dead, h)
    ensures Settled(providers, r, a, dead, h.(promotions := n))
  {
    hide AllFailed;
  }

  lemma CancelledAccount(now: int, providers: set<Channel>, r: Row, a: seq<Attempt>, dead: nat, h: History)
    requires Account(now, providers, r, a, dead, h, Resting) && Domain.Cancelled in h.marked
    ensures Account(now, providers, r, a, dead, h, Finished)
  {
  }

  lemma ClaimedAccount(now: int, providers: set<Channel>, r: Row, a: seq<Attempt>, dead: nat, h: History)
    requires Account(now, providers, r, a, dead, h, Resting)
    ensures Account(now, providers, r, a, dead, h, Active(r, Claimed))
  {
  }

  lemma SendAccount(now: int, providers: set<Channel>, r: Row, a: seq<Attempt>, dead: nat, h: History, n: Row)
    requires Account(now, providers, r, a, dead, h, Active(n, Routed)) && n.channel in providers
    ensures Account(now, providers, r, a, dead, h.(sends := h.sends + [now]), Active(n, Sending))
  {
  }

  lemma UnroutableAccount(now: int, providers: set<Channel>, r: Row, a: seq<Attempt>, dead: nat, h: History, n: Row)
    requires Account(now, providers, r, a, dead, h, Active(n, Routed)) && n.channel !in providers
    ensures Account(now, providers, r.(status := Domain.Failed), a, dead, Marked(h, Domain.Failed), Finished)
  {
  }

  lemma RecordAccount(now: int, providers: set<Channel>, r: Row, a: seq<Attempt>, dead: nat, h: History, n: Row,
      ok: bool)
    requires Account(now, providers, r, a, dead, h, Active(n, Counted(ok)))
    ensures Account(now, providers, r, a + [Attempt(n.attemptCount + 1, ok)], dead, h, Active(n, Recorded(ok)))
  {
    assert (a + [Attempt(n.attemptCount + 1, ok)])[..n.attemptCount] == a;
  }

  lemma DeliveredAccount(now: int, providers: set<Channel>, r: Row, a: seq<Attempt>, dead: nat, h: History, n: Row)
    requires Account(now, providers, r, a, dead, h, Active(n, Recorded(true)))
    ensures Account(now, providers, r.(status := Domain.Delivered), a, dead, Marked(h, Domain.Delivered), Finished)
  {
    assert a[..|a| - 1] == a[..n.attemptCount];
  }

  lemma LastFailed(a: seq<Attempt>, k: nat)
    requires |a| == k + 1 && AllFailed(a[..k]) && !a[k].ok
    ensures AllFailed(a)
  {
    forall j | 0 <= j < |a| ensures !a[j].ok {
      assert j < k ==> a[..k][j] == a[j];
    }
  }

  lemma RetryAccount(now: int, providers: set<Channel>, r: Row, a: seq<Attempt>, dead: nat, h: History, n: Row)
    requires Account(now, providers, r, a, dead, h, Active(n, Recorded(false)))
    requires Retry.ShouldRetry(n.attemptCount + 1, n.maxRetries)
    ensures Account(now, providers, r, a, dead, h.(handled := h.handled + [now]),
                    Active(n, Requeue(Retry.RetryAt(now, n.attemptCount + 1))))
  {
    LastFailed(a, n.attemptCount);
  }

  lemma BuryAccount(now: int, providers: set<Channel>, r: Row, a: seq<Attempt>, dead: nat, h: History, n: Row)
    requires Account(now, providers, r, a, dead, h, Active(n, Recorded(false)))
    requires !Retry.ShouldRetry(n.attemptCount + 1, n.maxRetries)
    ensures Account(now, providers, r.(status := Domain.Failed), a, dead, Marked(h, Domain.Failed), Active(n, Burying))
  {
    LastFailed(a, n.attemptCount);
  }

  lemma DeadAccount(now: int, providers: set<Channel>, r: Row, a: seq<Attempt>, dead: nat, h: History, n: Row)
    requires Account(now, providers, r, a, dead, h, Active(n, Burying))
    ensures Account(now, providers, r, a, dead + 1, h, Finished)
  {
  }
}
