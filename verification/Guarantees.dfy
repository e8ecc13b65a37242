/**
 What every run of the pipeline promises when calls succeed, one delayed processor runs and ClaimStale
 does not: any number of clients, schedulers and workers interleave, and workers may stop anywhere.
 */
module Guarantees {
  import opened Domain
  import opened Table
  import opened Pipeline
  import opened Agreement
  import opened Carriers
  import opened Books
  import opened Conservation
  import Retry

  ghost predicate OneProcessor(s: State) {
    forall p, q | p in s.processors && q in s.processors :: p == q
  }

  /** A run of configuration A from empty stores. */
  ghost predicate RunA(s0: State, steps: seq<Step>) {
    Init(s0) && OneProcessor(s0) && ValidRun(s0, steps) && NoReclaim(steps)
  }

  lemma InitAgrees(s: State)
    requires Init(s)
    ensures Agree(s)
  {
  }

  lemma InitInv(s: State)
    requires Init(s) && OneProcessor(s)
    ensures Inv(s, map[])
  {
    hide Agree;
    InitAgrees(s);
    assert forall id, x :: !At(s, id, x);
  }

  lemma ReachedInv(s0: State, steps: seq<Step>) returns (loc: Places)
    requires RunA(s0, steps)
    ensures Inv(After(s0, steps), loc)
  {
    hide Inv, After;
    InitInv(s0);
    loc := RunInv(s0, map[], steps);
  }

  // ---------------------------------------------------------------- carriers

  /** No notification ever has two carriers. */
  lemma OneCarrierAlways(s0: State, steps: seq<Step>)
    requires RunA(s0, steps)
    ensures OneCarrier(After(s0, steps))
  {
    hide After, At;
    var loc := ReachedInv(s0, steps);
    LocatedIsUnique(After(s0, steps), loc);
  }

  lemma {:induction false} RemovesBatch(s: State, p: nat)
    requires RemoveEnabled(s, p)
    ensures var proc := s.processors[p];
            var s' := RemoveStep(s, p);
            && s'.mq.delayed == s.mq.delayed - Elements(proc.batch[proc.gone..])
            && s' == s.(mq := s.mq.(delayed := s'.mq.delayed),
                        processors := s.processors[p := proc.(gone := |proc.batch|)])
    decreases |s.processors[p].batch| - s.processors[p].gone
  {
    var proc := s.processors[p];
    var s1 := RemoveOne(s, p);
    assert proc.batch[proc.gone..] == [proc.batch[proc.gone]] + proc.batch[proc.gone + 1..];
    if RemoveEnabled(s1, p) {
      RemovesBatch(s1, p);
    }
  }

  /**
   The range and the removal of one pop are two commands, with any other steps between them. The removal still
   takes exactly the ranged members out of the delayed set, and each of them is then carried by the popping
   processor alone.
   */
  lemma PopNeitherDropsNorDuplicates(s0: State, steps: seq<Step>, p: nat)
    requires RunA(s0, steps) && RemoveEnabled(After(s0, steps), p)
    ensures var s := After(s0, steps);
            var s' := RemoveStep(s, p);
            var proc := s.processors[p];
            && (forall i | proc.gone <= i < |proc.batch| :: proc.batch[i] in s.mq.delayed)
            && s'.mq.delayed.Keys == s.mq.delayed.Keys - Elements(proc.batch[proc.gone..])
            && OneCarrier(s')
            && (forall i, id | proc.gone <= i < |proc.batch| && Names(proc.batch[i], id) :: At(s', id, Popped(p, i)))
  {
    hide After, Agree, Accounts, RemoveStep, MemberOf;
    var s := After(s0, steps);
    var loc := ReachedInv(s0, steps);
    RemovesBatch(s, p);
    assert ProcessorOk(s.mq.delayed, s.now, s.processors[p]);
    var loc' := RemoveInv(s, loc, p);
    LocatedIsUnique(RemoveStep(s, p), loc');
  }

  // ---------------------------------------------------------------- attempts and outcomes

  ghost predicate InsideRecording(s: State, id: Uuid) {
    exists w ::
        w in s.workers && s.workers[w].pc.Busy? && s.workers[w].pc.item.id == id && s.workers[w].pc.stage.Counted?
  }

  /**
   Sends never exceed max(1, max_retries); recorded attempts are numbered 1, 2, 3, ...; every send but one in
   flight is recorded; attempt_count equals the number of recorded attempts, plus one exactly while a worker is
   between its two writes.
   */
  ghost predicate Accounted(s: State, id: Uuid)
    requires id in s.db.rows
  {
    var a := AttemptsOf(s.db, id);
    var sends := |HistoryOf(s.db, id).sends|;
    && sends <= Limit(s.db.rows[id])
    && Numbered(a) && |a| <= sends <= |a| + 1
    && s.db.rows[id].attemptCount == |a| + (if InsideRecording(s, id) then 1 else 0)
    && DeadCount(s.mq, id) <= 1
    && (forall j | 0 <= j < |a| - 1 :: !a[j].ok)
  }

  lemma AttemptsAccounted(s0: State, steps: seq<Step>, id: Uuid)
    requires RunA(s0, steps) && id in After(s0, steps).db.rows
    ensures Accounted(After(s0, steps), id)
  {
    hide After, Agree, LoopsOk, MemberOf;
    var s := After(s0, steps);
    var loc := ReachedInv(s0, steps);
    InvAccounted(s, loc, id);
  }

  lemma InvAccounted(s: State, loc: Places, id: Uuid)
    requires Inv(s, loc) && id in s.db.rows
    ensures Accounted(s, id)
  {
    hide Agree, LoopsOk, MemberOf, AttemptsOf, HistoryOf, DeadCount, Spaced, Ready, Numbered;
    var x := Where(loc, id);
    var a := AttemptsOf(s.db, id);
    assert AccountAt(s, id, x);
    if InsideRecording(s, id) {
      var w :| w in s.workers && s.workers[w].pc.Busy? && s.workers[w].pc.item.id == id
          && s.workers[w].pc.stage.Counted?;
      AtIs(s, loc, id, Working(w));
    }
    assert x != Gone ==> At(s, id, x);
    assert x.Working? && s.workers[x.w].pc.stage.Counted? ==> InsideRecording(s, id);
    BooksBound(s.now, s.providers, s.db.rows[id], a, DeadCount(s.mq, id), HistoryOf(s.db, id), ViewOf(s, id, x));
  }

  /** What the books bound in every place. */
  lemma BooksBound(now: int, providers: set<Channel>, r: Row, a: seq<Attempt>, dead: nat, h: History, v: View)
    requires Account(now, providers, r, a, dead, h, v)
    ensures |h.sends| <= Limit(r) && |a| <= |h.sends| <= |a| + 1 && dead <= 1
    ensures r.attemptCount == |a| + (if v.Active? && v.stage.Counted? then 1 else 0)
    ensures forall j | 0 <= j < |a| - 1 :: !a[j].ok
  {
    hide Spaced, Ready, Numbered;
    forall j | 0 <= j < |a| - 1 ensures !a[j].ok {
      if v.Finished? && WasDelivered(r, a, dead, h) {
        assert a[..|a| - 1][j] == a[j];
      } else if v.Active? && v.stage.Recorded? {
        assert a[..v.row.attemptCount][j] == a[j];
      }
    }
  }

  /** A notification with no carrier has reached exactly one of the four outcomes. */
  lemma ExactlyOneOutcome(s0: State, steps: seq<Step>, id: Uuid)
    requires RunA(s0, steps)
    requires var s := After(s0, steps); id in s.db.rows && forall x :: !At(s, id, x)
    ensures var s := After(s0, steps);
            var r, a, dead, h := s.db.rows[id], AttemptsOf(s.db, id), DeadCount(s.mq, id), HistoryOf(s.db, id);
            && Settled(s.providers, r, a, dead, h)
            && (r.channel in s.providers ==> !WasUnroutable(s.providers, r, a, dead, h))
            && (WasDelivered(r, a, dead, h) ==> !WasBuried(r, a, dead, h) && !WasCancelled(r, a, dead, h))
            && (WasBuried(r, a, dead, h) ==> !WasCancelled(r, a, dead, h))
            && (WasUnroutable(s.providers, r, a, dead, h) ==>
                  !WasDelivered(r, a, dead, h) && !WasBuried(r, a, dead, h) && !WasCancelled(r, a, dead, h))
  {
    hide After, Agree, LoopsOk, At, MemberOf, AttemptsOf, HistoryOf, DeadCount;
    var s := After(s0, steps);
    var loc := ReachedInv(s0, steps);
    assert AccountAt(s, id, Where(loc, id));
    assert At(s, id, Where(loc, id)) <==> Where(loc, id) != Gone;
    OutcomesExclusive(s.providers, s.db.rows[id], AttemptsOf(s.db, id), DeadCount(s.mq, id), HistoryOf(s.db, id));
  }

  // ---------------------------------------------------------------- retry spacing

  lemma {:induction false} SpacingAddsUp(now: int, h: History, k: nat)
    requires Spaced(now, h) && 1 <= k <= |h.sends|
    ensures h.sends[0] + Retry.TotalBackoff(k) <= h.sends[k - 1]
    ensures k >= 2 ==> h.handled[0] + Retry.TotalBackoff(k) <= h.sends[k - 1]
  {
    if k > 1 {
      SpacingAddsUp(now, h, k - 1);
    }
  }

  /**
   Attempt k + 1 starts at least the back-off of k after attempt k's failure was handled; so attempt k starts at
   least 2^k - 2 seconds after the first failure was handled for k up to 9, and 510 + 300(k - 9) seconds beyond.
   */
  lemma RetriesAreSpaced(s0: State, steps: seq<Step>, id: Uuid, k: nat)
    requires RunA(s0, steps) && id in After(s0, steps).db.rows
    requires 2 <= k <= |HistoryOf(After(s0, steps).db, id).sends|
    ensures var h := HistoryOf(After(s0, steps).db, id);
            && k - 1 <= |h.handled|
            && h.sends[k - 2] <= h.handled[k - 2]
            && h.handled[k - 2] + Retry.Backoff(k - 1) <= h.sends[k - 1]
            && h.handled[0] + (if k <= 9 then Retry.Pow2(k) - 2 else 510 + 300 * (k - 9)) * 1000 <= h.sends[k - 1]
  {
    hide After, Agree, LoopsOk, At, MemberOf, HistoryOf, Retry.Backoff;
    var s := After(s0, steps);
    var loc := ReachedInv(s0, steps);
    assert AccountAt(s, id, Where(loc, id));
    SpacingAddsUp(s.now, HistoryOf(s.db, id), k);
    Retry.TotalBackoffClosedForm(k);
  }
}
