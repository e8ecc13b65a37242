/**
 internal/ratelimit/limiter.go: a pruned, expiring sorted set per channel stands for the whole history of
 admissions. The script is proved to answer like a sliding-window count over that history.
 */
module RateLimit {
  import opened Domain

  // A call of the script: the clock reading in milliseconds and the random suffix it draws.
  datatype Request = Request(time: int, rnd: nat)

  // A Redis sorted set with its expiry. A member spells out its own score, so the members are the whole set.
  datatype Key = Key(members: set<Request>, expiresAt: Option<int>)

  const NO_KEY: Key := Key({}, None)

  // ---------------------------------------------------------------- the script

  function Unexpired(key: Key, now: int): Key {
    if key.expiresAt.Some? && now > key.expiresAt.value then NO_KEY else key
  }

  function Since(members: set<Request>, lo: int): set<Request> {
    set m | m in members && m.time > lo
  }

  /** What ZREMRANGEBYSCORE key -inf now-window leaves. */
  function Kept(key: Key, window: int, now: int): set<Request> {
    Since(Unexpired(key, now).members, now - window)
  }

  datatype Outcome = Outcome(key: Key, allowed: bool)

  function Script(key: Key, window: int, max: int, r: Request): Outcome {
    var kept := Kept(key, window, r.time);
    if |kept| < max then Outcome(Key(kept + {r}, Some(r.time + window)), true)
    else Outcome(Key(kept, if kept == {} then None else key.expiresAt), false)
  }

  /** The key after a sequence of calls on one channel. */
  function KeyAfter(window: int, max: int, reqs: seq<Request>): Key {
    if reqs == [] then NO_KEY
    else Script(KeyAfter(window, max, reqs[..|reqs| - 1]), window, max, reqs[|reqs| - 1]).key
  }

  function Answers(window: int, max: int, reqs: seq<Request>): (answers: seq<bool>)
    ensures |answers| == |reqs|
  {
    if reqs == [] then []
    else
      var before := reqs[..|reqs| - 1];
      Answers(window, max, before) + [Script(KeyAfter(window, max, before), window, max, reqs[|reqs| - 1]).allowed]
  }

  // ---------------------------------------------------------------- the rule it stands for

  function Times(reqs: seq<Request>): (times: seq<int>)
    ensures |times| == |reqs| && forall i | 0 <= i < |reqs| :: times[i] == reqs[i].time
  {
    seq(|reqs|, i requires 0 <= i < |reqs| => reqs[i].time)
  }

  /** How many of the admitted requests have a time in the half-open interval (lo, hi]. */
  function Count(times: seq<int>, admitted: seq<bool>, lo: int, hi: int): (n: nat)
    requires |times| == |admitted|
  {
    if times == [] then 0
    else
      var k := |times| - 1;
      Count(times[..k], admitted[..k], lo, hi) + if admitted[k] && lo < times[k] <= hi then 1 else 0
  }

  /** Admit a request exactly when fewer than max requests were admitted in the window that ends with it. */
  function Rule(window: int, max: int, times: seq<int>): (admitted: seq<bool>)
    ensures |admitted| == |times|
  {
    if times == [] then []
    else
      var k := |times| - 1;
      var before := Rule(window, max, times[..k]);
      before + [Count(times[..k], before, times[k] - window, times[k]) < max]
  }

  predicate Ordered(times: seq<int>) {
    forall i, j | 0 <= i < j < |times| :: times[i] <= times[j]
  }

  predicate Fresh(reqs: seq<Request>) {
    forall i, j | 0 <= i < j < |reqs| :: reqs[i] != reqs[j]
  }

  function Cap(max: int): nat {
    if max < 0 then 0 else max
  }

  // ---------------------------------------------------------------- refinement

  /** The members that the admitted requests later than lo have written. */
  function Written(reqs: seq<Request>, admitted: seq<bool>, lo: int): (members: set<Request>)
    requires |reqs| == |admitted|
    ensures forall m | m in members :: m in reqs && m.time > lo
  {
    if reqs == [] then {}
    else
      var k := |reqs| - 1;
      Written(reqs[..k], admitted[..k], lo) + if admitted[k] && reqs[k].time > lo then {reqs[k]} else {}
  }

  lemma {:induction false} WrittenLater(reqs: seq<Request>, admitted: seq<bool>, lo: int, lo': int)
    requires |reqs| == |admitted| && lo <= lo'
    ensures Written(reqs, admitted, lo') == Since(Written(reqs, admitted, lo), lo')
  {
    if reqs != [] {
      var k := |reqs| - 1;
      WrittenLater(reqs[..k], admitted[..k], lo, lo');
    }
  }

  /** Nothing in the key outlives its expiry: the members left when it fires would be pruned anyway. */
  predicate ExpirySafe(key: Key, window: int) {
    key.members != {} ==> key.expiresAt.Some? && forall m | m in key.members :: m.time <= key.expiresAt.value - window
  }

  lemma KeptIgnoresExpiry(key: Key, window: int, now: int)
    requires ExpirySafe(key, window)
    ensures Kept(key, window, now) == Since(key.members, now - window)
  {
  }

  lemma ScriptKeepsExpirySafe(key: Key, window: int, max: int, r: Request)
    requires ExpirySafe(key, window) && (forall m | m in key.members :: m.time <= r.time)
    ensures ExpirySafe(Script(key, window, max, r).key, window)
  {
  }

  /** One call prunes, may add its own member, and leaves the rest of the window as it was. */
  lemma ScriptRemembers(key: Key, window: int, max: int, r: Request, now: int)
    requires ExpirySafe(key, window) && r.time <= now && (forall m | m in key.members :: m.time <= r.time)
    ensures var o := Script(key, window, max, r);
            && ExpirySafe(o.key, window)
            && (forall m | m in o.key.members :: m in key.members || m == r)
            && Kept(o.key, window, now) ==
               Since(Kept(key, window, r.time), now - window) + (if o.allowed && r.time > now - window then {r} else {})
  {
    var o := Script(key, window, max, r);
    ScriptKeepsExpirySafe(key, window, max, r);
    KeptIgnoresExpiry(o.key, window, now);
    hide ExpirySafe, Unexpired;
  }

  /**
   Pruned and expired as it is, the key still holds every member written since any later moment minus the window.
   */
  lemma {:induction false} KeyRemembers(window: int, max: int, reqs: seq<Request>, now: int)
    requires Ordered(Times(reqs)) && (forall i | 0 <= i < |reqs| :: reqs[i].time <= now)
    ensures var key := KeyAfter(window, max, reqs);
            && ExpirySafe(key, window) && (forall m | m in key.members :: m.time <= now)
            && Kept(key, window, now) == Written(reqs, Answers(window, max, reqs), now - window)
  {
    hide Script, Kept, ExpirySafe, Since, Answers, KeyAfter, Written, Times;
    if reqs == [] {
      NoCalls(window, max, reqs, now);
    } else {
      var k := |reqs| - 1;
      var before, r := reqs[..k], reqs[k];
      var key, lo := KeyAfter(window, max, before), now - window;
      EarlierTimes(reqs);
      KeyRemembers(window, max, before, r.time);
      LastCall(window, max, reqs, lo);
      ScriptRemembers(key, window, max, r, now);
      WrittenLater(before, Answers(window, max, before), r.time - window, lo);
    }
  }

  lemma NoCalls(window: int, max: int, reqs: seq<Request>, now: int)
    requires reqs == []
    ensures var key := KeyAfter(window, max, reqs);
            && ExpirySafe(key, window) && key.members == {}
            && Kept(key, window, now) == Written(reqs, Answers(window, max, reqs), now - window)
  {
  }

  lemma LastCall(window: int, max: int, reqs: seq<Request>, lo: int)
    requires reqs != []
    ensures var before, r := reqs[..|reqs| - 1], reqs[|reqs| - 1];
            var o := Script(KeyAfter(window, max, before), window, max, r);
            && KeyAfter(window, max, reqs) == o.key
            && Written(reqs, Answers(window, max, reqs), lo) ==
               Written(before, Answers(window, max, before), lo) + (if o.allowed && r.time > lo then {r} else {})
  {
    hide Script;
    var k := |reqs| - 1;
    assert Answers(window, max, reqs)[..k] == Answers(window, max, reqs[..k]);
  }

  lemma EarlierTimes(reqs: seq<Request>)
    requires Ordered(Times(reqs)) && reqs != []
    ensures var k := |reqs| - 1;
            && Times(reqs[..k]) == Times(reqs)[..k] && Ordered(Times(reqs[..k]))
            && forall m | m in reqs[..k] :: m.time <= reqs[k].time
  {
    var k := |reqs| - 1;
    assert forall i | 0 <= i < k :: Times(reqs)[i] <= Times(reqs)[k];
  }

  /** No two admitted requests later than lo drew the same member. */
  predicate DistinctSince(reqs: seq<Request>, admitted: seq<bool>, lo: int)
    requires |reqs| == |admitted|
  {
    forall i, j | 0 <= i < j < |reqs| && admitted[i] && admitted[j] && reqs[i].time > lo :: reqs[i] != reqs[j]
  }

  lemma {:induction false} WrittenIsFrom(reqs: seq<Request>, admitted: seq<bool>, lo: int, m: Request)
    requires |reqs| == |admitted|
    ensures m in Written(reqs, admitted, lo) <==> Wrote(reqs, admitted, lo, m)
  {
    if reqs != [] {
      var k := |reqs| - 1;
      WrittenIsFrom(reqs[..k], admitted[..k], lo, m);
      assert forall i | 0 <= i < k :: reqs[..k][i] == reqs[i] && admitted[..k][i] == admitted[i];
    }
  }

  predicate Wrote(reqs: seq<Request>, admitted: seq<bool>, lo: int, m: Request)
    requires |reqs| == |admitted|
  {
    m.time > lo && exists i :: 0 <= i < |reqs| && admitted[i] && reqs[i] == m
  }

  /** The set never holds more members than there were admissions, and holds as many exactly when none collided. */
  lemma {:induction false} MembersCountAdmissions(reqs: seq<Request>, admitted: seq<bool>, lo: int, hi: int)
    requires |reqs| == |admitted| && (forall i | 0 <= i < |reqs| :: reqs[i].time <= hi)
    ensures |Written(reqs, admitted, lo)| <= Count(Times(reqs), admitted, lo, hi)
    ensures |Written(reqs, admitted, lo)| == Count(Times(reqs), admitted, lo, hi) <==> DistinctSince(reqs, admitted, lo)
  {
    hide DistinctSince, Written, Count, Times, Wrote;
    if reqs == [] {
      NothingCounted(lo, hi);
    } else {
      var k := |reqs| - 1;
      var before, adm := reqs[..k], admitted[..k];
      MembersCountAdmissions(before, adm, lo, hi);
      WrittenIsFrom(before, adm, lo, reqs[k]);
      DistinctSnoc(reqs, admitted, lo);
      LastCounted(reqs, admitted, lo, hi);
    }
  }

  lemma NothingCounted(lo: int, hi: int)
    ensures Written([], [], lo) == {} && Count(Times([]), [], lo, hi) == 0 && DistinctSince([], [], lo)
  {
  }

  lemma LastCounted(reqs: seq<Request>, admitted: seq<bool>, lo: int, hi: int)
    requires |reqs| == |admitted| && reqs != [] && reqs[|reqs| - 1].time <= hi
    ensures var k := |reqs| - 1;
            var counts := admitted[k] && reqs[k].time > lo;
            && Written(reqs, admitted, lo) == Written(reqs[..k], admitted[..k], lo) + (if counts then {reqs[k]} else {})
            && Count(Times(reqs), admitted, lo, hi)
                 == Count(Times(reqs[..k]), admitted[..k], lo, hi) + (if counts then 1 else 0)
  {
    assert Times(reqs)[..|reqs| - 1] == Times(reqs[..|reqs| - 1]);
  }

  lemma DistinctSnoc(reqs: seq<Request>, admitted: seq<bool>, lo: int)
    requires |reqs| == |admitted| && reqs != []
    ensures var k := |reqs| - 1;
            DistinctSince(reqs, admitted, lo) <==>
              && DistinctSince(reqs[..k], admitted[..k], lo)
              && (admitted[k] && reqs[k].time > lo ==> !Wrote(reqs[..k], admitted[..k], lo, reqs[k]))
  {
    var k := |reqs| - 1;
    var before, adm := reqs[..k], admitted[..k];
    assert forall i | 0 <= i < k :: before[i] == reqs[i] && adm[i] == admitted[i];
  }

  /** With a clock that never goes back and members that never repeat, the script answers exactly like the rule. */
  lemma {:induction false} ScriptRefinesRule(window: int, max: int, reqs: seq<Request>)
    requires Ordered(Times(reqs)) && Fresh(reqs)
    ensures Answers(window, max, reqs) == Rule(window, max, Times(reqs))
  {
    hide Answers, Rule, Times, KeyAfter, Kept, Count, Written, Ordered;
    if reqs == [] {
      LengthsAgree(window, max, reqs);
    } else {
      var k := |reqs| - 1;
      var before, now := reqs[..k], reqs[k].time;
      EarlierTimes(reqs);
      ScriptRefinesRule(window, max, before);
      KeyRemembers(window, max, before, now);
      FreshIsDistinct(before, Answers(window, max, before), now - window);
      MembersCountAdmissions(before, Answers(window, max, before), now - window, now);
      LastAnswer(window, max, reqs);
    }
  }

  lemma LengthsAgree(window: int, max: int, reqs: seq<Request>)
    requires reqs == []
    ensures Answers(window, max, reqs) == Rule(window, max, Times(reqs))
  {
  }

  lemma FreshIsDistinct(reqs: seq<Request>, admitted: seq<bool>, lo: int)
    requires |reqs| == |admitted| && Fresh(reqs)
    ensures DistinctSince(reqs, admitted, lo)
  {
  }

  lemma LastAnswer(window: int, max: int, reqs: seq<Request>)
    requires reqs != []
    ensures var k := |reqs| - 1;
            var before, r := reqs[..k], reqs[k];
            var rule := Rule(window, max, Times(reqs)[..k]);
            && Answers(window, max, reqs) == Answers(window, max, before)
               + [|Kept(KeyAfter(window, max, before), window, r.time)| < max]
            && Rule(window, max, Times(reqs)) == rule + [Count(Times(reqs)[..k], rule, r.time - window, r.time) < max]
  {
    hide KeyAfter, Kept, Count;
  }

  // ---------------------------------------------------------------- no window is overrun

  lemma {:induction false} CountSplits(times: seq<int>, admitted: seq<bool>, lo: int, mid: int, hi: int)
    requires |times| == |admitted| && lo <= mid <= hi
    ensures Count(times, admitted, lo, hi) == Count(times, admitted, lo, mid) + Count(times, admitted, mid, hi)
  {
    if times != [] {
      var k := |times| - 1;
      CountSplits(times[..k], admitted[..k], lo, mid, hi);
    }
  }

  lemma {:induction false} CountShrinks(times: seq<int>, admitted: seq<bool>, lo: int, hi: int, lo': int, hi': int)
    requires |times| == |admitted| && lo' <= lo && forall i | 0 <= i < |times| && lo < times[i] <= hi :: times[i] <= hi'
    ensures Count(times, admitted, lo, hi) <= Count(times, admitted, lo', hi')
  {
    if times != [] {
      var k := |times| - 1;
      CountShrinks(times[..k], admitted[..k], lo, hi, lo', hi');
    }
  }

  ghost predicate EveryWindowWithin(window: int, max: nat, times: seq<int>, admitted: seq<bool>)
    requires |times| == |admitted|
  {
    forall lo: int :: InWindow(window, times, admitted, lo) <= max
  }

  function InWindow(window: int, times: seq<int>, admitted: seq<bool>, lo: int): nat
    requires |times| == |admitted|
  {
    Count(times, admitted, lo, lo + window)
  }

  /** Every half-open interval of window length, wherever it starts, holds at most max admissions. */
  lemma {:induction false} WindowsBounded(window: int, max: int, times: seq<int>, lo: int)
    requires Ordered(times)
    ensures Count(times, Rule(window, max, times), lo, lo + window) <= Cap(max)
  {
    if times != [] {
      var k := |times| - 1;
      var before, rule := times[..k], Rule(window, max, times);
      assert forall i | 0 <= i < k :: before[i] == times[i];
      WindowsBounded(window, max, before, lo);
      assert rule[..k] == Rule(window, max, before);
      if lo < times[k] <= lo + window {
        CountShrinks(before, rule[..k], lo, lo + window, times[k] - window, times[k]);
      }
    }
  }

  lemma RuleKeepsWindows(window: int, max: int, times: seq<int>)
    requires Ordered(times)
    ensures EveryWindowWithin(window, Cap(max), times, Rule(window, max, times))
  {
    forall lo: int ensures InWindow(window, times, Rule(window, max, times), lo) <= Cap(max) {
      WindowsBounded(window, max, times, lo);
    }
  }

  lemma {:induction false} LongIntervalBounded(window: nat, max: nat, times: seq<int>, admitted: seq<bool>, lo: int,
      n: nat)
    requires |times| == |admitted| && EveryWindowWithin(window, max, times, admitted)
    ensures Count(times, admitted, lo, lo + n * window) <= n * max
    decreases n
  {
    if n == 0 {
      CountSplits(times, admitted, lo, lo, lo);
    } else {
      assert InWindow(window, times, admitted, lo) <= max;
      LongIntervalBounded(window, max, times, admitted, lo + window, n - 1);
      assert n * window == window + (n - 1) * window && n * max == max + (n - 1) * max;
      assert (n - 1) * window >= 0;
      CountSplits(times, admitted, lo, lo + window, lo + n * window);
    }
  }

  /**
   What the limiter is for: with an orderly clock and fresh members no interval of n windows, wherever it starts,
   sees more than n * max_requests requests allowed.
   */
  lemma LimiterBounds(window: nat, max: int, reqs: seq<Request>, lo: int, n: nat)
    requires Ordered(Times(reqs)) && Fresh(reqs)
    ensures Count(Times(reqs), Answers(window, max, reqs), lo, lo + n * window) <= n * Cap(max)
  {
    ScriptRefinesRule(window, max, reqs);
    var times := Times(reqs);
    RuleKeepsWindows(window, max, times);
    LongIntervalBounded(window, Cap(max), times, Rule(window, max, times), lo, n);
  }

  // ---------------------------------------------------------------- no choice admits more

  function Total(admitted: seq<bool>): nat {
    if admitted == [] then 0 else Total(admitted[..|admitted| - 1]) + if admitted[|admitted| - 1] then 1 else 0
  }

  /** The index of the first request later than lo. */
  function FirstAfter(times: seq<int>, lo: int): (j: nat)
    requires Ordered(times)
    ensures j <= |times| && (forall i | 0 <= i < j :: times[i] <= lo) && (forall i | j <= i < |times| :: times[i] > lo)
  {
    if times == [] || times[|times| - 1] <= lo then |times|
    else
      var before := times[..|times| - 1];
      assert forall i | 0 <= i < |before| :: before[i] == times[i];
      FirstAfter(before, lo)
  }

  /** The admissions are those up to the first request later than lo, and those after lo. */
  lemma {:induction false} TotalSplits(times: seq<int>, admitted: seq<bool>, lo: int, hi: int, j: nat)
    requires |times| == |admitted| && j <= |times| && (forall i | 0 <= i < |times| :: times[i] <= hi)
    requires (forall i | 0 <= i < j :: times[i] <= lo) && (forall i | j <= i < |times| :: times[i] > lo)
    ensures Total(admitted) == Total(admitted[..j]) + Count(times, admitted, lo, hi)
  {
    if times != [] {
      var k := |times| - 1;
      if j <= k {
        TotalSplits(times[..k], admitted[..k], lo, hi, j);
        assert admitted[..k][..j] == admitted[..j];
      } else {
        TotalSplits(times[..k], admitted[..k], lo, hi, k);
        assert admitted[..k][..k] == admitted[..k] && admitted[..j] == admitted;
      }
    }
  }

  lemma {:induction false} PrefixRule(window: int, max: int, times: seq<int>, k: nat)
    requires k <= |times|
    ensures Rule(window, max, times)[..k] == Rule(window, max, times[..k])
    decreases |times|
  {
    if k < |times| {
      var n := |times| - 1;
      PrefixRule(window, max, times[..n], k);
      assert times[..n][..k] == times[..k];
      assert Rule(window, max, times)[..k] == Rule(window, max, times[..n])[..k];
    } else {
      assert times[..k] == times;
    }
  }

  lemma {:induction false} CountOfPrefix(times: seq<int>, admitted: seq<bool>, lo: int, hi: int, k: nat)
    requires |times| == |admitted| && k <= |times|
    ensures Count(times[..k], admitted[..k], lo, hi) <= Count(times, admitted, lo, hi)
    decreases |times|
  {
    if k < |times| {
      var n := |times| - 1;
      CountOfPrefix(times[..n], admitted[..n], lo, hi, k);
      assert times[..n][..k] == times[..k] && admitted[..n][..k] == admitted[..k];
    } else {
      assert times[..k] == times && admitted[..k] == admitted;
    }
  }

  /** When the rule rejects at now, it has admitted its cap since now - window. */
  lemma RuleIsAtCap(window: int, max: int, before: seq<int>, now: int, j: nat)
    requires Ordered(before) && (forall i | 0 <= i < |before| :: before[i] <= now)
    requires j == FirstAfter(before, now - window)
    requires Count(before, Rule(window, max, before), now - window, now) >= max
    ensures Total(Rule(window, max, before)[..j]) + Cap(max) <= Total(Rule(window, max, before))
  {
    hide Total, Count, Rule;
    TotalSplits(before, Rule(window, max, before), now - window, now, j);
  }

  /** Since now - window, nobody who keeps every window within max can have admitted more than max. */
  lemma OtherWithinCap(window: nat, max: nat, times: seq<int>, other: seq<bool>, k: nat, j: nat)
    requires Ordered(times) && |other| == |times| && 0 < k <= |times| && window > 0
    requires EveryWindowWithin(window, max, times, other)
    requires Ordered(times[..k - 1]) && j == FirstAfter(times[..k - 1], times[k - 1] - window)
    ensures Total(other[..k]) <= Total(other[..j]) + max
  {
    var now := times[k - 1];
    var lo := now - window;
    var prefix := times[..k];
    assert InWindow(window, times, other, lo) <= max;
    hide Total, Count, EveryWindowWithin;
    assert forall i | 0 <= i < k - 1 :: times[..k - 1][i] == prefix[i];
    assert forall i | j <= i < k :: prefix[i] > lo;
    TotalSplits(prefix, other[..k], lo, now, j);
    assert other[..k][..j] == other[..j];
    CountOfPrefix(times, other, lo, now, k);
  }

  lemma LastOfRule(window: int, max: int, times: seq<int>, k: nat)
    requires 0 < k <= |times|
    ensures var before, now := times[..k - 1], times[k - 1];
            var rule := Rule(window, max, before);
            Rule(window, max, times[..k]) == rule + [Count(before, rule, now - window, now) < max]
  {
    assert times[..k][..k - 1] == times[..k - 1];
  }

  /**
   No other choice of admissions that keeps every window within max_requests is ahead of the rule after any prefix.
   */
  lemma {:induction false} RuleIsGreediest(window: nat, max: int, times: seq<int>, other: seq<bool>, k: nat)
    requires Ordered(times) && |other| == |times| && k <= |times| && window > 0
    requires EveryWindowWithin(window, Cap(max), times, other)
    ensures Total(other[..k]) <= Total(Rule(window, max, times)[..k])
    decreases k
  {
    hide Rule, Count, EveryWindowWithin, Cap;
    if k > 0 {
      var rule, before, now := Rule(window, max, times), times[..k - 1], times[k - 1];
      assert Ordered(before);
      PrefixRule(window, max, times, k);
      PrefixRule(window, max, times, k - 1);
      LastOfRule(window, max, times, k);
      if Rule(window, max, times[..k])[k - 1] {
        RuleIsGreediest(window, max, times, other, k - 1);
        assert other[..k][..k - 1] == other[..k - 1] && rule[..k][..k - 1] == rule[..k - 1];
      } else {
        var j := FirstAfter(before, now - window);
        RuleIsGreediest(window, max, times, other, j);
        RuleIsAtCap(window, max, before, now, j);
        OtherWithinCap(window, Cap(max), times, other, k, j);
        assert rule[..k - 1][..j] == rule[..j];
        assert rule[..k][..k - 1] == rule[..k - 1];
      }
    }
  }

  /** After every prefix the limiter has allowed at least as many requests as any choice within the same bound. */
  lemma LimiterIsOptimal(window: nat, max: int, reqs: seq<Request>, other: seq<bool>, k: nat)
    requires Ordered(Times(reqs)) && Fresh(reqs) && window > 0
    requires |other| == |reqs| && k <= |reqs| && EveryWindowWithin(window, Cap(max), Times(reqs), other)
    ensures EveryWindowWithin(window, Cap(max), Times(reqs), Answers(window, max, reqs))
    ensures Total(other[..k]) <= Total(Answers(window, max, reqs)[..k])
  {
    ScriptRefinesRule(window, max, reqs);
    RuleIsGreediest(window, max, Times(reqs), other, k);
    RuleKeepsWindows(window, max, Times(reqs));
  }

  // ---------------------------------------------------------------- where the assumptions matter

  /**
   The next answer is the rule's, whatever max_requests is, exactly when no two admissions still in the window
   drew the same member. For the max_requests in use it is wrong exactly when the distinct members in the window
   are fewer than max_requests while the admissions are not.
   */
  lemma NextAnswerIff(window: int, max: int, reqs: seq<Request>, r: Request)
    requires Ordered(Times(reqs)) && forall i | 0 <= i < |reqs| :: reqs[i].time <= r.time
    ensures var answers := Answers(window, max, reqs);
            var key := KeyAfter(window, max, reqs);
            var inWindow := Count(Times(reqs), answers, r.time - window, r.time);
            && (inWindow < max ==> Script(key, window, max, r).allowed)
            && (DistinctSince(reqs, answers, r.time - window) <==>
                  forall limit: int :: Script(key, window, limit, r).allowed <==> inWindow < limit)
            && (Script(key, window, max, r).allowed != (inWindow < max) <==>
                  |Written(reqs, answers, r.time - window)| < max <= inWindow)
  {
    hide *;
    KeyRemembers(window, max, reqs, r.time);
    var answers, key := Answers(window, max, reqs), KeyAfter(window, max, reqs);
    MembersCountAdmissions(reqs, answers, r.time - window, r.time);
    AllowsBelow(key, window, r);
    var inWindow := Count(Times(reqs), answers, r.time - window, r.time);
    var kept := |Kept(key, window, r.time)|;
    assert Script(key, window, inWindow, r).allowed <==> kept < inWindow;
  }

  lemma AllowsBelow(key: Key, window: int, r: Request)
    ensures forall limit: int :: Script(key, window, limit, r).allowed <==> |Kept(key, window, r.time)| < limit
  {
  }

  /** The same member over and over: two admissions fill the window, yet every one of n requests is allowed. */
  lemma {:induction false} RepeatedMemberIsUnlimited(window: nat, r: Request, reqs: seq<Request>)
    requires window > 0 && forall i | 0 <= i < |reqs| :: reqs[i] == r
    ensures forall i | 0 <= i < |reqs| :: Answers(window, 2, reqs)[i]
    ensures KeyAfter(window, 2, reqs) == if reqs == [] then NO_KEY else Key({r}, Some(r.time + window))
  {
    if reqs != [] {
      RepeatedMemberIsUnlimited(window, r, reqs[..|reqs| - 1]);
      var key := KeyAfter(window, 2, reqs[..|reqs| - 1]);
      assert Kept(key, window, r.time) == key.members;
      assert key.members + {r} == {r};
    }
  }

  // ---------------------------------------------------------------- Limiter

  lemma LastOfAnswers(window: int, max: int, before: seq<Request>, r: Request)
    ensures var reqs := before + [r];
            var o := Script(KeyAfter(window, max, before), window, max, r);
            && KeyAfter(window, max, reqs) == o.key
            && Answers(window, max, reqs) == Answers(window, max, before) + [o.allowed]
            && reqs[..|before|] == before && reqs[|before|] == r
  {
    assert (before + [r])[..|before|] == before;
  }

  /** The limiter and the Redis keys it works on, one per channel. */
  class Limiter {
    const maxPerSec: int
    const windowMs: int
    var keys: map<string, Key>
    ghost var calls: map<string, seq<Request>>   // every call so far, by channel

    function KeyOf(channel: string): Key
      reads this
    {
      if channel in keys then keys[channel] else NO_KEY
    }

    ghost function Calls(channel: string): seq<Request>
      reads this
    {
      if channel in calls then calls[channel] else []
    }

    ghost predicate Valid()
      reads this
    {
      forall channel :: KeyOf(channel) == KeyAfter(windowMs, maxPerSec, Calls(channel))
    }

    constructor (maxPerSec: int)
      ensures Valid() && calls == map[] && this.maxPerSec == maxPerSec && windowMs == 1000
    {
      this.maxPerSec, windowMs := maxPerSec, 1000;
      keys, calls := map[], map[];
    }

    /**
     The answer is the script's next one on this channel, whose other calls do not matter; under an orderly clock
     and fresh members it is: fewer than maxPerSec calls were allowed in the last windowMs.
     */
    method Allow(channel: string, now: int, rnd: nat) returns (allowed: bool)
      requires Valid()
      modifies this
      ensures Valid()
      ensures calls == old(calls)[channel := old(Calls(channel)) + [Request(now, rnd)]]
      ensures Answers(windowMs, maxPerSec, Calls(channel))
          == Answers(windowMs, maxPerSec, old(Calls(channel))) + [allowed]
      ensures Ordered(Times(Calls(channel))) && Fresh(Calls(channel)) ==>
                var before := old(Calls(channel));
                allowed <==> Count(Times(before), Answers(windowMs, maxPerSec, before), now - windowMs, now) < maxPerSec
      ensures forall c | c != channel :: KeyOf(c) == old(KeyOf(c)) && Calls(c) == old(Calls(c))
    {
      hide Script, Since, KeyAfter, Answers, Count, Ordered, Fresh, Times;
      ghost var before, r := Calls(channel), Request(now, rnd);
      var key := KeyOf(channel);
      allowed, key := RunScript(key, windowMs, maxPerSec, now, rnd);
      keys := keys[channel := key];
      calls := calls[channel := before + [r]];
      LastOfAnswers(windowMs, maxPerSec, before, r);
      if Ordered(Times(before + [r])) && Fresh(before + [r]) {
        AnswerIsRule(windowMs, maxPerSec, before, r);
      }
      forall c ensures KeyOf(c) == KeyAfter(windowMs, maxPerSec, Calls(c)) {
        assert c != channel ==> KeyOf(c) == old(KeyOf(c)) && Calls(c) == old(Calls(c));
      }
    }
  }

  /** The commands of the Lua script on one key. */
  method RunScript(key: Key, window: int, max: int, now: int, rnd: nat) returns (allowed: bool, key': Key)
    ensures Outcome(key', allowed) == Script(key, window, max, Request(now, rnd))
  {
    key' := key;
    if key'.expiresAt.Some? && now > key'.expiresAt.value {
      key' := NO_KEY;
    }
    var members := Since(key'.members, now - window);
    key' := Key(members, if members == {} then None else key'.expiresAt);
    var count := |key'.members|;
    if count < max {
      key' := Key(key'.members + {Request(now, rnd)}, Some(now + window));
      return true, key';
    }
    return false, key';
  }

  lemma AnswerIsRule(window: int, max: int, before: seq<Request>, r: Request)
    requires Ordered(Times(before + [r])) && Fresh(before + [r])
    ensures Script(KeyAfter(window, max, before), window, max, r).allowed <==>
            Count(Times(before), Answers(window, max, before), r.time - window, r.time) < max
  {
    hide KeyAfter, Answers, Count, Script;
    EarlierTimes(before + [r]);
    assert (before + [r])[..|before|] == before;
    FreshIsDistinct(before, Answers(window, max, before), r.time - window);
    NextAnswerIff(window, max, before, r);
  }
}
