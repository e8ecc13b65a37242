/**
 The delayed sorted set of internal/queue/producer.go, in Redis order: by score, then by member. Popping what
 is due takes a prefix; popping again and again drains it in order.
 */
module DelayedSet {
  import opened Domain
  import P = Pipeline

  datatype Scored = Scored(member: string, score: int)

  predicate TextBelow(a: string, b: string) {
    b != "" && (a == "" || a[0] < b[0] || (a[0] == b[0] && TextBelow(a[1..], b[1..])))
  }

  predicate Before(x: Scored, y: Scored) {
    x.score < y.score || (x.score == y.score && TextBelow(x.member, y.member))
  }

  /** In Redis order, every member once. */
  ghost predicate Ordered(z: seq<Scored>) {
    && (forall i, j | 0 <= i < j < |z| :: Before(z[i], z[j]))
    && (forall i, j | 0 <= i < j < |z| :: z[i].member != z[j].member)
  }

  // ---------------------------------------------------------------- ZADD, ZREM, ZRANGEBYSCORE

  function ZRem(z: seq<Scored>, members: set<string>): seq<Scored> {
    if z == [] then [] else (if z[0].member in members then [] else [z[0]]) + ZRem(z[1..], members)
  }

  function Placed(z: seq<Scored>, x: Scored): seq<Scored> {
    if z != [] && Before(z[0], x) then [z[0]] + Placed(z[1..], x) else [x] + z
  }

  /** A member that is already there is moved to its new score. */
  function ZAdd(z: seq<Scored>, x: Scored): seq<Scored> {
    Placed(ZRem(z, {x.member}), x)
  }

  function DueCount(z: seq<Scored>, now: int): (n: nat)
    ensures n <= |z|
  {
    if z == [] || z[0].score > now then 0 else 1 + DueCount(z[1..], now)
  }

  /** A count of zero or less means no limit. */
  function PopCount(z: seq<Scored>, now: int, count: int): (n: nat)
    ensures n <= |z|
  {
    var due := DueCount(z, now);
    if 0 < count < due then count else due
  }

  function Members(z: seq<Scored>): (members: seq<string>)
    ensures |members| == |z| && forall i | 0 <= i < |z| :: members[i] == z[i].member
  {
    seq(|z|, i requires 0 <= i < |z| => z[i].member)
  }

  /** ZRANGEBYSCORE -inf now LIMIT 0 count. */
  function RangeByScore(z: seq<Scored>, now: int, count: int): seq<string> {
    Members(z[..PopCount(z, now, count)])
  }

  // ---------------------------------------------------------------- the order is kept

  lemma {:induction false} TextTotal(a: string, b: string)
    ensures a == b || TextBelow(a, b) || TextBelow(b, a)
    ensures !(TextBelow(a, b) && TextBelow(b, a)) && !TextBelow(a, a)
  {
    if a != "" && b != "" {
      TextTotal(a[1..], b[1..]);
      if a[0] == b[0] && a[1..] == b[1..] {
        assert a == [a[0]] + a[1..] == b;
      }
    }
    if a != "" {
      TextTotal(a[1..], a[1..]);
    }
  }

  /** Byte order: the first place where the texts differ decides, and a text comes before its continuations. */
  lemma {:induction false} TextBelowIff(a: string, b: string)
    ensures TextBelow(a, b) <==>
              exists k :: 0 <= k <= |a| && k < |b| && a[..k] == b[..k] && (k == |a| || a[k] < b[k])
  {
    if b != "" && a != "" && a[0] == b[0] {
      TextBelowIff(a[1..], b[1..]);
      if k :| 0 <= k <= |a[1..]| && k < |b[1..]| && a[1..][..k] == b[1..][..k]
              && (k == |a[1..]| || a[1..][k] < b[1..][k]) {
        assert a[..k + 1] == [a[0]] + a[1..][..k] && b[..k + 1] == [b[0]] + b[1..][..k];
      }
      if k :| 0 <= k <= |a| && k < |b| && a[..k] == b[..k] && (k == |a| || a[k] < b[k]) {
        assert k > 0;
        assert a[1..][..k - 1] == a[..k][1..] && b[1..][..k - 1] == b[..k][1..];
      }
    } else {
      if b != "" && (a == "" || a[0] < b[0]) {
        assert a[..0] == b[..0];
      }
      if k :| 0 <= k <= |a| && k < |b| && a[..k] == b[..k] && (k == |a| || a[k] < b[k]) {
        if k > 0 {
          SameFirst(a, b, k);
        }
      }
    }
  }

  lemma SameFirst(a: string, b: string, k: nat)
    requires 0 < k <= |a| && k <= |b| && a[..k] == b[..k]
    ensures a[0] == b[0]
  {
    assert a[..k][0] == a[0];
    assert b[..k][0] == b[0];
  }

  lemma {:induction false} TextTransitive(a: string, b: string, c: string)
    requires TextBelow(a, b) && TextBelow(b, c)
    ensures TextBelow(a, c)
  {
    if a != "" && a[0] == b[0] == c[0] {
      TextTransitive(a[1..], b[1..], c[1..]);
    }
  }

  lemma BeforeTransitive(x: Scored, y: Scored, w: Scored)
    requires Before(x, y) && Before(y, w)
    ensures Before(x, w)
  {
    if x.score == y.score == w.score {
      TextTransitive(x.member, y.member, w.member);
    }
  }

  lemma {:induction false} ZRemKeeps(z: seq<Scored>, members: set<string>)
    requires Ordered(z)
    ensures Ordered(ZRem(z, members))
    ensures forall x :: x in ZRem(z, members) <==> x in z && x.member !in members
  {
    if z != [] {
      assert Ordered(z[1..]);
      ZRemKeeps(z[1..], members);
      var rest := ZRem(z[1..], members);
      forall i | 0 <= i < |rest| ensures Before(z[0], rest[i]) && z[0].member != rest[i].member {
        assert rest[i] in z[1..];
      }
    }
  }

  lemma {:induction false} PlacedKeeps(z: seq<Scored>, x: Scored)
    requires Ordered(z) && forall i | 0 <= i < |z| :: z[i].member != x.member
    ensures Ordered(Placed(z, x))
    ensures forall y :: y in Placed(z, x) <==> y in z || y == x
  {
    if z != [] {
      if Before(z[0], x) {
        assert Ordered(z[1..]);
        PlacedKeeps(z[1..], x);
        var rest := Placed(z[1..], x);
        forall i | 0 <= i < |rest| ensures Before(z[0], rest[i]) && z[0].member != rest[i].member {
          assert rest[i] in z[1..] || rest[i] == x;
        }
      } else {
        TextTotal(z[0].member, x.member);
        forall i | 0 <= i < |z| ensures Before(x, z[i]) {
          if i > 0 {
            BeforeTransitive(x, z[0], z[i]);
          }
        }
      }
    }
  }

  lemma ZAddKeeps(z: seq<Scored>, x: Scored)
    requires Ordered(z)
    ensures Ordered(ZAdd(z, x))
    ensures forall y :: y in ZAdd(z, x) <==> y == x || (y in z && y.member != x.member)
  {
    hide Ordered;
    ZRemKeeps(z, {x.member});
    PlacedKeeps(ZRem(z, {x.member}), x);
  }

  // ---------------------------------------------------------------- as a map from members to scores

  function Scores(z: seq<Scored>): map<string, int> {
    if z == [] then map[] else Scores(z[1..])[z[0].member := z[0].score]
  }

  lemma {:induction false} ScoresAre(z: seq<Scored>)
    requires Ordered(z)
    ensures forall m :: m in Scores(z) <==> exists i :: 0 <= i < |z| && z[i].member == m
    ensures forall i | 0 <= i < |z| :: z[i].member in Scores(z) && Scores(z)[z[i].member] == z[i].score
  {
    if z != [] {
      assert Ordered(z[1..]);
      ScoresAre(z[1..]);
      forall i | 0 <= i < |z| ensures z[i].member in Scores(z) && Scores(z)[z[i].member] == z[i].score {
        assert i > 0 ==> z[1..][i - 1] == z[i];
      }
      forall m | m in Scores(z[1..]) ensures exists i :: 0 <= i < |z| && z[i].member == m {
        var i :| 0 <= i < |z[1..]| && z[1..][i].member == m;
        assert z[i + 1].member == m;
      }
    }
  }

  lemma ScoreOf(z: seq<Scored>, x: Scored)
    requires Ordered(z)
    ensures x in z <==> x.member in Scores(z) && Scores(z)[x.member] == x.score
  {
    ScoresAre(z);
    if x.member in Scores(z) && Scores(z)[x.member] == x.score {
      var i :| 0 <= i < |z| && z[i].member == x.member;
      assert z[i] == x;
    }
  }

  predicate Maps(scores: map<string, int>, m: string, score: int) {
    m in scores && scores[m] == score
  }

  lemma SameMap(a: map<string, int>, b: map<string, int>)
    requires forall m, score :: Maps(a, m, score) <==> Maps(b, m, score)
    ensures a == b
  {
    forall m ensures m in a <==> m in b {
      assert m in a ==> Maps(b, m, a[m]);
      assert m in b ==> Maps(a, m, b[m]);
    }
    forall m | m in a ensures a[m] == b[m] {
      assert Maps(b, m, a[m]);
    }
  }

  /** ZADD sets one member's score and leaves the others'. */
  lemma ZAddSets(z: seq<Scored>, x: Scored)
    requires Ordered(z)
    ensures Scores(ZAdd(z, x)) == Scores(z)[x.member := x.score]
  {
    hide Ordered, Scores, ZAdd;
    ZAddKeeps(z, x);
    var z' := ZAdd(z, x);
    forall m, score ensures Maps(Scores(z'), m, score) <==> Maps(Scores(z)[x.member := x.score], m, score) {
      ScoreOf(z, Scored(m, score));
      ScoreOf(z', Scored(m, score));
    }
    SameMap(Scores(z'), Scores(z)[x.member := x.score]);
  }

  /** ZREM takes out the named members and leaves the others. */
  lemma ZRemTakes(z: seq<Scored>, members: set<string>)
    requires Ordered(z)
    ensures Scores(ZRem(z, members)) == Scores(z) - members
  {
    hide Ordered, Scores, ZRem;
    ZRemKeeps(z, members);
    var z' := ZRem(z, members);
    forall m, score ensures Maps(Scores(z'), m, score) <==> Maps(Scores(z) - members, m, score) {
      ScoreOf(z, Scored(m, score));
      ScoreOf(z', Scored(m, score));
    }
    SameMap(Scores(z'), Scores(z) - members);
  }

  // ---------------------------------------------------------------- popping

  lemma {:induction false} DueIsPrefix(z: seq<Scored>, now: int)
    requires Ordered(z)
    ensures forall i | 0 <= i < |z| :: z[i].score <= now <==> i < DueCount(z, now)
  {
    if z != [] {
      assert Ordered(z[1..]);
      if z[0].score <= now {
        DueIsPrefix(z[1..], now);
        assert forall i | 0 < i < |z| :: z[i] == z[1..][i - 1];
      } else {
        assert forall i | 0 < i < |z| :: Before(z[0], z[i]);
      }
    }
  }

  lemma {:induction false} RemPrefix(z: seq<Scored>, k: nat)
    requires Ordered(z) && k <= |z|
    ensures ZRem(z, P.Elements(Members(z[..k]))) == z[k..]
  {
    var gone := P.Elements(Members(z[..k]));
    assert forall i | 0 <= i < k :: Members(z[..k])[i] == z[i].member;
    RemSuffix(z, k, gone);
  }

  lemma {:induction false} RemSuffix(z: seq<Scored>, k: nat, gone: set<string>)
    requires k <= |z| && forall i | 0 <= i < |z| :: z[i].member in gone <==> i < k
    ensures ZRem(z, gone) == z[k..]
  {
    if z != [] {
      var k' := if k == 0 then 0 else k - 1;
      assert forall i | 0 <= i < |z[1..]| :: z[1..][i] == z[i + 1];
      RemSuffix(z[1..], k', gone);
      assert z[0].member in gone <==> k > 0;
    }
  }

  /**
   The range followed by the removal, run alone: what comes back is in score order the min(count, due) lowest-scored
   of the due members, and the set keeps exactly the rest.
   */
  lemma PopTakesLowest(z: seq<Scored>, now: int, count: int)
    requires Ordered(z)
    ensures var members, due := RangeByScore(z, now, count), DueCount(z, now);
            var rest := ZRem(z, P.Elements(members));
            && |members| == (if count > 0 && count < due then count else due)
            && rest == z[|members|..] && Ordered(rest)
            && (forall i | 0 <= i < |members| :: Scored(members[i], z[i].score) == z[i] && z[i].score <= now)
            && (|members| == due ==> forall x | x in rest :: x.score > now)
            && (forall i, x | 0 <= i < |members| && x in rest :: Before(z[i], x))
  {
    var k := PopCount(z, now, count);
    RemPrefix(z, k);
    DueIsPrefix(z, now);
  }

  lemma Listed(z: seq<Scored>, k: nat, j: nat)
    requires k <= |z| && j < |z|
    ensures j < k ==> z[j].member in Members(z[..k])
  {
    if j < k {
      assert Members(z[..k])[j] == z[j].member;
    }
  }

  /** So a pop with a positive count is one that the pipeline's delayed processor may make. */
  lemma PopIsDueBatch(z: seq<Scored>, now: int, count: nat)
    requires Ordered(z) && count > 0
    ensures P.DueBatch(Scores(z), now, count, RangeByScore(z, now, count))
  {
    var k := PopCount(z, now, count);
    var batch := RangeByScore(z, now, count);
    DueIsPrefix(z, now);
    ScoresAre(z);
    assert forall i | 0 <= i < k :: batch[i] == z[i].member;
    forall m | m in Scores(z) && Scores(z)[m] <= now && m !in batch
      ensures k == count && forall i | 0 <= i < k :: Scores(z)[batch[i]] <= Scores(z)[m]
    {
      var j :| 0 <= j < |z| && z[j].member == m;
      Listed(z, k, j);
      assert forall i | 0 <= i < k :: Before(z[i], z[j]);
    }
  }

  function DueSet(scores: map<string, int>, now: int): set<string> {
    set m | m in scores && scores[m] <= now
  }

  /** Popped are all due members when there are at most count, and otherwise exactly count of them. */
  lemma PopSize(z: seq<Scored>, now: int, count: nat)
    requires Ordered(z) && count > 0
    ensures var members, due := P.Elements(RangeByScore(z, now, count)), DueSet(Scores(z), now);
            && members <= due && |members| == |RangeByScore(z, now, count)|
            && (|due| <= count ==> members == due) && (|due| > count ==> |members| == count)
  {
    var all, k := DueCount(z, now), PopCount(z, now, count);
    hide PopCount, DueCount;
    DueIsPrefix(z, now);
    ScoresAre(z);
    PrefixSize(z, all);
    PrefixSize(z, k);
    var due := DueSet(Scores(z), now);
    forall m ensures m in due <==> m in P.Elements(Members(z[..all])) {
      InPrefix(z, all, m);
      if m in due {
        var i :| 0 <= i < |z| && z[i].member == m;
        assert i < all;
      }
    }
    assert due == P.Elements(Members(z[..all]));
    PopCountIs(z, now, count);
    forall m | m in P.Elements(Members(z[..k])) ensures m in due {
      InPrefix(z, k, m);
      InPrefix(z, all, m);
    }
  }

  lemma PopCountIs(z: seq<Scored>, now: int, count: nat)
    requires count > 0
    ensures PopCount(z, now, count) == if DueCount(z, now) <= count then DueCount(z, now) else count
  {
  }

  lemma InPrefix(z: seq<Scored>, k: nat, m: string)
    requires k <= |z|
    ensures m in P.Elements(Members(z[..k])) <==> exists i :: 0 <= i < k && z[i].member == m
  {
    var members := Members(z[..k]);
    assert forall i | 0 <= i < k :: members[i] == z[i].member;
  }

  lemma {:induction false} PrefixSize(z: seq<Scored>, k: nat)
    requires Ordered(z) && k <= |z|
    ensures |P.Elements(Members(z[..k]))| == k
  {
    if k > 0 {
      PrefixSize(z, k - 1);
      var fewer, all := P.Elements(Members(z[..k - 1])), P.Elements(Members(z[..k]));
      hide P.Elements, Members;
      InPrefix(z, k - 1, z[k - 1].member);
      forall m ensures m in all <==> m in fewer || m == z[k - 1].member {
        InPrefix(z, k - 1, m);
        InPrefix(z, k, m);
      }
      assert all == fewer + {z[k - 1].member};
    } else {
      assert P.Elements(Members(z[..k])) == {};
    }
  }

  // ---------------------------------------------------------------- draining

  datatype PopResult = PopResult(members: seq<string>, rest: seq<Scored>)

  /** What n pops at the same clock reading return, one after another, and what they leave. */
  function PopTimes(z: seq<Scored>, now: int, count: int, n: nat): PopResult
    decreases n
  {
    if n == 0 then PopResult([], z)
    else
      var members := RangeByScore(z, now, count);
      var later := PopTimes(ZRem(z, P.Elements(members)), now, count, n - 1);
      PopResult(members + later.members, later.rest)
  }

  lemma {:induction false} DueAfterPop(z: seq<Scored>, now: int, k: nat)
    requires k <= DueCount(z, now)
    ensures DueCount(z[k..], now) == DueCount(z, now) - k
  {
    if k > 0 {
      DueAfterPop(z[1..], now, k - 1);
      assert z[1..][k - 1..] == z[k..];
    }
  }

  lemma SuffixOrdered(z: seq<Scored>, k: nat)
    requires Ordered(z) && k <= |z|
    ensures Ordered(z[k..])
  {
  }

  /** How many of the due members n pops of at most count return. */
  function Taken(n: nat, count: nat, due: nat): nat {
    if n * count < due then n * count else due
  }

  lemma TakenStep(n: nat, count: nat, due: nat)
    requires n > 0 && count > 0
    ensures var k := if count < due then count else due;
            Taken(n, count, due) == k + Taken(n - 1, count, due - k)
  {
    assert n * count == count + (n - 1) * count;
    assert (n - 1) * count >= 0;
  }

  lemma TakenIsDue(n: nat, count: nat, due: nat)
    ensures Taken(n, count, due) <= due && (n == 0 ==> Taken(n, count, due) == 0)
  {
  }

  /** The first n pops return the first n * count due members, in order and each once. */
  lemma {:induction false} PopsTakePrefix(z: seq<Scored>, now: int, count: nat, n: nat)
    requires Ordered(z) && count > 0
    ensures var taken := Taken(n, count, DueCount(z, now));
            taken <= |z| && PopTimes(z, now, count, n) == PopResult(Members(z[..taken]), z[taken..])
    decreases n
  {
    hide ZRem, Ordered, Taken, DueCount, TextBelow;
    var due := DueCount(z, now);
    TakenIsDue(n, count, due);
    if n == 0 {
      assert z[..0] == [] && z[0..] == z;
    } else {
      TakenStep(n, count, due);
      var k := PopCount(z, now, count);
      RemPrefix(z, k);
      DueAfterPop(z, now, k);
      assert Ordered(z[k..]) by { SuffixOrdered(z, k); }
      PopsTakePrefix(z[k..], now, count, n - 1);
      PrefixesJoin(z, k, Taken(n - 1, count, due - k));
    }
  }

  lemma PrefixesJoin(z: seq<Scored>, k: nat, later: nat)
    requires k + later <= |z|
    ensures Members(z[..k]) + Members(z[k..][..later]) == Members(z[..k + later])
    ensures z[k..][later..] == z[k + later..]
  {
    assert z[k..][..later] == z[k..k + later] && z[..k] + z[k..k + later] == z[..k + later];
  }

  /** ceil(due / count). */
  function PopsToDrain(due: nat, count: nat): nat
    requires count > 0
  {
    (due + count - 1) / count
  }

  lemma PopsToDrainSuffice(due: nat, count: nat, n: nat)
    requires count > 0
    ensures Taken(PopsToDrain(due, count), count, due) == due
    ensures n < PopsToDrain(due, count) ==> Taken(n, count, due) < due
  {
    var all := PopsToDrain(due, count);
    assert due + count - 1 == all * count + (due + count - 1) % count;
    if n < all {
      assert n * count <= (all - 1) * count;
      assert (all - 1) * count == all * count - count;
    }
  }

  /**
   After ceil(due / count) pops, and not before, every due member has come back once, in score order; none is
   left.
   */
  lemma DrainsInOrder(z: seq<Scored>, now: int, count: nat, n: nat)
    requires Ordered(z) && count > 0
    ensures var due := DueCount(z, now);
            var popped := PopTimes(z, now, count, PopsToDrain(due, count));
            && popped.members == Members(z[..due]) && popped.rest == z[due..]
            && (forall x :: x in z[..due] <==> x in z && x.score <= now)
            && (forall x | x in popped.rest :: x.score > now)
            && (n < PopsToDrain(due, count) ==> |PopTimes(z, now, count, n).members| < due)
  {
    hide Taken, PopsToDrain, PopTimes;
    var due := DueCount(z, now);
    PopsToDrainSuffice(due, count, n);
    PopsTakePrefix(z, now, count, PopsToDrain(due, count));
    PopsTakePrefix(z, now, count, n);
    DueIsPrefix(z, now);
    forall x | x in z && x.score <= now ensures x in z[..due] {
      var i :| 0 <= i < |z| && z[i] == x;
      assert z[..due][i] == x;
    }
  }
}
