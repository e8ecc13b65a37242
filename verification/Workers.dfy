/** internal/worker: one poll of the scheduler, one message of a worker, one batch of the delayed processor. */
module Workers {
  import opened Domain
  import opened Table
  import P = Pipeline
  import opened Alone
  import opened Repositories
  import opened Queues
  import opened DelayedSet
  import MC = MemberCodec
  import RL = RateLimit
  import Retry

  class Scheduler {
    const repo: NotificationRepository
    const producer: Broker
    const batchSize: nat

    constructor (repo: NotificationRepository, producer: Broker, batchSize: nat)
      ensures this.repo == repo && this.producer == producer && this.batchSize == batchSize
    {
      this.repo, this.producer, this.batchSize := repo, producer, batchSize;
    }

    /** Claims the earliest due rows and puts each on its stream, in the order they came back. */
    method Poll(now: int) returns (ghost ids: seq<Uuid>)
      requires producer.Valid()
      modifies repo, producer
      ensures producer.Valid() && EarliestDue(old(repo.rows), now, batchSize, ids)
      ensures repo.View() == PromoteAll(old(repo.View()), ids)
      ensures producer.View() == EnqueuedAll(old(producer.View()), ClaimedItems(old(repo.rows), ids))
      // in terms of the columns
      ensures Earliest(old(repo.rows), now, batchSize, ids)
      ensures forall p ::
                && P.Log(producer.View(), p)
                   == P.Log(old(producer.View()), p) + EntriesFor(ClaimedItems(old(repo.rows), ids), p)
                && forall e | e in EntriesFor(ClaimedItems(old(repo.rows), ids), p) ::
                     e.id in ids && Announces(e, p, old(repo.rows))
    {
      hide P.Append, P.PromoteRow, EarliestDue, PromoteAll;
      var items;
      items, ids := repo.FetchScheduledDue(batchSize, now);
      assert items[0..] == items;
      for i := 0 to |items|
        invariant producer.Valid() && repo.View() == PromoteAll(old(repo.View()), ids)
        invariant EnqueuedAll(producer.View(), items[i..]) == EnqueuedAll(old(producer.View()), items)
      {
        var n := items[i];
        assert items[i..][0] == n && items[i..][1..] == items[i + 1..];
        PriorityRoundTrip(n.row.priority);
        producer.Enqueue(n.id, ChannelText(n.row.channel), PriorityText(n.row.priority));
      }
      assert items[|items|..] == [];
      ghost var was := old(repo.rows);
      forall p
        ensures P.Log(producer.View(), p) == P.Log(old(producer.View()), p) + EntriesFor(items, p)
        ensures forall e | e in EntriesFor(items, p) :: e.id in ids && Announces(e, p, was)
      {
        PollFills(old(producer.View()), items, p);
        ClaimedAnnounced(was, ids, p);
      }
    }
  }

  /** The entry names a row whose priority is the stream's, and spells its channel. */
  predicate Announces(e: P.Entry, p: Priority, rows: Rows) {
    && e.id in rows && rows[e.id].priority == p
    && (rows[e.id].channel == Sms ==> e.channel == "sms")
    && (rows[e.id].channel == Email ==> e.channel == "email")
    && (rows[e.id].channel == Push ==> e.channel == "push")
  }

  lemma {:induction false} ItemsAnnounced(rows: Rows, items: seq<Item>, p: Priority)
    requires forall i | 0 <= i < |items| ::
               && items[i].id in rows && items[i].row.priority == rows[items[i].id].priority
               && items[i].row.channel == rows[items[i].id].channel
    ensures forall e | e in EntriesFor(items, p) ::
              Announces(e, p, rows) && exists i :: 0 <= i < |items| && items[i].id == e.id
  {
    if items != [] {
      ItemsAnnounced(rows, items[1..], p);
      forall e | e in EntriesFor(items[1..], p) ensures exists i :: 0 <= i < |items| && items[i].id == e.id {
        var i :| 0 <= i < |items[1..]| && items[1..][i].id == e.id;
        assert items[i + 1].id == e.id;
      }
      assert items[0].id == P.EntryFor(items[0]).id;
    }
  }

  lemma ClaimedAnnounced(rows: Rows, ids: seq<Uuid>, p: Priority)
    requires forall i | 0 <= i < |ids| :: ids[i] in rows
    ensures forall e | e in EntriesFor(ClaimedItems(rows, ids), p) :: e.id in ids && Announces(e, p, rows)
  {
    hide Announces, EntriesFor;
    var items := ClaimedItems(rows, ids);
    ItemsAnnounced(rows, items, p);
    forall e | e in EntriesFor(items, p) ensures e.id in ids {
      var i :| 0 <= i < |items| && items[i].id == e.id;
      assert ids[i] == e.id;
    }
  }

  // What asking the limiter came to, and the calls its channel has seen since.
  datatype Verdict = Verdict(admitted: bool, history: seq<RL.Request>)

  /** The limiter's answer to the last of a channel's calls. */
  function Last(window: int, max: int, history: seq<RL.Request>): bool
    requires history != []
  {
    RL.Answers(window, max, history)[|history| - 1]
  }

  /** Ask call by call, on a channel that has seen history, until one is allowed or fails. */
  function Gate(window: int, max: int, history: seq<RL.Request>, calls: seq<Option<RL.Request>>): Verdict
    decreases |calls|
  {
    if calls == [] then Verdict(false, history)
    else if calls[0].None? then Verdict(true, history)
    else
      var asked := history + [calls[0].value];
      if Last(window, max, asked) then Verdict(true, asked) else Gate(window, max, asked, calls[1..])
  }

  function Requests(calls: seq<Option<RL.Request>>): (requests: seq<RL.Request>)
    requires forall i | 0 <= i < |calls| :: calls[i].Some?
    ensures |requests| == |calls| && forall i | 0 <= i < |calls| :: requests[i] == calls[i].value
  {
    seq(|calls|, i requires 0 <= i < |calls| => calls[i].value)
  }

  /** Call i reaches the limiter, which refuses it. */
  predicate RefusedAt(window: int, max: int, history: seq<RL.Request>, calls: seq<Option<RL.Request>>, i: nat)
    requires i < |calls|
  {
    (forall j | 0 <= j <= i :: calls[j].Some?) && !Last(window, max, history + Requests(calls[..i + 1]))
  }

  predicate AllRefused(window: int, max: int, history: seq<RL.Request>, calls: seq<Option<RL.Request>>, n: nat)
    requires n <= |calls|
  {
    forall i | 0 <= i < n :: RefusedAt(window, max, history, calls, i)
  }

  /** The calls before n are refused, and call n fails or is allowed. */
  predicate Passes(window: int, max: int, history: seq<RL.Request>, calls: seq<Option<RL.Request>>, n: nat) {
    n < |calls| && AllRefused(window, max, history, calls, n) && !RefusedAt(window, max, history, calls, n)
  }

  lemma RefusedLater(window: int, max: int, history: seq<RL.Request>, calls: seq<Option<RL.Request>>, i: nat)
    requires i + 1 < |calls| && calls[0].Some?
    ensures RefusedAt(window, max, history, calls, i + 1)
       <==> RefusedAt(window, max, history + [calls[0].value], calls[1..], i)
  {
    hide Last;
    assert forall j | 0 <= j < |calls[1..]| :: calls[1..][j] == calls[j + 1];
    if forall j | 0 <= j <= i + 1 :: calls[j].Some? {
      assert Requests(calls[..i + 2]) == [calls[0].value] + Requests(calls[1..][..i + 1]);
      assert history + Requests(calls[..i + 2]) == history + [calls[0].value] + Requests(calls[1..][..i + 1]);
    }
    if forall j | 0 <= j <= i :: calls[1..][j].Some? {
      assert forall j | 0 <= j <= i + 1 :: j > 0 ==> calls[j] == calls[1..][j - 1];
    }
  }

  lemma RefusedShift(window: int, max: int, history: seq<RL.Request>, calls: seq<Option<RL.Request>>, n: nat)
    requires n < |calls| && calls[0].Some? && !Last(window, max, history + [calls[0].value])
    ensures AllRefused(window, max, history + [calls[0].value], calls[1..], n) ==>
              AllRefused(window, max, history, calls, n + 1)
    ensures n + 1 < |calls| ==>
              (RefusedAt(window, max, history, calls, n + 1) <==>
                 RefusedAt(window, max, history + [calls[0].value], calls[1..], n))
  {
    hide Last;
    assert Requests(calls[..1]) == [calls[0].value];
    assert RefusedAt(window, max, history, calls, 0);
    hide RefusedAt;
    forall i | 0 < i < |calls|
      ensures RefusedAt(window, max, history, calls, i)
         <==> RefusedAt(window, max, history + [calls[0].value], calls[1..], i - 1)
    {
      RefusedLater(window, max, history, calls, i - 1);
    }
  }

  lemma {:induction false} AsksUntil(window: int, max: int, history: seq<RL.Request>, calls: seq<Option<RL.Request>>)
    returns (n: nat)
    ensures n <= |calls| && AllRefused(window, max, history, calls, n)
    ensures forall i | 0 <= i < n :: calls[i].Some?
    ensures var gate := Gate(window, max, history, calls);
            if n == |calls| then gate == Verdict(false, history + Requests(calls))
            else
              && !RefusedAt(window, max, history, calls, n)
              && gate == Verdict(true, history + Requests(calls[..if calls[n].None? then n else n + 1]))
    decreases |calls|
  {
    hide Last;
    n := 0;
    if calls == [] {
      assert history + [] == history;
    } else if calls[0].None? {
      assert history + [] == history && calls[..0] == [];
    } else {
      var r := calls[0].value;
      assert Requests(calls[..1]) == [r];
      if !Last(window, max, history + [r]) {
        n := AsksUntil(window, max, history + [r], calls[1..]);
        var rest := calls[1..];
        RefusedShift(window, max, history, calls, n);
        hide RefusedAt, AllRefused, Requests;
        RequestsJoin(history, calls, n, if n < |rest| && rest[n].Some? then n + 1 else n);
        n := n + 1;
      }
    }
  }

  lemma RequestsJoin(history: seq<RL.Request>, calls: seq<Option<RL.Request>>, n: nat, k: nat)
    requires n <= k < |calls| && forall i | 0 <= i < k + 1 :: calls[i].Some?
    ensures history + [calls[0].value] + Requests(calls[1..][..k]) == history + Requests(calls[..k + 1])
  {
    assert Requests(calls[..k + 1]) == [calls[0].value] + Requests(calls[1..][..k]);
  }

  /**
   A message is admitted exactly when some call fails or is allowed after every call before it was refused; the
   limiter has then seen the calls before it and, unless it failed, itself. Otherwise it has refused them all.
   */
  lemma GateAdmits(window: int, max: int, history: seq<RL.Request>, calls: seq<Option<RL.Request>>)
    ensures var gate := Gate(window, max, history, calls);
            && (gate.admitted <==> exists n: nat :: Passes(window, max, history, calls, n))
            && (gate.admitted <==> !AllRefused(window, max, history, calls, |calls|))
            && exists k :: 0 <= k <= |calls| && (forall i | 0 <= i < k :: calls[i].Some?)
                           && gate.history == history + Requests(calls[..k])
  {
    hide RefusedAt, Gate;
    var n := AsksUntil(window, max, history, calls);
    if n < |calls| {
      assert Passes(window, max, history, calls, n);
    } else {
      assert calls[..n] == calls;
    }
  }

  class Dispatcher {
    const repo: NotificationRepository
    const broker: Broker
    const limiter: RL.Limiter
    const providers: set<Channel>

    ghost function View(): Stores
      reads repo, broker
    {
      Stores(repo.View(), broker.View())
    }

    constructor (repo: NotificationRepository, broker: Broker, limiter: RL.Limiter, providers: set<Channel>)
      ensures this.repo == repo && this.broker == broker && this.limiter == limiter && this.providers == providers
    {
      this.repo, this.broker, this.limiter, this.providers := repo, broker, limiter, providers;
    }

    /**
     Asks the limiter until it allows the message or fails; None is a failed call, and running out of calls
     stands for a cancelled context.
     */
    method Admit(channel: string, calls: seq<Option<RL.Request>>) returns (admitted: bool)
      requires limiter.Valid()
      modifies limiter
      ensures limiter.Valid()
      ensures Gate(limiter.windowMs, limiter.maxPerSec, old(limiter.Calls(channel)), calls)
           == Verdict(admitted, limiter.Calls(channel))
      ensures forall c | c != channel :: limiter.Calls(c) == old(limiter.Calls(c))
    {
      hide RL.Answers, RL.KeyAfter, RL.Count;
      ghost var before := limiter.Calls(channel);
      ghost var window, max := limiter.windowMs, limiter.maxPerSec;
      assert calls[0..] == calls;
      for i := 0 to |calls|
        invariant limiter.Valid() && forall c | c != channel :: limiter.Calls(c) == old(limiter.Calls(c))
        invariant Gate(window, max, before, calls) == Gate(window, max, limiter.Calls(channel), calls[i..])
      {
        assert calls[i..][0] == calls[i] && calls[i..][1..] == calls[i + 1..];
        if calls[i].None? {
          return true;
        }
        var r := calls[i].value;
        ghost var history := limiter.Calls(channel);
        var allowed := limiter.Allow(channel, r.time, r.rnd);
        assert limiter.Calls(channel) == history + [r];
        assert Last(window, max, history + [r]) == allowed;
        if allowed {
          return true;
        }
      }
      return false;
    }

    /**
     processMessage, for the provider's answer ok: nothing until the limiter lets the message through, then
     Handled.
     */
    method ProcessMessage(message: P.Message, calls: seq<Option<RL.Request>>, now: int, ok: bool)
        returns (admitted: bool)
      requires broker.Valid() && limiter.Valid()
      modifies repo, broker, limiter
      ensures broker.Valid() && limiter.Valid()
      ensures Gate(limiter.windowMs, limiter.maxPerSec, old(limiter.Calls(message.channel)), calls)
           == Verdict(admitted, limiter.Calls(message.channel))
      ensures View() == if admitted then Handled(old(View()), providers, message, now, ok) else old(View())
      // nothing but the ack for a missing or a finished notification
      ensures admitted && (message.id in old(repo.rows) ==>
                             old(repo.rows)[message.id].status in {Delivered, Cancelled, Failed}) ==>
                && repo.View() == old(repo.View())
                && broker.View().delayed == old(broker.View()).delayed && broker.View().dead == old(broker.View()).dead
      // and for any other, what the answer leads to
      ensures admitted && message.id in old(repo.rows)
              && old(repo.rows)[message.id].status in {Pending, Scheduled, Queued, Processing} ==>
                && RowOutcome(old(repo.View()), repo.View(), providers, message.id, ok)
                && QueueOutcome(old(broker.View()), broker.View(), providers, message.id, old(repo.rows)[message.id],
                     now, ok)
    {
      HandledOutcome(View(), providers, message, now, ok);
      admitted := Admit(message.channel, calls);
      if !admitted {
        return;
      }
      hide P.WriteStatus, SentAndRecorded, P.RecordHandled, P.EnqueueDelayed, P.PushDead, P.Ack, P.Hand,
           Retry.Backoff, Retry.ShouldRetry, Scores, Ordered,
           RowOutcome, QueueOutcome, OnlyTouches;
      var id := message.id;
      var found := repo.GetByID(id);
      if found.None? {
        broker.Ack(message.ref);
        return;
      }
      var n := found.value;
      if Terminal(n.status) {
        broker.Hand(message.ref);
        broker.Ack(message.ref);
        return;
      }
      hide Handled;
      Deliver(message, n, now, ok);
    }

    /** processMessage from the `processing` write on, for the row n as it was read. */
    method Deliver(message: P.Message, n: Row, now: int, ok: bool)
      requires broker.Valid() && message.id in repo.rows && repo.rows[message.id] == n && !Terminal(n.status)
      modifies repo, broker
      ensures broker.Valid()
      ensures View() == Handled(old(View()), providers, message, now, ok)
    {
      hide P.WriteStatus, P.IncrementAttempt, P.InsertAttempt, P.RecordSend, P.RecordHandled, P.PushDead, P.Ack, P.Hand,
           Retry.Backoff, Retry.ShouldRetry, Scores, Ordered;
      var id := message.id;
      var _ := repo.UpdateStatus(id, Processing);
      if n.channel !in providers {
        var _ := repo.UpdateStatus(id, Failed);
      } else {
        repo.NoteSend(id, now);
        repo.IncrementAttempt(id);
        repo.CreateDeliveryAttempt(id, Attempt(n.attemptCount + 1, ok));
        React(id, n, now, ok);
      }
      broker.Hand(message.ref);
      broker.Ack(message.ref);
    }

    /** Acts on the provider's answer: delivered, retried later, or failed and buried. */
    method React(id: Uuid, n: Row, now: int, ok: bool)
      requires broker.Valid()
      modifies repo, broker
      ensures broker.Valid()
      ensures ok ==> View() == Stores(P.WriteStatus(old(repo.View()), id, Delivered), old(broker.View()))
      ensures !ok && Retry.ShouldRetry(n.attemptCount + 1, n.maxRetries) ==>
                View() == Stores(P.WriteStatus(P.RecordHandled(old(repo.View()), id, now), id, Queued),
                                 P.EnqueueDelayed(old(broker.View()), Item(id, n),
                                     Retry.RetryAt(now, n.attemptCount + 1)))
      ensures !ok && !Retry.ShouldRetry(n.attemptCount + 1, n.maxRetries) ==>
                View() == Stores(P.WriteStatus(old(repo.View()), id, Failed), P.PushDead(old(broker.View()), id))
    {
      hide P.WriteStatus, P.RecordHandled, P.PushDead, Retry.Backoff, Scores, Ordered;
      if ok {
        var _ := repo.UpdateStatus(id, Delivered);
      } else if Retry.ShouldRetry(n.attemptCount + 1, n.maxRetries) {
        var retryAt := Retry.RetryAt(now, n.attemptCount + 1);
        repo.NoteHandled(id, now);
        var _ := repo.UpdateStatus(id, Queued);
        broker.EnqueueDelayed(id, n.channel, n.priority, retryAt);
      } else {
        var _ := repo.UpdateStatus(id, Failed);
        broker.Push(id);
      }
    }

    /** Pops what is due, at most fifty members, and puts each that parses back on a stream. */
    method ProcessDelayedBatch(now: int) returns (ghost members: seq<string>)
      requires broker.Valid()
      modifies broker
      ensures broker.Valid()
      ensures members == RangeByScore(old(broker.delayed), now, P.POP_LIMIT)
      ensures P.DueBatch(old(broker.View()).delayed, now, P.POP_LIMIT, members)
      ensures var mq := old(broker.View());
              broker.View() == Redelivered(mq.(delayed := mq.delayed - P.Elements(members)), members)
      // all that is due, up to fifty
      ensures var due := DueSet(old(broker.View()).delayed, now);
              && (|due| <= 50 ==> P.Elements(members) == due)
              && (|due| > 50 ==> |P.Elements(members)| == |members| == 50 && P.Elements(members) <= due)
    {
      PopSize(broker.delayed, now, 50);
      PopIsDueBatch(broker.delayed, now, P.POP_LIMIT);
      hide P.DueBatch, DueSet, Scores, Ordered, RangeByScore, P.Elements, Redelivered;
      var results := broker.PopDelayedDue(now, P.POP_LIMIT);
      members := results;
      Redeliver(results);
    }

    /** The loop over the popped members. */
    method Redeliver(results: seq<string>)
      requires broker.Valid()
      modifies broker
      ensures broker.Valid() && broker.View() == Redelivered(old(broker.View()), results)
    {
      hide Scores, Ordered, P.Append;
      assert results[0..] == results;
      for i := 0 to |results|
        invariant broker.Valid() && Redelivered(broker.View(), results[i..]) == Redelivered(old(broker.View()), results)
      {
        var member := results[i];
        assert results[i..][0] == member && results[i..][1..] == results[i + 1..];
        var parts := MC.ParseMember(member);
        if parts.Some? {
          MC.ParseSucceeds(member);
          var parsed := MC.ParseUuid(parts.value[0]);
          var id := if parsed.Some? then parsed.value else NIL;
          broker.Enqueue(id, parts.value[1], parts.value[2]);
        }
      }
      assert results[|results|..] == [];
    }
  }
}
