/** internal/queue: the producer, the consumer and the dead-letter queue, on the Redis keys they share. */
module Queues {
  import opened Domain
  import opened Pipeline
  import opened DelayedSet
  import MC = MemberCodec

  // ---------------------------------------------------------------- reading from the streams

  /** How many entries one XREADGROUP takes from a stream; COUNT applies to each stream. */
  function ReadCount(mq: Redis, p: Priority, count: int): (n: nat)
    ensures n > 0 ==> Cursor(mq, p) + n <= |Log(mq, p)|
  {
    var unread := |Log(mq, p)| - Cursor(mq, p);
    if unread <= 0 then 0 else if 0 < count < unread then count else unread
  }

  function Refs(p: Priority, from: nat, n: nat): set<Ref> {
    if n == 0 then {} else Refs(p, from, n - 1) + {Ref(p, from + n - 1)}
  }

  /** The n entries of a log that start at index from, as messages. */
  function MessagesFrom(log: seq<Entry>, p: Priority, from: nat, n: nat): (messages: seq<Message>)
    requires from + n <= |log|
    ensures |messages| == n
  {
    if n == 0 then []
    else
      var e := log[from + n - 1];
      MessagesFrom(log, p, from, n - 1) + [Message(Ref(p, from + n - 1), e.id, e.channel)]
  }

  function NewMessages(mq: Redis, p: Priority, count: int): seq<Message> {
    var n := ReadCount(mq, p, count);
    if n == 0 then [] else MessagesFrom(Log(mq, p), p, Cursor(mq, p), n)
  }

  lemma {:induction false} MessagesAre(log: seq<Entry>, p: Priority, from: nat, n: nat, i: nat)
    requires from + n <= |log| && i < n
    ensures MessagesFrom(log, p, from, n)[i] == Message(Ref(p, from + i), log[from + i].id, log[from + i].channel)
    decreases n
  {
    if i < n - 1 {
      MessagesAre(log, p, from, n - 1, i);
    }
  }

  /**
   A read takes the stream's next entries in order: all that are unread, or count of them when count is positive and
   more are unread.
   */
  lemma NewMessagesAre(mq: Redis, p: Priority, count: int)
    ensures var messages, log, from := NewMessages(mq, p, count), Log(mq, p), Cursor(mq, p);
            var unread := if from < |log| then |log| - from else 0;
            && |messages| == (if count > 0 && unread > count then count else unread)
            && forall i | 0 <= i < |messages| ::
                 messages[i] == Message(Ref(p, from + i), log[from + i].id, log[from + i].channel)
  {
    var n, log, from := ReadCount(mq, p, count), Log(mq, p), Cursor(mq, p);
    if n > 0 {
      forall i | 0 <= i < n
        ensures NewMessages(mq, p, count)[i] == Message(Ref(p, from + i), log[from + i].id, log[from + i].channel)
      {
        MessagesAre(log, p, from, n, i);
      }
    }
  }

  /** The stream's entries handed to the group: its cursor moves past them and they become pending. */
  function HandedOver(mq: Redis, p: Priority, count: int): Redis {
    var n := ReadCount(mq, p, count);
    if n == 0 then mq
    else mq.(cursors := mq.cursors[p := Cursor(mq, p) + n], pel := mq.pel + Refs(p, Cursor(mq, p), n))
  }

  lemma {:induction false} RefsAre(p: Priority, from: nat, n: nat, ref: Ref)
    ensures ref in Refs(p, from, n) <==> ref.stream == p && from <= ref.index < from + n
  {
    if n > 0 {
      RefsAre(p, from, n - 1, ref);
    }
  }

  /** The stream's cursor moves past what was returned, which becomes pending; the rest of Redis stays as it was. */
  lemma HandedOverIs(mq: Redis, p: Priority, count: int)
    ensures var mq', from, n := HandedOver(mq, p, count), Cursor(mq, p), |NewMessages(mq, p, count)|;
            && Cursor(mq', p) == from + n && (forall q | q != p :: Cursor(mq', q) == Cursor(mq, q))
            && (forall ref :: ref in mq'.pel <==>
                  ref in mq.pel || (ref.stream == p && from <= ref.index < from + n))
            && mq' == mq.(cursors := mq'.cursors, pel := mq'.pel)
  {
    var n := ReadCount(mq, p, count);
    forall ref ensures ref in Refs(p, Cursor(mq, p), n) <==>
                         ref.stream == p && Cursor(mq, p) <= ref.index < Cursor(mq, p) + n {
      RefsAre(p, Cursor(mq, p), n, ref);
    }
    hide Refs, MessagesFrom;
  }

  lemma OtherStreams(mq: Redis, mq': Redis, p: Priority, count: int, q: Priority)
    requires p != q && mq' == HandedOver(mq, p, count)
    ensures NewMessages(mq', q, count) == NewMessages(mq, q, count)
  {
    assert Log(mq', q) == Log(mq, q) && Cursor(mq', q) == Cursor(mq, q);
  }

  /** With COUNT 1, one stream's share of a read is what the pipeline hands out. */
  lemma HandOutIsRead(s: State, w: nat, p: Priority)
    requires w in s.workers
    ensures var s' := HandOut(s, w, p);
            && s'.mq == HandedOver(s.mq, p, 1) && w in s'.workers
            && s'.workers[w] == s.workers[w].(inbox := s.workers[w].inbox + NewMessages(s.mq, p, 1))
  {
    var s' := HandOut(s, w, p);
    var at := Cursor(s.mq, p);
    if ReadCount(s.mq, p, 1) == 0 {
      assert s.workers[w].inbox + NewMessages(s.mq, p, 1) == s.workers[w].inbox;
    } else {
      assert MessagesFrom(Log(s.mq, p), p, at, 0) == [] && Refs(p, at, 0) == {};
      assert MessagesFrom(Log(s.mq, p), p, at, 1) == [MessageAt(s.mq, Ref(p, at))];
      assert Refs(p, at, 1) == {Ref(p, at)};
    }
  }

  /** A read takes at most one entry from each stream, so a low message can arrive beside a high one. */
  lemma ReadIsHandOut(s: State, w: nat)
    requires WorkerIdle(s, w)
    ensures var s' := ReadStep(s, w);
            && s'.mq == HandedOver(HandedOver(HandedOver(s.mq, High, 1), Normal, 1), Low, 1) && w in s'.workers
            && s'.workers[w].inbox
                 == NewMessages(s.mq, High, 1) + NewMessages(s.mq, Normal, 1) + NewMessages(s.mq, Low, 1)
  {
    hide HandOut, HandedOver, NewMessages;
    var s0 := ResetWorker(s, w);
    var s1 := HandOut(s0, w, High);
    HandOutIsRead(s0, w, High);
    var s2 := HandOut(s1, w, Normal);
    HandOutIsRead(s1, w, Normal);
    HandOutIsRead(s2, w, Low);
    OtherStreams(s0.mq, s1.mq, High, 1, Normal);
    OtherStreams(s0.mq, s1.mq, High, 1, Low);
    OtherStreams(s1.mq, s2.mq, Normal, 1, Low);
    assert [] + NewMessages(s.mq, High, 1) == NewMessages(s.mq, High, 1);
  }

  predicate Returned(worker: Worker, p: Priority) {
    exists i :: 0 <= i < |worker.inbox| && worker.inbox[i].ref.stream == p
  }

  predicate HasUnread(mq: Redis, p: Priority) {
    Cursor(mq, p) < |Log(mq, p)|
  }

  /**
   No stream is drained before another: a read returns an entry of stream q while entries of stream p stay unread
   exactly when it finds two or more unread entries in p and an unread one in q, whichever of the two ranks higher.
   */
  lemma OvertakesIff(s: State, w: nat, p: Priority, q: Priority)
    requires WorkerIdle(s, w) && p != q
    ensures var s' := ReadStep(s, w);
            && w in s'.workers
            && (Returned(s'.workers[w], q) && HasUnread(s'.mq, p) <==>
                  Cursor(s.mq, p) + 2 <= |Log(s.mq, p)| && HasUnread(s.mq, q))
  {
    hide HandOut, ReadStep, HandedOver, NewMessages, Log, Cursor;
    ReadIsHandOut(s, w);
    var mq1 := HandedOver(s.mq, High, 1);
    var mq2 := HandedOver(mq1, Normal, 1);
    var high, normal, low := NewMessages(s.mq, High, 1), NewMessages(s.mq, Normal, 1), NewMessages(s.mq, Low, 1);
    OneRead(s.mq, High);
    OneRead(s.mq, Normal);
    OneRead(s.mq, Low);
    OneRead(mq1, Normal);
    OneRead(mq2, Low);
    var inbox := ReadStep(s, w).workers[w].inbox;
    assert inbox == high + normal + low;
    if HasUnread(s.mq, q) {
      match q {
        case High => assert inbox[0] == high[0];
        case Normal => assert inbox[|high|] == normal[0];
        case Low => assert inbox[|inbox| - 1] == low[0];
      }
    }
  }

  /** With COUNT 1 a stream yields its next entry, if it has one, and only its own cursor moves. */
  lemma OneRead(mq: Redis, p: Priority)
    ensures |NewMessages(mq, p, 1)| == if HasUnread(mq, p) then 1 else 0
    ensures forall i | 0 <= i < |NewMessages(mq, p, 1)| :: NewMessages(mq, p, 1)[i].ref.stream == p
    ensures var mq' := HandedOver(mq, p, 1);
            && (forall q | q != p :: Cursor(mq', q) == Cursor(mq, q))
            && Cursor(mq', p) == (if HasUnread(mq, p) then Cursor(mq, p) + 1 else Cursor(mq, p))
            && forall q :: Log(mq', q) == Log(mq, q)
  {
    if HasUnread(mq, p) {
      assert MessagesFrom(Log(mq, p), p, Cursor(mq, p), 0) == [];
    }
  }

  method Collect(log: seq<Entry>, p: Priority, from: nat, n: nat) returns (messages: seq<Message>)
    requires from + n <= |log|
    ensures messages == MessagesFrom(log, p, from, n)
  {
    messages := [];
    for i := 0 to n
      invariant messages == MessagesFrom(log, p, from, i)
    {
      var e := log[from + i];
      messages := messages + [Message(Ref(p, from + i), e.id, e.channel)];
    }
  }

  /** What a member says after its id. */
  function Suffix(channel: Channel, priority: Priority): string {
    match (channel, priority)
    case (Sms, High) => ":sms:high"
    case (Sms, Normal) => ":sms:normal"
    case (Sms, Low) => ":sms:low"
    case (Email, High) => ":email:high"
    case (Email, Normal) => ":email:normal"
    case (Email, Low) => ":email:low"
    case (Push, High) => ":push:high"
    case (Push, Normal) => ":push:normal"
    case (Push, Low) => ":push:low"
  }

  lemma MemberSpelled(id: Uuid, channel: Channel, priority: Priority)
    ensures MC.Member(id, channel, priority) == MC.UuidText(id) + Suffix(channel, priority)
  {
    hide MC.UuidText, ChannelText, PriorityText, Suffix;
    SuffixSpelled(channel, priority);
    SuffixJoins(MC.UuidText(id), ChannelText(channel), PriorityText(priority));
  }

  lemma SuffixJoins(id: string, channel: string, priority: string)
    ensures MC.Join(id, channel, priority) == id + (":" + channel + ":" + priority)
  {
  }

  lemma SuffixSpelled(channel: Channel, priority: Priority)
    ensures ":" + ChannelText(channel) + ":" + PriorityText(priority) == Suffix(channel, priority)
  {
    hide Suffix;
    match channel {
      case Sms => SmsSuffix(priority);
      case Email => EmailSuffix(priority);
      case Push => PushSuffix(priority);
    }
  }

  lemma SmsSuffix(priority: Priority)
    ensures ":sms:" + PriorityText(priority) == Suffix(Sms, priority)
  {
  }

  lemma EmailSuffix(priority: Priority)
    ensures ":email:" + PriorityText(priority) == Suffix(Email, priority)
  {
  }

  lemma PushSuffix(priority: Priority)
    ensures ":push:" + PriorityText(priority) == Suffix(Push, priority)
  {
  }

  class Broker {
    var logs: map<Priority, seq<Entry>>
    var cursors: map<Priority, nat>
    var pel: set<Ref>
    ghost var handed: set<Ref>
    var delayed: seq<Scored>
    var dead: map<Uuid, nat>

    ghost predicate Valid()
      reads this
    {
      Ordered(delayed)
    }

    ghost function View(): Redis
      reads this
    {
      Redis(logs, cursors, pel, handed, Scores(delayed), dead)
    }

    constructor ()
      ensures Valid() && View() == Redis(map[], map[], {}, {}, map[], map[])
    {
      logs, cursors, pel, handed, delayed, dead := map[], map[], {}, {}, [], map[];
    }

    /** XADD to the stream the priority's text names; a stream that no group reads is not modelled. */
    method Enqueue(id: Uuid, channel: string, priority: string)
      requires Valid()
      modifies this
      ensures Valid() && delayed == old(delayed)
      ensures View() == match PriorityOf(priority)
                        case None => old(View())
                        case Some(p) => Append(old(View()), p, Entry(id, channel))
      ensures priority == "high" ==> View() == Append(old(View()), High, Entry(id, channel))
      ensures priority == "normal" ==> View() == Append(old(View()), Normal, Entry(id, channel))
      ensures priority == "low" ==> View() == Append(old(View()), Low, Entry(id, channel))
      ensures priority != "high" && priority != "normal" && priority != "low" ==> View() == old(View())
    {
      match PriorityOf(priority) {
        case None =>
        case Some(p) =>
          var log := if p in logs then logs[p] else [];
          logs := logs[p := log + [Entry(id, channel)]];
      }
    }

    method EnqueueDelayed(id: Uuid, channel: Channel, priority: Priority, retryAt: int)
      requires Valid()
      modifies this
      ensures Valid()
      ensures View() == old(View()).(delayed := old(View()).delayed[MC.Member(id, channel, priority) := retryAt])
      ensures View().delayed == old(View()).delayed[MC.UuidText(id) + Suffix(channel, priority) := retryAt]
    {
      MemberSpelled(id, channel, priority);
      var x := Scored(MC.Member(id, channel, priority), retryAt);
      ZAddKeeps(delayed, x);
      ZAddSets(delayed, x);
      delayed := ZAdd(delayed, x);
    }

    /** Range, then remove: alone, it returns the lowest-scored due members in order and leaves exactly the rest. */
    method PopDelayedDue(now: int, count: int) returns (members: seq<string>)
      requires Valid()
      modifies this
      ensures Valid()
      ensures members == RangeByScore(old(delayed), now, count) && delayed == old(delayed)[|members|..]
      ensures View() == old(View()).(delayed := old(View()).delayed - Elements(members))
    {
      PopTakesLowest(delayed, now, count);
      members := RangeByScore(delayed, now, count);
      ZRemTakes(delayed, Elements(members));
      if |members| == 0 {
        assert Scores(delayed) - Elements(members) == Scores(delayed);
        return [];
      }
      var memberIfaces := new string[|members|](_ => "");
      for i := 0 to |members|
        invariant forall j | 0 <= j < i :: memberIfaces[j] == members[j]
        invariant this.delayed == old(this.delayed) && View() == old(View())
      {
        memberIfaces[i] := members[i];
      }
      assert memberIfaces[..] == members;
      delayed := ZRem(delayed, Elements(memberIfaces[..]));
    }

    /** XREADGROUP over the three streams, in order of priority, up to count entries from each. */
    method ReadMessages(count: int) returns (messages: seq<Message>)
      requires Valid()
      modifies this
      ensures Valid() && delayed == old(delayed)
      ensures var mq := old(View());
              && View() == HandedOver(HandedOver(HandedOver(mq, High, count), Normal, count), Low, count)
              && messages == NewMessages(mq, High, count) + NewMessages(mq, Normal, count) + NewMessages(mq, Low, count)
    {
      hide Scores, Ordered;
      ghost var mq0 := View();
      var high := ReadStream(High, count);
      ghost var mq1 := View();
      var normal := ReadStream(Normal, count);
      ghost var mq2 := View();
      var low := ReadStream(Low, count);
      OtherStreams(mq0, mq1, High, count, Normal);
      OtherStreams(mq0, mq1, High, count, Low);
      OtherStreams(mq1, mq2, Normal, count, Low);
      return high + normal + low;
    }

    method ReadStream(p: Priority, count: int) returns (messages: seq<Message>)
      requires Valid()
      modifies this
      ensures Valid() && delayed == old(delayed)
      ensures messages == NewMessages(old(View()), p, count)
      ensures View() == HandedOver(old(View()), p, count)
    {
      hide Scores, Ordered, MessagesFrom, Refs;
      var from := if p in cursors then cursors[p] else 0;
      var log := if p in logs then logs[p] else [];
      var n := if |log| <= from then 0 else if 0 < count < |log| - from then count else |log| - from;
      messages := [];
      if n > 0 {
        messages := Collect(log, p, from, n);
        cursors := cursors[p := from + n];
        pel := pel + Refs(p, from, n);
      }
    }

    method Ack(ref: Ref)
      requires Valid()
      modifies this
      ensures Valid() && delayed == old(delayed)
      ensures View() == Pipeline.Ack(old(View()), ref)
    {
      pel := pel - {ref};
    }

    /** DLQ.Push. */
    method Push(id: Uuid)
      requires Valid()
      modifies this
      ensures Valid() && delayed == old(delayed)
      ensures View() == PushDead(old(View()), id)
    {
      dead := dead[id := (if id in dead then dead[id] else 0) + 1];
    }

    /** History only: the entry's work is finished or passed on. */
    ghost method Hand(ref: Ref)
      requires Valid()
      modifies this
      ensures Valid() && delayed == old(delayed)
      ensures View() == Pipeline.Hand(old(View()), ref)
    {
      handed := handed + {ref};
    }
  }
}
