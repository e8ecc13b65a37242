/**
 The delivery pipeline as a step system. Every database or Redis command is one atomic step; clients,
 schedulers, workers and delayed processors each carry a program counter and interleave freely.
 */
module Pipeline {
  import opened Domain
  import opened Table
  import MC = MemberCodec
  import Retry

  // ---------------------------------------------------------------- state

  // The position of an entry in one of the three priority streams.
  datatype Ref = Ref(stream: Priority, index: nat)

  datatype Entry = Entry(id: Uuid, channel: string)

  // A stream entry as the consumer hands it to a worker.
  datatype Message = Message(ref: Ref, id: Uuid, channel: string)

  // Service.Create or Service.CreateBatch after its insert: the loop over the stored notifications.
  datatype Client = Client(batch: seq<Item>, next: nat, enqueued: bool)

  // Scheduler.poll: the loop over the claimed rows.
  datatype Scheduler = Scheduler(batch: seq<Item>, next: nat)

  // processDelayedBatch: members ranged at clock reading `at`; the first `gone` have been removed by ZREM.
  datatype Processor = Processor(batch: seq<string>, next: nat, at: int, gone: nat)

  // Where processMessage stands once it has read the row.
  datatype Stage =
    | Claimed             // about to write `processing`
    | Routed              // about to pick the provider
    | Sending             // inside provider.Send
    | Sent(ok: bool)      // about to increment attempt_count
    | Counted(ok: bool)   // about to insert the delivery attempt
    | Recorded(ok: bool)  // about to act on the result
    | Requeue(at: int)    // retry time chosen, about to write `queued`
    | Delaying(at: int)   // about to ZADD the delayed member
    | Burying             // `failed` written, about to push to the dead-letter queue

  datatype Pc = Start | Busy(item: Item, stage: Stage) | Acking

  datatype Worker = Worker(inbox: seq<Message>, next: nat, pc: Pc, stopped: bool)

  // History that no code reads: send starts, failures handled by a retry, statuses ever written, promotions.
  datatype History = History(sends: seq<int>, handled: seq<int>, marked: set<Status>, promotions: nat)

  // What Postgres holds, and the history.
  datatype Db = Db(
    rows: Rows,
    attempts: map<Uuid, seq<Attempt>>,   // delivery_attempts, by notification, in insertion order
    hist: map<Uuid, History>)

  // What Redis holds, and which entries have had their work finished or passed on.
  datatype Redis = Redis(
    logs: map<Priority, seq<Entry>>,     // the priority streams
    cursors: map<Priority, nat>,         // last-delivered position of the consumer group
    pel: set<Ref>,                       // the group's pending entries list
    handed: set<Ref>,                    // history only
    delayed: map<string, int>,           // notifications:delayed
    dead: map<Uuid, nat>)                // entries of notifications:dlq, by notification

  datatype State = State(
    now: int,                            // milliseconds
    providers: set<Channel>,
    db: Db,
    mq: Redis,
    clients: map<nat, Client>,
    schedulers: map<nat, Scheduler>,
    workers: map<nat, Worker>,
    processors: map<nat, Processor>)

  function Log(mq: Redis, p: Priority): seq<Entry> {
    if p in mq.logs then mq.logs[p] else []
  }

  function Cursor(mq: Redis, p: Priority): nat {
    if p in mq.cursors then mq.cursors[p] else 0
  }

  function DeadCount(mq: Redis, id: Uuid): nat {
    if id in mq.dead then mq.dead[id] else 0
  }

  function AttemptsOf(db: Db, id: Uuid): seq<Attempt> {
    if id in db.attempts then db.attempts[id] else []
  }

  function HistoryOf(db: Db, id: Uuid): History {
    if id in db.hist then db.hist[id] else History([], [], {}, 0)
  }

  // ---------------------------------------------------------------- commands

  /** UPDATE ... SET status, whatever the status was. */
  function WriteStatus(db: Db, id: Uuid, status: Status): Db {
    var h := HistoryOf(db, id);
    db.(rows := SetStatus(db.rows, id, status), hist := db.hist[id := h.(marked := h.marked + {status})])
  }

  function IncrementAttempt(db: Db, id: Uuid): Db {
    db.(rows := CountAttempt(db.rows, id))
  }

  function InsertAttempt(db: Db, id: Uuid, a: Attempt): Db {
    db.(attempts := db.attempts[id := AttemptsOf(db, id) + [a]])
  }

  /** XADD to a priority stream. */
  function Append(mq: Redis, p: Priority, e: Entry): Redis {
    mq.(logs := mq.logs[p := Log(mq, p) + [e]])
  }

  function EntryFor(item: Item): Entry {
    Entry(item.id, ChannelText(item.row.channel))
  }

  function EnqueueItem(mq: Redis, item: Item): Redis {
    Append(mq, item.row.priority, EntryFor(item))
  }

  function MemberOf(id: Uuid, row: Row): string {
    MC.Member(id, row.channel, row.priority)
  }

  function EnqueueDelayed(mq: Redis, item: Item, at: int): Redis {
    mq.(delayed := mq.delayed[MemberOf(item.id, item.row) := at])
  }

  function PushDead(mq: Redis, id: Uuid): Redis {
    mq.(dead := mq.dead[id := DeadCount(mq, id) + 1])
  }

  function Ack(mq: Redis, ref: Ref): Redis {
    mq.(pel := mq.pel - {ref})
  }

  function Hand(mq: Redis, ref: Ref): Redis {
    mq.(handed := mq.handed + {ref})
  }

  function RecordSend(db: Db, id: Uuid, now: int): Db {
    var h := HistoryOf(db, id);
    db.(hist := db.hist[id := h.(sends := h.sends + [now])])
  }

  function RecordHandled(db: Db, id: Uuid, now: int): Db {
    var h := HistoryOf(db, id);
    db.(hist := db.hist[id := h.(handled := h.handled + [now])])
  }

  // ---------------------------------------------------------------- clients

  function AddRow(db: Db, n: New): Db {
    Db(db.rows[n.id := RowOf(n)], db.attempts[n.id := []], db.hist[n.id := History([], [], {}, 0)])
  }

  /** One row of a committed insert, and its copy in the creating client's list. */
  function Born(s: State, c: nat, n: New): State
    requires c in s.clients
  {
    var client := s.clients[c];
    s.(db := AddRow(s.db, n), clients := s.clients[c := client.(batch := client.batch + [Item(n.id, RowOf(n))])])
  }

  function BornAll(s: State, c: nat, news: seq<New>): State
    requires c in s.clients
    decreases |news|
  {
    if news == [] then s else BornAll(Born(s, c, news[0]), c, news[1..])
  }

  predicate InsertEnabled(s: State, c: nat, news: seq<New>) {
    c !in s.clients && InsertAll(s.db.rows, news).Stored?
  }

  function OpenClient(s: State, c: nat): State {
    s.(clients := s.clients[c := Client([], 0, false)])
  }

  function InsertStep(s: State, c: nat, news: seq<New>): State {
    BornAll(OpenClient(s, c), c, news)
  }

  predicate ClientEnabled(s: State, c: nat) {
    c in s.clients && s.clients[c].next < |s.clients[c].batch|
  }

  /** The loop body: skip a scheduled notification, else enqueue it and then mark it queued. */
  function ClientStep(s: State, c: nat): State
    requires ClientEnabled(s, c)
  {
    var client := s.clients[c];
    var item := client.batch[client.next];
    if item.row.status != Pending then
      s.(clients := s.clients[c := client.(next := client.next + 1)])
    else if !client.enqueued then
      s.(mq := EnqueueItem(s.mq, item), clients := s.clients[c := client.(enqueued := true)])
    else
      s.(db := WriteStatus(s.db, item.id, Queued),
         clients := s.clients[c := client.(next := client.next + 1, enqueued := false)])
  }

  /** Cancel: a conditional UPDATE; on any other status it reports an error and changes nothing. */
  function CancelStep(s: State, id: Uuid): State {
    if id in s.db.rows && Cancellable(s.db.rows[id].status) then s.(db := WriteStatus(s.db, id, Cancelled)) else s
  }

  // ---------------------------------------------------------------- schedulers

  predicate SchedulerIdle(s: State, k: nat) {
    k in s.schedulers && s.schedulers[k].next == |s.schedulers[k].batch|
  }

  function PromoteRow(db: Db, id: Uuid): Db {
    var db' := WriteStatus(db, id, Pending);
    var h := HistoryOf(db', id);
    db'.(hist := db'.hist[id := h.(promotions := h.promotions + 1)])
  }

  predicate ClaimOneEnabled(s: State, k: nat, id: Uuid) {
    k in s.schedulers && id in s.db.rows && Due(s.db.rows[id], s.now)
  }

  /** One row of the claiming UPDATE ... RETURNING. */
  function ClaimOne(s: State, k: nat, id: Uuid): State
    requires ClaimOneEnabled(s, k, id)
  {
    var sched := s.schedulers[k];
    var item := Item(id, s.db.rows[id].(status := Pending));
    s.(db := PromoteRow(s.db, id), schedulers := s.schedulers[k := sched.(batch := sched.batch + [item])])
  }

  predicate ClaimAllEnabled(s: State, k: nat, ids: seq<Uuid>)
    decreases |ids|
  {
    ids == [] || (ClaimOneEnabled(s, k, ids[0]) && ClaimAllEnabled(ClaimOne(s, k, ids[0]), k, ids[1..]))
  }

  function ClaimAll(s: State, k: nat, ids: seq<Uuid>): State
    requires ClaimAllEnabled(s, k, ids)
    decreases |ids|
  {
    if ids == [] then s else ClaimAll(ClaimOne(s, k, ids[0]), k, ids[1..])
  }

  function ResetScheduler(s: State, k: nat): State {
    s.(schedulers := s.schedulers[k := Scheduler([], 0)])
  }

  /** FetchScheduledDue, for whichever due rows the claim did not find locked. */
  predicate FetchEnabled(s: State, k: nat, ids: seq<Uuid>) {
    SchedulerIdle(s, k) && ClaimAllEnabled(ResetScheduler(s, k), k, ids)
  }

  function FetchStep(s: State, k: nat, ids: seq<Uuid>): State
    requires FetchEnabled(s, k, ids)
  {
    ClaimAll(ResetScheduler(s, k), k, ids)
  }

  predicate SchedulerEnabled(s: State, k: nat) {
    k in s.schedulers && s.schedulers[k].next < |s.schedulers[k].batch|
  }

  function SchedulerStep(s: State, k: nat): State
    requires SchedulerEnabled(s, k)
  {
    var sched := s.schedulers[k];
    s.(mq := EnqueueItem(s.mq, sched.batch[sched.next]),
       schedulers := s.schedulers[k := sched.(next := sched.next + 1)])
  }

  // ---------------------------------------------------------------- workers

  predicate WorkerIdle(s: State, w: nat) {
    w in s.workers && !s.workers[w].stopped && s.workers[w].pc == Start && s.workers[w].next == |s.workers[w].inbox|
  }

  function MessageAt(mq: Redis, ref: Ref): Message
    requires ref.index < |Log(mq, ref.stream)|
  {
    var e := Log(mq, ref.stream)[ref.index];
    Message(ref, e.id, e.channel)
  }

  /** Hands the next undelivered entry of one stream to worker w, if there is one. */
  function HandOut(s: State, w: nat, p: Priority): State
    requires w in s.workers
  {
    var ref := Ref(p, Cursor(s.mq, p));
    if ref.index < |Log(s.mq, p)| then
      var worker := s.workers[w];
      s.(mq := s.mq.(cursors := s.mq.cursors[p := ref.index + 1], pel := s.mq.pel + {ref}),
         workers := s.workers[w := worker.(inbox := worker.inbox + [MessageAt(s.mq, ref)])])
    else s
  }

  function ResetWorker(s: State, w: nat): State
    requires w in s.workers
  {
    s.(workers := s.workers[w := s.workers[w].(inbox := [], next := 0)])
  }

  /** ReadMessages with count 1: XREADGROUP returns up to one entry from each stream. */
  function ReadStep(s: State, w: nat): State
    requires WorkerIdle(s, w)
  {
    HandOut(HandOut(HandOut(ResetWorker(s, w), w, High), w, Normal), w, Low)
  }

  predicate WorkerEnabled(s: State, w: nat) {
    w in s.workers && !s.workers[w].stopped && s.workers[w].next < |s.workers[w].inbox|
  }

  function Goto(s: State, w: nat, pc: Pc): map<nat, Worker>
    requires w in s.workers
  {
    s.workers[w := s.workers[w].(pc := pc)]
  }

  /** Reads the row behind the current message; a missing or finished notification goes straight to the ack. */
  function LookUp(s: State, w: nat): State
    requires WorkerEnabled(s, w)
  {
    var message := s.workers[w].inbox[s.workers[w].next];
    if message.id !in s.db.rows then
      s.(workers := Goto(s, w, Acking))
    else if Terminal(s.db.rows[message.id].status) then
      s.(mq := Hand(s.mq, message.ref), workers := Goto(s, w, Acking))
    else
      s.(workers := Goto(s, w, Busy(Item(message.id, s.db.rows[message.id]), Claimed)))
  }

  function AckStep(s: State, w: nat): State
    requires WorkerEnabled(s, w)
  {
    var worker := s.workers[w];
    s.(mq := Ack(s.mq, worker.inbox[worker.next].ref),
       workers := s.workers[w := worker.(next := worker.next + 1, pc := Start)])
  }

  /** The next command of processMessage for a row already read; ok is the provider's answer. */
  function BusyStep(s: State, w: nat, ok: bool): State
    requires WorkerEnabled(s, w) && s.workers[w].pc.Busy?
  {
    var item := s.workers[w].pc.item;
    var n := item.row;
    var ref := s.workers[w].inbox[s.workers[w].next].ref;
    match s.workers[w].pc.stage
    case Claimed =>
      s.(db := WriteStatus(s.db, item.id, Processing), workers := Goto(s, w, Busy(item, Routed)))
    case Routed =>
      if n.channel in s.providers then
        s.(db := RecordSend(s.db, item.id, s.now), workers := Goto(s, w, Busy(item, Sending)))
      else
        s.(db := WriteStatus(s.db, item.id, Failed), mq := Hand(s.mq, ref), workers := Goto(s, w, Acking))
    case Sending =>
      s.(workers := Goto(s, w, Busy(item, Sent(ok))))
    case Sent(sent) =>
      s.(db := IncrementAttempt(s.db, item.id), workers := Goto(s, w, Busy(item, Counted(sent))))
    case Counted(sent) =>
      s.(db := InsertAttempt(s.db, item.id, Attempt(n.attemptCount + 1, sent)),
         workers := Goto(s, w, Busy(item, Recorded(sent))))
    case Recorded(sent) =>
      if sent then
        s.(db := WriteStatus(s.db, item.id, Delivered), mq := Hand(s.mq, ref), workers := Goto(s, w, Acking))
      else if Retry.ShouldRetry(n.attemptCount + 1, n.maxRetries) then
        s.(db := RecordHandled(s.db, item.id, s.now),
           workers := Goto(s, w, Busy(item, Requeue(Retry.RetryAt(s.now, n.attemptCount + 1)))))
      else
        s.(db := WriteStatus(s.db, item.id, Failed), workers := Goto(s, w, Busy(item, Burying)))
    case Requeue(at) =>
      s.(db := WriteStatus(s.db, item.id, Queued), workers := Goto(s, w, Busy(item, Delaying(at))))
    case Delaying(at) =>
      s.(mq := Hand(EnqueueDelayed(s.mq, item, at), ref), workers := Goto(s, w, Acking))
    case Burying =>
      s.(mq := Hand(PushDead(s.mq, item.id), ref), workers := Goto(s, w, Acking))
  }

  function WorkerStep(s: State, w: nat, ok: bool): State
    requires WorkerEnabled(s, w)
  {
    match s.workers[w].pc
    case Start => LookUp(s, w)
    case Busy(_, _) => BusyStep(s, w, ok)
    case Acking => AckStep(s, w)
  }

  predicate StopEnabled(s: State, w: nat) {
    w in s.workers
  }

  function StopStep(s: State, w: nat): State
    requires StopEnabled(s, w)
  {
    s.(workers := s.workers[w := s.workers[w].(stopped := true)])
  }

  /** ClaimStale: XAUTOCLAIM hands pending entries to worker w again, whoever had them. */
  predicate ReclaimEnabled(s: State, w: nat, refs: seq<Ref>) {
    WorkerIdle(s, w) && forall i | 0 <= i < |refs| :: refs[i] in s.mq.pel && refs[i].index < |Log(s.mq, refs[i].stream)|
  }

  function ReclaimStep(s: State, w: nat, refs: seq<Ref>): State
    requires ReclaimEnabled(s, w, refs)
  {
    var inbox := seq(|refs|, i requires 0 <= i < |refs| => MessageAt(s.mq, refs[i]));
    s.(workers := s.workers[w := s.workers[w].(inbox := inbox, next := 0)])
  }

  // ---------------------------------------------------------------- delayed processors

  predicate ProcessorIdle(s: State, p: nat) {
    && p in s.processors
    && s.processors[p].next == s.processors[p].gone == |s.processors[p].batch|
  }

  function Elements(batch: seq<string>): set<string> {
    set m | m in batch
  }

  /** What ZRANGEBYSCORE -inf at LIMIT 0 limit may return, in any order. */
  ghost predicate DueBatch(delayed: map<string, int>, at: int, limit: nat, batch: seq<string>) {
    && |batch| <= limit
    && (forall i | 0 <= i < |batch| :: batch[i] in delayed && delayed[batch[i]] <= at)
    && (forall i, j | 0 <= i < j < |batch| :: batch[i] != batch[j])
    && (forall m | m in delayed && delayed[m] <= at && m !in batch ::
          |batch| == limit && forall i | 0 <= i < |batch| :: delayed[batch[i]] <= delayed[m])
  }

  const POP_LIMIT: nat := 50

  /** The range half of PopDelayedDue, with a clock reading taken earlier. */
  ghost predicate RangeEnabled(s: State, p: nat, at: int, batch: seq<string>) {
    ProcessorIdle(s, p) && at <= s.now && DueBatch(s.mq.delayed, at, POP_LIMIT, batch)
  }

  function RangeStep(s: State, p: nat, at: int, batch: seq<string>): State {
    s.(processors := s.processors[p := Processor(batch, 0, at, 0)])
  }

  predicate RemoveEnabled(s: State, p: nat) {
    p in s.processors && s.processors[p].gone < |s.processors[p].batch|
  }

  function RemoveOne(s: State, p: nat): State
    requires RemoveEnabled(s, p)
  {
    var proc := s.processors[p];
    s.(mq := s.mq.(delayed := s.mq.delayed - {proc.batch[proc.gone]}),
       processors := s.processors[p := proc.(gone := proc.gone + 1)])
  }

  /** The ZREM half of PopDelayedDue: one command removes the whole batch. */
  function RemoveStep(s: State, p: nat): State
    requires RemoveEnabled(s, p)
    decreases |s.processors[p].batch| - s.processors[p].gone
  {
    var s1 := RemoveOne(s, p);
    if RemoveEnabled(s1, p) then RemoveStep(s1, p) else s1
  }

  predicate ProcessorEnabled(s: State, p: nat) {
    && p in s.processors
    && s.processors[p].next < s.processors[p].gone == |s.processors[p].batch|
  }

  /** Re-enqueues one decoded member; text that names no priority lands in a stream nobody reads. */
  function Redeliver(mq: Redis, member: string): Redis {
    var d := MC.Decode(member);
    if d.None? then mq
    else
      var p := PriorityOf(d.value.priority);
      if p.None? then mq else Append(mq, p.value, Entry(d.value.id, d.value.channel))
  }

  function ProcessorStep(s: State, p: nat): State
    requires ProcessorEnabled(s, p)
  {
    var proc := s.processors[p];
    s.(mq := Redeliver(s.mq, proc.batch[proc.next]), processors := s.processors[p := proc.(next := proc.next + 1)])
  }

  // ---------------------------------------------------------------- runs

  datatype Step =
    | Tick(ms: nat)
    | Insert(c: nat, news: seq<New>)
    | ClientNext(c: nat)
    | Cancel(id: Uuid)
    | Fetch(k: nat, ids: seq<Uuid>)
    | SchedulerNext(k: nat)
    | Read(w: nat)
    | WorkerNext(w: nat, ok: bool)
    | Stop(w: nat)
    | Reclaim(w: nat, refs: seq<Ref>)
    | Range(p: nat, at: int, batch: seq<string>)
    | Remove(p: nat)
    | ProcessorNext(p: nat)

  ghost predicate Enabled(s: State, step: Step) {
    match step
    case Tick(_) => true
    case Insert(c, news) => InsertEnabled(s, c, news)
    case ClientNext(c) => ClientEnabled(s, c)
    case Cancel(_) => true
    case Fetch(k, ids) => FetchEnabled(s, k, ids)
    case SchedulerNext(k) => SchedulerEnabled(s, k)
    case Read(w) => WorkerIdle(s, w)
    case WorkerNext(w, _) => WorkerEnabled(s, w)
    case Stop(w) => StopEnabled(s, w)
    case Reclaim(w, refs) => ReclaimEnabled(s, w, refs)
    case Range(p, at, batch) => RangeEnabled(s, p, at, batch)
    case Remove(p) => RemoveEnabled(s, p)
    case ProcessorNext(p) => ProcessorEnabled(s, p)
  }

  ghost function Apply(s: State, step: Step): State
    requires Enabled(s, step)
  {
    match step
    case Tick(ms) => s.(now := s.now + ms)
    case Insert(c, news) => InsertStep(s, c, news)
    case ClientNext(c) => ClientStep(s, c)
    case Cancel(id) => CancelStep(s, id)
    case Fetch(k, ids) => FetchStep(s, k, ids)
    case SchedulerNext(k) => SchedulerStep(s, k)
    case Read(w) => ReadStep(s, w)
    case WorkerNext(w, ok) => WorkerStep(s, w, ok)
    case Stop(w) => StopStep(s, w)
    case Reclaim(w, refs) => ReclaimStep(s, w, refs)
    case Range(p, at, batch) => RangeStep(s, p, at, batch)
    case Remove(p) => RemoveStep(s, p)
    case ProcessorNext(p) => ProcessorStep(s, p)
  }

  /** Any number of workers, schedulers and processors, all idle; empty tables and streams. */
  ghost predicate Init(s: State) {
    && s.db == Db(map[], map[], map[])
    && s.mq == Redis(map[], map[], {}, {}, map[], map[])
    && s.clients == map[]
    && (forall k | k in s.schedulers :: s.schedulers[k] == Scheduler([], 0))
    && (forall w | w in s.workers :: s.workers[w] == Worker([], 0, Start, false))
    && (forall p | p in s.processors :: s.processors[p] == Processor([], 0, s.now, 0))
  }

  ghost predicate ValidRun(s: State, steps: seq<Step>)
    decreases |steps|
  {
    steps == [] || (Enabled(s, steps[0]) && ValidRun(Apply(s, steps[0]), steps[1..]))
  }

  ghost function After(s: State, steps: seq<Step>): State
    requires ValidRun(s, steps)
    decreases |steps|
  {
    if steps == [] then s else After(Apply(s, steps[0]), steps[1..])
  }
}
