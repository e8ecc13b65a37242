/** internal/service/notification.go: check the request, store it, enqueue what is not scheduled. */
module Services {
  import opened Domain
  import opened Table
  import P = Pipeline
  import opened Alone
  import opened Repositories
  import opened Queues

  // A create request. The verdicts of the struct validator and of template rendering with the content
  // validator come from code outside the model.
  datatype Request = Request(
    key: string,
    channel: string,
    priority: string,
    scheduledAt: Option<int>,
    maxRetries: Option<int>,
    content: bool)

  datatype CreateError =
    | Validation
    | InvalidChannel(index: nat)
    | InvalidPriority(index: nat)
    | InvalidContent(index: nat)
    | BatchTooLarge
    | NotStored(reason: InsertError)

  const MAX_BATCH := 1000

  function ChannelOf(text: string): Option<Channel> {
    if text == "sms" then Some(Sms)
    else if text == "email" then Some(Email)
    else if text == "push" then Some(Push)
    else None
  }

  /** What is wrong with one request on its own, checked in this order. */
  function Fault(r: Request, index: nat): Option<CreateError> {
    if ChannelOf(r.channel).None? then Some(InvalidChannel(index))
    else if PriorityOf(r.priority).None? then Some(InvalidPriority(index))
    else if !r.content then Some(InvalidContent(index))
    else None
  }

  function NewOf(r: Request, id: Uuid, defaultMaxRetries: int): New
    requires Fault(r, 0).None?
  {
    New(id, r.key, ChannelOf(r.channel).value, PriorityOf(r.priority).value, r.scheduledAt,
        if r.maxRetries.Some? then r.maxRetries.value else defaultMaxRetries)
  }

  predicate Sound(reqs: seq<Request>) {
    forall i | 0 <= i < |reqs| :: Fault(reqs[i], i).None?
  }

  function NewsOf(reqs: seq<Request>, ids: seq<Uuid>, defaultMaxRetries: int): (news: seq<New>)
    requires Sound(reqs) && |ids| == |reqs|
    ensures |news| == |reqs|
  {
    seq(|reqs|, i requires 0 <= i < |reqs| => assert Fault(reqs[i], i).None?; NewOf(reqs[i], ids[i], defaultMaxRetries))
  }

  /** The first thing CreateBatch would object to, if anything. */
  predicate FirstFault(reqs: seq<Request>, e: CreateError) {
    exists i :: 0 <= i < |reqs| && Fault(reqs[i], i) == Some(e) && Sound(reqs[..i])
  }

  // ---------------------------------------------------------------- requests, in their own words

  /** The row holds what the request asked for. */
  predicate AsRequested(row: Row, r: Request, defaultMaxRetries: int) {
    && row.key == r.key && row.scheduledAt == r.scheduledAt && row.attemptCount == 0
    && row.maxRetries == (if r.maxRetries.Some? then r.maxRetries.value else defaultMaxRetries)
    && (row.channel == Sms <==> r.channel == "sms") && (row.channel == Email <==> r.channel == "email")
    && (row.channel == Push <==> r.channel == "push")
    && (row.priority == High <==> r.priority == "high") && (row.priority == Normal <==> r.priority == "normal")
    && (row.priority == Low <==> r.priority == "low")
  }

  predicate Acceptable(r: Request) {
    && (r.channel == "sms" || r.channel == "email" || r.channel == "push")
    && (r.priority == "high" || r.priority == "normal" || r.priority == "low")
    && r.content
  }

  /** The error that a request which is not acceptable leads to, at its place in the batch. */
  predicate Refuses(r: Request, index: nat, e: CreateError) {
    if r.channel != "sms" && r.channel != "email" && r.channel != "push" then e == InvalidChannel(index)
    else if r.priority != "high" && r.priority != "normal" && r.priority != "low" then e == InvalidPriority(index)
    else !r.content && e == InvalidContent(index)
  }

  /** Priority p's stream is the one the text names. */
  predicate StreamNamed(p: Priority, text: string) {
    (p == High && text == "high") || (p == Normal && text == "normal") || (p == Low && text == "low")
  }

  /** The entries that unscheduled requests ask for in one stream, with their channels' own texts. */
  function EntriesAsked(reqs: seq<Request>, ids: seq<Uuid>, p: Priority): seq<P.Entry>
    requires |ids| == |reqs|
  {
    if reqs == [] then []
    else
      (if reqs[0].scheduledAt.None? && StreamNamed(p, reqs[0].priority) then [P.Entry(ids[0], reqs[0].channel)] else [])
      + EntriesAsked(reqs[1..], ids[1..], p)
  }

  /** The first request that is not acceptable, and its error. */
  predicate FirstRefused(reqs: seq<Request>, e: CreateError) {
    exists i :: 0 <= i < |reqs| && !Acceptable(reqs[i]) && Refuses(reqs[i], i, e)
                && forall j | 0 <= j < i :: Acceptable(reqs[j])
  }

  /** No id is stored, and no non-empty key is stored or repeated. */
  predicate Unused(rows: Rows, reqs: seq<Request>, ids: seq<Uuid>)
    requires |ids| == |reqs|
  {
    && (forall i | 0 <= i < |reqs| :: ids[i] !in rows)
    && (forall i, id | 0 <= i < |reqs| && id in rows && reqs[i].key != "" :: rows[id].key != reqs[i].key)
    && (forall i, j | 0 <= i < j < |reqs| :: ids[i] != ids[j])
    && (forall i, j | 0 <= i < j < |reqs| && reqs[i].key != "" :: reqs[i].key != reqs[j].key)
  }

  /** Every request has its row, and each unscheduled one its entry; nothing else has changed. */
  ghost predicate Granted(st: Stores, st': Stores, reqs: seq<Request>, ids: seq<Uuid>, defaultMaxRetries: int)
    requires |ids| == |reqs|
  {
    var rows, rows' := st.db.rows, st'.db.rows;
    && (forall id :: id in rows' <==> id in rows || id in ids)
    && (forall id | id in rows :: id !in ids && rows'[id] == rows[id])
    && (forall i | 0 <= i < |reqs| ::
          && AsRequested(rows'[ids[i]], reqs[i], defaultMaxRetries)
          && rows'[ids[i]].status == if reqs[i].scheduledAt.Some? then Scheduled else Queued)
    && (forall p :: P.Log(st'.mq, p) == P.Log(st.mq, p) + EntriesAsked(reqs, ids, p))
    && st'.mq == st.mq.(logs := st'.mq.logs)
  }

  lemma NewIsAsRequested(r: Request, id: Uuid, defaultMaxRetries: int)
    requires Fault(r, 0).None?
    ensures var row := RowOf(NewOf(r, id, defaultMaxRetries));
            && AsRequested(row, r, defaultMaxRetries)
            && (row.status == Pending <==> r.scheduledAt.None?) && (row.status == Scheduled <==> r.scheduledAt.Some?)
            && ChannelText(row.channel) == r.channel
            && forall p :: row.priority == p <==> StreamNamed(p, r.priority)
  {
    DistinctTexts();
  }

  lemma DistinctTexts()
    ensures "sms" != "email" && "sms" != "push" && "email" != "push"
    ensures "high" != "normal" && "high" != "low" && "normal" != "low"
  {
    assert "email"[0] != "sms"[0] && "push"[0] != "sms"[0] && "push"[0] != "email"[0];
    assert "normal"[0] != "high"[0] && "low"[0] != "high"[0] && "low"[0] != "normal"[0];
  }

  lemma FaultRefuses(r: Request, index: nat)
    ensures Fault(r, index).None? <==> Acceptable(r)
    ensures Fault(r, index).Some? ==> Refuses(r, index, Fault(r, index).value)
  {
    DistinctTexts();
  }

  /** What the pipeline enqueues for accepted requests is what they ask for. */
  lemma {:induction false} EntriesAreAsked(reqs: seq<Request>, ids: seq<Uuid>, defaultMaxRetries: int, p: Priority)
    requires |ids| == |reqs| && Sound(reqs)
    ensures EntriesFor(ItemsOf(NewsOf(reqs, ids, defaultMaxRetries)), p) == EntriesAsked(reqs, ids, p)
    decreases |reqs|
  {
    hide NewOf, AsRequested, StreamNamed, RowOf;
    if reqs != [] {
      var items := ItemsOf(NewsOf(reqs, ids, defaultMaxRetries));
      SoundRest(reqs);
      assert items[1..] == ItemsOf(NewsOf(reqs[1..], ids[1..], defaultMaxRetries));
      EntriesAreAsked(reqs[1..], ids[1..], defaultMaxRetries, p);
      FaultIsFault(reqs[0], 0);
      NewIsAsRequested(reqs[0], ids[0], defaultMaxRetries);
      NewIdIs(reqs[0], ids[0], defaultMaxRetries);
    }
  }

  lemma NewIdIs(r: Request, id: Uuid, defaultMaxRetries: int)
    requires Fault(r, 0).None?
    ensures NewOf(r, id, defaultMaxRetries).id == id
  {
  }

  lemma FaultIsFault(r: Request, index: nat)
    ensures Fault(r, index).None? <==> Fault(r, 0).None?
  {
  }

  lemma SoundRest(reqs: seq<Request>)
    requires Sound(reqs) && reqs != []
    ensures Sound(reqs[1..]) && Fault(reqs[0], 0).None?
  {
    forall i | 0 <= i < |reqs[1..]| ensures Fault(reqs[1..][i], i).None? {
      FaultIsFault(reqs[i + 1], i + 1);
      FaultIsFault(reqs[i + 1], i);
    }
  }

  lemma SoundIsAcceptable(reqs: seq<Request>)
    ensures Sound(reqs) <==> forall i | 0 <= i < |reqs| :: Acceptable(reqs[i])
  {
    hide Fault, Acceptable, Refuses;
    forall i | 0 <= i < |reqs| ensures Fault(reqs[i], i).None? <==> Acceptable(reqs[i]) {
      FaultRefuses(reqs[i], i);
    }
  }

  lemma FirstFaultRefused(reqs: seq<Request>, i: nat)
    requires i < |reqs| && Sound(reqs[..i]) && Fault(reqs[i], i).Some?
    ensures FirstRefused(reqs, Fault(reqs[i], i).value)
  {
    hide Fault, Acceptable, Refuses;
    FaultRefuses(reqs[i], i);
    SoundIsAcceptable(reqs[..i]);
    assert forall j | 0 <= j < i :: reqs[..i][j] == reqs[j];
  }

  lemma InsertableIsUnused(rows: Rows, reqs: seq<Request>, ids: seq<Uuid>, defaultMaxRetries: int)
    requires |ids| == |reqs| && Sound(reqs)
    ensures Insertable(rows, NewsOf(reqs, ids, defaultMaxRetries)) <==> Unused(rows, reqs, ids)
  {
    var news := NewsOf(reqs, ids, defaultMaxRetries);
    forall i | 0 <= i < |reqs| ensures news[i].id == ids[i] && news[i].key == reqs[i].key {
      SoundAt(reqs, i);
      hide Fault;
    }
    hide NewsOf, Sound;
    forall i | 0 <= i < |reqs|
      ensures !KeyTaken(rows, reqs[i].key) <==>
                forall id | id in rows && reqs[i].key != "" :: rows[id].key != reqs[i].key
    {
    }
  }

  lemma SoundAt(reqs: seq<Request>, i: nat)
    requires Sound(reqs) && i < |reqs|
    ensures Fault(reqs[i], 0).None?
  {
    FaultIsFault(reqs[i], i);
  }

  lemma {:induction false} AddedAre(rows: Rows, news: seq<New>, id: Uuid)
    ensures id in Added(rows, news) <==> id in rows || exists i :: 0 <= i < |news| && news[i].id == id
    ensures id in rows && (forall i | 0 <= i < |news| :: news[i].id != id) ==>
              id in Added(rows, news) && Added(rows, news)[id] == rows[id]
    decreases |news|
  {
    if news != [] {
      var rows', rest := rows[news[0].id := RowOf(news[0])], news[1..];
      AddedAre(rows', rest, id);
      assert forall i | 0 <= i < |rest| :: rest[i] == news[i + 1];
      if i :| 0 <= i < |news| && news[i].id == id {
        assert i > 0 ==> rest[i - 1].id == id;
      }
    }
  }

  lemma {:induction false} AddedAt(rows: Rows, news: seq<New>, i: nat)
    requires i < |news| && forall j, k | 0 <= j < k < |news| :: news[j].id != news[k].id
    ensures news[i].id in Added(rows, news) && Added(rows, news)[news[i].id] == RowOf(news[i])
    decreases |news|
  {
    var rows', rest := rows[news[0].id := RowOf(news[0])], news[1..];
    assert forall k | 0 <= k < |rest| :: rest[k] == news[k + 1];
    if i == 0 {
      AddedAre(rows', rest, news[0].id);
    } else {
      AddedAt(rows', rest, i - 1);
    }
  }

  lemma NewsAreAsRequested(reqs: seq<Request>, ids: seq<Uuid>, defaultMaxRetries: int, i: nat)
    requires |ids| == |reqs| && Sound(reqs) && i < |reqs|
    ensures var n := NewsOf(reqs, ids, defaultMaxRetries)[i];
            && n.id == ids[i] && AsRequested(RowOf(n), reqs[i], defaultMaxRetries)
            && RowOf(n).status == if reqs[i].scheduledAt.Some? then Scheduled else Pending
  {
    SoundAt(reqs, i);
    NewIsAsRequested(reqs[i], ids[i], defaultMaxRetries);
    NewIdIs(reqs[i], ids[i], defaultMaxRetries);
    hide Fault, AsRequested, RowOf, NewOf;
  }

  /** One request's row after the whole batch. */
  lemma RowIsGranted(st: Stores, reqs: seq<Request>, ids: seq<Uuid>, defaultMaxRetries: int, i: nat)
    requires |ids| == |reqs| && Sound(reqs) && Unused(st.db.rows, reqs, ids) && i < |reqs|
    ensures var news := NewsOf(reqs, ids, defaultMaxRetries);
            var rows := Enqueued(Stores(AddRows(st.db, news), st.mq), ItemsOf(news)).db.rows;
            && ids[i] in rows && AsRequested(rows[ids[i]], reqs[i], defaultMaxRetries)
            && rows[ids[i]].status == if reqs[i].scheduledAt.Some? then Scheduled else Queued
  {
    hide NewsOf, RowOf, AsRequested, Enqueued, Added, AddRows, Sound;
    var news := NewsOf(reqs, ids, defaultMaxRetries);
    var st1 := Stores(AddRows(st.db, news), st.mq);
    forall k | 0 <= k < |news| ensures news[k].id == ids[k] {
      NewsAreAsRequested(reqs, ids, defaultMaxRetries, k);
    }
    NewsAreAsRequested(reqs, ids, defaultMaxRetries, i);
    AddRowsRows(st.db, news);
    AddedAt(st.db.rows, news, i);
    EnqueuedRows(st1, ItemsOf(news), ids[i]);
    var items := ItemsOf(news);
    assert items[i] == Item(ids[i], RowOf(news[i]));
    assert forall k | 0 <= k < |items| && items[k].id == ids[i] :: k == i;
    SameButStatus(RowOf(news[i]), reqs[i], defaultMaxRetries);
  }

  /** A batch that is stored and enqueued is granted as requested. */
  lemma BatchIsGranted(st: Stores, reqs: seq<Request>, ids: seq<Uuid>, defaultMaxRetries: int)
    requires |ids| == |reqs| && Sound(reqs) && Unused(st.db.rows, reqs, ids)
    ensures var news := NewsOf(reqs, ids, defaultMaxRetries);
            Granted(st, Enqueued(Stores(AddRows(st.db, news), st.mq), ItemsOf(news)), reqs, ids, defaultMaxRetries)
  {
    hide NewsOf, RowOf, AsRequested, Enqueued, Added, AddRows, EntriesFor, EntriesAsked, P.Log, Sound;
    var news := NewsOf(reqs, ids, defaultMaxRetries);
    var st1 := Stores(AddRows(st.db, news), st.mq);
    var st' := Enqueued(st1, ItemsOf(news));
    forall i | 0 <= i < |news| ensures news[i].id == ids[i] {
      NewsAreAsRequested(reqs, ids, defaultMaxRetries, i);
    }
    forall id ensures id in st'.db.rows <==> id in st.db.rows || id in ids {
      GrantedIds(st, news, ids, id);
    }
    forall id | id in st.db.rows ensures id !in ids && st'.db.rows[id] == st.db.rows[id] {
      GrantedOthers(st, news, ids, id);
    }
    forall i | 0 <= i < |reqs|
      ensures AsRequested(st'.db.rows[ids[i]], reqs[i], defaultMaxRetries)
      ensures st'.db.rows[ids[i]].status == if reqs[i].scheduledAt.Some? then Scheduled else Queued
    {
      RowIsGranted(st, reqs, ids, defaultMaxRetries, i);
    }
    forall p ensures P.Log(st'.mq, p) == P.Log(st.mq, p) + EntriesAsked(reqs, ids, p) {
      StreamsGain(st1, ItemsOf(news), p);
      EntriesAreAsked(reqs, ids, defaultMaxRetries, p);
    }
    StreamsGain(st1, ItemsOf(news), High);
  }

  lemma SameButStatus(row: Row, r: Request, defaultMaxRetries: int)
    ensures forall status ::
              AsRequested(row.(status := status), r, defaultMaxRetries) <==> AsRequested(row, r, defaultMaxRetries)
  {
  }

  lemma {:induction false} EnqueuedIds(st: Stores, items: seq<Item>, id: Uuid)
    ensures id in Enqueued(st, items).db.rows <==> id in st.db.rows
    decreases |items|
  {
    if items != [] {
      var st1 := if items[0].row.status != Pending then st
                 else Stores(P.WriteStatus(st.db, items[0].id, Queued), P.EnqueueItem(st.mq, items[0]));
      EnqueuedIds(st1, items[1..], id);
    }
  }

  lemma GrantedIds(st: Stores, news: seq<New>, ids: seq<Uuid>, id: Uuid)
    requires |ids| == |news| && forall i | 0 <= i < |news| :: news[i].id == ids[i]
    ensures id in Enqueued(Stores(AddRows(st.db, news), st.mq), ItemsOf(news)).db.rows <==>
              id in st.db.rows || id in ids
  {
    AddRowsRows(st.db, news);
    AddedAre(st.db.rows, news, id);
    EnqueuedIds(Stores(AddRows(st.db, news), st.mq), ItemsOf(news), id);
    IdsOfNews(news, ids, id);
  }

  lemma IdsOfNews(news: seq<New>, ids: seq<Uuid>, id: Uuid)
    requires |ids| == |news| && forall i | 0 <= i < |news| :: news[i].id == ids[i]
    ensures id in ids <==> exists i :: 0 <= i < |news| && news[i].id == id
  {
    if id in ids {
      var i :| 0 <= i < |ids| && ids[i] == id;
      assert news[i].id == id;
    }
  }

  lemma GrantedOthers(st: Stores, news: seq<New>, ids: seq<Uuid>, id: Uuid)
    requires |ids| == |news| && forall i | 0 <= i < |news| :: news[i].id == ids[i] && ids[i] !in st.db.rows
    requires id in st.db.rows
    ensures id !in ids
    ensures var rows := Enqueued(Stores(AddRows(st.db, news), st.mq), ItemsOf(news)).db.rows;
            id in rows && rows[id] == st.db.rows[id]
  {
    AddRowsRows(st.db, news);
    AddedAre(st.db.rows, news, id);
    hide AddRows, Added;
    EnqueuedRows(Stores(AddRows(st.db, news), st.mq), ItemsOf(news), id);
    IdsOfNews(news, ids, id);
  }

  lemma OneNews(r: Request, id: Uuid, defaultMaxRetries: int)
    requires Fault(r, 0).None?
    ensures Sound([r]) && NewsOf([r], [id], defaultMaxRetries) == [NewOf(r, id, defaultMaxRetries)]
  {
    assert [r][0] == r;
  }

  lemma OneUnused(rows: Rows, r: Request, id: Uuid, defaultMaxRetries: int)
    ensures Unused(rows, [r], [id]) <==> id !in rows && !KeyTaken(rows, r.key)
  {
    assert [r][0] == r && [id][0] == id;
  }

  lemma OneGranted(st: Stores, r: Request, id: Uuid, defaultMaxRetries: int)
    requires Fault(r, 0).None? && Unused(st.db.rows, [r], [id])
    ensures var news := [NewOf(r, id, defaultMaxRetries)];
            Granted(st, Enqueued(Stores(AddRows(st.db, news), st.mq), ItemsOf(news)), [r], [id], defaultMaxRetries)
  {
    OneNews(r, id, defaultMaxRetries);
    hide NewsOf, Granted, Unused, Fault, NewOf, Enqueued, AddRows;
    BatchIsGranted(st, [r], [id], defaultMaxRetries);
  }

  class NotificationService {
    const repo: NotificationRepository
    const producer: Broker
    const defaultMaxRetries: int

    ghost function View(): Stores
      reads repo, producer
    {
      Stores(repo.View(), producer.View())
    }

    constructor (repo: NotificationRepository, producer: Broker, defaultMaxRetries: int)
      ensures this.repo == repo && this.producer == producer
      ensures this.defaultMaxRetries == if defaultMaxRetries == 0 then 5 else defaultMaxRetries
    {
      this.repo, this.producer := repo, producer;
      this.defaultMaxRetries := if defaultMaxRetries == 0 then 5 else defaultMaxRetries;
    }

    /**
     Rejected, it changes nothing. Accepted, the row is stored and, unless it is scheduled, enqueued and then marked
     `queued`; the reply carries the status it was left with.
     */
    method Create(r: Request, wellFormed: bool, id: Uuid) returns (error: Option<CreateError>, status: Status)
      requires producer.Valid()
      modifies repo, producer
      ensures producer.Valid()
      ensures error.Some? ==> View() == old(View())
      ensures error ==
                if !wellFormed then Some(Validation)
                else if Fault(r, 0).Some? then Fault(r, 0)
                else if id in old(repo.rows) then Some(NotStored(Duplicate))
                else if KeyTaken(old(repo.rows), r.key) then Some(NotStored(IdempotencyConflict))
                else None
      ensures error.None? ==>
                var news := [NewOf(r, id, defaultMaxRetries)];
                && View() == Enqueued(Stores(AddRows(old(repo.View()), news), old(producer.View())), ItemsOf(news))
                && status == if r.scheduledAt.Some? then Scheduled else Queued
      // the same, in the request's own words
      ensures error == Some(Validation) <==> !wellFormed
      ensures wellFormed && !Acceptable(r) ==> error.Some? && Refuses(r, 0, error.value)
      ensures wellFormed && Acceptable(r) && id in old(repo.rows) ==> error == Some(NotStored(Duplicate))
      ensures wellFormed && Acceptable(r) && id !in old(repo.rows) && !Unused(old(repo.rows), [r], [id]) ==>
                error == Some(NotStored(IdempotencyConflict))
      ensures error.None? <==> wellFormed && Acceptable(r) && Unused(old(repo.rows), [r], [id])
      ensures error.None? ==> Granted(old(View()), View(), [r], [id], defaultMaxRetries)
    {
      FaultRefuses(r, 0);
      OneUnused(repo.rows, r, id, defaultMaxRetries);
      if Fault(r, 0).None? && Unused(repo.rows, [r], [id]) {
        OneGranted(View(), r, id, defaultMaxRetries);
      }
      status := Pending;
      if !wellFormed {
        return Some(Validation), status;
      }
      if Fault(r, 0).Some? {
        return Fault(r, 0), status;
      }
      var n := NewOf(r, id, defaultMaxRetries);
      status := if r.scheduledAt.Some? then Scheduled else Pending;
      hide P.WriteStatus, Acceptable, Refuses, Unused, Granted;
      var rejected := repo.Create(n);
      if rejected.Some? {
        return Some(NotStored(rejected.value)), status;
      }
      OneEnqueued(Stores(old(repo.View()), old(producer.View())), n);
      if status == Pending {
        EnqueueIs(producer.View(), Item(id, RowOf(n)));
        producer.Enqueue(id, ChannelText(n.channel), PriorityText(n.priority));
        var _ := repo.UpdateStatus(id, Queued);
        status := Queued;
      }
      return None, status;
    }

    /**
     All or nothing: rejected, the stores are as before; accepted, every row is stored and each unscheduled one is
     enqueued and marked `queued`, in request order.
     */
    method CreateBatch(reqs: seq<Request>, wellFormed: bool, ids: seq<Uuid>) returns (error: Option<CreateError>)
      requires producer.Valid() && |ids| == |reqs|
      modifies repo, producer
      ensures producer.Valid()
      ensures error.Some? ==> View() == old(View())
      ensures error.None? <==>
                && wellFormed && |reqs| <= MAX_BATCH && Sound(reqs)
                && Insertable(old(repo.rows), NewsOf(reqs, ids, defaultMaxRetries))
      ensures !wellFormed ==> error == Some(Validation)
      ensures wellFormed && |reqs| > MAX_BATCH ==> error == Some(BatchTooLarge)
      ensures wellFormed && |reqs| <= MAX_BATCH && !Sound(reqs) ==> error.Some? && FirstFault(reqs, error.value)
      ensures wellFormed && |reqs| <= MAX_BATCH && Sound(reqs) && error.Some? ==>
                error == Some(NotStored(IdempotencyConflict))
      // the same, in the requests' own words
      ensures wellFormed && |reqs| > 1000 ==> error == Some(BatchTooLarge)
      ensures error.None? <==>
                && wellFormed && |reqs| <= 1000 && (forall i | 0 <= i < |reqs| :: Acceptable(reqs[i]))
                && Unused(old(repo.rows), reqs, ids)
      ensures wellFormed && |reqs| <= 1000 && (exists i :: 0 <= i < |reqs| && !Acceptable(reqs[i])) ==>
                error.Some? && FirstRefused(reqs, error.value)
      ensures error.None? ==> Granted(old(View()), View(), reqs, ids, defaultMaxRetries)
      ensures error.None? ==>
                var news := NewsOf(reqs, ids, defaultMaxRetries);
                && View() == Enqueued(Stores(AddRows(old(repo.View()), news), old(producer.View())), ItemsOf(news))
                && forall p ::
                     P.Log(producer.View(), p) == P.Log(old(producer.View()), p) + EntriesFor(ItemsOf(news), p)
    {
      SoundIsAcceptable(reqs);
      if Sound(reqs) {
        InsertableIsUnused(repo.rows, reqs, ids, defaultMaxRetries);
        if Unused(repo.rows, reqs, ids) {
          BatchIsGranted(View(), reqs, ids, defaultMaxRetries);
        }
      }
      if !wellFormed {
        return Some(Validation);
      }
      if |reqs| > MAX_BATCH {
        return Some(BatchTooLarge);
      }
      hide Insertable, P.WriteStatus, AddRows, Enqueued, Unused, Granted, Acceptable, Refuses;
      var news: seq<New> := [];
      for i := 0 to |reqs|
        invariant |news| == i && unchanged(repo) && unchanged(producer)
        invariant forall j | 0 <= j < i ::
            Fault(reqs[j], j).None? && news[j] == NewOf(reqs[j], ids[j], defaultMaxRetries)
      {
        if Fault(reqs[i], i).Some? {
          assert Sound(reqs[..i]);
          FirstFaultRefused(reqs, i);
          return Fault(reqs[i], i);
        }
        news := news + [NewOf(reqs[i], ids[i], defaultMaxRetries)];
      }
      assert news == NewsOf(reqs, ids, defaultMaxRetries);
      var rejected := repo.CreateBatch(news);
      if rejected.Some? {
        return Some(NotStored(rejected.value));
      }
      ghost var stored := View();
      EnqueueAll(news);
      forall p ensures P.Log(producer.View(), p) == P.Log(old(producer.View()), p) + EntriesFor(ItemsOf(news), p) {
        StreamsGain(stored, ItemsOf(news), p);
      }
      return None;
    }

    /** The loop over the stored notifications. */
    method EnqueueAll(news: seq<New>)
      requires producer.Valid()
      modifies repo, producer
      ensures producer.Valid() && View() == Enqueued(old(View()), ItemsOf(news))
    {
      hide P.WriteStatus, P.Append;
      var items := ItemsOf(news);
      assert items[0..] == items;
      for i := 0 to |news|
        invariant producer.Valid() && Enqueued(View(), items[i..]) == Enqueued(old(View()), items)
      {
        NextEnqueued(View(), items, i);
        if items[i].row.status == Pending {
          EnqueueIs(producer.View(), items[i]);
          producer.Enqueue(items[i].id, ChannelText(items[i].row.channel), PriorityText(items[i].row.priority));
          var _ := repo.UpdateStatus(items[i].id, Queued);
        }
      }
      assert items[|news|..] == [];
    }

    method Cancel(id: Uuid) returns (error: Option<CancelError>)
      modifies repo
      ensures id !in old(repo.rows) ==> error == Some(NotFound)
      ensures id in old(repo.rows) && old(repo.rows)[id].status in {Pending, Scheduled, Queued} ==>
                error == None && repo.rows == old(repo.rows)[id := old(repo.rows)[id].(status := Cancelled)]
      ensures id in old(repo.rows) && old(repo.rows)[id].status in {Processing, Delivered, Failed, Cancelled} ==>
                error == Some(CannotCancel)
      ensures error.Some? ==> repo.rows == old(repo.rows)
      ensures repo.View() == if error.None? then P.WriteStatus(old(repo.View()), id, Cancelled) else old(repo.View())
    {
      error := repo.Cancel(id);
    }
  }

  lemma OneEnqueued(st: Stores, n: New)
    ensures var st1 := Stores(P.AddRow(st.db, n), st.mq);
            Enqueued(Stores(AddRows(st.db, [n]), st.mq), ItemsOf([n])) ==
              if n.scheduledAt.Some? then st1
              else Stores(P.WriteStatus(st1.db, n.id, Queued), P.EnqueueItem(st1.mq, Item(n.id, RowOf(n))))
  {
    assert ItemsOf([n]) == [Item(n.id, RowOf(n))];
    assert AddRows(st.db, [n]) == AddRows(P.AddRow(st.db, n), []);
  }

  lemma NextEnqueued(st: Stores, items: seq<Item>, i: nat)
    requires i < |items|
    ensures Enqueued(st, items[i..]) ==
              if items[i].row.status != Pending then Enqueued(st, items[i + 1..])
              else Enqueued(Stores(P.WriteStatus(st.db, items[i].id, Queued), P.EnqueueItem(st.mq, items[i])),
                  items[i + 1..])
  {
    assert items[i..][0] == items[i] && items[i..][1..] == items[i + 1..];
  }

  /** Enqueue with a valid priority's text is the pipeline's append. */
  lemma EnqueueIs(mq: P.Redis, item: Item)
    ensures PriorityOf(PriorityText(item.row.priority)) == Some(item.row.priority)
    ensures P.EnqueueItem(mq, item) == P.Append(mq, item.row.priority, P.Entry(item.id, ChannelText(item.row.channel)))
  {
    PriorityRoundTrip(item.row.priority);
  }
}
