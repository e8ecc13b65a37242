/**
 NotificationRepository.List: a WHERE clause built condition by condition, one row of look-ahead and a cursor.
 Following the cursor enumerates the matching rows, also while the table changes between pages.
 */
module Pagination {
  import opened Domain

  // What List orders by.
  datatype Key = Key(createdAt: int, id: Uuid)

  // The columns List filters and orders by.
  datatype Record = Record(key: Key, status: Status, channel: Channel, batchId: Option<Uuid>)

  datatype Filter = Filter(
    status: Option<Status>,
    channel: Option<Channel>,
    batchId: Option<Uuid>,
    cursor: Option<Key>,
    limit: int)

  datatype Page = Page(items: seq<Record>, next: Option<Key>)

  /** (created_at, id) < (created_at, id), as SQL compares rows. */
  predicate Below(a: Key, b: Key) {
    a.createdAt < b.createdAt || (a.createdAt == b.createdAt && a.id < b.id)
  }

  /** The order of ORDER BY created_at DESC, id DESC; a table is kept in it. */
  predicate Descending(rows: seq<Record>) {
    forall i, j | 0 <= i < j < |rows| :: Below(rows[j].key, rows[i].key)
  }

  // ---------------------------------------------------------------- what a page is

  function Limit(limit: int): nat {
    if limit <= 0 || limit > 100 then 50 else limit
  }

  predicate Selects(f: Filter, r: Record) {
    && (f.status.Some? ==> r.status == f.status.value)
    && (f.channel.Some? ==> r.channel == f.channel.value)
    && (f.batchId.Some? ==> r.batchId == f.batchId)
  }

  predicate Matches(f: Filter, r: Record) {
    Selects(f, r) && (f.cursor.Some? ==> Below(r.key, f.cursor.value))
  }

  function Matching(rows: seq<Record>, f: Filter): seq<Record> {
    if rows == [] then [] else (if Matches(f, rows[0]) then [rows[0]] else []) + Matching(rows[1..], f)
  }

  /** The first rows that match, and where to go on when there are more. */
  function PageOf(rows: seq<Record>, f: Filter): Page {
    var found, n := Matching(rows, f), Limit(f.limit);
    if |found| > n then Page(found[..n], Some(found[n - 1].key)) else Page(found, None)
  }

  // ---------------------------------------------------------------- List

  // A condition of the WHERE clause; arguments are the numbers of its placeholders.
  datatype Condition =
    | StatusIs(arg: nat)
    | ChannelIs(arg: nat)
    | BatchIs(arg: nat)
    | RowBelow(createdAt: nat, id: nat)

  datatype Arg =
    | StatusArg(status: Status)
    | ChannelArg(channel: Channel)
    | UuidArg(uuid: Uuid)
    | TimeArg(time: int)
    | CountArg(count: int)

  /** The argument behind placeholder $n. */
  function Bound(args: seq<Arg>, n: nat): Option<Arg> {
    if 1 <= n <= |args| then Some(args[n - 1]) else None
  }

  predicate Holds(c: Condition, args: seq<Arg>, r: Record) {
    match c
    case StatusIs(n) => Bound(args, n) == Some(StatusArg(r.status))
    case ChannelIs(n) => Bound(args, n) == Some(ChannelArg(r.channel))
    case BatchIs(n) => r.batchId.Some? && Bound(args, n) == Some(UuidArg(r.batchId.value))
    case RowBelow(n, m) =>
      match (Bound(args, n), Bound(args, m))
      case (Some(TimeArg(time)), Some(UuidArg(id))) => Below(r.key, Key(time, id))
      case _ => false
  }

  predicate AllHold(conditions: seq<Condition>, args: seq<Arg>, r: Record) {
    forall i | 0 <= i < |conditions| :: Holds(conditions[i], args, r)
  }

  function Where(rows: seq<Record>, conditions: seq<Condition>, args: seq<Arg>): (kept: seq<Record>)
    ensures |kept| <= |rows|
  {
    if rows == [] then []
    else (if AllHold(conditions, args, rows[0]) then [rows[0]] else []) + Where(rows[1..], conditions, args)
  }

  /** SELECT ... WHERE conditions ORDER BY created_at DESC, id DESC LIMIT $limit, on a table kept in that order. */
  function Query(rows: seq<Record>, conditions: seq<Condition>, args: seq<Arg>, limit: nat): seq<Record> {
    var kept := Where(rows, conditions, args);
    match Bound(args, limit)
    case Some(CountArg(count)) => if 0 <= count < |kept| then kept[..count] else kept
    case _ => []
  }

  predicate Numbered(c: Condition, n: nat) {
    match c
    case RowBelow(i, j) => 1 <= i <= n && 1 <= j <= n
    case _ => 1 <= c.arg <= n
  }

  /** The clause built so far says what the filter's fields say, and every placeholder has its argument. */
  ghost predicate Says(conditions: seq<Condition>, args: seq<Arg>, f: Filter) {
    && (forall i | 0 <= i < |conditions| :: Numbered(conditions[i], |args|))
    && (forall r: Record :: AllHold(conditions, args, r) <==> Matches(f, r))
  }

  class Repository {
    var rows: seq<Record>

    ghost predicate Valid()
      reads this
    {
      Descending(rows)
    }

    constructor ()
      ensures Valid() && rows == []
    {
      rows := [];
    }

    /** INSERT: the new row takes its place in the order. */
    method Insert(r: Record)
      requires Valid() && forall i | 0 <= i < |rows| :: rows[i].key != r.key
      modifies this
      ensures Valid() && multiset(rows) == multiset(old(rows)) + multiset{r}
    {
      var i := 0;
      while i < |rows| && Below(r.key, rows[i].key)
        invariant 0 <= i <= |rows| && rows == old(rows)
        invariant forall j | 0 <= j < i :: Below(r.key, rows[j].key)
      {
        i := i + 1;
      }
      assert rows == rows[..i] + rows[i..];
      rows := rows[..i] + [r] + rows[i..];
    }

    /** The WHERE clause, its arguments and the number of the next placeholder. */
    method BuildWhere(filter: Filter) returns (conditions: seq<Condition>, args: seq<Arg>, argIdx: nat)
      ensures Says(conditions, args, filter) && argIdx == |args| + 1
    {
      hide Says, Holds, AllHold, Matches;
      conditions, args, argIdx := [], [], 1;
      ghost var said := Filter(None, None, None, None, filter.limit);
      NothingSaid(said);
      if filter.status.Some? {
        StatusAdded(conditions, args, said, filter.status.value);
        conditions := conditions + [StatusIs(argIdx)];
        args := args + [StatusArg(filter.status.value)];
        argIdx := argIdx + 1;
        said := said.(status := filter.status);
      }
      if filter.channel.Some? {
        ChannelAdded(conditions, args, said, filter.channel.value);
        conditions := conditions + [ChannelIs(argIdx)];
        args := args + [ChannelArg(filter.channel.value)];
        argIdx := argIdx + 1;
        said := said.(channel := filter.channel);
      }
      if filter.batchId.Some? {
        BatchAdded(conditions, args, said, filter.batchId.value);
        conditions := conditions + [BatchIs(argIdx)];
        args := args + [UuidArg(filter.batchId.value)];
        argIdx := argIdx + 1;
        said := said.(batchId := filter.batchId);
      }
      if filter.cursor.Some? {
        CursorAdded(conditions, args, said, filter.cursor.value);
        conditions := conditions + [RowBelow(argIdx, argIdx + 1)];
        args := args + [TimeArg(filter.cursor.value.createdAt), UuidArg(filter.cursor.value.id)];
        argIdx := argIdx + 2;
        said := said.(cursor := filter.cursor);
      }
    }

    method List(filter: Filter) returns (result: Page)
      requires Valid()
      ensures result == PageOf(rows, filter)
      // newest first: by created_at, and by id where that is the same
      ensures forall i, j | 0 <= i < j < |result.items| ::
                || result.items[i].key.createdAt > result.items[j].key.createdAt
                || (&& result.items[i].key.createdAt == result.items[j].key.createdAt
                    && result.items[i].key.id > result.items[j].key.id)
      // only rows older than the cursor, which match the filter
      ensures filter.cursor.Some? ==>
                forall i | 0 <= i < |result.items| ::
                  || result.items[i].key.createdAt < filter.cursor.value.createdAt
                  || (&& result.items[i].key.createdAt == filter.cursor.value.createdAt
                      && result.items[i].key.id < filter.cursor.value.id)
      ensures forall i | 0 <= i < |result.items| :: result.items[i] in rows && Selects(filter, result.items[i])
      // fifty, unless the limit is between 1 and 100; the cursor is the last item's key, on a full page
      ensures |result.items| <= if 1 <= filter.limit <= 100 then filter.limit else 50
      ensures result.next.Some? ==>
                && |result.items| == (if 1 <= filter.limit <= 100 then filter.limit else 50)
                && result.next == Some(result.items[|result.items| - 1].key)
    {
      PageIsNewestFirst(rows, filter);
      hide Says, Where, Matching, Bound, Query, PageOf, Descending, Selects;
      var limit := filter.limit;
      if limit <= 0 || limit > 100 {
        limit := 50;
      }
      var conditions, args, argIdx := BuildWhere(filter);
      LooksAhead(rows, conditions, args, filter);
      args := args + [CountArg(limit + 1)];
      var notifications := Query(rows, conditions, args, argIdx);
      if |notifications| > limit {
        notifications := notifications[..limit];
        var last := notifications[|notifications| - 1];
        return Page(notifications, Some(last.key));
      }
      return Page(notifications, None);
    }
  }

  /** Newest first: by created_at, and by id where that is the same. */
  predicate NewestFirst(rows: seq<Record>) {
    forall i, j | 0 <= i < j < |rows| ::
      || rows[i].key.createdAt > rows[j].key.createdAt
      || (rows[i].key.createdAt == rows[j].key.createdAt && rows[i].key.id > rows[j].key.id)
  }

  lemma DescendingIsNewestFirst(rows: seq<Record>)
    ensures Descending(rows) <==> NewestFirst(rows)
  {
    forall i, j | 0 <= i < j < |rows|
      ensures Below(rows[j].key, rows[i].key) <==>
                || rows[i].key.createdAt > rows[j].key.createdAt
                || (rows[i].key.createdAt == rows[j].key.createdAt && rows[i].key.id > rows[j].key.id)
    {
    }
  }

  /** What a page holds, in terms of the rows' own columns. */
  lemma PageIsNewestFirst(rows: seq<Record>, f: Filter)
    requires Descending(rows)
    ensures var page := PageOf(rows, f);
            var n := if 1 <= f.limit <= 100 then f.limit else 50;
            && NewestFirst(page.items)
            && (forall i | 0 <= i < |page.items| ::
                  && page.items[i] in rows && Selects(f, page.items[i])
                  && (f.cursor.Some? ==>
                        || page.items[i].key.createdAt < f.cursor.value.createdAt
                        || (&& page.items[i].key.createdAt == f.cursor.value.createdAt
                            && page.items[i].key.id < f.cursor.value.id)))
            && |page.items| <= n
            && (page.next.Some? ==> |page.items| == n && page.next == Some(page.items[n - 1].key))
  {
    PageDescends(rows, f);
    DescendingIsNewestFirst(PageOf(rows, f).items);
    hide Descending, Matching;
  }

  // ---------------------------------------------------------------- the clause

  /** Arguments added later do not change what a placeholder stands for. */
  lemma LaterArgs(c: Condition, args: seq<Arg>, more: seq<Arg>, r: Record)
    requires Numbered(c, |args|)
    ensures Holds(c, args + more, r) <==> Holds(c, args, r)
  {
    assert forall n | 1 <= n <= |args| :: Bound(args + more, n) == Bound(args, n);
  }

  lemma LaterArgsAll(conditions: seq<Condition>, args: seq<Arg>, more: seq<Arg>, r: Record)
    requires forall i | 0 <= i < |conditions| :: Numbered(conditions[i], |args|)
    ensures AllHold(conditions, args + more, r) <==> AllHold(conditions, args, r)
  {
    hide Holds, Numbered;
    forall i | 0 <= i < |conditions| ensures Holds(conditions[i], args + more, r) <==> Holds(conditions[i], args, r) {
      LaterArgs(conditions[i], args, more, r);
    }
  }

  lemma SaysMore(conditions: seq<Condition>, args: seq<Arg>, c: Condition, added: seq<Arg>, f: Filter, f': Filter)
    requires Says(conditions, args, f) && Numbered(c, |args + added|)
    requires forall r: Record :: Matches(f, r) && Holds(c, args + added, r) <==> Matches(f', r)
    ensures Says(conditions + [c], args + added, f')
  {
    hide Holds, Matches;
    var cs, all := conditions + [c], args + added;
    assert forall i | 0 <= i < |conditions| :: cs[i] == conditions[i];
    forall r: Record ensures AllHold(cs, all, r) <==> Matches(f', r) {
      LaterArgsAll(conditions, args, added, r);
      assert cs[|conditions|] == c;
      assert AllHold(cs, all, r) <==> AllHold(conditions, all, r) && Holds(c, all, r);
    }
  }

  lemma StatusAdded(conditions: seq<Condition>, args: seq<Arg>, f: Filter, status: Status)
    requires Says(conditions, args, f) && f.status.None?
    ensures Says(conditions + [StatusIs(|args| + 1)], args + [StatusArg(status)], f.(status := Some(status)))
  {
    hide Says;
    SaysMore(conditions, args, StatusIs(|args| + 1), [StatusArg(status)], f, f.(status := Some(status)));
  }

  lemma ChannelAdded(conditions: seq<Condition>, args: seq<Arg>, f: Filter, channel: Channel)
    requires Says(conditions, args, f) && f.channel.None?
    ensures Says(conditions + [ChannelIs(|args| + 1)], args + [ChannelArg(channel)], f.(channel := Some(channel)))
  {
    hide Says;
    SaysMore(conditions, args, ChannelIs(|args| + 1), [ChannelArg(channel)], f, f.(channel := Some(channel)));
  }

  lemma BatchAdded(conditions: seq<Condition>, args: seq<Arg>, f: Filter, batchId: Uuid)
    requires Says(conditions, args, f) && f.batchId.None?
    ensures Says(conditions + [BatchIs(|args| + 1)], args + [UuidArg(batchId)], f.(batchId := Some(batchId)))
  {
    hide Says;
    SaysMore(conditions, args, BatchIs(|args| + 1), [UuidArg(batchId)], f, f.(batchId := Some(batchId)));
  }

  lemma CursorAdded(conditions: seq<Condition>, args: seq<Arg>, f: Filter, cursor: Key)
    requires Says(conditions, args, f) && f.cursor.None?
    ensures Says(conditions + [RowBelow(|args| + 1, |args| + 2)],
        args + [TimeArg(cursor.createdAt), UuidArg(cursor.id)], f.(cursor := Some(cursor)))
  {
    hide Says;
    SaysMore(conditions, args, RowBelow(|args| + 1, |args| + 2), [TimeArg(cursor.createdAt), UuidArg(cursor.id)], f,
             f.(cursor := Some(cursor)));
  }

  lemma NothingSaid(f: Filter)
    requires f.status.None? && f.channel.None? && f.batchId.None? && f.cursor.None?
    ensures Says([], [], f)
  {
  }

  lemma {:induction false} WhereIsMatching(rows: seq<Record>, conditions: seq<Condition>, args: seq<Arg>,
      more: seq<Arg>, f: Filter)
    requires Says(conditions, args, f)
    ensures Where(rows, conditions, args + more) == Matching(rows, f)
  {
    hide AllHold, Numbered, Matches;
    if rows != [] {
      WhereIsMatching(rows[1..], conditions, args, more, f);
      LaterArgsAll(conditions, args, more, rows[0]);
    }
  }

  /** LIMIT limit+1 shows whether anything follows the page. */
  lemma LooksAhead(rows: seq<Record>, conditions: seq<Condition>, args: seq<Arg>, f: Filter)
    requires Says(conditions, args, f)
    ensures var n := Limit(f.limit);
            var found := Query(rows, conditions, args + [CountArg(n + 1)], |args| + 1);
            PageOf(rows, f) == if |found| > n then Page(found[..n], Some(found[..n][n - 1].key)) else Page(found, None)
  {
    hide Says, Matching, Where;
    var n := Limit(f.limit);
    WhereIsMatching(rows, conditions, args, [CountArg(n + 1)], f);
    var found := Matching(rows, f);
    assert Bound(args + [CountArg(n + 1)], |args| + 1) == Some(CountArg(n + 1));
    if n + 1 < |found| {
      assert found[..n + 1][..n] == found[..n];
    }
  }

  // ---------------------------------------------------------------- matching rows

  lemma {:induction false} MatchingAre(rows: seq<Record>, f: Filter, r: Record)
    ensures r in Matching(rows, f) <==> r in rows && Matches(f, r)
  {
    if rows != [] {
      MatchingAre(rows[1..], f, r);
    }
  }

  lemma {:induction false} MatchingDescends(rows: seq<Record>, f: Filter)
    requires Descending(rows)
    ensures Descending(Matching(rows, f))
  {
    if rows != [] {
      MatchingDescends(rows[1..], f);
      forall r | r in Matching(rows[1..], f) ensures Below(r.key, rows[0].key) {
        MatchingAre(rows[1..], f, r);
        var i :| 0 <= i < |rows[1..]| && rows[1..][i] == r;
        assert rows[i + 1] == r;
      }
    }
  }

  /** A cursor taken from the matching rows leaves exactly those behind it. */
  lemma {:induction false} CursorLeavesRest(rows: seq<Record>, f: Filter, k: nat)
    requires Descending(rows) && k < |Matching(rows, f)|
    ensures Matching(rows, f.(cursor := Some(Matching(rows, f)[k].key))) == Matching(rows, f)[k + 1..]
  {
    hide Selects;
    var found := Matching(rows, f);
    var c := found[k].key;
    var f' := f.(cursor := Some(c));
    MatchingAre(rows, f, found[k]);
    assert Descending(rows[1..]);
    if Matches(f, rows[0]) {
      if k == 0 {
        assert found[1..] == Matching(rows[1..], f);
        MatchingBelow(rows[1..], f, c);
      } else {
        MatchingDescends(rows, f);
        CursorLeavesRest(rows[1..], f, k - 1);
        assert found[k + 1..] == Matching(rows[1..], f)[k..];
      }
    } else {
      CursorLeavesRest(rows[1..], f, k);
    }
  }

  /** A cursor above every row changes nothing. */
  lemma {:induction false} MatchingBelow(rows: seq<Record>, f: Filter, c: Key)
    requires forall i | 0 <= i < |rows| :: Below(rows[i].key, c)
    requires f.cursor.Some? ==> Below(c, f.cursor.value)
    ensures Matching(rows, f.(cursor := Some(c))) == Matching(rows, f)
  {
    if rows != [] {
      MatchingBelow(rows[1..], f, c);
    }
  }

  // ---------------------------------------------------------------- a walk over a fixed table

  function Continue(f: Filter, page: Page): Filter {
    f.(cursor := page.next)
  }

  lemma PageAdvances(rows: seq<Record>, f: Filter)
    requires Descending(rows)
    ensures var page, found, n := PageOf(rows, f), Matching(rows, f), Limit(f.limit);
            && (page.next.None? ==> page.items == found && |found| <= n)
            && (page.next.Some? ==>
                  && page.items == found[..n] && |found| > n
                  && Matching(rows, Continue(f, page)) == found[n..] && found[n..] != [])
  {
    var found, n := Matching(rows, f), Limit(f.limit);
    if |found| > n {
      CursorLeavesRest(rows, f, n - 1);
    }
  }

  /** The pages a client sees that follows the cursor to the end. */
  function Walk(rows: seq<Record>, f: Filter): (pages: seq<Page>)
    requires Descending(rows)
    decreases |Matching(rows, f)|
  {
    PageAdvances(rows, f);
    var page := PageOf(rows, f);
    if page.next.None? then [page] else [page] + Walk(rows, Continue(f, page))
  }

  function Items(pages: seq<Page>): seq<Record> {
    if pages == [] then [] else pages[0].items + Items(pages[1..])
  }

  lemma {:induction false} WalkCovers(rows: seq<Record>, f: Filter)
    requires Descending(rows)
    ensures var pages, n := Walk(rows, f), Limit(f.limit);
            && pages != [] && Items(pages) == Matching(rows, f)
            && (forall i | 0 <= i < |pages| :: pages[i].next.Some? <==> i < |pages| - 1)
            && (forall i | 0 <= i < |pages| - 1 :: |pages[i].items| == n)
            && |pages[|pages| - 1].items| <= n
            && (|Items(pages)| > 0 ==> |pages[|pages| - 1].items| > 0)
    decreases |Matching(rows, f)|
  {
    PageAdvances(rows, f);
    var page := PageOf(rows, f);
    if page.next.Some? {
      WalkCovers(rows, Continue(f, page));
      assert Walk(rows, f)[1..] == Walk(rows, Continue(f, page));
    } else {
      assert Walk(rows, f) == [page];
      assert Walk(rows, f)[1..] == [];
    }
  }

  /**
   For every filter and limit the walk ends, its pages put together are exactly the matching rows in order, every
   page but the last is full, and the cursor is missing exactly where nothing is left to show.
   */
  lemma WalkIsTable(rows: seq<Record>, f: Filter)
    requires Descending(rows)
    ensures var pages := Walk(rows, f);
            var n := if 1 <= f.limit <= 100 then f.limit else 50;
            && pages != [] && Items(pages) == Matching(rows, f) && NewestFirst(Items(pages))
            && (forall r :: r in Items(pages) <==> r in rows && Matches(f, r))
            && (forall i | 0 <= i < |pages| :: pages[i].next.Some? <==> i < |pages| - 1)
            && (forall i | 0 <= i < |pages| - 1 :: |pages[i].items| == n)
            && |pages[|pages| - 1].items| <= n
            && (|Items(pages)| > 0 ==> |pages[|pages| - 1].items| > 0)
  {
    hide Matching, Walk, Descending, Matches;
    WalkCovers(rows, f);
    MatchingDescends(rows, f);
    DescendingIsNewestFirst(Matching(rows, f));
    forall r ensures r in Matching(rows, f) <==> r in rows && Matches(f, r) {
      MatchingAre(rows, f, r);
    }
  }

  // ---------------------------------------------------------------- a walk over a changing table

  /** Page i was fetched from tables[i], each page after the first with the cursor of the one before. */
  predicate Fetched(tables: seq<seq<Record>>, f: Filter, pages: seq<Page>)
    decreases |pages|
  {
    && |tables| == |pages|
    && (pages != [] ==>
          && pages[0] == PageOf(tables[0], f)
          && (|pages| > 1 ==> pages[0].next.Some? && Fetched(tables[1..], Continue(f, pages[0]), pages[1..])))
  }

  predicate HoldsKey(rows: seq<Record>, f: Filter, k: Key) {
    exists i :: 0 <= i < |rows| && rows[i].key == k && Selects(f, rows[i])
  }

  predicate BelowCursor(f: Filter, k: Key) {
    f.cursor.Some? ==> Below(k, f.cursor.value)
  }

  /** Whatever happens to the table between fetches, what has been listed only descends: nothing comes twice. */
  lemma {:induction false} ListedDescends(tables: seq<seq<Record>>, f: Filter, pages: seq<Page>)
    requires (forall i | 0 <= i < |tables| :: Descending(tables[i])) && Fetched(tables, f, pages)
    ensures Descending(Items(pages))
    ensures forall i | 0 <= i < |Items(pages)| :: BelowCursor(f, Items(pages)[i].key)
    decreases |pages|
  {
    if pages != [] {
      var f' := Continue(f, pages[0]);
      PageDescends(tables[0], f);
      if |pages| > 1 {
        ListedDescends(tables[1..], f', pages[1..]);
        var front, back := pages[0].items, Items(pages[1..]);
        JoinDescends(front, back, f'.cursor.value);
        forall i | 0 <= i < |back| ensures BelowCursor(f, back[i].key) {
          assert BelowCursor(f', back[i].key);
        }
      } else {
        assert pages[1..] == [];
      }
    }
  }

  lemma PageDescends(rows: seq<Record>, f: Filter)
    requires Descending(rows)
    ensures var page := PageOf(rows, f);
            && Descending(page.items)
            && (forall i | 0 <= i < |page.items| :: page.items[i] in rows && Matches(f, page.items[i]))
            && (page.next.Some? ==>
                  && page.items != [] && page.items[|page.items| - 1].key == page.next.value
                  && BelowCursor(f, page.next.value))
  {
    MatchingDescends(rows, f);
    forall r | r in Matching(rows, f) ensures r in rows && Matches(f, r) {
      MatchingAre(rows, f, r);
    }
  }

  lemma JoinDescends(front: seq<Record>, back: seq<Record>, c: Key)
    requires Descending(front) && front != [] && front[|front| - 1].key == c
    requires Descending(back) && forall i | 0 <= i < |back| :: Below(back[i].key, c)
    ensures Descending(front + back)
  {
    forall i, j | 0 <= i < |front| && 0 <= j < |back| ensures Below(back[j].key, front[i].key) {
      assert i < |front| - 1 ==> Below(c, front[i].key);
    }
  }

  lemma PageHasKey(rows: seq<Record>, f: Filter, k: Key)
    requires Descending(rows) && HoldsKey(rows, f, k) && BelowCursor(f, k)
    ensures var page := PageOf(rows, f);
            || (exists i :: 0 <= i < |page.items| && page.items[i].key == k)
            || (page.next.Some? && Below(k, page.next.value))
  {
    hide Matching, Selects;
    var i :| 0 <= i < |rows| && rows[i].key == k && Selects(f, rows[i]);
    MatchingAre(rows, f, rows[i]);
    MatchingDescends(rows, f);
    var found := Matching(rows, f);
    var j :| 0 <= j < |found| && found[j] == rows[i];
    hide Below;
    var page := PageOf(rows, f);
    if j < |page.items| {
      assert page.items[j].key == k;
    } else {
      assert Below(found[j].key, found[Limit(f.limit) - 1].key);
    }
  }

  lemma StillHolds(rows: seq<Record>, f: Filter, page: Page, k: Key)
    requires HoldsKey(rows, f, k)
    ensures HoldsKey(rows, Continue(f, page), k)
  {
    var i :| 0 <= i < |rows| && rows[i].key == k && Selects(f, rows[i]);
    assert Selects(Continue(f, page), rows[i]);
  }

  lemma {:induction false} ListedHasKey(tables: seq<seq<Record>>, f: Filter, pages: seq<Page>, k: Key)
    requires (forall i | 0 <= i < |tables| :: Descending(tables[i]) && HoldsKey(tables[i], f, k))
        && Fetched(tables, f, pages)
    requires pages != [] && pages[|pages| - 1].next.None? && BelowCursor(f, k)
    ensures exists i :: 0 <= i < |Items(pages)| && Items(pages)[i].key == k
    decreases |pages|
  {
    hide PageOf, Descending, Below, Selects;
    PageHasKey(tables[0], f, k);
    if i :| 0 <= i < |pages[0].items| && pages[0].items[i].key == k {
      assert Items(pages)[i].key == k;
    } else {
      var f' := Continue(f, pages[0]);
      forall i | 0 <= i < |tables[1..]| ensures HoldsKey(tables[1..][i], f', k) && Descending(tables[1..][i]) {
        StillHolds(tables[i + 1], f, pages[0], k);
      }
      hide HoldsKey;
      ListedHasKey(tables[1..], f', pages[1..], k);
      var i :| 0 <= i < |Items(pages[1..])| && Items(pages[1..])[i].key == k;
      assert Items(pages)[|pages[0].items| + i].key == k;
    }
  }

  /** Every row shown was in the table, and selected by the filter, when its page was fetched. */
  lemma {:induction false} ListedIsReal(tables: seq<seq<Record>>, f: Filter, pages: seq<Page>, i: nat, r: Record)
    requires (forall i | 0 <= i < |tables| :: Descending(tables[i])) && Fetched(tables, f, pages)
    requires i < |pages| && r in pages[i].items
    ensures r in tables[i] && Selects(f, r)
    decreases |pages|
  {
    PageDescends(tables[0], f);
    if i > 0 {
      assert pages[1..][i - 1] == pages[i] && tables[1..][i - 1] == tables[i];
      ListedIsReal(tables[1..], Continue(f, pages[0]), pages[1..], i - 1, r);
    }
  }

  /**
   Rows may be inserted, updated or deleted between fetches. What a finished walk has shown is strictly descending,
   so nothing is shown twice, and every row that exists and matches at every fetch was shown exactly once.
   */
  lemma WalkWhileWriting(tables: seq<seq<Record>>, f: Filter, pages: seq<Page>, k: Key)
    requires (forall i | 0 <= i < |tables| :: Descending(tables[i])) && Fetched(tables, f, pages)
    ensures NewestFirst(Items(pages))
    ensures pages != [] && pages[|pages| - 1].next.None? && BelowCursor(f, k)
            && (forall i | 0 <= i < |tables| :: HoldsKey(tables[i], f, k)) ==>
              exists i :: 0 <= i < |Items(pages)| && Items(pages)[i].key == k
                          && forall j | 0 <= j < |Items(pages)| && Items(pages)[j].key == k :: j == i
  {
    ListedDescends(tables, f, pages);
    DescendingIsNewestFirst(Items(pages));
    if pages != [] && pages[|pages| - 1].next.None? && BelowCursor(f, k)
       && (forall i | 0 <= i < |tables| :: HoldsKey(tables[i], f, k)) {
      ListedHasKey(tables, f, pages, k);
      var i :| 0 <= i < |Items(pages)| && Items(pages)[i].key == k;
      forall j | 0 <= j < |Items(pages)| && Items(pages)[j].key == k ensures j == i {
        assert !Below(k, k);
      }
    }
  }
}
