/** Log entries, their hash chains, and rows in the total order (src/types.ts, src/encoding.ts, src/store.ts). */
module Entries {
  import opened HlcClock

  /** JSON values, as payloads and view states carry them. */
  datatype Json =
    | JNull | JBool(b: bool) | JNumber(n: int) | JString(s: string)
    | JArray(items: seq<Json>) | JObject(fields: map<string, Json>)

  /** An entry reference: topic, writer, seq. */
  datatype EntryId = EntryId(topic: string, writer: string, seqNo: nat)

  /** Everything the chain hash covers besides the previous chain. */
  datatype Body = Body(
    seqNo: nat, hlc: Hlc, kind: string, key: Option<string>,
    causal: Option<(string, nat)>, ref: Option<EntryId>, payload: Json)

  /**
    A chain value. Hashing is collision-free here: a chain is the term that was hashed. `Foreign` is
    any text that is no chain this model can build, as a peer may put on the wire.
  */
  datatype Chain = Seed(topic: string, writer: string) | Link(prev: Chain, body: Body) | Foreign(text: string)

  datatype Entry = Entry(topic: string, writer: string, body: Body, chain: Chain)

  function ChainOf(prev: Chain, e: Entry): Chain { Link(prev, e.body) }

  function OrderOf(e: Entry): Order { Order(e.body.hlc.l, e.body.hlc.c, e.writer, e.body.seqNo) }

  function IdOf(e: Entry): EntryId { EntryId(e.topic, e.writer, e.body.seqNo) }

  /** A row of sq_log. */
  datatype LogRow = LogRow(rowid: nat, entry: Entry)

  function EntriesOf(rows: seq<LogRow>): (r: seq<Entry>)
    ensures |r| == |rows| && forall i | 0 <= i < |rows| :: r[i] == rows[i].entry
  {
    seq(|rows|, i requires 0 <= i < |rows| => rows[i].entry)
  }

  // ---- rows in total order ----

  ghost predicate Sorted(xs: seq<Entry>)
  {
    forall i, j | 0 <= i < j < |xs| :: Before(OrderOf(xs[i]), OrderOf(xs[j]))
  }

  /** No two rows share a place in the order: (topic, writer, seq) is unique. */
  ghost predicate DistinctOrders(xs: seq<Entry>)
  {
    forall i, j | 0 <= i < j < |xs| :: OrderOf(xs[i]) != OrderOf(xs[j])
  }

  /** Insert before the first later row. */
  function Insert(xs: seq<Entry>, e: Entry): seq<Entry>
  {
    if xs == [] || Before(OrderOf(e), OrderOf(xs[0])) then [e] + xs
    else [xs[0]] + Insert(xs[1..], e)
  }

  /** Sort by the total order (Array.prototype.sort, or ORDER BY hlc_l, hlc_c, writer, seq). */
  function SortEntries(xs: seq<Entry>): seq<Entry>
  {
    if xs == [] then [] else Insert(SortEntries(xs[1..]), xs[0])
  }

  /** The rows strictly after a cursor, order kept; None is the start. */
  function After(xs: seq<Entry>, cursor: Option<Order>): seq<Entry>
  {
    if xs == [] then []
    else (if cursor.None? || Before(cursor.value, OrderOf(xs[0])) then [xs[0]] else []) + After(xs[1..], cursor)
  }

  /** The place of the last row, if any. */
  function LastOrder(xs: seq<Entry>): Option<Order>
  {
    if xs == [] then None else Some(OrderOf(xs[|xs| - 1]))
  }

  function Take(xs: seq<Entry>, limit: nat): seq<Entry> { if |xs| <= limit then xs else xs[..limit] }

  /** Rows with rowid above a cursor, in rowid order, at most `limit`. */
  function RowsAfter(rows: seq<LogRow>, rowid: nat): seq<LogRow>
  {
    if rows == [] then [] else (if rows[0].rowid > rowid then [rows[0]] else []) + RowsAfter(rows[1..], rowid)
  }

  ghost predicate RowidsIncrease(rows: seq<LogRow>)
  {
    forall i, j | 0 <= i < j < |rows| :: rows[i].rowid < rows[j].rowid
  }

  lemma {:induction false} InsertSorted(xs: seq<Entry>, e: Entry)
    requires Sorted(xs) && forall x | x in xs :: OrderOf(x) != OrderOf(e)
    ensures Sorted(Insert(xs, e)) && |Insert(xs, e)| == |xs| + 1
    ensures forall x :: x in Insert(xs, e) <==> x in xs || x == e
  {
    if xs == [] {
    } else if Before(OrderOf(e), OrderOf(xs[0])) {
      forall i | 0 <= i < |xs|
        ensures Before(OrderOf(e), OrderOf(xs[i]))
      {
        if i > 0 { OrderTransitive(OrderOf(e), OrderOf(xs[0]), OrderOf(xs[i])); }
      }
    } else {
      OrderTotal(OrderOf(e), OrderOf(xs[0]));
      assert xs == [xs[0]] + xs[1..];
      InsertSorted(xs[1..], e);
      forall x | x in Insert(xs[1..], e)
        ensures Before(OrderOf(xs[0]), OrderOf(x))
      {
      }
    }
  }

  lemma {:induction false} SortSorts(xs: seq<Entry>)
    requires DistinctOrders(xs)
    ensures Sorted(SortEntries(xs)) && |SortEntries(xs)| == |xs|
    ensures forall x :: x in SortEntries(xs) <==> x in xs
  {
    if xs != [] {
      assert xs == [xs[0]] + xs[1..];
      SortSorts(xs[1..]);
      InsertSorted(SortEntries(xs[1..]), xs[0]);
    }
  }

  /** A sorted sequence is determined by what it contains. */
  lemma {:induction false} SortedUnique(xs: seq<Entry>, ys: seq<Entry>)
    requires Sorted(xs) && Sorted(ys) && forall e :: e in xs <==> e in ys
    ensures xs == ys
  {
    assert xs != [] ==> xs[0] in xs;
    assert ys != [] ==> ys[0] in ys;
    if xs != [] && ys != [] {
      SameFirst(xs, ys);
      FirstNotInRest(xs);
      FirstNotInRest(ys);
      SortedUnique(xs[1..], ys[1..]);
      assert xs == [xs[0]] + xs[1..] && ys == [ys[0]] + ys[1..];
    }
  }

  lemma FirstNotInRest(xs: seq<Entry>)
    requires Sorted(xs) && xs != []
    ensures xs[0] !in xs[1..] && forall e :: e in xs[1..] <==> e in xs && e != xs[0]
  {
    OrderTotal(OrderOf(xs[0]), OrderOf(xs[0]));
    assert xs == [xs[0]] + xs[1..];
  }

  lemma SameFirst(xs: seq<Entry>, ys: seq<Entry>)
    requires Sorted(xs) && Sorted(ys) && xs != [] && ys != []
    requires xs[0] in ys && ys[0] in xs
    ensures xs[0] == ys[0]
  {
    OrderTotal(OrderOf(xs[0]), OrderOf(ys[0]));
    var i :| 0 <= i < |ys| && ys[i] == xs[0];
    var j :| 0 <= j < |xs| && xs[j] == ys[0];
  }

  lemma {:induction false} AfterMembers(xs: seq<Entry>, cursor: Option<Order>)
    ensures forall e :: e in After(xs, cursor) <==> e in xs && (cursor.None? || Before(cursor.value, OrderOf(e)))
  {
    if xs != [] {
      AfterMembers(xs[1..], cursor);
      assert xs == [xs[0]] + xs[1..];
    }
  }

  lemma {:induction false} AfterNone(xs: seq<Entry>)
    ensures After(xs, None) == xs
  {
    if xs != [] {
      AfterNone(xs[1..]);
    }
  }

  /** Selecting keeps the order, and stays ahead of the cursor. */
  lemma {:induction false} AfterSorted(xs: seq<Entry>, cursor: Option<Order>)
    requires Sorted(xs)
    ensures Sorted(After(xs, cursor))
  {
    if xs != [] {
      AfterSorted(xs[1..], cursor);
      AfterMembers(xs[1..], cursor);
      var rest := After(xs[1..], cursor);
      forall e | e in rest
        ensures Before(OrderOf(xs[0]), OrderOf(e))
      {
        var i :| 0 <= i < |xs[1..]| && xs[1..][i] == e;
        assert xs[i + 1] == e;
      }
    }
  }

  /** Paging: moving the cursor to the k-th selected row drops exactly the first k. */
  lemma {:induction false} AfterAdvances(xs: seq<Entry>, cursor: Option<Order>, k: nat)
    requires Sorted(xs) && 0 < k <= |After(xs, cursor)|
    ensures After(xs, Some(OrderOf(After(xs, cursor)[k - 1]))) == After(xs, cursor)[k..]
  {
    var picked := After(xs, cursor);
    var cut := Some(OrderOf(picked[k - 1]));
    AfterSorted(xs, cursor);
    AfterSorted(xs, cut);
    AfterMembers(xs, cursor);
    AfterMembers(xs, cut);
    forall e
      ensures e in After(xs, cut) <==> e in picked[k..]
    {
      if e in After(xs, cut) {
        if cursor.Some? { OrderTransitive(cursor.value, cut.value, OrderOf(e)); }
        var i :| 0 <= i < |picked| && picked[i] == e;
        OrderTotal(cut.value, OrderOf(e));
        assert i >= k;
      }
      if e in picked[k..] {
        var i :| 0 <= i < |picked[k..]| && picked[k..][i] == e;
        assert picked[k + i] == e;
      }
    }
    SortedUnique(After(xs, cut), picked[k..]);
  }

  lemma {:induction false} RowsAfterMembers(rows: seq<LogRow>, rowid: nat)
    ensures forall r :: r in RowsAfter(rows, rowid) <==> r in rows && r.rowid > rowid
  {
    if rows != [] {
      RowsAfterMembers(rows[1..], rowid);
      assert rows == [rows[0]] + rows[1..];
    }
  }

  lemma {:induction false} RowsAfterIncrease(rows: seq<LogRow>, rowid: nat)
    requires RowidsIncrease(rows)
    ensures RowidsIncrease(RowsAfter(rows, rowid))
  {
    if rows != [] {
      RowsAfterIncrease(rows[1..], rowid);
      RowsAfterMembers(rows[1..], rowid);
      forall r | r in RowsAfter(rows[1..], rowid)
        ensures rows[0].rowid < r.rowid
      {
        var i :| 0 <= i < |rows[1..]| && rows[1..][i] == r;
        assert rows[i + 1] == r;
      }
    }
  }

  ghost predicate StoreOk(log: seq<LogRow>) { RowidsIncrease(log) && DistinctOrders(EntriesOf(log)) }

  /** The rows of the next batch, in rowid order. */
  function Page(log: seq<LogRow>, lastRowid: nat, limit: nat): seq<LogRow>
  {
    var rows := RowsAfter(log, lastRowid);
    if |rows| <= limit then rows else rows[..limit]
  }

  lemma EmptyPage(xs: seq<Entry>, limit: nat)
    requires limit > 0 && Take(xs, limit) == []
    ensures xs == []
  {
  }

  lemma PageAdvance(all: seq<Entry>, cursor: Option<Order>, limit: nat, folded: seq<Entry>)
    requires Sorted(all) && limit > 0 && Take(After(all, cursor), limit) != []
    ensures var page := Take(After(all, cursor), limit);
            && |After(all, LastOrder(page))| < |After(all, cursor)|
            && folded + After(all, cursor) == (folded + page) + After(all, LastOrder(page))
  {
    var page := Take(After(all, cursor), limit);
    AfterAdvances(all, cursor, |page|);
    assert After(all, cursor) == page + After(all, cursor)[|page|..];
  }

  lemma PageMembers(log: seq<LogRow>, lastRowid: nat, limit: nat)
    requires StoreOk(log) && Page(log, lastRowid, limit) != []
    ensures var page := Page(log, lastRowid, limit);
            var last := page[|page| - 1].rowid;
            && last > lastRowid
            && (forall r :: r in page <==> r in log && lastRowid < r.rowid <= last)
  {
    var rows := RowsAfter(log, lastRowid);
    RowsAfterMembers(log, lastRowid);
    RowsAfterIncrease(log, lastRowid);
    var page := Page(log, lastRowid, limit);
    var last := page[|page| - 1].rowid;
    assert page[|page| - 1] in rows;
    forall r | r in log && lastRowid < r.rowid <= last
      ensures r in page
    {
      var i :| 0 <= i < |rows| && rows[i] == r;
      assert i < |page| && page[i] == r;
    }
    forall r | r in page
      ensures r in log && lastRowid < r.rowid <= last
    {
      var i :| 0 <= i < |page| && page[i] == r;
      assert rows[i] == r;
    }
  }

  /** The sorted batch holds exactly the page's rows, and consuming it leaves fewer. */
  lemma BatchFacts(log: seq<LogRow>, lastRowid: nat, limit: nat)
    requires StoreOk(log) && Page(log, lastRowid, limit) != []
    ensures var page := Page(log, lastRowid, limit);
            var batch := SortEntries(EntriesOf(page));
            && batch != [] && Sorted(batch) && (forall e :: e in batch <==> e in EntriesOf(page))
            && |RowsAfter(log, page[|page| - 1].rowid)| < |RowsAfter(log, lastRowid)|
  {
    var page := Page(log, lastRowid, limit);
    RowsAfterIncrease(log, lastRowid);
    RowsAfterMembers(log, lastRowid);
    forall i, j | 0 <= i < j < |page|
      ensures OrderOf(page[i].entry) != OrderOf(page[j].entry)
    {
      assert page[i] in RowsAfter(log, lastRowid) && page[j] in RowsAfter(log, lastRowid);
      var a :| 0 <= a < |log| && log[a] == page[i];
      var b :| 0 <= b < |log| && log[b] == page[j];
      assert EntriesOf(log)[a] == page[i].entry && EntriesOf(log)[b] == page[j].entry;
    }
    SortSorts(EntriesOf(page));
    PageMembers(log, lastRowid, limit);
    RowsAfterShrinks(log, lastRowid, page[|page| - 1]);
  }

  lemma {:induction false} RowsAfterShrinks(log: seq<LogRow>, lastRowid: nat, r: LogRow)
    requires r in log && lastRowid < r.rowid
    ensures |RowsAfter(log, r.rowid)| < |RowsAfter(log, lastRowid)|
  {
    RowsAfterFewer(log[1..], lastRowid, r.rowid);
    if r != log[0] {
      assert r in log[1..];
      RowsAfterShrinks(log[1..], lastRowid, r);
    }
  }

  lemma {:induction false} RowsAfterFewer(log: seq<LogRow>, a: nat, b: nat)
    requires a <= b
    ensures |RowsAfter(log, b)| <= |RowsAfter(log, a)|
  {
    if log != [] {
      RowsAfterFewer(log[1..], a, b);
    }
  }

  lemma AppendSorted(xs: seq<Entry>, ys: seq<Entry>)
    requires Sorted(xs) && Sorted(ys)
    requires xs != [] && ys != [] ==> Before(OrderOf(xs[|xs| - 1]), OrderOf(ys[0]))
    ensures Sorted(xs + ys)
  {
    forall i, j | 0 <= i < |xs| && 0 <= j < |ys|
      ensures Before(OrderOf(xs[i]), OrderOf(ys[j]))
    {
      if i < |xs| - 1 { OrderTransitive(OrderOf(xs[i]), OrderOf(xs[|xs| - 1]), OrderOf(ys[0])); }
      if j > 0 { OrderTransitive(OrderOf(xs[i]), OrderOf(ys[0]), OrderOf(ys[j])); }
    }
  }

  lemma BatchMember(log: seq<LogRow>, lastRowid: nat, limit: nat, r: LogRow)
    requires StoreOk(log) && r in Page(log, lastRowid, limit) && r in log
    ensures var batch := SortEntries(EntriesOf(Page(log, lastRowid, limit)));
            batch != [] && !Before(OrderOf(r.entry), OrderOf(batch[0])) && r.entry in EntriesOf(log)
  {
    var page := Page(log, lastRowid, limit);
    var batch := SortEntries(EntriesOf(page));
    BatchFacts(log, lastRowid, limit);
    var i :| 0 <= i < |page| && page[i] == r;
    assert EntriesOf(page)[i] == r.entry;
    assert r.entry in EntriesOf(page);
    assert r.entry in batch;
    var k :| 0 <= k < |batch| && batch[k] == r.entry;
    OrderTotal(OrderOf(batch[0]), OrderOf(batch[k]));
    var j :| 0 <= j < |log| && log[j] == r;
    assert EntriesOf(log)[j] == r.entry;
  }

  /** The largest rowid held, or 0. */
  function MaxRowid(rows: seq<LogRow>): nat
  {
    if rows == [] then 0 else rows[|rows| - 1].rowid
  }

  /** Arrival order does not matter: logs holding the same rows read the same in total order. */
  lemma SameRowsSameOrder(a: seq<LogRow>, b: seq<LogRow>)
    requires StoreOk(a) && StoreOk(b) && forall e :: e in EntriesOf(a) <==> e in EntriesOf(b)
    ensures SortEntries(EntriesOf(a)) == SortEntries(EntriesOf(b))
  {
    SortSorts(EntriesOf(a));
    SortSorts(EntriesOf(b));
    SortedUnique(SortEntries(EntriesOf(a)), SortEntries(EntriesOf(b)));
  }
}
