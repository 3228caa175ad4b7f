/**
  The rowid table of a topic at a node of the net (src/log.ts:1619-1634, src/store.ts:202-213, 733-741): what order its
  rows stand in after any run, and what that makes of an export.
*/
module Tables {
  import opened HlcClock
  import opened Entries
  import opened Streams
  import opened CommitQueue
  import R = Replication
  import M = Membership
  import Export
  import Rounds
  import Sync

  // ---- what a step does to the table ----

  /** Rows inserted, in this order, each with a rowid above all before. */
  ghost predicate Inserted(t: seq<LogRow>, es: seq<Entry>, t': seq<LogRow>)
  {
    && |t'| == |t| + |es| && t'[..|t|] == t && (forall i | 0 <= i < |es| :: t'[|t| + i].entry == es[i])
    && RowidsIncrease(t') && forall r | r in t' :: r.rowid > 0
  }

  predicate InPrefix(e: Entry, id: StreamId, upto: nat) { StreamOf(e) == id && e.body.seqNo <= upto }

  /** deleteStreamPrefix. */
  function WithoutPrefix(t: seq<LogRow>, id: StreamId, upto: nat): seq<LogRow>
  {
    if t == [] then []
    else WithoutPrefix(t[..|t| - 1], id, upto) + if InPrefix(t[|t| - 1].entry, id, upto) then [] else [t[|t| - 1]]
  }

  function TopicOf(item: Item): string
    requires item.AppendItem? || item.ExternalItem? || item.FloorItem?
  {
    match item case AppendItem(topic, _, _, _, _, _) => topic case ExternalItem(e) => e.topic case FloorItem(id, _) => id.topic
  }

  /** An item commits, and the rows it applied to the topic are inserted in the order it applied them. */
  ghost predicate CommitTable(cfg: Config, topic: string, w: string, c: Core, item: Item, pt: nat, c': Core, t: seq<LogRow>, t': seq<LogRow>)
    requires (item.AppendItem? || item.ExternalItem? || item.FloorItem?) && ItemOk(item)
  {
    exists mid: Core, reply: Reply ::
      ItemStep(cfg, w, c, item, pt, mid, reply) && c' == mid.(applied := [], disk := mid.disk.(hlc := mid.hlc))
      && c.applied <= mid.applied && Inserted(t, if TopicOf(item) == topic then mid.applied[|c.applied|..] else [], t')
  }

  ghost predicate TableStep(cfg: Config, topic: string, w: string, c: Core, e: R.Event, c': Core, t: seq<LogRow>, t': seq<LogRow>)
  {
    match e
    case Write(item, pt) => item.AppendItem? && CommitTable(cfg, topic, w, c, item, pt, c', t, t')
    case TakeEntry(m, k, pt) =>
      m.EntriesMsg? && k < |m.entries| && m.entries[k].body.seqNo > 0 && CommitTable(cfg, topic, w, c, ExternalItem(m.entries[k]), pt, c', t, t')
    case TakeFloor(m, pt) => m.TruncatedMsg? && CommitTable(cfg, topic, w, c, FloorItem(m.stream, m.mark), pt, c', t, t')
    case Prune(id, upto) => t' == WithoutPrefix(t, id, upto)
    case _ => t' == t
  }

  /** A step of the net: only the node's own steps change its table. */
  ghost predicate TableMove(cfg: Config, topic: string, v: string, g: R.Net, w: string, e: R.Event, g': R.Net, t: seq<LogRow>, t': seq<LogRow>)
  {
    if w == v then v in g.nodes && v in g'.nodes && TableStep(cfg, topic, v, g.nodes[v], e, g'.nodes[v], t, t') else t' == t
  }

  /** The table of node `v` along a run of the net. */
  ghost predicate TableRun(cfg: Config, topic: string, gs: seq<R.Net>, who: seq<string>, es: seq<R.Event>, v: string, ts: seq<seq<LogRow>>)
    requires R.Run(cfg, gs, who, es)
  {
    && |ts| == |es| + 1 && ts[0] == [] && v in gs[0].nodes
    && forall i | 0 <= i < |es| :: TableMove(cfg, topic, v, gs[i], who[i], es[i], gs[i + 1], ts[i], ts[i + 1])
  }

  // ---- rows are only ever added above all others ----

  /** The stream gained exactly these rows, in seq order, above all it held. */
  ghost predicate Grows(id: StreamId, s: Stream, t: Stream, es: seq<Entry>)
  {
    && (forall n | n in s.rows :: n in t.rows && t.rows[n] == s.rows[n])
    && (forall e | e in es :: StreamOf(e) == id && e.body.seqNo > 0 && e.body.seqNo in t.rows && t.rows[e.body.seqNo] == e)
    && (forall n | n in t.rows :: n in s.rows || t.rows[n] in es)
    && (forall i, j | 0 <= i < j < |es| :: es[i].body.seqNo < es[j].body.seqNo)
    && (forall e, n | e in es && n in s.rows :: n < e.body.seqNo)
  }

  lemma GrowsNone(id: StreamId, s: Stream, t: Stream)
    requires t.rows == s.rows
    ensures Grows(id, s, t, [])
  {
  }

  lemma GrowsOne(id: StreamId, s: Stream, e: Entry)
    requires At(id, s.head.contigSeq + 1, e) && forall n | n in s.rows :: n <= s.head.contigSeq
    ensures Grows(id, s, Advance(true, s, e), [e])
  {
  }

  lemma GrowsThen(id: StreamId, s: Stream, m: Stream, t: Stream, es: seq<Entry>, fs: seq<Entry>)
    requires Grows(id, s, m, es) && Grows(id, m, t, fs)
    ensures Grows(id, s, t, es + fs)
  {
    var all := es + fs;
    forall i, j | 0 <= i < j < |all|
      ensures all[i].body.seqNo < all[j].body.seqNo
    {
      if i < |es| { assert es[i] in es; }
      if j >= |es| { assert all[j] == fs[j - |es|] && fs[j - |es|] in fs; }
    }
  }

  /** Rows not above the head, pending rows filed under their own seqs. */
  ghost predicate Under(id: StreamId, s: Stream)
  {
    (forall n | n in s.rows :: n <= s.head.contigSeq) && forall n | n in s.pending :: At(id, n, s.pending[n])
  }

  lemma UnderNext(id: StreamId, s: Stream)
    requires Under(id, s) && s.head.contigSeq + 1 in s.pending
    ensures var n := s.head.contigSeq + 1;
            var e, s' := s.pending[n], s.(pending := s.pending - {n});
            && At(id, n, e) && (forall m | m in s'.rows :: m <= s'.head.contigSeq) && Under(id, Advance(true, s', e))
            && |Advance(true, s', e).pending| < |s.pending|
  {
  }

  lemma {:induction false} DrainGrows(id: StreamId, s: Stream)
    requires Under(id, s)
    ensures Grows(id, s, Drain(true, id, s), Drained(true, id, s))
    decreases |s.pending|
  {
    hide Verifies, Grows, Under, Advance, At;
    var n := s.head.contigSeq + 1;
    if n in s.pending {
      var e, s' := s.pending[n], s.(pending := s.pending - {n});
      GrowsNone(id, s, s');
      GrowsNone(id, s, SealFork(s'));
      if Verifies(id, s', e) {
        UnderNext(id, s);
        GrowsOne(id, s', e);
        GrowsThen(id, s, s', Advance(true, s', e), [], [e]);
        assert [] + [e] == [e];
        DrainGrows(id, Advance(true, s', e));
        GrowsThen(id, s, Advance(true, s', e), Drain(true, id, Advance(true, s', e)), [e], Drained(true, id, Advance(true, s', e)));
      }
    } else {
      GrowsNone(id, s, s);
    }
  }

  lemma BranchUnder(id: StreamId, h: seq<Entry>, s: Stream)
    requires Canonical(id, h) && R.Tracks(id, h, s) && Rounds.HeldAbove(s)
    ensures Under(id, s)
  {
    hide Canonical;
    forall n | n in s.pending
      ensures At(id, n, s.pending[n])
    {
      BranchAt(id, h, n);
    }
  }

  lemma BranchAt(id: StreamId, h: seq<Entry>, n: nat)
    requires Canonical(id, h) && 1 <= n <= |h|
    ensures At(id, n, Nth(h, n))
  {
    assert CanonOk(id, h, n);
  }

  lemma ExternalGrows(cap: nat, id: StreamId, s: Stream, e: Entry)
    requires Under(id, s) && s.head.seal == Open && At(id, e.body.seqNo, e)
    ensures var o := External(true, cap, None, id, s, e); Grows(id, s, o.stream, o.applied)
  {
    hide Verifies, Drain, Drained, RecoveryIngest, Grows;
    var n := e.body.seqNo;
    GrowsNone(id, s, s);
    GrowsNone(id, s, SealFork(s));
    GrowsNone(id, s, s.(pending := s.pending[n := e]));
    if n == s.head.contigSeq + 1 {
      var a := Advance(true, s, e);
      GrowsOne(id, s, e);
      DrainGrows(id, a);
      GrowsThen(id, s, a, Drain(true, id, a), [e], Drained(true, id, a));
    }
  }

  lemma FloorGrows(id: StreamId, s: Stream, m: Mark)
    requires Under(id, s)
    ensures var (t, _, es) := AdoptFloor(true, id, s, m); Grows(id, s, t, es)
  {
    hide Verifies, Drain, Drained, Grows;
    GrowsNone(id, s, s);
    if s.head.contigSeq < m.seqNo {
      var j := JumpToFloor(s, m);
      GrowsNone(id, s, j);
      DrainGrows(id, j);
      GrowsThen(id, s, j, Drain(true, id, j), [], Drained(true, id, j));
      assert [] + Drained(true, id, j) == Drained(true, id, j);
    }
  }

  // ---- the table follows ----

  /** What a commit leaves of a table in order. */
  lemma InsertedTable(topic: string, c: Core, at: StreamId, c': Core, es: seq<Entry>, t: seq<LogRow>, t': seq<LogRow>)
    requires Export.TableOf(c, topic, t) && Inserted(t, if at.topic == topic then es else [], t')
    requires Grows(at, StreamAt(c, at), StreamAt(c', at), es) && forall o | o != at :: StreamAt(c', o) == StreamAt(c, o)
    ensures Export.TableOf(c', topic, t')
  {
    hide StreamAt, Grows, Export.LineOf, Export.InTable;
    var added := if at.topic == topic then es else [];
    forall i | 0 <= i < |t'|
      ensures Export.LineOf(c', topic, t'[i].entry)
    {
      LineStays(topic, c, at, c', es, t, t', i);
    }
    forall id: StreamId, n | id.topic == topic && n in StreamAt(c', id).rows
      ensures Export.InTable(t', StreamAt(c', id).rows[n])
    {
      RowStays(topic, c, at, c', es, t, t', id, n);
    }
    forall i, j | 0 <= i < j < |t'| && StreamOf(t'[i].entry) == StreamOf(t'[j].entry)
      ensures t'[i].entry.body.seqNo < t'[j].entry.body.seqNo
    {
      OrderStays(topic, c, at, c', es, t, t', i, j);
    }
  }

  /** What the three steps below start from. */
  ghost predicate Inserting(topic: string, c: Core, at: StreamId, c': Core, es: seq<Entry>, t: seq<LogRow>, t': seq<LogRow>)
  {
    && Export.TableOf(c, topic, t) && Inserted(t, if at.topic == topic then es else [], t')
    && Grows(at, StreamAt(c, at), StreamAt(c', at), es) && forall o | o != at :: StreamAt(c', o) == StreamAt(c, o)
  }

  lemma LineStays(topic: string, c: Core, at: StreamId, c': Core, es: seq<Entry>, t: seq<LogRow>, t': seq<LogRow>, i: nat)
    requires Inserting(topic, c, at, c', es, t, t') && i < |t'|
    ensures Export.LineOf(c', topic, t'[i].entry)
  {
    hide StreamAt;
    var added := if at.topic == topic then es else [];
    if i < |t| {
      assert t'[i] == t'[..|t|][i] == t[i];
      assert Export.LineOf(c, topic, t[i].entry);
    } else {
      assert t'[|t| + (i - |t|)].entry == added[i - |t|] && added[i - |t|] in es;
    }
  }

  lemma RowStays(topic: string, c: Core, at: StreamId, c': Core, es: seq<Entry>, t: seq<LogRow>, t': seq<LogRow>, id: StreamId, n: nat)
    requires Inserting(topic, c, at, c', es, t, t') && id.topic == topic && n in StreamAt(c', id).rows
    ensures Export.InTable(t', StreamAt(c', id).rows[n])
  {
    hide StreamAt;
    if n in StreamAt(c, id).rows {
      OldInTable(t, t', StreamAt(c, id).rows[n]);
    } else {
      NewInTable(t, es, t', StreamAt(c', id).rows[n]);
    }
  }

  lemma OrderStays(topic: string, c: Core, at: StreamId, c': Core, es: seq<Entry>, t: seq<LogRow>, t': seq<LogRow>, i: nat, j: nat)
    requires Inserting(topic, c, at, c', es, t, t') && i < j < |t'| && StreamOf(t'[i].entry) == StreamOf(t'[j].entry)
    ensures t'[i].entry.body.seqNo < t'[j].entry.body.seqNo
  {
    hide StreamAt;
    var added := if at.topic == topic then es else [];
    if j < |t| {
      assert t'[i] == t'[..|t|][i] == t[i] && t'[j] == t'[..|t|][j] == t[j];
    } else {
      assert t'[|t| + (j - |t|)].entry == added[j - |t|] && added[j - |t|] in es;
      if i < |t| {
        assert t'[i] == t'[..|t|][i] == t[i];
        assert Export.LineOf(c, topic, t[i].entry);
      } else {
        assert t'[|t| + (i - |t|)].entry == added[i - |t|];
      }
    }
  }

  lemma OldInTable(t: seq<LogRow>, t': seq<LogRow>, e: Entry)
    requires |t| <= |t'| && t'[..|t|] == t && Export.InTable(t, e)
    ensures Export.InTable(t', e)
  {
    var i :| 0 <= i < |t| && t[i].entry == e;
    assert t'[..|t|][i] == t'[i];
  }

  lemma NewInTable(t: seq<LogRow>, es: seq<Entry>, t': seq<LogRow>, e: Entry)
    requires Inserted(t, es, t') && e in es
    ensures Export.InTable(t', e)
  {
    var i :| 0 <= i < |es| && es[i] == e;
    assert t'[|t| + i].entry == e;
  }

  /** Rowids increase, and each stream's rows stand in seq order. */
  ghost predicate InOrder(t: seq<LogRow>)
  {
    && RowidsIncrease(t)
    && forall i, j | 0 <= i < j < |t| && StreamOf(t[i].entry) == StreamOf(t[j].entry) :: t[i].entry.body.seqNo < t[j].entry.body.seqNo
  }

  lemma {:induction false} DeletedMembers(t: seq<LogRow>, id: StreamId, upto: nat)
    ensures forall r :: r in WithoutPrefix(t, id, upto) <==> r in t && !InPrefix(r.entry, id, upto)
  {
    hide InPrefix;
    if t != [] {
      DeletedMembers(t[..|t| - 1], id, upto);
      assert t == t[..|t| - 1] + [t[|t| - 1]];
    }
  }

  /** A row that comes before another. */
  predicate Precedes(a: LogRow, b: LogRow) { a.rowid < b.rowid && (StreamOf(a.entry) == StreamOf(b.entry) ==> a.entry.body.seqNo < b.entry.body.seqNo) }

  lemma OneMoreInOrder(t: seq<LogRow>, r: LogRow)
    requires InOrder(t) && forall a | a in t :: Precedes(a, r)
    ensures InOrder(t + [r])
  {
    assert forall i | 0 <= i < |t| :: t[i] in t;
  }

  lemma LastFollows(t: seq<LogRow>)
    requires InOrder(t) && t != []
    ensures var front, last := t[..|t| - 1], t[|t| - 1]; InOrder(front) && forall a | a in front :: Precedes(a, last)
  {
  }

  lemma {:induction false} DeletedOrder(t: seq<LogRow>, id: StreamId, upto: nat)
    requires InOrder(t)
    ensures InOrder(WithoutPrefix(t, id, upto))
  {
    hide InOrder, InPrefix, Precedes;
    if t == [] {
    } else {
      var front := t[..|t| - 1];
      LastFollows(t);
      DeletedOrder(front, id, upto);
      DeletedMembers(front, id, upto);
      if !InPrefix(t[|t| - 1].entry, id, upto) {
        OneMoreInOrder(WithoutPrefix(front, id, upto), t[|t| - 1]);
      } else {
        assert WithoutPrefix(front, id, upto) + [] == WithoutPrefix(front, id, upto);
      }
    }
  }

  lemma TableInOrder(topic: string, c: Core, t: seq<LogRow>)
    requires Export.TableOf(c, topic, t)
    ensures InOrder(t)
  {
  }

  lemma StillInTable(t: seq<LogRow>, id: StreamId, upto: nat, e: Entry)
    requires Export.InTable(t, e) && !InPrefix(e, id, upto)
    ensures Export.InTable(WithoutPrefix(t, id, upto), e)
  {
    hide WithoutPrefix, InPrefix;
    DeletedMembers(t, id, upto);
    var i :| 0 <= i < |t| && t[i].entry == e;
    var t' := WithoutPrefix(t, id, upto);
    assert t[i] in t';
    var j :| 0 <= j < |t'| && t'[j] == t[i];
  }

  lemma LineKept(topic: string, c: Core, id: StreamId, upto: nat, c': Core, t: seq<LogRow>, r: LogRow)
    requires Export.TableOf(c, topic, t) && r in t && !InPrefix(r.entry, id, upto)
    requires upto in StreamAt(c, id).rows && StreamAt(c', id).rows == R.Pruned(StreamAt(c, id), upto).rows
    requires forall o | o != id :: StreamAt(c', o) == StreamAt(c, o)
    ensures Export.LineOf(c', topic, r.entry) && r.rowid > 0
  {
    hide StreamAt, RowidsIncrease, Export.InTable;
    var k :| 0 <= k < |t| && t[k] == r;
    assert Export.LineOf(c, topic, t[k].entry);
  }

  /** What a prune leaves of it. */
  lemma DeletedTable(topic: string, c: Core, id: StreamId, upto: nat, c': Core, t: seq<LogRow>)
    requires Export.TableOf(c, topic, t) && upto in StreamAt(c, id).rows && StreamAt(c', id).rows == R.Pruned(StreamAt(c, id), upto).rows
    requires forall o | o != id :: StreamAt(c', o) == StreamAt(c, o)
    requires forall o: StreamId, n | o.topic == topic && n in StreamAt(c, o).rows :: At(o, n, StreamAt(c, o).rows[n])
    ensures Export.TableOf(c', topic, WithoutPrefix(t, id, upto))
  {
    hide StreamAt, WithoutPrefix, Export.LineOf, Export.InTable;
    var t' := WithoutPrefix(t, id, upto);
    TableInOrder(topic, c, t);
    DeletedOrder(t, id, upto);
    DeletedMembers(t, id, upto);
    forall r | r in t'
      ensures Export.LineOf(c', topic, r.entry) && r.rowid > 0
    {
      LineKept(topic, c, id, upto, c', t, r);
    }
    assert forall i | 0 <= i < |t'| :: t'[i] in t';
    forall o: StreamId, n | o.topic == topic && n in StreamAt(c', o).rows
      ensures Export.InTable(t', StreamAt(c', o).rows[n])
    {
      assert n in StreamAt(c, o).rows && (o == id ==> n > upto);
      assert At(o, n, StreamAt(c, o).rows[n]);
      StillInTable(t, id, upto, StreamAt(c, o).rows[n]);
    }
  }

  // ---- along a run ----

  lemma RowsAt(h: R.History, w: string, c: Core, o: StreamId, n: nat)
    requires R.HistoryOk(h) && R.NodeOk(h, w, c) && n in StreamAt(c, o).rows
    ensures At(o, n, StreamAt(c, o).rows[n])
  {
    R.NodeAt(h, w, c, o);
    hide R.NodeOk, StreamAt;
    BranchAt(o, R.Written(h, o), n);
  }

  lemma NoneInserted(t: seq<LogRow>, t': seq<LogRow>)
    requires Inserted(t, [], t')
    ensures t' == t
  {
  }

  lemma SameTable(topic: string, c: Core, c': Core, t: seq<LogRow>)
    requires Export.TableOf(c, topic, t) && forall id: StreamId | id.topic == topic :: StreamAt(c', id) == StreamAt(c, id)
    ensures Export.TableOf(c', topic, t)
  {
    hide StreamAt, Export.InTable;
    forall i | 0 <= i < |t|
      ensures Export.LineOf(c', topic, t[i].entry)
    {
      assert Export.LineOf(c, topic, t[i].entry);
    }
  }

  /** One stream changed, and what it gained was inserted. */
  lemma ChangedTable(topic: string, c: Core, at: StreamId, s: Stream, mid: Core, c': Core, es: seq<Entry>, t: seq<LogRow>, t': seq<LogRow>)
    requires Export.TableOf(c, topic, t) && Changed(c, at, s, mid) && c' == mid.(applied := [], disk := mid.disk.(hlc := mid.hlc))
    requires (at.topic == topic ==> Grows(at, StreamAt(c, at), s, es)) && Inserted(t, if at.topic == topic then es else [], t')
    ensures Export.TableOf(c', topic, t')
  {
    hide StreamAt, Grows, Inserted, Export.TableOf, Changed;
    R.SettledOthers(c, at, s, mid, c');
    if at.topic == topic {
      InsertedTable(topic, c, at, c', es, t, t');
    } else {
      NoneInserted(t, t');
      SameTable(topic, c, c', t);
    }
  }

  /** Nothing changed, nothing was inserted. */
  lemma UnchangedTable(topic: string, c: Core, mid: Core, c': Core, t: seq<LogRow>, t': seq<LogRow>)
    requires Export.TableOf(c, topic, t) && mid.disk.streams == c.disk.streams && mid.recoveries == c.recoveries
    requires c' == mid.(applied := [], disk := mid.disk.(hlc := mid.hlc)) && Inserted(t, [], t')
    ensures Export.TableOf(c', topic, t')
  {
    NoneInserted(t, t');
    hide Inserted, Export.TableOf;
    SameTable(topic, c, c', t);
  }

  lemma WriteTable(cfg: Config, topic: string, w: string, c: Core, item: Item, pt: nat, c': Core, t: seq<LogRow>, t': seq<LogRow>)
    requires item.AppendItem? && CommitTable(cfg, topic, w, c, item, pt, c', t, t') && IsFull(cfg, topic) && Export.TableOf(c, topic, t)
    requires item.topic == topic ==> Under(StreamId(topic, w), StreamAt(c, StreamId(topic, w)))
    ensures Export.TableOf(c', topic, t')
  {
    hide Changed, AfterPersist, StreamAt, Advance, Grows, Export.TableOf, Inserted, PrevChain, IsFull, Under;
    var mid: Core, reply: Reply :|
      ItemStep(cfg, w, c, item, pt, mid, reply) && c' == mid.(applied := [], disk := mid.disk.(hlc := mid.hlc))
      && c.applied <= mid.applied && Inserted(t, if TopicOf(item) == topic then mid.applied[|c.applied|..] else [], t');
    var at := StreamId(item.topic, w);
    var s, rows := StreamAt(c, at), mid.applied[|c.applied|..];
    if s.head.seal == Open && Stamp(c.hlc, pt).Some? {
      var e := NewEntry(w, item, s.head, Stamp(c.hlc, pt).value, CausalOf(w, c.tails, item.causal));
      if cfg.valid(e) {
        assert rows == [e];
        if item.topic == topic { NextGrows(at, s, e); }
        ChangedTable(topic, c, at, Advance(IsFull(cfg, item.topic), s, e), mid, c', [e], t, t');
      } else {
        assert rows == [];
        UnchangedTable(topic, c, mid, c', t, t');
      }
    } else {
      assert rows == [];
      UnchangedTable(topic, c, mid, c', t, t');
    }
  }

  lemma NextGrows(id: StreamId, s: Stream, e: Entry)
    requires Under(id, s) && At(id, s.head.contigSeq + 1, e)
    ensures Grows(id, s, Advance(true, s, e), [e])
  {
    hide Grows;
    GrowsOne(id, s, e);
  }

  lemma TakeEntryTable(cfg: Config, topic: string, h: R.History, w: string, c: Core, e: Entry, pt: nat, c': Core, t: seq<LogRow>, t': seq<LogRow>)
    requires R.HistoryOk(h) && R.NodeOk(h, w, c) && e.body.seqNo > 0 && CommitTable(cfg, topic, w, c, ExternalItem(e), pt, c', t, t')
    requires IsFull(cfg, topic) && Export.TableOf(c, topic, t) && (e.topic == topic ==> Rounds.HeldAbove(StreamAt(c, StreamOf(e))))
    ensures Export.TableOf(c', topic, t')
  {
    hide Changed, StreamAt, External, R.Tracks, Canonical, R.HlcOrdered, AfterAll, MergeClock, R.OwnOk, Rounds.HeldAbove, IsFull, Under, Grows,
         Export.TableOf, Inserted;
    var mid: Core, reply: Reply :|
      ItemStep(cfg, w, c, ExternalItem(e), pt, mid, reply) && c' == mid.(applied := [], disk := mid.disk.(hlc := mid.hlc))
      && c.applied <= mid.applied && Inserted(t, if TopicOf(ExternalItem(e)) == topic then mid.applied[|c.applied|..] else [], t');
    var at := StreamOf(e);
    R.NodeAt(h, w, c, at);
    R.NoFinality(h, w, c, e.topic);
    var o := External(IsFull(cfg, e.topic), cfg.pendingCap, None, at, StreamAt(c, at), e);
    assert mid.applied[|c.applied|..] == o.applied;
    if e.topic == topic {
      BranchUnder(at, R.Written(h, at), StreamAt(c, at));
      OpenCopy(at, R.Written(h, at), StreamAt(c, at));
      ExternalGrows(cfg.pendingCap, at, StreamAt(c, at), e);
    }
    ChangedTable(topic, c, at, o.stream, mid, c', o.applied, t, t');
  }

  lemma OpenCopy(id: StreamId, h: seq<Entry>, s: Stream)
    requires R.Tracks(id, h, s)
    ensures s.head.seal == Open
  {
  }

  lemma TakeFloorTable(cfg: Config, topic: string, h: R.History, w: string, c: Core, at: StreamId, m: Mark, pt: nat, c': Core,
                       t: seq<LogRow>, t': seq<LogRow>)
    requires R.HistoryOk(h) && R.NodeOk(h, w, c) && CommitTable(cfg, topic, w, c, FloorItem(at, m), pt, c', t, t')
    requires IsFull(cfg, topic) && Export.TableOf(c, topic, t) && (at.topic == topic ==> Rounds.HeldAbove(StreamAt(c, at)))
    ensures Export.TableOf(c', topic, t')
  {
    hide Changed, StreamAt, AdoptFloor, R.Tracks, Canonical, R.HlcOrdered, AfterAll, R.OwnOk, Rounds.HeldAbove, IsFull, Under, Grows,
         Export.TableOf, Inserted;
    var mid: Core, reply: Reply :|
      ItemStep(cfg, w, c, FloorItem(at, m), pt, mid, reply) && c' == mid.(applied := [], disk := mid.disk.(hlc := mid.hlc))
      && c.applied <= mid.applied && Inserted(t, if TopicOf(FloorItem(at, m)) == topic then mid.applied[|c.applied|..] else [], t');
    R.NodeAt(h, w, c, at);
    if cfg.ackRefused(at.topic) {
      assert mid.applied[|c.applied|..] == [];
      UnchangedTable(topic, c, mid, c', t, t');
    } else {
      var (s, _, es) := AdoptFloor(IsFull(cfg, at.topic), at, StreamAt(c, at), m);
      assert mid.applied[|c.applied|..] == es;
      if at.topic == topic {
        BranchUnder(at, R.Written(h, at), StreamAt(c, at));
        FloorGrows(at, StreamAt(c, at), m);
      }
      ChangedTable(topic, c, at, s, mid, c', es, t, t');
    }
  }

  /** One step of the node: whatever it does, the table stays that of its streams, in order. */
  lemma NodeTable(cfg: Config, topic: string, w: string, g: R.Net, c: Core, e: R.Event, c': Core, g': R.Net, t: seq<LogRow>, t': seq<LogRow>)
    requires R.NetOk(g) && w in g.nodes && g.nodes[w] == c && R.NodeStep(cfg, w, g, c, e, c', g') && TableStep(cfg, topic, w, c, e, c', t, t')
    requires IsFull(cfg, topic) && Export.TableOf(c, topic, t) && forall id: StreamId | id.topic == topic :: Rounds.HeldAbove(StreamAt(c, id))
    ensures Export.TableOf(c', topic, t')
  {
    hide R.Commit, R.NodeOk, R.HistoryOk, StreamAt, R.NewRow, R.OnMark, R.OnHistory, R.Contradicts, R.Pruned, R.MaySend, Rounds.HeldAbove, IsFull,
         Export.TableOf, CommitTable, WithoutPrefix, Changed, Under;
    var h := g.history;
    match e
    case Write(item, pt) =>
      var at := StreamId(item.topic, w);
      R.NodeAt(h, w, c, at);
      HistoryAt(h, at);
      if item.topic == topic { BranchUnder(at, R.Written(h, at), StreamAt(c, at)); }
      WriteTable(cfg, topic, w, c, item, pt, c', t, t');
    case TakeEntry(m, k, pt) => TakeEntryTable(cfg, topic, h, w, c, m.entries[k], pt, c', t, t');
    case TakeHave(m) =>
      assert R.MsgOk(h, m);
      R.NodeAt(h, w, c, m.stream);
      R.NoContradiction(m.stream, R.Written(h, m.stream), StreamAt(c, m.stream), m.mark);
    case TakeFloor(m, pt) => TakeFloorTable(cfg, topic, h, w, c, m.stream, m.mark, pt, c', t, t');
    case Prune(at, upto) => PruneTable(topic, h, w, c, at, upto, c', t);
    case Send(m) =>
    case FoldRow(row) =>
      R.TailsKeep(h, w, c, c');
      SameTable(topic, c, c', t);
    case RestartNode =>
      RestartTable(topic, h, w, c, c', t);
  }

  lemma HistoryAt(h: R.History, id: StreamId)
    requires R.HistoryOk(h)
    ensures Canonical(id, R.Written(h, id))
  {
  }

  lemma RestartTable(topic: string, h: R.History, w: string, c: Core, c': Core, t: seq<LogRow>)
    requires R.NodeOk(h, w, c) && c' == Core(c.disk, map[], c.disk.hlc, map[], map[], []) && Export.TableOf(c, topic, t)
    ensures Export.TableOf(c', topic, t)
  {
    hide StreamAt, R.NodeOk, Export.TableOf;
    forall id: StreamId | id.topic == topic
      ensures StreamAt(c', id) == StreamAt(c, id)
    {
      M.RestartMoves(h, w, c, c', id);
    }
    SameTable(topic, c, c', t);
  }

  lemma PruneTable(topic: string, h: R.History, w: string, c: Core, at: StreamId, upto: nat, c': Core, t: seq<LogRow>)
    requires R.HistoryOk(h) && R.NodeOk(h, w, c) && upto in StreamAt(c, at).rows && Changed(c, at, R.Pruned(StreamAt(c, at), upto), c')
    requires Export.TableOf(c, topic, t)
    ensures Export.TableOf(c', topic, WithoutPrefix(t, at, upto))
  {
    hide StreamAt, R.Pruned, Export.TableOf, R.NodeOk, R.HistoryOk;
    forall o: StreamId, n | o.topic == topic && n in StreamAt(c, o).rows
      ensures At(o, n, StreamAt(c, o).rows[n])
    {
      RowsAt(h, w, c, o, n);
    }
    DeletedTable(topic, c, at, upto, c', t);
  }

  lemma TableBefore(cfg: Config, topic: string, gs: seq<R.Net>, who: seq<string>, es: seq<R.Event>, v: string, ts: seq<seq<LogRow>>)
    requires R.Run(cfg, gs, who, es) && es != [] && TableRun(cfg, topic, gs, who, es, v, ts)
    ensures var n := |es| - 1; R.Run(cfg, gs[..n + 1], who[..n], es[..n]) && TableRun(cfg, topic, gs[..n + 1], who[..n], es[..n], v, ts[..n + 1])
  {
    hide TableMove, R.Step;
  }

  lemma FreshTable(topic: string)
    ensures Export.TableOf(R.Fresh(), topic, [])
  {
  }

  /** At any node of any reachable net the table of a full topic holds exactly its streams' rows, each stream's in seq order. */
  lemma {:induction false} TableRuns(cfg: Config, topic: string, gs: seq<R.Net>, who: seq<string>, es: seq<R.Event>, v: string, ts: seq<seq<LogRow>>)
    requires R.Run(cfg, gs, who, es) && R.Start(gs[0]) && TableRun(cfg, topic, gs, who, es, v, ts) && IsFull(cfg, topic)
    ensures v in gs[|es|].nodes && Export.TableOf(gs[|es|].nodes[v], topic, ts[|es|])
  {
    hide R.Step, R.NodeStep, StreamAt, IsFull, TableStep, Export.TableOf, Rounds.HeldAbove, R.NetOk;
    if es == [] {
      FreshTable(topic);
    } else {
      var n := |es| - 1;
      Rounds.StepThere(cfg, gs, who, es);
      R.RunKeeps(cfg, gs[..n + 1], who[..n], es[..n]);
      TableBefore(cfg, topic, gs, who, es, v, ts);
      TableRuns(cfg, topic, gs[..n + 1], who[..n], es[..n], v, ts[..n + 1]);
      if who[n] == v {
        forall id: StreamId | id.topic == topic
          ensures Rounds.HeldAbove(StreamAt(gs[n].nodes[v], id))
        {
          FullTopic(cfg, topic, id);
          Rounds.RunHeld(cfg, gs[..n + 1], who[..n], es[..n], v, id);
        }
        NodeTable(cfg, topic, v, gs[n], gs[n].nodes[v], es[n], gs[n + 1].nodes[v], gs[n + 1], ts[n], ts[n + 1]);
      }
    }
  }

  lemma FullTopic(cfg: Config, topic: string, id: StreamId)
    requires IsFull(cfg, topic) && id.topic == topic
    ensures IsFull(cfg, id.topic)
  {
  }

  /**
    Export a full topic at any node of any reachable net, import it at a node that has nothing of it: the copy
    stands at the same heads and chains, with exactly the exporter's rows above its floors.
  */
  method NetRoundTrip(cfg: Config, ghost gs: seq<R.Net>, ghost who: seq<string>, ghost es: seq<R.Event>, ghost v: string, ghost ts: seq<seq<LogRow>>,
                      log: seq<LogRow>, floors: Export.Floors, core: LogCore, topic: string, pt: nat) returns (applied: nat)
    requires R.Run(cfg, gs, who, es) && R.Start(gs[0]) && v in gs[|es|].nodes && IsFull(cfg, topic)
    requires TableRun(cfg, topic, gs, who, es, v, ts) && log == ts[|es|] && Export.FloorsOf(gs[|es|].nodes[v], topic, floors)
    requires core.cfg == cfg && core.CachesOk() && core.JournalOk() && Keyed(core.View())
    requires Export.FreshFor(core.View(), topic) && (floors != map[] ==> !cfg.ackRefused(topic))
    modifies core
    ensures forall id: StreamId | id.topic == topic :: Export.SameAbove(id, StreamAt(gs[|es|].nodes[v], id), StreamAt(core.View(), id))
    ensures applied == Export.CountAbove(floors, EntriesOf(log))
  {
    ghost var exporter := gs[|es|].nodes[v];
    hide R.Run, R.Start, Export.TableOf, Export.FloorsOf, Export.FreshFor, Export.Exportable, Export.SameAbove, StreamAt, Keyed, IsFull, TableStep;
    TableRuns(cfg, topic, gs, who, es, v, ts);
    forall id: StreamId | id.topic == topic
      ensures Export.Exportable(id, StreamAt(exporter, id))
    {
      FullTopic(cfg, topic, id);
      Rounds.NetExportable(cfg, gs, who, es, v, id);
    }
    applied := Export.RoundTrip(exporter, log, floors, core, topic, pt);
  }
}
