/** Topic export and import (src/export.ts): what an import rebuilds at a node that has nothing yet. */
module Export {
  import opened HlcClock
  import opened Entries
  import opened Streams
  import opened CommitQueue

  const EXPORT_BATCH: nat := 500

  type Floors = map<string, Mark>

  /** The rows of an export, page by page in rowid order, are all the rows of the topic. */
  method ExportRows(log: seq<LogRow>) returns (lines: seq<Entry>)
    requires RowidsIncrease(log) && forall r | r in log :: r.rowid > 0
    ensures lines == EntriesOf(log)
  {
    hide RowidsIncrease, EntriesOf, RowsAfter;
    lines := [];
    var afterRowid := 0;
    ghost var done := 0;
    AllAfter(log, 0, 0);
    assert log[..0] == [];
    while true
      invariant 0 <= done <= |log| && lines == EntriesOf(log[..done]) && RowsAfter(log, afterRowid) == log[done..]
      decreases |log| - done
    {
      var rows := Page(log, afterRowid, EXPORT_BATCH);
      if rows == [] {
        assert log[..done] == log;
        return;
      }
      assert rows == log[done..done + |rows|];
      PageExported(log, done, rows);
      lines := lines + EntriesOf(rows);
      afterRowid := rows[|rows| - 1].rowid;
      done := done + |rows|;
    }
  }

  lemma PageExported(log: seq<LogRow>, done: nat, rows: seq<LogRow>)
    requires RowidsIncrease(log) && rows != [] && done + |rows| <= |log| && rows == log[done..done + |rows|]
    ensures EntriesOf(log[..done + |rows|]) == EntriesOf(log[..done]) + EntriesOf(rows)
    ensures RowsAfter(log, rows[|rows| - 1].rowid) == log[done + |rows|..]
  {
    hide RowsAfter, EntriesOf, RowidsIncrease;
    var last := done + |rows| - 1;
    assert log[..last + 1] == log[..done] + rows;
    EntriesOfBoth(log[..done], rows);
    assert rows[|rows| - 1] == log[last];
    UpTo(log, last);
    AllAfter(log, log[last].rowid, last + 1);
  }

  lemma EntriesOfBoth(a: seq<LogRow>, b: seq<LogRow>)
    ensures EntriesOf(a + b) == EntriesOf(a) + EntriesOf(b)
  {
  }

  lemma UpTo(log: seq<LogRow>, k: nat)
    requires RowidsIncrease(log) && k < |log|
    ensures (forall i | 0 <= i <= k :: log[i].rowid <= log[k].rowid) && forall i | k < i < |log| :: log[i].rowid > log[k].rowid
  {
  }

  /** The rows past a rowid are a suffix of the log. */
  lemma {:induction false} AllAfter(log: seq<LogRow>, rowid: nat, k: nat)
    requires RowidsIncrease(log) && k <= |log|
    requires (forall i | 0 <= i < k :: log[i].rowid <= rowid) && forall i | k <= i < |log| :: log[i].rowid > rowid
    ensures RowsAfter(log, rowid) == log[k..]
  {
    if log != [] {
      if k > 0 {
        AllAfter(log[1..], rowid, k - 1);
        assert log[1..][k - 1..] == log[k..];
      } else {
        AllAfter(log[1..], rowid, 0);
        assert log == [log[0]] + log[1..];
      }
    }
  }

  // ---- what a stream exports ----

  function FloorOf(floors: Floors, id: StreamId): Mark
  {
    if id.writer in floors then floors[id.writer] else Mark(0, SeedOf(id))
  }

  /** The lines of a stream above its floor, in order. */
  function Select(lines: seq<Entry>, id: StreamId, above: nat): seq<Entry>
  {
    if lines == [] then []
    else Select(lines[..|lines| - 1], id, above) + if Counts(lines[|lines| - 1], id, above) then [lines[|lines| - 1]] else []
  }

  predicate Counts(e: Entry, id: StreamId, above: nat) { StreamOf(e) == id && e.body.seqNo > above }

  /** The chain after the first n entries above a floor. */
  function SegChain(floor: Mark, seg: seq<Entry>, n: nat): Chain
    requires n <= |seg|
  {
    if n == 0 then floor.chain else Nth(seg, n).chain
  }

  ghost predicate SegmentAt(id: StreamId, floor: Mark, seg: seq<Entry>, n: nat)
    requires 1 <= n <= |seg|
  {
    && At(id, floor.seqNo + n, Nth(seg, n))
    && Nth(seg, n).chain == ChainOf(SegChain(floor, seg, n - 1), Nth(seg, n))
    && (n > 1 ==> HlcCompare(Nth(seg, n - 1).body.hlc, Nth(seg, n).body.hlc) <= 0)
  }

  /** Contiguous above the floor, chained from it, stamps never going back. */
  ghost predicate Segment(id: StreamId, floor: Mark, seg: seq<Entry>)
  {
    && (floor.seqNo == 0 ==> floor.chain == SeedOf(id))
    && forall n: nat | 1 <= n <= |seg| :: SegmentAt(id, floor, seg, n)
  }

  /** A stream holding exactly a segment above its floor. */
  ghost predicate Loaded(id: StreamId, floor: Mark, seg: seq<Entry>, s: Stream)
  {
    && s.head == Head(floor.seqNo + |seg|, SegChain(floor, seg, |seg|), Open, 0, None)
    && s.pending == map[] && s.target == None
    && (forall n :: n in s.rows <==> floor.seqNo < n <= floor.seqNo + |seg|)
    && forall n: nat | 1 <= n <= |seg| :: s.rows[floor.seqNo + n] == Nth(seg, n)
  }

  ghost predicate Exported(floors: Floors, lines: seq<Entry>, topic: string)
  {
    && (forall e | e in lines :: e.topic == topic && e.body.seqNo > 0)
    && (forall w | w in floors :: floors[w].seqNo > 0)
    && forall id: StreamId | id.topic == topic :: Segment(id, FloorOf(floors, id), Select(lines, id, FloorOf(floors, id).seqNo))
  }

  /** How many lines lie above their stream's floor. */
  function CountAbove(floors: Floors, lines: seq<Entry>): nat
  {
    if lines == [] then 0
    else
      var e := lines[|lines| - 1];
      CountAbove(floors, lines[..|lines| - 1]) + if e.body.seqNo > FloorOf(floors, StreamOf(e)).seqNo then 1 else 0
  }

  /** The places of the lines above their stream's floor. */
  function PlacesAbove(floors: Floors, lines: seq<Entry>): set<nat>
  {
    set i: nat | i < |lines| && lines[i].body.seqNo > (if lines[i].writer in floors then floors[lines[i].writer].seqNo else 0)
  }

  lemma {:induction false} CountIs(floors: Floors, lines: seq<Entry>)
    ensures CountAbove(floors, lines) == |PlacesAbove(floors, lines)|
  {
    if lines != [] {
      var n := |lines| - 1;
      var front := lines[..n];
      CountIs(floors, front);
      var all, fewer := PlacesAbove(floors, lines), PlacesAbove(floors, front);
      forall i: nat
        ensures i in all <==> i in fewer || (i == n && lines[n].body.seqNo > FloorOf(floors, StreamOf(lines[n])).seqNo)
      {
        if i < n { assert front[i] == lines[i]; }
      }
      assert all == if n in all then fewer + {n} else fewer;
    }
  }

  // ---- one line ----

  lemma EmptyLoaded(id: StreamId)
    ensures Loaded(id, Mark(0, SeedOf(id)), [], EmptyStream(id))
  {
  }

  lemma FloorLoaded(full: bool, id: StreamId, m: Mark)
    requires m.seqNo > 0
    ensures var (s, r, drained) := AdoptFloor(full, id, EmptyStream(id), m); Loaded(id, m, [], s) && drained == []
  {
    var s := JumpToFloor(EmptyStream(id), m);
    assert s.pending == map[];
    assert Drain(full, id, s) == s;
  }

  /** A line at or below the floor changes nothing. */
  lemma BelowFloor(cap: nat, id: StreamId, floor: Mark, seg: seq<Entry>, s: Stream, e: Entry)
    requires Loaded(id, floor, seg, s) && 0 < e.body.seqNo <= floor.seqNo
    ensures var o := External(true, cap, None, id, s, e); o.stream == s && o.result == Duplicate && o.applied == []
  {
  }

  /** The next line of a segment is applied, and nothing else happens. */
  lemma NextLine(cap: nat, id: StreamId, floor: Mark, seg: seq<Entry>, s: Stream, e: Entry)
    requires Loaded(id, floor, seg, s) && Segment(id, floor, seg + [e]) && e.body.seqNo > 0
    ensures var o := External(true, cap, None, id, s, e);
            Loaded(id, floor, seg + [e], o.stream) && o.result == Applied
  {
    var n := |seg| + 1;
    NextVerifies(id, floor, seg, s, e);
    hide Segment, SegmentAt, Verifies;
    var a := Advance(true, s, e);
    assert a.pending == map[];
    assert Drain(true, id, a) == a;
    assert forall k: nat | 1 <= k <= |seg| :: Nth(seg + [e], k) == Nth(seg, k);
    assert Nth(seg + [e], n) == e;
  }

  lemma NextVerifies(id: StreamId, floor: Mark, seg: seq<Entry>, s: Stream, e: Entry)
    requires Loaded(id, floor, seg, s) && Segment(id, floor, seg + [e])
    ensures Verifies(id, s, e) && At(id, s.head.contigSeq + 1, e)
  {
    var n := |seg| + 1;
    assert SegmentAt(id, floor, seg + [e], n);
    assert Nth(seg + [e], n) == e;
    if n > 1 { assert Nth(seg + [e], n - 1) == Nth(seg, n - 1); }
  }

  /** The lines read so far select a prefix of what all the lines select. */
  lemma {:induction false} SelectPrefix(lines: seq<Entry>, id: StreamId, above: nat, k: nat)
    requires k <= |lines|
    ensures Select(lines[..k], id, above) <= Select(lines, id, above)
    decreases |lines|
  {
    if k == |lines| {
      assert lines[..k] == lines;
    } else {
      var rest := lines[..|lines| - 1];
      SelectPrefix(rest, id, above, k);
      assert rest[..k] == lines[..k];
    }
  }

  lemma SegmentPrefix(id: StreamId, floor: Mark, seg: seq<Entry>, all: seq<Entry>)
    requires Segment(id, floor, all) && seg <= all
    ensures Segment(id, floor, seg)
  {
    forall n: nat | 1 <= n <= |seg|
      ensures SegmentAt(id, floor, seg, n)
    {
      assert SegmentAt(id, floor, all, n);
      assert Nth(seg, n) == Nth(all, n);
      if n > 1 { assert Nth(seg, n - 1) == Nth(all, n - 1); }
    }
  }

  /** Every stream of the topic holds what the first k lines say of it. */
  ghost predicate ImportedTo(c: Core, topic: string, floors: Floors, lines: seq<Entry>)
  {
    forall id: StreamId | id.topic == topic ::
      Loaded(id, FloorOf(floors, id), Select(lines, id, FloorOf(floors, id).seqNo), StreamAt(c, id))
  }

  /** The node has nothing of the topic yet: no streams, no certificate. */
  ghost predicate FreshFor(c: Core, topic: string)
  {
    CertAt(c.disk, topic) == None && forall id: StreamId | id.topic == topic :: StreamAt(c, id) == EmptyStream(id)
  }

  ghost predicate FloorsTo(c: Core, topic: string, floors: Floors, done: set<string>)
  {
    && CertAt(c.disk, topic) == None
    && forall id: StreamId | id.topic == topic ::
         if id.writer in done && id.writer in floors then Loaded(id, floors[id.writer], [], StreamAt(c, id))
         else StreamAt(c, id) == EmptyStream(id)
  }

  lemma OneMoreFloor(cfg: Config, own: string, c: Core, topic: string, floors: Floors, done: set<string>, w: string, pt: nat, c': Core, r: Reply)
    requires FloorsTo(c, topic, floors, done) && w in floors && w !in done && floors[w].seqNo > 0 && !cfg.ackRefused(topic)
    requires ItemStep(cfg, own, c, FloorItem(StreamId(topic, w), floors[w]), pt, c', r)
    ensures FloorsTo(c', topic, floors, done + {w})
  {
    hide StreamAt, Loaded, AdoptFloor, AfterAll;
    var at := StreamId(topic, w);
    FloorLoaded(IsFull(cfg, topic), at, floors[w]);
    assert CertAt(c'.disk, topic) == CertAt(c.disk, topic);
  }

  lemma FloorsDone(c: Core, topic: string, floors: Floors)
    requires FloorsTo(c, topic, floors, floors.Keys)
    ensures ImportedTo(c, topic, floors, []) && CertAt(c.disk, topic) == None
  {
    forall id: StreamId | id.topic == topic
      ensures Loaded(id, FloorOf(floors, id), [], StreamAt(c, id))
    {
      EmptyLoaded(id);
    }
  }

  lemma SelectOne(lines: seq<Entry>, k: nat, id: StreamId, above: nat)
    requires k < |lines|
    ensures Select(lines[..k + 1], id, above)
            == if Counts(lines[k], id, above) then Select(lines[..k], id, above) + [lines[k]] else Select(lines[..k], id, above)
  {
    assert lines[..k + 1][..k] == lines[..k];
  }

  /** What a line does to its own stream. */
  lemma LineLoads(cap: nat, floors: Floors, lines: seq<Entry>, k: nat, topic: string, s: Stream)
    requires k < |lines| && Exported(floors, lines, topic) && lines[k].body.seqNo > 0 && lines[k].topic == topic
    requires var at := StreamOf(lines[k]); Loaded(at, FloorOf(floors, at), Select(lines[..k], at, FloorOf(floors, at).seqNo), s)
    ensures var at := StreamOf(lines[k]);
            var o := External(true, cap, None, at, s, lines[k]);
            && Loaded(at, FloorOf(floors, at), Select(lines[..k + 1], at, FloorOf(floors, at).seqNo), o.stream)
            && (o.result == Applied <==> lines[k].body.seqNo > FloorOf(floors, at).seqNo)
  {
    hide Loaded, External, Segment, Select;
    var e := lines[k];
    var at := StreamOf(e);
    var floor := FloorOf(floors, at);
    var seg := Select(lines[..k], at, floor.seqNo);
    SelectOne(lines, k, at, floor.seqNo);
    if e.body.seqNo > floor.seqNo {
      SelectPrefix(lines, at, floor.seqNo, k + 1);
      SegmentPrefix(at, floor, seg + [e], Select(lines, at, floor.seqNo));
      NextLine(cap, at, floor, seg, s, e);
    } else {
      BelowFloor(cap, at, floor, seg, s, e);
    }
  }

  lemma OneMoreLine(cfg: Config, own: string, c: Core, topic: string, floors: Floors, lines: seq<Entry>, k: nat, pt: nat, c': Core, r: Reply)
    requires k < |lines| && Exported(floors, lines, topic) && IsFull(cfg, topic)
    requires ImportedTo(c, topic, floors, lines[..k]) && CertAt(c.disk, topic) == None
    requires ItemOk(ExternalItem(lines[k])) && ItemStep(cfg, own, c, ExternalItem(lines[k]), pt, c', r)
    ensures ImportedTo(c', topic, floors, lines[..k + 1]) && CertAt(c'.disk, topic) == None
    ensures (r == ExternalReply(Applied)) <==> lines[k].body.seqNo > FloorOf(floors, StreamOf(lines[k])).seqNo
  {
    hide StreamAt, Loaded, External, AfterAll, Segment, MergeClock, Select, FloorOf;
    var e := lines[k];
    assert e in lines && e.topic == topic;
    hide Exported;
    var at := StreamOf(e);
    assert CertAt(c'.disk, topic) == CertAt(c.disk, topic);
    LineLoads(cfg.pendingCap, floors, lines, k, topic, StreamAt(c, at));
    forall id: StreamId | id.topic == topic
      ensures Loaded(id, FloorOf(floors, id), Select(lines[..k + 1], id, FloorOf(floors, id).seqNo), StreamAt(c', id))
    {
      if id != at {
        assert Loaded(id, FloorOf(floors, id), Select(lines[..k], id, FloorOf(floors, id).seqNo), StreamAt(c, id));
        SelectOne(lines, k, id, FloorOf(floors, id).seqNo);
      }
    }
  }

  /**
    importTopic past its header checks: adopt the declared floors, then apply the lines. Into a node
    with nothing of the topic it rebuilds every stream - head, chain, and every row above the floors -
    and counts exactly those rows.
  */
  method ImportTopic(core: LogCore, topic: string, floors: Floors, lines: seq<Entry>, pt: nat) returns (applied: nat)
    requires core.CachesOk() && core.JournalOk() && Keyed(core.View())
    requires FreshFor(core.View(), topic) && IsFull(core.cfg, topic) && (floors != map[] ==> !core.cfg.ackRefused(topic))
    requires Exported(floors, lines, topic)
    modifies core
    ensures ImportedTo(core.View(), topic, floors, lines) && applied == CountAbove(floors, lines)
  {
    hide FreshFor, FloorsTo, ImportedTo, Exported, ItemStep, Keyed, Select;
    StartFloors(core.View(), topic, floors);
    var todo := floors.Keys;
    while todo != {}
      invariant todo <= floors.Keys && core.CachesOk() && core.JournalOk() && Keyed(core.View())
      invariant FloorsTo(core.View(), topic, floors, floors.Keys - todo)
    {
      var w :| w in todo;
      ghost var before := core.View();
      FloorPositive(floors, lines, topic, w);
      var r := core.Process(FloorItem(StreamId(topic, w), floors[w]), pt);
      OneMoreFloor(core.cfg, core.own, before, topic, floors, floors.Keys - todo, w, pt, core.View(), r);
      assert floors.Keys - (todo - {w}) == floors.Keys - todo + {w};
      todo := todo - {w};
    }
    assert floors.Keys - todo == floors.Keys;
    FloorsDone(core.View(), topic, floors);
    applied := 0;
    var k := 0;
    assert lines[..0] == [];
    while k < |lines|
      invariant 0 <= k <= |lines| && core.CachesOk() && core.JournalOk() && Keyed(core.View())
      invariant ImportedTo(core.View(), topic, floors, lines[..k]) && CertAt(core.disk, topic) == None
      invariant applied == CountAbove(floors, lines[..k])
    {
      ghost var before := core.View();
      LinePositive(floors, lines, topic, k);
      var r := core.Process(ExternalItem(lines[k]), pt);
      OneMoreLine(core.cfg, core.own, before, topic, floors, lines, k, pt, core.View(), r);
      assert lines[..k + 1][..k] == lines[..k];
      if r == ExternalReply(Applied) { applied := applied + 1; }
      k := k + 1;
    }
    assert lines[..k] == lines;
  }

  lemma StartFloors(c: Core, topic: string, floors: Floors)
    requires FreshFor(c, topic)
    ensures FloorsTo(c, topic, floors, floors.Keys - floors.Keys)
  {
  }

  lemma FloorPositive(floors: Floors, lines: seq<Entry>, topic: string, w: string)
    requires Exported(floors, lines, topic) && w in floors
    ensures floors[w].seqNo > 0
  {
  }

  lemma LinePositive(floors: Floors, lines: seq<Entry>, topic: string, k: nat)
    requires Exported(floors, lines, topic) && k < |lines|
    ensures lines[k].body.seqNo > 0
  {
    assert lines[k] in lines;
  }

  // ---- out of one node and into another ----

  /** The floor rows start above, or the seed. */
  function StartOf(id: StreamId, s: Stream): Mark { if s.floor.Some? then s.floor.value else Mark(0, SeedOf(id)) }

  /** A row above the floor chains from the row before it, or from the floor; its stamp does not go back. */
  ghost predicate ExportableRow(id: StreamId, s: Stream, n: nat)
    requires StartOf(id, s).seqNo < n
  {
    var start := StartOf(id, s);
    && n in s.rows && At(id, n, s.rows[n])
    && (if n == start.seqNo + 1 then s.rows[n].chain == ChainOf(start.chain, s.rows[n])
        else n - 1 in s.rows && s.rows[n].chain == ChainOf(s.rows[n - 1].chain, s.rows[n])
             && HlcCompare(s.rows[n - 1].body.hlc, s.rows[n].body.hlc) <= 0)
  }

  ghost predicate AllAbove(s: Stream, from: nat) { forall n: nat | from < n <= s.head.contigSeq :: n in s.rows }

  /** A stream contiguous above its floor up to its head. */
  ghost predicate Exportable(id: StreamId, s: Stream)
  {
    var start := StartOf(id, s);
    && (s.floor.Some? ==> s.floor.value.seqNo > 0) && start.seqNo <= s.head.contigSeq
    && (forall n | n in s.rows :: n <= s.head.contigSeq)
    && AllAbove(s, start.seqNo) && (forall n: nat | start.seqNo < n <= s.head.contigSeq :: ExportableRow(id, s, n))
    && s.head.contigChain == if s.head.contigSeq == start.seqNo then start.chain else s.rows[s.head.contigSeq].chain
  }

  /** The rowid table of a topic: exactly its streams' rows, each stream's in seq order, as rows are only ever added at a head. */
  ghost predicate TableOf(c: Core, topic: string, log: seq<LogRow>)
  {
    && RowidsIncrease(log) && (forall r | r in log :: r.rowid > 0)
    && (forall i | 0 <= i < |log| :: LineOf(c, topic, log[i].entry))
    && (forall id: StreamId, n | id.topic == topic && n in StreamAt(c, id).rows :: InTable(log, StreamAt(c, id).rows[n]))
    && forall i, j | 0 <= i < j < |log| && StreamOf(log[i].entry) == StreamOf(log[j].entry) :: log[i].entry.body.seqNo < log[j].entry.body.seqNo
  }

  ghost predicate LineOf(c: Core, topic: string, e: Entry)
  {
    e.topic == topic && e.body.seqNo > 0 && e.body.seqNo in StreamAt(c, StreamOf(e)).rows && StreamAt(c, StreamOf(e)).rows[e.body.seqNo] == e
  }

  ghost predicate InTable(log: seq<LogRow>, e: Entry) { exists i :: 0 <= i < |log| && log[i].entry == e }

  /** floorsForTopic. */
  ghost predicate FloorsOf(c: Core, topic: string, floors: Floors)
  {
    forall id: StreamId | id.topic == topic :: StreamAt(c, id).floor == if id.writer in floors then Some(floors[id.writer]) else None
  }

  ghost predicate BySeqNo(xs: seq<Entry>) { forall i, j | 0 <= i < j < |xs| :: xs[i].body.seqNo < xs[j].body.seqNo }

  /** The rows above the floor, in seq order. */
  ghost function RowsAbove(s: Stream, from: nat): seq<Entry>
    requires AllAbove(s, from)
  {
    seq(if from < s.head.contigSeq then s.head.contigSeq - from else 0, i requires 0 <= i < s.head.contigSeq - from => s.rows[from + 1 + i])
  }

  lemma {:induction false} SelectMembers(lines: seq<Entry>, id: StreamId, above: nat)
    ensures forall e :: e in Select(lines, id, above) <==> e in lines && Counts(e, id, above)
  {
    if lines != [] {
      SelectMembers(lines[..|lines| - 1], id, above);
      assert lines == lines[..|lines| - 1] + [lines[|lines| - 1]];
    }
  }

  /** Selecting one stream's lines keeps their order. */
  lemma {:induction false} SelectInOrder(lines: seq<Entry>, id: StreamId, above: nat)
    requires forall i, j | 0 <= i < j < |lines| && StreamOf(lines[i]) == StreamOf(lines[j]) :: lines[i].body.seqNo < lines[j].body.seqNo
    ensures BySeqNo(Select(lines, id, above))
  {
    if lines != [] {
      var front, last := lines[..|lines| - 1], lines[|lines| - 1];
      SelectInOrder(front, id, above);
      SelectMembers(front, id, above);
      if Counts(last, id, above) {
        forall e | e in Select(front, id, above)
          ensures e.body.seqNo < last.body.seqNo
        {
          var i :| 0 <= i < |front| && front[i] == e;
          assert lines[i] == e;
        }
      }
    }
  }

  /** Two lists in seq order with the same members are one list. */
  lemma {:induction false} SameInOrder(xs: seq<Entry>, ys: seq<Entry>)
    requires BySeqNo(xs) && BySeqNo(ys) && forall e :: e in xs <==> e in ys
    ensures xs == ys
  {
    assert xs != [] ==> xs[0] in xs;
    assert ys != [] ==> ys[0] in ys;
    if xs != [] && ys != [] {
      FirstSame(xs, ys);
      RestMembers(xs);
      RestMembers(ys);
      SameInOrder(xs[1..], ys[1..]);
      assert xs == [xs[0]] + xs[1..] && ys == [ys[0]] + ys[1..];
    }
  }

  lemma FirstSame(xs: seq<Entry>, ys: seq<Entry>)
    requires BySeqNo(xs) && BySeqNo(ys) && xs != [] && ys != [] && forall e :: e in xs <==> e in ys
    ensures xs[0] == ys[0]
  {
    assert xs[0] in ys && ys[0] in xs;
    var i :| 0 <= i < |ys| && ys[i] == xs[0];
    var j :| 0 <= j < |xs| && xs[j] == ys[0];
    if i > 0 { assert ys[0].body.seqNo < ys[i].body.seqNo; }
  }

  lemma RestMembers(xs: seq<Entry>)
    requires BySeqNo(xs) && xs != []
    ensures forall e :: e in xs[1..] <==> e in xs && e != xs[0]
  {
    assert xs == [xs[0]] + xs[1..];
    forall e | e in xs[1..]
      ensures e != xs[0]
    {
      var i :| 0 <= i < |xs[1..]| && xs[1..][i] == e;
      assert xs[i + 1] == e;
    }
  }

  /** What the export says of a stream: exactly its rows above the floor, in order. */
  lemma ExportsRows(c: Core, topic: string, log: seq<LogRow>, id: StreamId)
    requires TableOf(c, topic, log) && id.topic == topic && Exportable(id, StreamAt(c, id))
    ensures var s := StreamAt(c, id); Select(EntriesOf(log), id, StartOf(id, s).seqNo) == RowsAbove(s, StartOf(id, s).seqNo)
  {
    hide StreamAt, EntriesOf, Select, RowsAbove, ExportableRow;
    var lines, s := EntriesOf(log), StreamAt(c, id);
    var from := StartOf(id, s).seqNo;
    var rows := RowsAbove(s, from);
    RowsAboveFacts(id, s);
    LineFacts(log);
    SelectMembers(lines, id, from);
    SelectInOrder(lines, id, from);
    forall e
      ensures e in Select(lines, id, from) <==> e in rows
    {
      if e in lines && Counts(e, id, from) { LineAbove(c, topic, log, id, e); }
      if e in rows { RowListed(c, topic, log, id, e); }
    }
    SameInOrder(Select(lines, id, from), rows);
  }

  /** A line of the stream above its floor is one of its rows there. */
  lemma LineAbove(c: Core, topic: string, log: seq<LogRow>, id: StreamId, e: Entry)
    requires TableOf(c, topic, log) && id.topic == topic && Exportable(id, StreamAt(c, id)) && e in EntriesOf(log)
    requires Counts(e, id, StartOf(id, StreamAt(c, id)).seqNo)
    ensures e in RowsAbove(StreamAt(c, id), StartOf(id, StreamAt(c, id)).seqNo)
  {
    hide StreamAt, EntriesOf, Exportable, StartOf, RowsAbove;
    LineFacts(log);
    var i :| 0 <= i < |log| && EntriesOf(log)[i] == e;
    assert LineOf(c, topic, log[i].entry);
    RowAbove(id, StreamAt(c, id), e);
  }

  lemma RowAbove(id: StreamId, s: Stream, e: Entry)
    requires Exportable(id, s) && e.body.seqNo in s.rows && s.rows[e.body.seqNo] == e && e.body.seqNo > StartOf(id, s).seqNo
    ensures e in RowsAbove(s, StartOf(id, s).seqNo)
  {
    hide ExportableRow, StartOf;
    var from := StartOf(id, s).seqNo;
    assert RowsAbove(s, from)[e.body.seqNo - from - 1] == e;
  }

  lemma RowListed(c: Core, topic: string, log: seq<LogRow>, id: StreamId, e: Entry)
    requires TableOf(c, topic, log) && id.topic == topic && e.body.seqNo in StreamAt(c, id).rows && StreamAt(c, id).rows[e.body.seqNo] == e
    ensures e in EntriesOf(log)
  {
    hide StreamAt, EntriesOf;
    LineFacts(log);
    assert InTable(log, e);
    var i :| 0 <= i < |log| && log[i].entry == e;
    assert EntriesOf(log)[i] == e;
  }

  lemma LineFacts(log: seq<LogRow>)
    ensures |EntriesOf(log)| == |log| && forall i | 0 <= i < |log| :: EntriesOf(log)[i] == log[i].entry
  {
  }

  lemma RowsAboveFacts(id: StreamId, s: Stream)
    requires Exportable(id, s)
    ensures var from := StartOf(id, s).seqNo;
            var rows := RowsAbove(s, from);
            && |rows| == s.head.contigSeq - from && BySeqNo(rows)
            && (forall i | 0 <= i < |rows| :: rows[i] == s.rows[from + 1 + i] && rows[i].body.seqNo == from + 1 + i && StreamOf(rows[i]) == id)
            && forall e | e in rows :: Counts(e, id, from) && e.body.seqNo in s.rows && s.rows[e.body.seqNo] == e
  {
    var from := StartOf(id, s).seqNo;
    var rows := RowsAbove(s, from);
    forall i | 0 <= i < |rows|
      ensures rows[i].body.seqNo == from + 1 + i && StreamOf(rows[i]) == id
    {
      assert ExportableRow(id, s, from + 1 + i);
    }
  }

  lemma ExportsSegment(id: StreamId, s: Stream)
    requires Exportable(id, s)
    ensures Segment(id, StartOf(id, s), RowsAbove(s, StartOf(id, s).seqNo))
  {
    var start := StartOf(id, s);
    var rows := RowsAbove(s, start.seqNo);
    RowsAboveFacts(id, s);
    forall n: nat | 1 <= n <= |rows|
      ensures SegmentAt(id, start, rows, n)
    {
      assert ExportableRow(id, s, start.seqNo + n);
      assert Nth(rows, n) == s.rows[start.seqNo + n];
      if n > 1 { assert Nth(rows, n - 1) == s.rows[start.seqNo + n - 1]; }
    }
  }

  /** The export of a node whose streams are contiguous above their floors is one an import can take. */
  lemma ExportedByNode(c: Core, topic: string, floors: Floors, log: seq<LogRow>)
    requires TableOf(c, topic, log) && FloorsOf(c, topic, floors) && forall id: StreamId | id.topic == topic :: Exportable(id, StreamAt(c, id))
    ensures Exported(floors, EntriesOf(log), topic)
  {
    hide Exportable, Segment, Select, StreamAt, EntriesOf;
    LineFacts(log);
    forall e | e in EntriesOf(log)
      ensures e.topic == topic && e.body.seqNo > 0
    {
      var i :| 0 <= i < |log| && EntriesOf(log)[i] == e;
      assert LineOf(c, topic, log[i].entry);
    }
    forall w | w in floors
      ensures floors[w].seqNo > 0
    {
      FloorExported(StreamId(topic, w), StreamAt(c, StreamId(topic, w)));
    }
    forall id: StreamId | id.topic == topic
      ensures Segment(id, FloorOf(floors, id), Select(EntriesOf(log), id, FloorOf(floors, id).seqNo))
    {
      assert FloorOf(floors, id) == StartOf(id, StreamAt(c, id));
      ExportsRows(c, topic, log, id);
      ExportsSegment(id, StreamAt(c, id));
    }
  }

  lemma FloorExported(id: StreamId, s: Stream)
    requires Exportable(id, s)
    ensures s.floor.Some? ==> s.floor.value.seqNo > 0
  {
  }

  /** The importer's stream is the exporter's above its floor: same head position and chain, same rows, nothing else. */
  ghost predicate SameAbove(id: StreamId, s: Stream, t: Stream)
  {
    var from := StartOf(id, s).seqNo;
    && t.head.contigSeq == s.head.contigSeq && t.head.contigChain == s.head.contigChain
    && (forall n :: n in t.rows <==> n in s.rows && n > from)
    && (forall n | n in t.rows :: t.rows[n] == s.rows[n]) && t.pending == map[]
  }

  lemma LoadedIsSame(id: StreamId, s: Stream, t: Stream)
    requires Exportable(id, s) && Loaded(id, StartOf(id, s), RowsAbove(s, StartOf(id, s).seqNo), t)
    ensures SameAbove(id, s, t)
  {
    var start := StartOf(id, s);
    var rows := RowsAbove(s, start.seqNo);
    RowsAboveFacts(id, s);
    hide ExportableRow, RowsAbove;
    forall n: nat | 1 <= n <= |rows|
      ensures Nth(rows, n) == s.rows[start.seqNo + n]
    {
    }
    assert |rows| > 0 ==> Nth(rows, |rows|) == s.rows[s.head.contigSeq];
    forall n
      ensures n in t.rows <==> n in s.rows && n > start.seqNo
      ensures n in t.rows ==> t.rows[n] == s.rows[n]
    {
      if start.seqNo < n <= s.head.contigSeq {
        assert t.rows[start.seqNo + (n - start.seqNo)] == Nth(rows, n - start.seqNo);
      }
    }
  }

  /**
    Export at one node, import at another that has nothing of the topic: every stream comes out with the
    exporter's head position and chain, and exactly the exporter's rows above its floors; the count is theirs.
  */
  method RoundTrip(ghost exporter: Core, log: seq<LogRow>, floors: Floors, core: LogCore, topic: string, pt: nat) returns (applied: nat)
    requires TableOf(exporter, topic, log) && FloorsOf(exporter, topic, floors)
    requires forall id: StreamId | id.topic == topic :: Exportable(id, StreamAt(exporter, id))
    requires core.CachesOk() && core.JournalOk() && Keyed(core.View())
    requires FreshFor(core.View(), topic) && IsFull(core.cfg, topic) && (floors != map[] ==> !core.cfg.ackRefused(topic))
    modifies core
    ensures forall id: StreamId | id.topic == topic :: SameAbove(id, StreamAt(exporter, id), StreamAt(core.View(), id))
    ensures applied == CountAbove(floors, EntriesOf(log))
  {
    hide Exportable, ImportedTo, Exported, FreshFor, Keyed, TableOf, FloorsOf, SameAbove, StreamAt, EntriesOf;
    TableFacts(exporter, topic, log);
    ExportedByNode(exporter, topic, floors, log);
    var lines := ExportRows(log);
    applied := ImportTopic(core, topic, floors, lines, pt);
    AllSame(exporter, core.View(), topic, floors, log);
  }

  lemma TableFacts(c: Core, topic: string, log: seq<LogRow>)
    requires TableOf(c, topic, log)
    ensures RowidsIncrease(log) && forall r | r in log :: r.rowid > 0
  {
  }

  lemma AllSame(exporter: Core, c: Core, topic: string, floors: Floors, log: seq<LogRow>)
    requires TableOf(exporter, topic, log) && FloorsOf(exporter, topic, floors) && ImportedTo(c, topic, floors, EntriesOf(log))
    requires forall id: StreamId | id.topic == topic :: Exportable(id, StreamAt(exporter, id))
    ensures forall id: StreamId | id.topic == topic :: SameAbove(id, StreamAt(exporter, id), StreamAt(c, id))
  {
    hide Exportable, SameAbove, StreamAt, TableOf, Loaded, Select, EntriesOf;
    forall id: StreamId | id.topic == topic
      ensures SameAbove(id, StreamAt(exporter, id), StreamAt(c, id))
    {
      assert FloorOf(floors, id) == StartOf(id, StreamAt(exporter, id));
      ExportsRows(exporter, topic, log, id);
      LoadedIsSame(id, StreamAt(exporter, id), StreamAt(c, id));
    }
  }
}
