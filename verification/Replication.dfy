/**
  Any number of nodes exchanging entries, HAVE vectors and TRUNCATED floors over links that lose,
  duplicate, delay and reorder (src/log.ts:1335-1634, src/sync.ts:473-535, 789-936). Messages stay in
  flight for ever and may be delivered any number of times, to anyone, or never.
*/
module Replication {
  import opened HlcClock
  import opened Entries
  import opened Streams
  import opened CommitQueue

  /** A batch of rows, one stream head of a HAVE vector, or a retention floor. */
  datatype Msg = EntriesMsg(entries: seq<Entry>) | HaveMsg(stream: StreamId, mark: Mark) | TruncatedMsg(stream: StreamId, mark: Mark)

  type History = map<StreamId, seq<Entry>>

  /** Nodes by their writer id; what each author has written so far; everything ever sent. */
  datatype Net = Net(nodes: map<string, Core>, history: History, sent: set<Msg>)

  datatype Event =
    | Write(item: Item, pt: nat)
    | TakeEntry(batch: Msg, k: nat, pt: nat)
    | TakeHave(have: Msg)
    | TakeFloor(truncated: Msg, pt: nat)
    | Prune(stream: StreamId, upto: nat)
    | Send(msg: Msg)
    | FoldRow(row: Entry)
    | RestartNode

  function Written(h: History, id: StreamId): seq<Entry> { if id in h then h[id] else [] }

  function Fresh(): Core { Core(Disk(map[], map[], Hlc(0, 0)), map[], Hlc(0, 0), map[], map[], []) }

  // ---- steps ----

  /** A queue item committed by itself: its effect, and the clock saved with it. */
  ghost predicate Commit(cfg: Config, own: string, c: Core, item: Item, pt: nat, c': Core)
    requires ItemOk(item)
  {
    exists mid: Core, reply: Reply ::
      ItemStep(cfg, own, c, item, pt, mid, reply) && c' == mid.(applied := [], disk := mid.disk.(hlc := mid.hlc))
  }

  /** The row an append writes, if it writes one. */
  function NewRow(cfg: Config, own: string, c: Core, item: Item, pt: nat): Option<Entry>
    requires item.AppendItem?
  {
    var s := StreamAt(c, StreamId(item.topic, own));
    if s.head.seal != Open || Stamp(c.hlc, pt).None? then None
    else
      var e := NewEntry(own, item, s.head, Stamp(c.hlc, pt).value, CausalOf(own, c.tails, item.causal));
      if cfg.valid(e) then Some(e) else None
  }

  function Grown(h: History, row: Option<Entry>): History
  {
    if row.None? then h else h[StreamOf(row.value) := Written(h, StreamOf(row.value)) + [row.value]]
  }

  /** Fork path 2: a peer's chain at a seq this node has verified disagrees with its own. */
  predicate Contradicts(s: Stream, peer: Mark)
  {
    s.head.seal == Open && 0 < peer.seqNo <= s.head.contigSeq
    && (if peer.seqNo == s.head.contigSeq then s.head.contigChain != peer.chain
        else peer.seqNo in s.rows && s.rows[peer.seqNo].chain != peer.chain)
  }

  /** pruneAcked's effect on a stream: the rows up to a held one go, and it becomes the floor. */
  function Pruned(s: Stream, upto: nat): Stream
    requires upto in s.rows
  {
    s.(rows := map n | n in s.rows && n > upto :: s.rows[n], floor := RaiseFloor(s.floor, Mark(upto, s.rows[upto].chain)))
  }

  /** What a node may send: rows it holds, a head, or its floor. */
  predicate MaySend(c: Core, m: Msg)
  {
    match m
    case EntriesMsg(es) =>
      forall e | e in es :: e.body.seqNo in StreamAt(c, StreamOf(e)).rows && StreamAt(c, StreamOf(e)).rows[e.body.seqNo] == e
    case HaveMsg(id, mark) => mark == Mark(StreamAt(c, id).head.contigSeq, StreamAt(c, id).head.contigChain)
    case TruncatedMsg(id, mark) => StreamAt(c, id).floor == Some(mark)
  }

  /** One step of node `w`, from `c` to `c'`; the history grows with what it writes. */
  ghost predicate NodeStep(cfg: Config, w: string, g: Net, c: Core, e: Event, c': Core, g': Net)
  {
    match e
    case Write(item, pt) =>
      item.AppendItem? && Commit(cfg, w, c, item, pt, c') && g'.history == Grown(g.history, NewRow(cfg, w, c, item, pt))
    case TakeEntry(m, k, pt) =>
      m in g.sent && m.EntriesMsg? && k < |m.entries| && m.entries[k].body.seqNo > 0
      && Commit(cfg, w, c, ExternalItem(m.entries[k]), pt, c') && g'.history == g.history
    case TakeHave(m) =>
      m in g.sent && m.HaveMsg? && g'.history == g.history
      && (if Contradicts(StreamAt(c, m.stream), m.mark) then Commit(cfg, w, c, SealStreamItem(m.stream), 0, c') else c' == c)
    case TakeFloor(m, pt) =>
      m in g.sent && m.TruncatedMsg? && Commit(cfg, w, c, FloorItem(m.stream, m.mark), pt, c') && g'.history == g.history
    case Prune(id, upto) =>
      upto in StreamAt(c, id).rows && Changed(c, id, Pruned(StreamAt(c, id), upto), c') && c'.hlc == c.hlc && g'.history == g.history
    case Send(m) => MaySend(c, m) && c' == c && g'.history == g.history
    case FoldRow(row) => c' == c.(tails := TailsLeft(w, c.tails, row)) && g'.history == g.history
    case RestartNode => c' == Core(c.disk, map[], c.disk.hlc, map[], map[], []) && g'.history == g.history
  }

  ghost predicate Step(cfg: Config, g: Net, w: string, e: Event, g': Net)
  {
    && w in g.nodes && w in g'.nodes && g'.nodes == g.nodes[w := g'.nodes[w]]
    && g'.sent == (if e.Send? then g.sent + {e.msg} else g.sent)
    && NodeStep(cfg, w, g, g.nodes[w], e, g'.nodes[w], g')
  }

  // ---- what holds ----

  ghost predicate HlcOrdered(h: seq<Entry>)
  {
    forall n: nat | 1 <= n < |h| :: HlcCompare(Nth(h, n).body.hlc, Nth(h, n + 1).body.hlc) <= 0
  }

  ghost predicate HistoryOk(h: History) { forall id :: Canonical(id, Written(h, id)) && HlcOrdered(Written(h, id)) }

  /** Rows are the author's rows at their seqs. */
  ghost predicate OnBranch(h: seq<Entry>, rows: Rows) { forall n | n in rows :: 1 <= n <= |h| && rows[n] == Nth(h, n) }

  ghost predicate OnMark(id: StreamId, h: seq<Entry>, m: Mark) { m.seqNo <= |h| && m.chain == CanonChain(id, h, m.seqNo) }

  /** A copy of a stream that follows its author: never sealed, every row the author's, the head on its chain. */
  ghost predicate Tracks(id: StreamId, h: seq<Entry>, s: Stream)
  {
    && s.head.seal == Open && s.target == None
    && OnMark(id, h, Mark(s.head.contigSeq, s.head.contigChain))
    && OnBranch(h, s.rows) && OnBranch(h, s.pending)
    && (s.floor.Some? ==> OnMark(id, h, s.floor.value))
  }

  /** The author's own copy is complete, and its clock is not behind its last row. */
  ghost predicate OwnOk(h: seq<Entry>, s: Stream, hlc: Hlc)
  {
    s.head.contigSeq == |h| && (|h| > 0 ==> HlcCompare(Nth(h, |h|).body.hlc, hlc) <= 0)
  }

  ghost predicate NodeOk(h: History, w: string, c: Core)
  {
    && c.disk.hlc == c.hlc && c.disk.finality == map[]
    && (forall id :: Tracks(id, Written(h, id), StreamAt(c, id)))
    && (forall id: StreamId | id.writer == w :: OwnOk(Written(h, id), StreamAt(c, id), c.hlc))
  }

  ghost predicate MsgOk(h: History, m: Msg)
  {
    match m
    case EntriesMsg(es) => forall e | e in es :: OnHistory(h, e)
    case HaveMsg(id, mark) => OnMark(id, Written(h, id), mark)
    case TruncatedMsg(id, mark) => OnMark(id, Written(h, id), mark)
  }

  ghost predicate OnHistory(h: History, e: Entry)
  {
    1 <= e.body.seqNo <= |Written(h, StreamOf(e))| && e == Nth(Written(h, StreamOf(e)), e.body.seqNo)
  }

  ghost predicate NetOk(g: Net)
  {
    && HistoryOk(g.history)
    && (forall w | w in g.nodes :: NodeOk(g.history, w, g.nodes[w]))
    && (forall m | m in g.sent :: MsgOk(g.history, m))
  }

  // ---- one stream ----

  lemma OnBranchNext(id: StreamId, h: seq<Entry>, s: Stream, e: Entry)
    requires Canonical(id, h) && HlcOrdered(h) && Tracks(id, h, s) && s.head.contigSeq < |h| && e == Nth(h, s.head.contigSeq + 1)
    ensures Verifies(id, s, e) && At(id, s.head.contigSeq + 1, e)
  {
    var k := s.head.contigSeq;
    assert CanonOk(id, h, k + 1);
    hide Canonical;
    if k > 0 && k in s.rows { assert HlcCompare(Nth(h, k).body.hlc, Nth(h, k + 1).body.hlc) <= 0; }
  }

  lemma AdvanceTracks(full: bool, id: StreamId, h: seq<Entry>, s: Stream, e: Entry)
    requires Tracks(id, h, s) && s.head.contigSeq < |h| && e == Nth(h, s.head.contigSeq + 1) && e.body.seqNo == s.head.contigSeq + 1
    ensures Tracks(id, h, Advance(full, s, e))
  {
    hide Nth;
    assert OnMark(id, h, Mark(e.body.seqNo, e.chain));
    hide OnMark;
    assert OnBranch(h, Advance(full, s, e).rows);
  }

  lemma {:induction false} DrainTracks(full: bool, id: StreamId, h: seq<Entry>, s: Stream)
    requires Canonical(id, h) && HlcOrdered(h) && Tracks(id, h, s)
    ensures Tracks(id, h, Drain(full, id, s))
    decreases |s.pending|
  {
    hide Canonical, HlcOrdered, Verifies, OnMark, Tracks;
    var n := s.head.contigSeq + 1;
    if n in s.pending {
      var s' := s.(pending := s.pending - {n});
      PendingOnBranch(id, h, s, n);
      OnBranchNext(id, h, s', s.pending[n]);
      AdvanceTracks(full, id, h, s', s.pending[n]);
      DrainTracks(full, id, h, Advance(full, s', s.pending[n]));
    }
  }

  lemma PendingOnBranch(id: StreamId, h: seq<Entry>, s: Stream, n: nat)
    requires Tracks(id, h, s) && n in s.pending
    ensures 1 <= n <= |h| && s.pending[n] == Nth(h, n) && Tracks(id, h, s.(pending := s.pending - {n}))
  {
  }

  /** The author's entry, whenever and however often it arrives, keeps the copy on the branch: never a fork. */
  lemma ExternalTracks(full: bool, cap: nat, id: StreamId, h: seq<Entry>, s: Stream, e: Entry)
    requires Canonical(id, h) && HlcOrdered(h) && Tracks(id, h, s)
    requires 1 <= e.body.seqNo <= |h| && e == Nth(h, e.body.seqNo)
    ensures Tracks(id, h, External(full, cap, None, id, s, e).stream)
  {
    hide Canonical, HlcOrdered, Verifies, OnMark, Drain, Drained, RecoveryIngest, Nth;
    var n := e.body.seqNo;
    if n == s.head.contigSeq + 1 {
      OnBranchNext(id, h, s, e);
      AdvanceTracks(full, id, h, s, e);
      DrainTracks(full, id, h, Advance(full, s, e));
    }
  }

  lemma FloorTracks(full: bool, id: StreamId, h: seq<Entry>, s: Stream, m: Mark)
    requires Canonical(id, h) && HlcOrdered(h) && Tracks(id, h, s) && OnMark(id, h, m)
    ensures Tracks(id, h, AdoptFloor(full, id, s, m).0)
  {
    hide Canonical, HlcOrdered, OnMark, Drain, Drained, Nth;
    if s.head.contigSeq < m.seqNo {
      assert Mark(m.seqNo, m.chain) == m;
      DrainTracks(full, id, h, JumpToFloor(s, m));
    }
  }

  lemma PruneTracks(id: StreamId, h: seq<Entry>, s: Stream, upto: nat)
    requires Tracks(id, h, s) && upto in s.rows
    ensures Tracks(id, h, Pruned(s, upto))
  {
    assert OnMark(id, h, Mark(upto, s.rows[upto].chain));
    hide OnMark;
  }

  /** A true head never contradicts a copy on the branch. */
  lemma NoContradiction(id: StreamId, h: seq<Entry>, s: Stream, m: Mark)
    requires Tracks(id, h, s) && OnMark(id, h, m)
    ensures !Contradicts(s, m)
  {
  }

  // ---- a growing history ----

  /** The same branch, possibly longer. */
  ghost predicate Extends(h: seq<Entry>, h': seq<Entry>)
  {
    |h| <= |h'| && forall n: nat | 1 <= n <= |h| :: Nth(h', n) == Nth(h, n)
  }

  lemma ExtendsMark(id: StreamId, h: seq<Entry>, h': seq<Entry>, m: Mark)
    requires Extends(h, h') && OnMark(id, h, m)
    ensures OnMark(id, h', m)
  {
  }

  lemma ExtendsTracks(id: StreamId, h: seq<Entry>, h': seq<Entry>, s: Stream)
    requires Extends(h, h') && Tracks(id, h, s)
    ensures Tracks(id, h', s)
  {
    ExtendsMark(id, h, h', Mark(s.head.contigSeq, s.head.contigChain));
    if s.floor.Some? { ExtendsMark(id, h, h', s.floor.value); }
    hide OnMark, Nth;
  }

  ghost predicate HistoryExtends(h: History, h': History) { forall id :: Extends(Written(h, id), Written(h', id)) }

  lemma MsgStays(h: History, h': History, m: Msg)
    requires HistoryExtends(h, h') && MsgOk(h, m)
    ensures MsgOk(h', m)
  {
    hide OnMark, Nth;
    match m
    case EntriesMsg(es) =>
      forall e | e in es
        ensures OnHistory(h', e)
      {
        assert OnHistory(h, e) && Extends(Written(h, StreamOf(e)), Written(h', StreamOf(e)));
      }
    case HaveMsg(id, mark) => ExtendsMark(id, Written(h, id), Written(h', id), mark);
    case TruncatedMsg(id, mark) => ExtendsMark(id, Written(h, id), Written(h', id), mark);
  }

  // ---- one node ----

  ghost predicate SameOrLater(a: Hlc, b: Hlc) { HlcCompare(a, b) <= 0 }

  lemma LaterOwnOk(h: seq<Entry>, s: Stream, a: Hlc, b: Hlc)
    requires OwnOk(h, s, a) && SameOrLater(a, b)
    ensures OwnOk(h, s, b)
  {
  }

  lemma MergeLater(cfg: Config, hlc: Hlc, e: Entry, pt: nat)
    ensures SameOrLater(hlc, MergeClock(cfg, hlc, e, pt))
  {
  }

  lemma NodeAt(h: History, w: string, c: Core, id: StreamId)
    requires NodeOk(h, w, c)
    ensures Tracks(id, Written(h, id), StreamAt(c, id)) && (id.writer == w ==> OwnOk(Written(h, id), StreamAt(c, id), c.hlc))
  {
  }

  /** A node whose stream `at` became `s`, everything else kept, the clock not set back. */
  lemma ChangedNode(h: History, w: string, c: Core, at: StreamId, s: Stream, c': Core)
    requires NodeOk(h, w, c) && StreamAt(c', at) == s && OthersKept(c, at, c')
    requires c'.disk.hlc == c'.hlc && c'.disk.finality == map[] && SameOrLater(c.hlc, c'.hlc)
    requires Tracks(at, Written(h, at), s) && (at.writer == w ==> OwnOk(Written(h, at), s, c'.hlc))
    ensures NodeOk(h, w, c')
  {
    hide Tracks, OwnOk, StreamAt, Written, SameOrLater;
    forall id
      ensures Tracks(id, Written(h, id), StreamAt(c', id))
      ensures id.writer == w ==> OwnOk(Written(h, id), StreamAt(c', id), c'.hlc)
    {
      NodeAt(h, w, c, id);
      if id != at && id.writer == w { LaterOwnOk(Written(h, id), StreamAt(c, id), c.hlc, c'.hlc); }
    }
  }

  lemma Settled(mid: Core, c: Core)
    requires c == mid.(applied := [], disk := mid.disk.(hlc := mid.hlc))
    ensures forall id :: StreamAt(c, id) == StreamAt(mid, id)
  {
  }

  lemma SettledOthers(c: Core, at: StreamId, s: Stream, mid: Core, c': Core)
    requires Changed(c, at, s, mid) && c' == mid.(applied := [], disk := mid.disk.(hlc := mid.hlc))
    ensures StreamAt(c', at) == s && OthersKept(c, at, c') && c'.disk.finality == c.disk.finality
  {
    Settled(mid, c');
    hide StreamAt;
  }

  lemma TakeEntryKeeps(cfg: Config, h: History, w: string, c: Core, e: Entry, pt: nat, c': Core)
    requires HistoryOk(h) && NodeOk(h, w, c) && OnHistory(h, e) && Commit(cfg, w, c, ExternalItem(e), pt, c')
    ensures NodeOk(h, w, c')
  {
    hide Changed, StreamAt, External, Tracks, Nth, HlcOrdered, Canonical, MergeClock, AfterAll, SameOrLater, IsFull, OwnOk, NodeOk;
    var mid: Core, reply: Reply :|
      ItemStep(cfg, w, c, ExternalItem(e), pt, mid, reply) && c' == mid.(applied := [], disk := mid.disk.(hlc := mid.hlc));
    var at := StreamOf(e);
    var s := StreamAt(c, at);
    assert CertAt(c.disk, e.topic) == None by { NoFinality(h, w, c, e.topic); }
    NodeAt(h, w, c, at);
    var o := External(IsFull(cfg, e.topic), cfg.pendingCap, None, at, s, e);
    ExternalTracks(IsFull(cfg, e.topic), cfg.pendingCap, at, Written(h, at), s, e);
    SettledOthers(c, at, o.stream, mid, c');
    MergeLater(cfg, c.hlc, e, pt);
    SameLater(c.hlc);
    if at.writer == w {
      OwnIgnores(IsFull(cfg, e.topic), cfg.pendingCap, at, Written(h, at), s, c.hlc, e);
      LaterOwnOk(Written(h, at), s, c.hlc, c'.hlc);
    }
    NoFinality(h, w, c, e.topic);
    ChangedNode(h, w, c, at, o.stream, c');
  }

  lemma NoFinality(h: History, w: string, c: Core, topic: string)
    requires NodeOk(h, w, c)
    ensures CertAt(c.disk, topic) == None && c.disk.finality == map[]
  {
  }

  lemma SameLater(hlc: Hlc)
    ensures SameOrLater(hlc, hlc)
  {
  }

  /** An author's own rows coming back are duplicates. */
  lemma OwnIgnores(full: bool, cap: nat, id: StreamId, h: seq<Entry>, s: Stream, hlc: Hlc, e: Entry)
    requires Tracks(id, h, s) && OwnOk(h, s, hlc) && 1 <= e.body.seqNo <= |h| && e == Nth(h, e.body.seqNo)
    ensures External(full, cap, None, id, s, e).stream == s
  {
    hide OnMark, Verifies, Drain, Drained, RecoveryIngest, Nth;
  }

  lemma TakeFloorKeeps(cfg: Config, h: History, w: string, c: Core, id: StreamId, m: Mark, pt: nat, c': Core)
    requires HistoryOk(h) && NodeOk(h, w, c) && OnMark(id, Written(h, id), m) && Commit(cfg, w, c, FloorItem(id, m), pt, c')
    ensures NodeOk(h, w, c')
  {
    hide Changed, StreamAt, AdoptFloor, Tracks, HlcOrdered, Canonical, AfterAll, SameOrLater, IsFull, OwnOk, NodeOk, OnMark;
    var mid: Core, reply: Reply :|
      ItemStep(cfg, w, c, FloorItem(id, m), pt, mid, reply) && c' == mid.(applied := [], disk := mid.disk.(hlc := mid.hlc));
    var s := StreamAt(c, id);
    NodeAt(h, w, c, id);
    SameLater(c.hlc);
    NoFinality(h, w, c, id.topic);
    if cfg.ackRefused(id.topic) {
      SettledSame(h, w, c, c');
    } else {
      var s' := AdoptFloor(IsFull(cfg, id.topic), id, s, m).0;
      FloorTracks(IsFull(cfg, id.topic), id, Written(h, id), s, m);
      SettledOthers(c, id, s', mid, c');
      if id.writer == w { OwnKeepsHead(IsFull(cfg, id.topic), id, Written(h, id), s, c.hlc, m); }
      ChangedNode(h, w, c, id, s', c');
    }
  }

  lemma SettledSame(h: History, w: string, c: Core, c': Core)
    requires NodeOk(h, w, c) && c' == c.(applied := [], disk := c.disk.(hlc := c.hlc))
    ensures NodeOk(h, w, c')
  {
    Settled(c, c');
    hide StreamAt, Tracks, OwnOk;
  }

  /** No true floor is above an author's own head. */
  lemma OwnKeepsHead(full: bool, id: StreamId, h: seq<Entry>, s: Stream, hlc: Hlc, m: Mark)
    requires OwnOk(h, s, hlc) && OnMark(id, h, m)
    ensures AdoptFloor(full, id, s, m).0 == s
  {
  }

  lemma PruneKeeps(h: History, w: string, c: Core, id: StreamId, upto: nat, c': Core)
    requires NodeOk(h, w, c) && upto in StreamAt(c, id).rows && Changed(c, id, Pruned(StreamAt(c, id), upto), c') && c'.hlc == c.hlc
    ensures NodeOk(h, w, c')
  {
    hide StreamAt, Tracks, SameOrLater, NodeOk;
    NodeAt(h, w, c, id);
    PruneTracks(id, Written(h, id), StreamAt(c, id), upto);
    SameLater(c.hlc);
    NoFinality(h, w, c, id.topic);
    SavedClock(h, w, c);
    ChangedNode(h, w, c, id, Pruned(StreamAt(c, id), upto), c');
  }

  lemma SavedClock(h: History, w: string, c: Core)
    requires NodeOk(h, w, c)
    ensures c.disk.hlc == c.hlc
  {
  }

  lemma TailsKeep(h: History, w: string, c: Core, c': Core)
    requires NodeOk(h, w, c) && c' == c.(tails := c'.tails)
    ensures NodeOk(h, w, c') && forall id :: StreamAt(c', id) == StreamAt(c, id)
  {
    hide Tracks, OwnOk;
  }

  lemma RestartKeeps(h: History, w: string, c: Core, c': Core)
    requires NodeOk(h, w, c) && c' == Core(c.disk, map[], c.disk.hlc, map[], map[], [])
    ensures NodeOk(h, w, c')
  {
    forall id
      ensures StreamAt(c', id) == StreamAt(c, id)
    {
      assert Tracks(id, Written(h, id), StreamAt(c, id));
    }
    hide StreamAt, Tracks, OwnOk;
  }

  // ---- an author writes ----

  /** The row an author writes continues its branch, with a later stamp. */
  lemma NewRowContinues(cfg: Config, h: History, w: string, c: Core, item: Item, pt: nat)
    requires HistoryOk(h) && NodeOk(h, w, c) && item.AppendItem? && NewRow(cfg, w, c, item, pt).Some?
    ensures var e := NewRow(cfg, w, c, item, pt).value;
            var id := StreamId(item.topic, w);
            && StreamOf(e) == id && e.body.hlc == Stamp(c.hlc, pt).value && e.body.seqNo == |Written(h, id)| + 1
            && Canonical(id, Written(h, id) + [e]) && HlcOrdered(Written(h, id) + [e]) && Extends(Written(h, id), Written(h, id) + [e])
  {
    hide Tracks;
    var e := NewRow(cfg, w, c, item, pt).value;
    var id := StreamId(item.topic, w);
    var s := StreamAt(c, id);
    NodeAt(h, w, c, id);
    TracksHead(id, Written(h, id), s);
    Continues(id, Written(h, id), e, s, c.hlc);
  }

  lemma TracksHead(id: StreamId, h: seq<Entry>, s: Stream)
    requires Tracks(id, h, s)
    ensures PrevChain(id, s.head) == CanonChain(id, h, s.head.contigSeq)
    ensures s.head.seal == Open && s.target == None && s.head.contigSeq <= |h|
  {
  }

  lemma Continues(id: StreamId, h: seq<Entry>, e: Entry, s: Stream, hlc: Hlc)
    requires Canonical(id, h) && HlcOrdered(h) && OwnOk(h, s, hlc) && HlcCompare(hlc, e.body.hlc) < 0
    requires At(id, |h| + 1, e) && e.chain == ChainOf(CanonChain(id, h, |h|), e)
    ensures Canonical(id, h + [e]) && HlcOrdered(h + [e]) && Extends(h, h + [e])
  {
    var h' := h + [e];
    assert forall n: nat | 1 <= n <= |h| :: Nth(h', n) == Nth(h, n);
    assert Nth(h', |h| + 1) == e;
    forall n: nat | 1 <= n <= |h'|
      ensures CanonOk(id, h', n)
    {
      if n <= |h| { assert CanonOk(id, h, n); }
    }
    hide Canonical, CanonOk, At, CanonChain, Nth;
    forall n: nat | 1 <= n < |h'|
      ensures HlcCompare(Nth(h', n).body.hlc, Nth(h', n + 1).body.hlc) <= 0
    {
      if n < |h| { assert HlcCompare(Nth(h, n).body.hlc, Nth(h, n + 1).body.hlc) <= 0; }
    }
  }

  lemma GrownExtends(h: History, row: Entry, id: StreamId)
    requires StreamOf(row) == id && Extends(Written(h, id), Written(h, id) + [row])
    ensures HistoryExtends(h, Grown(h, Some(row)))
    ensures Written(Grown(h, Some(row)), id) == Written(h, id) + [row]
    ensures forall o | o != id :: Written(Grown(h, Some(row)), o) == Written(h, o)
  {
    var h' := Grown(h, Some(row));
    forall o
      ensures Extends(Written(h, o), Written(h', o))
    {
      if o != id { assert Written(h', o) == Written(h, o); }
    }
  }

  lemma GrownHistoryOk(h: History, row: Entry, id: StreamId)
    requires HistoryOk(h) && StreamOf(row) == id && Canonical(id, Written(h, id) + [row]) && HlcOrdered(Written(h, id) + [row])
    ensures HistoryOk(Grown(h, Some(row)))
  {
    hide Canonical, HlcOrdered;
    forall o
      ensures Canonical(o, Written(Grown(h, Some(row)), o)) && HlcOrdered(Written(Grown(h, Some(row)), o))
    {
      if o != id { assert Written(Grown(h, Some(row)), o) == Written(h, o); }
    }
  }

  /** Another node follows the longer history as well. */
  lemma OtherNodeKeeps(h: History, h': History, w: string, v: string, c: Core)
    requires NodeOk(h, v, c) && v != w && HistoryExtends(h, h') && forall o: StreamId | o.writer != w :: Written(h', o) == Written(h, o)
    ensures NodeOk(h', v, c)
  {
    hide Tracks, OwnOk, StreamAt, Extends, Written;
    forall id
      ensures Tracks(id, Written(h', id), StreamAt(c, id))
      ensures id.writer == v ==> OwnOk(Written(h', id), StreamAt(c, id), c.hlc)
    {
      NodeAt(h, v, c, id);
      assert Extends(Written(h, id), Written(h', id));
      ExtendsTracks(id, Written(h, id), Written(h', id), StreamAt(c, id));
    }
  }

  /** What an append leaves of its own node when it writes nothing: a clock no earlier. */
  lemma NoRowKeeps(cfg: Config, h: History, w: string, c: Core, item: Item, pt: nat, mid: Core, reply: Reply, c': Core)
    requires NodeOk(h, w, c) && item.AppendItem? && AppendStep(cfg, w, c, item, pt, mid, reply) && NewRow(cfg, w, c, item, pt).None?
    requires c' == mid.(applied := [], disk := mid.disk.(hlc := mid.hlc))
    ensures NodeOk(h, w, c')
  {
    hide Tracks, OwnOk, Changed, AfterPersist;
    assert SameOrLater(c.hlc, mid.hlc);
    forall id
      ensures Tracks(id, Written(h, id), StreamAt(c', id))
      ensures id.writer == w ==> OwnOk(Written(h, id), StreamAt(c', id), c'.hlc)
    {
      NodeAt(h, w, c, id);
      assert StreamAt(c', id) == StreamAt(c, id);
      if id.writer == w { LaterOwnOk(Written(h, id), StreamAt(c, id), c.hlc, c'.hlc); }
    }
  }

  lemma RowKeeps(cfg: Config, h: History, w: string, c: Core, item: Item, pt: nat, mid: Core, reply: Reply, c': Core)
    requires HistoryOk(h) && NodeOk(h, w, c) && item.AppendItem? && AppendStep(cfg, w, c, item, pt, mid, reply)
    requires NewRow(cfg, w, c, item, pt).Some? && c' == mid.(applied := [], disk := mid.disk.(hlc := mid.hlc))
    ensures NodeOk(Grown(h, NewRow(cfg, w, c, item, pt)), w, c')
  {
    hide Tracks, OwnOk, Changed, AfterPersist, StreamAt, NodeOk, Canonical, HlcOrdered, Extends, Advance, Written, Grown, IsFull;
    var id := StreamId(item.topic, w);
    var e := NewRow(cfg, w, c, item, pt).value;
    var h' := Grown(h, Some(e));
    var s := StreamAt(c, id);
    var s' := Advance(IsFull(cfg, item.topic), s, e);
    NewRowContinues(cfg, h, w, c, item, pt);
    GrownExtends(h, e, id);
    SettledOthers(c, id, s', mid, c');
    NoFinality(h, w, c, item.topic);
    StampLater(c.hlc, pt);
    forall o
      ensures Tracks(o, Written(h', o), StreamAt(c', o))
      ensures o.writer == w ==> OwnOk(Written(h', o), StreamAt(c', o), c'.hlc)
    {
      NodeAt(h, w, c, o);
      assert Extends(Written(h, o), Written(h', o));
      ExtendsTracks(o, Written(h, o), Written(h', o), StreamAt(c, o));
      if o == id {
        OwnRow(IsFull(cfg, item.topic), id, Written(h, id), s, e, c.hlc);
      } else if o.writer == w {
        LaterOwnOk(Written(h, o), StreamAt(c, o), c.hlc, c'.hlc);
      }
    }
    NodeFrom(h', w, c');
  }

  lemma NodeFrom(h: History, w: string, c: Core)
    requires c.disk.hlc == c.hlc && c.disk.finality == map[]
    requires forall id :: Tracks(id, Written(h, id), StreamAt(c, id)) && (id.writer == w ==> OwnOk(Written(h, id), StreamAt(c, id), c.hlc))
    ensures NodeOk(h, w, c)
  {
    hide Tracks, OwnOk, StreamAt, Written;
  }

  lemma StampLater(hlc: Hlc, pt: nat)
    ensures Stamp(hlc, pt).Some? ==> SameOrLater(hlc, Stamp(hlc, pt).value)
  {
  }

  lemma OwnRow(full: bool, id: StreamId, h: seq<Entry>, s: Stream, e: Entry, hlc: Hlc)
    requires Tracks(id, h + [e], s) && OwnOk(h, s, hlc) && e.body.seqNo == |h| + 1
    ensures Tracks(id, h + [e], Advance(full, s, e)) && OwnOk(h + [e], Advance(full, s, e), e.body.hlc)
  {
    hide Tracks;
    assert Nth(h + [e], |h| + 1) == e;
    AdvanceTracks(full, id, h + [e], s, e);
  }

  // ---- the whole net ----

  lemma WriteKeeps(cfg: Config, h: History, w: string, c: Core, item: Item, pt: nat, c': Core)
    requires HistoryOk(h) && NodeOk(h, w, c) && item.AppendItem? && Commit(cfg, w, c, item, pt, c')
    ensures var h' := Grown(h, NewRow(cfg, w, c, item, pt));
            && HistoryOk(h') && HistoryExtends(h, h') && NodeOk(h', w, c')
            && forall o: StreamId | o.writer != w :: Written(h', o) == Written(h, o)
  {
    hide Tracks, OwnOk, AppendStep, StreamAt, NodeOk, HistoryOk, Canonical, HlcOrdered, Extends, NewRow, HistoryExtends, Written, Grown;
    var mid: Core, reply: Reply :|
      ItemStep(cfg, w, c, item, pt, mid, reply) && c' == mid.(applied := [], disk := mid.disk.(hlc := mid.hlc));
    var row := NewRow(cfg, w, c, item, pt);
    if row.Some? {
      var id := StreamId(item.topic, w);
      NewRowContinues(cfg, h, w, c, item, pt);
      GrownExtends(h, row.value, id);
      GrownHistoryOk(h, row.value, id);
      RowKeeps(cfg, h, w, c, item, pt, mid, reply, c');
    } else {
      NoRowKeeps(cfg, h, w, c, item, pt, mid, reply, c');
      SameHistory(h);
    }
  }

  lemma SameHistory(h: History)
    ensures HistoryExtends(h, h) && Grown(h, None) == h
  {
  }

  /** A message sent from a good node is true of the history. */
  lemma SendTrue(h: History, w: string, c: Core, m: Msg)
    requires NodeOk(h, w, c) && MaySend(c, m)
    ensures MsgOk(h, m)
  {
    hide OnMark, Nth, StreamAt, OwnOk;
    match m
    case EntriesMsg(es) =>
      forall e | e in es
        ensures OnHistory(h, e)
      {
        NodeAt(h, w, c, StreamOf(e));
      }
    case HaveMsg(id, mark) => NodeAt(h, w, c, id);
    case TruncatedMsg(id, mark) => NodeAt(h, w, c, id);
  }

  /** The stepping node itself. */
  lemma NodeStepKeeps(cfg: Config, w: string, g: Net, c: Core, e: Event, c': Core, g': Net)
    requires HistoryOk(g.history) && NodeOk(g.history, w, c) && (forall m | m in g.sent :: MsgOk(g.history, m))
    requires NodeStep(cfg, w, g, c, e, c', g')
    ensures HistoryOk(g'.history) && HistoryExtends(g.history, g'.history) && NodeOk(g'.history, w, c')
    ensures forall o: StreamId | o.writer != w :: Written(g'.history, o) == Written(g.history, o)
  {
    hide Commit, NodeOk, HistoryOk, StreamAt, NewRow, HistoryExtends, Changed, OnMark, OnHistory, Contradicts, Pruned, MaySend;
    SameHistory(g.history);
    match e
    case Write(item, pt) => WriteKeeps(cfg, g.history, w, c, item, pt, c');
    case TakeEntry(m, k, pt) =>
      assert MsgOk(g.history, m) && m.entries[k] in m.entries;
      TakeEntryKeeps(cfg, g.history, w, c, m.entries[k], pt, c');
    case TakeHave(m) =>
      assert MsgOk(g.history, m);
      NodeAt(g.history, w, c, m.stream);
      NoContradiction(m.stream, Written(g.history, m.stream), StreamAt(c, m.stream), m.mark);
    case TakeFloor(m, pt) =>
      assert MsgOk(g.history, m);
      TakeFloorKeeps(cfg, g.history, w, c, m.stream, m.mark, pt, c');
    case Prune(id, upto) => PruneKeeps(g.history, w, c, id, upto, c');
    case Send(m) =>
    case FoldRow(row) => TailsKeep(g.history, w, c, c');
    case RestartNode => RestartKeeps(g.history, w, c, c');
  }

  lemma StepKeeps(cfg: Config, g: Net, w: string, e: Event, g': Net)
    requires NetOk(g) && Step(cfg, g, w, e, g')
    ensures NetOk(g')
  {
    hide NodeOk, HistoryOk, HistoryExtends, MsgOk, Written;
    var c, c' := g.nodes[w], g'.nodes[w];
    NodeStepKeeps(cfg, w, g, c, e, c', g') by { hide NodeStep; }
    hide NodeStep;
    forall v | v in g'.nodes
      ensures NodeOk(g'.history, v, g'.nodes[v])
    {
      if v != w { OtherNodeKeeps(g.history, g'.history, w, v, g.nodes[v]); }
    }
    forall m | m in g'.sent
      ensures MsgOk(g'.history, m)
    {
      if m !in g.sent {
        SentNow(cfg, w, g, c, e, c', g');
        SendTrue(g.history, w, c, m);
      }
      MsgStays(g.history, g'.history, m);
    }
  }

  lemma SentNow(cfg: Config, w: string, g: Net, c: Core, e: Event, c': Core, g': Net)
    requires NodeStep(cfg, w, g, c, e, c', g')
    ensures e.Send? ==> MaySend(c, e.msg)
  {
  }

  ghost predicate Start(g: Net)
  {
    g.history == map[] && g.sent == {} && forall w | w in g.nodes :: g.nodes[w] == Fresh()
  }

  ghost predicate Run(cfg: Config, gs: seq<Net>, who: seq<string>, es: seq<Event>)
  {
    |who| == |es| && |gs| == |es| + 1 && forall i | 0 <= i < |es| :: Step(cfg, gs[i], who[i], es[i], gs[i + 1])
  }

  lemma StartOk(g: Net)
    requires Start(g)
    ensures NetOk(g)
  {
    forall id
      ensures Canonical(id, Written(g.history, id)) && HlcOrdered(Written(g.history, id))
    {
    }
    forall w, id | w in g.nodes
      ensures Tracks(id, Written(g.history, id), StreamAt(g.nodes[w], id))
    {
    }
  }

  lemma {:induction false} RunKeeps(cfg: Config, gs: seq<Net>, who: seq<string>, es: seq<Event>)
    requires Run(cfg, gs, who, es) && Start(gs[0])
    ensures NetOk(gs[|es|])
  {
    hide NetOk, Step, Start;
    if es == [] {
      StartOk(gs[0]);
    } else {
      var n := |es| - 1;
      RunKeeps(cfg, gs[..n + 1], who[..n], es[..n]);
      assert Step(cfg, gs[n], who[n], es[n], gs[n + 1]);
      StepKeeps(cfg, gs[n], who[n], es[n], gs[n + 1]);
    }
  }

  /**
    Replication safety. In every reachable state of any number of nodes: no stream is fork-sealed at
    any node; every row held, wherever it came from, is the author's row at that seq; every head is
    (n, chain of the author's n-th row); and the author's own copy is complete.
  */
  lemma ReplicationSafety(cfg: Config, gs: seq<Net>, who: seq<string>, es: seq<Event>, w: string, id: StreamId)
    requires Run(cfg, gs, who, es) && Start(gs[0]) && w in gs[|es|].nodes
    ensures var s := StreamAt(gs[|es|].nodes[w], id);
            var author := Written(gs[|es|].history, id);
            && s.head.seal == Open
            && (forall n | n in s.rows :: 1 <= n <= |author| && s.rows[n] == Nth(author, n))
            && s.head.contigSeq <= |author| && s.head.contigChain == CanonChain(id, author, s.head.contigSeq)
            && (id.writer == w ==> s.head.contigSeq == |author|)
  {
    RunKeeps(cfg, gs, who, es);
    hide Run, Start;
    NodeAt(gs[|es|].history, w, gs[|es|].nodes[w], id);
  }

  /** Two nodes at the same head position hold the same chain there, and the same rows wherever both hold one. */
  lemma NodesAgree(cfg: Config, gs: seq<Net>, who: seq<string>, es: seq<Event>, v: string, w: string, id: StreamId)
    requires Run(cfg, gs, who, es) && Start(gs[0]) && v in gs[|es|].nodes && w in gs[|es|].nodes
    ensures var s, t := StreamAt(gs[|es|].nodes[v], id), StreamAt(gs[|es|].nodes[w], id);
            && (s.head.contigSeq == t.head.contigSeq ==> s.head.contigChain == t.head.contigChain)
            && forall n | n in s.rows && n in t.rows :: s.rows[n] == t.rows[n]
  {
    ReplicationSafety(cfg, gs, who, es, v, id);
    ReplicationSafety(cfg, gs, who, es, w, id);
  }
}
