/**
  One exchange between two nodes of the net (src/sync.ts:473-535, 789-1010): a complete, loss-free WANT round, with
  the floor taken in first if the rows asked for are gone, brings the requester to the server's head.
*/
module Rounds {
  import opened HlcClock
  import opened Entries
  import opened Streams
  import opened CommitQueue
  import R = Replication
  import M = Membership
  import Retention
  import Export
  import Sync

  /** Every row above the floor and up to the head is held, none above the head; a floor is a real place at or below the head. */
  ghost predicate HeldAbove(s: Stream)
  {
    && (forall n: nat | Retention.FloorSeq(s.floor) < n <= s.head.contigSeq :: n in s.rows)
    && (forall n | n in s.rows :: 0 < n <= s.head.contigSeq) && (s.floor.Some? ==> 0 < s.floor.value.seqNo <= s.head.contigSeq)
  }

  // ---- full retention keeps every row above the floor ----

  lemma AdvanceHeld(s: Stream, e: Entry)
    requires HeldAbove(s) && e.body.seqNo == s.head.contigSeq + 1
    ensures HeldAbove(Advance(true, s, e))
  {
  }

  lemma {:induction false} DrainHeld(id: StreamId, s: Stream)
    requires HeldAbove(s) && forall n | n in s.pending :: s.pending[n].body.seqNo == n
    ensures HeldAbove(Drain(true, id, s))
    decreases |s.pending|
  {
    hide HeldAbove, Verifies;
    var n := s.head.contigSeq + 1;
    if n in s.pending {
      var s' := s.(pending := s.pending - {n});
      SameHeld(s, s');
      SameHeld(s, SealFork(s'));
      AdvanceHeld(s', s.pending[n]);
      DrainHeld(id, Advance(true, s', s.pending[n]));
    }
  }

  lemma SameHeld(s: Stream, t: Stream)
    requires HeldAbove(s) && t.rows == s.rows && t.head.contigSeq == s.head.contigSeq && t.floor == s.floor
    ensures HeldAbove(t)
  {
  }

  lemma ExternalHeld(cap: nat, id: StreamId, h: seq<Entry>, s: Stream, e: Entry)
    requires Canonical(id, h) && R.Tracks(id, h, s) && HeldAbove(s) && e.body.seqNo > 0
    ensures HeldAbove(External(true, cap, None, id, s, e).stream)
  {
    Sync.PendingSeqs(id, h, s);
    hide Canonical, Verifies, Drain, Drained, RecoveryIngest, R.OnMark, R.OnBranch, HeldAbove;
    var n := e.body.seqNo;
    SameHeld(s, SealFork(s));
    SameHeld(s, s.(pending := s.pending[n := e]));
    if n == s.head.contigSeq + 1 {
      AdvanceHeld(s, e);
      DrainHeld(id, Advance(true, s, e));
    }
  }

  lemma FloorHeld(id: StreamId, h: seq<Entry>, s: Stream, m: Mark)
    requires Canonical(id, h) && R.Tracks(id, h, s) && HeldAbove(s)
    ensures HeldAbove(AdoptFloor(true, id, s, m).0)
  {
    Sync.PendingSeqs(id, h, s);
    hide Canonical, Verifies, Drain, Drained, R.OnMark, R.OnBranch;
    if s.head.contigSeq < m.seqNo {
      assert HeldAbove(JumpToFloor(s, m));
      DrainHeld(id, JumpToFloor(s, m));
    }
  }

  lemma PruneHeld(s: Stream, upto: nat)
    requires HeldAbove(s) && upto in s.rows
    ensures HeldAbove(R.Pruned(s, upto))
  {
  }

  lemma WriteHeld(cfg: Config, w: string, c: Core, item: Item, pt: nat, c': Core, id: StreamId)
    requires item.AppendItem? && R.Commit(cfg, w, c, item, pt, c') && IsFull(cfg, id.topic) && HeldAbove(StreamAt(c, id))
    ensures HeldAbove(StreamAt(c', id))
  {
    hide Changed, AfterPersist, StreamAt, HeldAbove, Advance;
    var mid: Core, reply: Reply :| ItemStep(cfg, w, c, item, pt, mid, reply) && c' == mid.(applied := [], disk := mid.disk.(hlc := mid.hlc));
    R.Settled(mid, c');
    var at := StreamId(item.topic, w);
    var s := StreamAt(c, at);
    if s.head.seal == Open && Stamp(c.hlc, pt).Some? {
      var e := NewEntry(w, item, s.head, Stamp(c.hlc, pt).value, CausalOf(w, c.tails, item.causal));
      if cfg.valid(e) {
        M.CommitAt(c, at, Advance(IsFull(cfg, item.topic), s, e), mid, c', id);
        if id == at { AdvanceHeld(s, e); }
      } else {
        M.SameStreamsAt(c, mid, id);
      }
    }
  }

  lemma TakeEntryHeld(cfg: Config, h: R.History, w: string, c: Core, e: Entry, pt: nat, c': Core, id: StreamId)
    requires R.HistoryOk(h) && R.NodeOk(h, w, c) && e.body.seqNo > 0 && R.Commit(cfg, w, c, ExternalItem(e), pt, c')
    requires IsFull(cfg, id.topic) && HeldAbove(StreamAt(c, id))
    ensures HeldAbove(StreamAt(c', id))
  {
    hide Changed, StreamAt, External, R.Tracks, Canonical, R.HlcOrdered, AfterAll, MergeClock, R.OwnOk, HeldAbove, IsFull;
    var mid: Core, reply: Reply :|
      ItemStep(cfg, w, c, ExternalItem(e), pt, mid, reply) && c' == mid.(applied := [], disk := mid.disk.(hlc := mid.hlc));
    var at := StreamOf(e);
    R.NodeAt(h, w, c, at);
    R.NoFinality(h, w, c, e.topic);
    if id == at { ExternalHeld(cfg.pendingCap, at, R.Written(h, at), StreamAt(c, at), e); }
    M.CommitAt(c, at, External(IsFull(cfg, e.topic), cfg.pendingCap, None, at, StreamAt(c, at), e).stream, mid, c', id);
  }

  lemma TakeFloorHeld(cfg: Config, h: R.History, w: string, c: Core, at: StreamId, m: Mark, pt: nat, c': Core, id: StreamId)
    requires R.HistoryOk(h) && R.NodeOk(h, w, c) && R.Commit(cfg, w, c, FloorItem(at, m), pt, c')
    requires IsFull(cfg, id.topic) && HeldAbove(StreamAt(c, id))
    ensures HeldAbove(StreamAt(c', id))
  {
    hide Changed, StreamAt, AdoptFloor, R.Tracks, Canonical, R.HlcOrdered, AfterAll, R.OwnOk, HeldAbove, IsFull;
    var mid: Core, reply: Reply :|
      ItemStep(cfg, w, c, FloorItem(at, m), pt, mid, reply) && c' == mid.(applied := [], disk := mid.disk.(hlc := mid.hlc));
    R.NodeAt(h, w, c, at);
    if cfg.ackRefused(at.topic) {
      R.Settled(mid, c');
    } else {
      if id == at { FloorHeld(at, R.Written(h, at), StreamAt(c, at), m); }
      M.CommitAt(c, at, AdoptFloor(IsFull(cfg, at.topic), at, StreamAt(c, at), m).0, mid, c', id);
    }
  }

  /** Full retention: no step of a node loses a row above its floor. */
  lemma NodeHeld(cfg: Config, w: string, g: R.Net, c: Core, e: R.Event, c': Core, g': R.Net, id: StreamId)
    requires R.NetOk(g) && w in g.nodes && g.nodes[w] == c && R.NodeStep(cfg, w, g, c, e, c', g')
    requires IsFull(cfg, id.topic) && HeldAbove(StreamAt(c, id))
    ensures HeldAbove(StreamAt(c', id))
  {
    hide R.Commit, R.NodeOk, R.HistoryOk, StreamAt, R.NewRow, R.OnMark, R.OnHistory, R.Contradicts, R.Pruned, R.MaySend, HeldAbove, IsFull;
    var h := g.history;
    match e
    case Write(item, pt) => WriteHeld(cfg, w, c, item, pt, c', id);
    case TakeEntry(m, k, pt) => TakeEntryHeld(cfg, h, w, c, m.entries[k], pt, c', id);
    case TakeHave(m) =>
      assert R.MsgOk(h, m);
      R.NodeAt(h, w, c, m.stream);
      R.NoContradiction(m.stream, R.Written(h, m.stream), StreamAt(c, m.stream), m.mark);
    case TakeFloor(m, pt) => TakeFloorHeld(cfg, h, w, c, m.stream, m.mark, pt, c', id);
    case Prune(at, upto) =>
      M.PruneMoves(c, at, upto, c', id);
      if id == at { PruneHeld(StreamAt(c, id), upto); }
    case Send(m) =>
    case FoldRow(row) => R.TailsKeep(h, w, c, c');
    case RestartNode => M.RestartMoves(h, w, c, c', id);
  }

  lemma {:induction false} RunHeld(cfg: Config, gs: seq<R.Net>, who: seq<string>, es: seq<R.Event>, w: string, id: StreamId)
    requires R.Run(cfg, gs, who, es) && R.Start(gs[0]) && w in gs[|es|].nodes && IsFull(cfg, id.topic)
    ensures HeldAbove(StreamAt(gs[|es|].nodes[w], id))
  {
    hide R.Step, HeldAbove, StreamAt, R.NodeStep, IsFull;
    if es == [] {
      FreshHeld(id);
    } else {
      var n := |es| - 1;
      StepThere(cfg, gs, who, es);
      R.RunKeeps(cfg, gs[..n + 1], who[..n], es[..n]);
      RunHeld(cfg, gs[..n + 1], who[..n], es[..n], w, id);
      if who[n] == w { NodeHeld(cfg, w, gs[n], gs[n].nodes[w], es[n], gs[n + 1].nodes[w], gs[n + 1], id); }
    }
  }

  lemma FreshHeld(id: StreamId)
    ensures HeldAbove(StreamAt(R.Fresh(), id))
  {
  }

  lemma StepThere(cfg: Config, gs: seq<R.Net>, who: seq<string>, es: seq<R.Event>)
    requires R.Run(cfg, gs, who, es) && es != []
    ensures var n := |es| - 1;
            && R.Run(cfg, gs[..n + 1], who[..n], es[..n])
            && who[n] in gs[n].nodes && who[n] in gs[n + 1].nodes
            && R.NodeStep(cfg, who[n], gs[n], gs[n].nodes[who[n]], es[n], gs[n + 1].nodes[who[n]], gs[n + 1])
            && gs[n + 1].nodes == gs[n].nodes[who[n] := gs[n + 1].nodes[who[n]]]
  {
    hide R.NodeStep;
    var n := |es| - 1;
    assert R.Step(cfg, gs[n], who[n], es[n], gs[n + 1]);
  }

  // ---- the exchange ----

  /** What each side knows of the other's stream: both follow the author, and the server holds every row above its floor. */
  ghost predicate Ready(id: StreamId, h: seq<Entry>, server: Stream, requester: Stream)
  {
    && Canonical(id, h) && R.HlcOrdered(h) && R.Tracks(id, h, server) && R.Tracks(id, h, requester)
    && HeldAbove(server) && Sync.Keyed(server.rows)
  }

  /** Any two nodes of any reachable net are ready for an exchange of any full stream. */
  lemma NetReady(cfg: Config, gs: seq<R.Net>, who: seq<string>, es: seq<R.Event>, v: string, r: string, id: StreamId)
    requires R.Run(cfg, gs, who, es) && R.Start(gs[0]) && v in gs[|es|].nodes && r in gs[|es|].nodes && IsFull(cfg, id.topic)
    ensures var g := gs[|es|]; Ready(id, R.Written(g.history, id), StreamAt(g.nodes[v], id), StreamAt(g.nodes[r], id))
  {
    R.RunKeeps(cfg, gs, who, es);
    RunHeld(cfg, gs, who, es, v, id);
    var g := gs[|es|];
    R.NodeAt(g.history, v, g.nodes[v], id);
    R.NodeAt(g.history, r, g.nodes[r], id);
    hide R.Run, R.Start, StreamAt, HeldAbove, R.HlcOrdered;
    KeyedRows(id, R.Written(g.history, id), StreamAt(g.nodes[v], id));
  }

  lemma KeyedRows(id: StreamId, h: seq<Entry>, s: Stream)
    requires Canonical(id, h) && R.Tracks(id, h, s)
    ensures Sync.Keyed(s.rows)
  {
    forall n | n in s.rows
      ensures s.rows[n].body.seqNo == n && n > 0
    {
      assert CanonOk(id, h, n);
    }
  }

  /** The rows asked for, all held, are the author's rows after the requester's head. */
  lemma RoundRows(id: StreamId, h: seq<Entry>, server: Stream, requester: Stream, from: nat)
    requires Ready(id, h, server, requester) && Retention.FloorSeq(server.floor) < from <= server.head.contigSeq + 1
    ensures var es := Sync.RangeList(server.rows, from, server.head.contigSeq);
            && |es| == server.head.contigSeq + 1 - from
            && forall i | 0 <= i < |es| :: from + i <= |h| && es[i] == Nth(h, from + i) && es[i].body.seqNo == from + i
  {
    hide R.HlcOrdered, R.OnMark;
    var upto := server.head.contigSeq;
    assert upto <= |h| by { hide R.OnBranch; assert R.OnMark(id, h, Mark(upto, server.head.contigChain)); MarkIn(id, h, Mark(upto, server.head.contigChain)); }
    Sync.ServesTheBranch(server.rows, h, from, upto);
    var es := Sync.RangeList(server.rows, from, upto);
    forall i | 0 <= i < |es|
      ensures from + i <= |h| && es[i].body.seqNo == from + i
    {
      assert es[i] == Nth(h, from + i) && CanonOk(id, h, from + i);
    }
  }

  lemma MarkIn(id: StreamId, h: seq<Entry>, m: Mark)
    requires R.OnMark(id, h, m)
    ensures m.seqNo <= |h|
  {
  }

  lemma FloorReady(id: StreamId, h: seq<Entry>, server: Stream, requester: Stream)
    requires Ready(id, h, server, requester) && server.floor.Some?
    ensures var t := AdoptFloor(true, id, requester, server.floor.value).0;
            Ready(id, h, server, t) && t.head.contigSeq >= requester.head.contigSeq && t.head.contigSeq >= server.floor.value.seqNo
  {
    var m := server.floor.value;
    R.FloorTracks(true, id, h, requester, m);
    Sync.PendingSeqs(id, h, requester);
    hide Canonical, R.HlcOrdered, R.OnMark, R.OnBranch, Drain, Drained, HeldAbove;
    if requester.head.contigSeq < m.seqNo { Sync.DrainForward(true, id, JumpToFloor(requester, m)); }
  }

  /** The requester takes in the entries of a round. */
  method Deliver(cap: nat, id: StreamId, s: Stream, es: seq<Entry>) returns (t: Stream)
    requires forall e | e in es :: e.body.seqNo > 0
    ensures t == Sync.AfterRound(true, cap, id, s, es)
  {
    hide External;
    t := s;
    var i := 0;
    while i < |es|
      invariant 0 <= i <= |es| && t == Sync.AfterRound(true, cap, id, s, es[..i])
    {
      assert es[..i + 1][..i] == es[..i];
      t := External(true, cap, None, id, t, es[i]).stream;
      i := i + 1;
    }
    assert es[..i] == es;
  }

  method Flatten(batches: seq<Sync.Batch>) returns (es: seq<Entry>)
    ensures es == Sync.Sent(batches)
  {
    es := [];
    var i := 0;
    while i < |batches|
      invariant 0 <= i <= |batches| && es == Sync.Sent(batches[..i])
    {
      assert batches[..i + 1][..i] == batches[..i];
      es := es + batches[i].entries;
      i := i + 1;
    }
    assert batches[..i] == batches;
  }

  /** A WANT above the floor, answered in full and delivered. */
  method Round(cap: nat, id: StreamId, ghost h: seq<Entry>, server: Stream, requester: Stream, budget: nat, cost: Entry -> nat) returns (t: Stream)
    requires Ready(id, h, server, requester) && requester.head.contigSeq >= Retention.FloorSeq(server.floor)
    ensures R.Tracks(id, h, t) && t.head.contigSeq >= server.head.contigSeq && t.head.contigSeq >= requester.head.contigSeq
  {
    hide Ready, HeldAbove, Sync.Keyed, Sync.RangeList, External, R.Tracks, Canonical, R.HlcOrdered, Sync.AfterRound, Sync.BatchOk;
    var from, upto := requester.head.contigSeq + 1, server.head.contigSeq;
    ReadyParts(id, h, server, requester);
    var a, served := Sync.ServeWant(server.rows, upto, server.floor, from, budget, cost, _ => true, 3, false, true);
    if from > upto { return requester; }
    RoundRows(id, h, server, requester, from);
    AllServed(id, h, server, requester, from, served);
    var es := Flatten(a.batches);
    t := Deliver(cap, id, requester, es);
    Sync.RoundCatchesUp(true, cap, id, h, requester, es);
  }

  lemma ReadyParts(id: StreamId, h: seq<Entry>, server: Stream, requester: Stream)
    requires Ready(id, h, server, requester)
    ensures Canonical(id, h) && R.HlcOrdered(h) && R.Tracks(id, h, requester) && Sync.Keyed(server.rows) && HeldAbove(server)
    ensures server.head.contigSeq <= |h|
    ensures forall n | n in server.rows :: n <= |h|
  {
    MarkIn(id, h, Mark(server.head.contigSeq, server.head.contigChain));
  }

  /** With every row held, serving cannot stop at a hole. */
  lemma AllServed(id: StreamId, h: seq<Entry>, server: Stream, requester: Stream, from: nat, served: nat)
    requires Ready(id, h, server, requester) && Retention.FloorSeq(server.floor) < from <= server.head.contigSeq && from <= served + 1
    requires served >= server.head.contigSeq
             || Sync.RangeList(server.rows, served + 1, Min(server.head.contigSeq, served + Sync.ENTRIES_BATCH_MAX)) == []
    ensures served >= server.head.contigSeq
  {
    hide R.Tracks, Canonical, R.HlcOrdered;
    NotEmpty(server.rows, served + 1, Min(server.head.contigSeq, served + Sync.ENTRIES_BATCH_MAX));
  }

  lemma {:induction false} NotEmpty(rows: Rows, from: nat, upto: nat)
    requires 0 < from
    ensures from <= upto && from in rows ==> Sync.RangeList(rows, from, upto) != []
    decreases upto
  {
    if upto > from { NotEmpty(rows, from, upto - 1); }
  }

  /**
    A complete, loss-free exchange: ask for what follows the own head; told that this is gone, take in the floor and ask
    again. Whatever the two held before, the requester ends up at or past the server's head, still on the
    author's branch.
  */
  method Exchange(cap: nat, id: StreamId, ghost h: seq<Entry>, server: Stream, requester: Stream, budget: nat, cost: Entry -> nat) returns (t: Stream)
    requires Ready(id, h, server, requester)
    ensures R.Tracks(id, h, t) && t.head.contigSeq >= server.head.contigSeq && t.head.contigSeq >= requester.head.contigSeq
  {
    hide Ready, AdoptFloor, R.Tracks;
    t := requester;
    if Sync.BelowFloor(server.floor, requester.head.contigSeq + 1) {
      FloorReady(id, h, server, requester);
      t := AdoptFloor(true, id, requester, server.floor.value).0;
    }
    t := Round(cap, id, h, server, t, budget, cost);
  }

  /**
    In every reachable net, whatever was lost or repeated before, one such exchange brings any node up to any
    other's head in any full stream, and the rows it then holds are the author's.
  */
  method NetExchange(cfg: Config, ghost gs: seq<R.Net>, ghost who: seq<string>, ghost es: seq<R.Event>, ghost v: string, ghost r: string, id: StreamId,
                     server: Stream, requester: Stream, budget: nat, cost: Entry -> nat) returns (t: Stream)
    requires R.Run(cfg, gs, who, es) && R.Start(gs[0]) && v in gs[|es|].nodes && r in gs[|es|].nodes && IsFull(cfg, id.topic)
    requires server == StreamAt(gs[|es|].nodes[v], id) && requester == StreamAt(gs[|es|].nodes[r], id)
    ensures t.head.contigSeq >= server.head.contigSeq && t.head.contigSeq >= requester.head.contigSeq
    ensures var h := R.Written(gs[|es|].history, id);
            t.head.seal == Open && t.head.contigSeq <= |h| && t.head.contigChain == CanonChain(id, h, t.head.contigSeq)
            && forall n | n in t.rows :: 1 <= n <= |h| && t.rows[n] == Nth(h, n)
  {
    NetReady(cfg, gs, who, es, v, r, id);
    ghost var h := R.Written(gs[|es|].history, id);
    hide R.Run, R.Start, Ready, StreamAt;
    t := Exchange(cfg.pendingCap, id, h, server, requester, budget, cost);
  }

  // ---- exporting from the net ----

  /** In every reachable net any node's copy of a full stream can be exported. */
  lemma NetExportable(cfg: Config, gs: seq<R.Net>, who: seq<string>, es: seq<R.Event>, v: string, id: StreamId)
    requires R.Run(cfg, gs, who, es) && R.Start(gs[0]) && v in gs[|es|].nodes && IsFull(cfg, id.topic)
    ensures Export.Exportable(id, StreamAt(gs[|es|].nodes[v], id))
  {
    NetReady(cfg, gs, who, es, v, v, id);
    hide R.Run, R.Start, StreamAt;
    BranchExportable(id, R.Written(gs[|es|].history, id), StreamAt(gs[|es|].nodes[v], id));
  }

  lemma BranchExportable(id: StreamId, h: seq<Entry>, s: Stream)
    requires Ready(id, h, s, s)
    ensures Export.Exportable(id, s)
  {
    var start := Export.StartOf(id, s);
    ReadyParts(id, h, s, s);
    StartOnBranch(id, h, s);
    hide R.HlcOrdered, Canonical;
    forall n: nat | start.seqNo < n <= s.head.contigSeq
      ensures Export.ExportableRow(id, s, n)
    {
      RowExportable(id, h, s, n);
    }
    assert Export.AllAbove(s, start.seqNo);
    HeadChain(id, h, s);
  }

  lemma StartOnBranch(id: StreamId, h: seq<Entry>, s: Stream)
    requires R.Tracks(id, h, s)
    ensures var start := Export.StartOf(id, s); start.seqNo <= |h| && start.chain == CanonChain(id, h, start.seqNo)
  {
  }

  lemma HeadChain(id: StreamId, h: seq<Entry>, s: Stream)
    requires R.Tracks(id, h, s) && HeldAbove(s)
    ensures s.head.contigChain ==
            if s.head.contigSeq == Export.StartOf(id, s).seqNo then Export.StartOf(id, s).chain else s.rows[s.head.contigSeq].chain
  {
    StartOnBranch(id, h, s);
  }

  lemma RowExportable(id: StreamId, h: seq<Entry>, s: Stream, n: nat)
    requires Canonical(id, h) && R.HlcOrdered(h) && R.Tracks(id, h, s) && HeldAbove(s) && n <= |h|
    requires Export.StartOf(id, s).seqNo < n <= s.head.contigSeq
    ensures Export.ExportableRow(id, s, n)
  {
    StartOnBranch(id, h, s);
    assert n in s.rows && s.rows[n] == Nth(h, n) && CanonOk(id, h, n);
    if n > Export.StartOf(id, s).seqNo + 1 {
      assert n - 1 in s.rows && s.rows[n - 1] == Nth(h, n - 1);
      assert HlcCompare(Nth(h, n - 1).body.hlc, Nth(h, n - 1 + 1).body.hlc) <= 0;
    }
  }
}
