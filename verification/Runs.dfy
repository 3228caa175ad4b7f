/**
  What every run of the commit queue keeps: streams stay whole, and no foreign row slips behind a
  finality watermark (src/log.ts:860-1013, 1382-1617).
*/
module QueueRuns {
  import opened HlcClock
  import opened Entries
  import opened Streams
  import opened Recovery
  import opened CommitQueue

  /** One item, the end of a flush (or an aborted one), the register hub folding a row, or a restart from the database alone. */
  datatype Event = Do(item: Item, pt: nat, reply: Reply) | Settle(hlc: Hlc) | FoldRow(row: Entry) | Restart

  ghost predicate Step(cfg: Config, own: string, c: Core, e: Event, c': Core)
  {
    match e
    case Do(item, pt, reply) => ItemOk(item) && ItemStep(cfg, own, c, item, pt, c', reply)
    case Settle(hlc) => c' == c.(applied := [], disk := c.disk.(hlc := hlc))
    case FoldRow(row) => c' == c.(tails := TailsLeft(own, c.tails, row))
    case Restart => c' == Core(c.disk, map[], c.disk.hlc, map[], map[], [])
  }

  ghost predicate Run(cfg: Config, own: string, cs: seq<Core>, es: seq<Event>)
  {
    |cs| == |es| + 1 && forall i | 0 <= i < |es| :: Step(cfg, own, cs[i], es[i], cs[i + 1])
  }

  /** A committed batch is a run. */
  lemma TraceIsRun(cfg: Config, own: string, start: Core, batch: seq<Item>, pts: seq<nat>, replies: seq<Reply>, trace: seq<Core>)
    requires Trace(cfg, own, start, batch, pts, replies, trace)
    ensures Run(cfg, own, trace, seq(|batch|, i requires 0 <= i < |batch| => Do(batch[i], pts[i], replies[i])))
  {
    hide ItemStep;
  }

  // ---- whole streams ----

  ghost predicate WholeAt(c: Core, id: StreamId) { Whole(id, StreamAt(c, id)) && PendingOk(id, StreamAt(c, id)) }

  /** The step may not move this stream to a floor. */
  predicate NoFloor(e: Event, id: StreamId) { !(e.Do? && e.item.FloorItem? && e.item.stream == id) }

  lemma ChangedWhole(c: Core, at: StreamId, s: Stream, c': Core, id: StreamId)
    requires Changed(c, at, s, c') && (if id == at then Whole(id, s) && PendingOk(id, s) else WholeAt(c, id))
    ensures WholeAt(c', id)
  {
    hide Whole, PendingOk;
  }

  lemma AppendWhole(cfg: Config, own: string, c: Core, item: Item, pt: nat, c': Core, reply: Reply, id: StreamId)
    requires item.AppendItem? && AppendStep(cfg, own, c, item, pt, c', reply) && WholeAt(c, id) && IsFull(cfg, id.topic)
    ensures WholeAt(c', id)
  {
    hide Whole, PendingOk, Changed, StreamAt, AfterPersist, Advance, IsFull;
    var at := StreamId(item.topic, own);
    var s := StreamAt(c, at);
    if s.head.seal == Open && Stamp(c.hlc, pt).Some? {
      var e := NewEntry(own, item, s.head, Stamp(c.hlc, pt).value, CausalOf(own, c.tails, item.causal));
      if cfg.valid(e) {
        if id == at {
          AdvanceWhole(id, s, e);
          AdvancePending(true, s, e);
          SamePending(id, s, Advance(true, s, e));
        }
        ChangedWhole(c, at, Advance(IsFull(cfg, item.topic), s, e), c', id);
      } else {
        SameStreams(c, c', id);
      }
    }
  }

  lemma SameStreams(c: Core, c': Core, id: StreamId)
    requires c'.disk.streams == c.disk.streams && (c'.recoveries == c.recoveries || c'.recoveries == map[])
    ensures StreamAt(c', id).(target := None) == StreamAt(c, id).(target := None)
    ensures c'.recoveries == c.recoveries ==> StreamAt(c', id) == StreamAt(c, id)
    ensures WholeAt(c, id) ==> WholeAt(c', id)
  {
  }

  lemma ItemWhole(cfg: Config, own: string, c: Core, item: Item, pt: nat, c': Core, reply: Reply, id: StreamId)
    requires ItemOk(item) && ItemStep(cfg, own, c, item, pt, c', reply) && WholeAt(c, id) && IsFull(cfg, id.topic)
    requires NoFloor(Do(item, pt, reply), id)
    ensures WholeAt(c', id)
  {
    hide Whole, PendingOk, Changed, StreamAt, AppendStep, External, ApplyCert, ApplyDirective, SealItem, AfterAll;
    match item {
      case AppendItem(_, _, _, _, _, _) => AppendWhole(cfg, own, c, item, pt, c', reply, id);
      case ExternalItem(e) =>
        var at := StreamOf(e);
        var o := External(IsFull(cfg, e.topic), cfg.pendingCap, CertAt(c.disk, e.topic), at, StreamAt(c, at), e);
        if id == at { ExternalWhole(cfg.pendingCap, CertAt(c.disk, e.topic), id, StreamAt(c, id), e); }
        ChangedWhole(c, at, o.stream, c', id);
      case SealStreamItem(at) =>
        if id == at { SealWhole(id, StreamAt(c, id)); }
        ChangedWhole(c, at, SealItem(StreamAt(c, at)), c', id);
      case CertItem(cert) => CertWhole(id, StreamAt(c, id), cert);
      case DirectiveItem(d) =>
        if id == d.stream { DirectiveWhole(id, StreamAt(c, id), d); }
        ChangedWhole(c, d.stream, ApplyDirective(d.stream, StreamAt(c, d.stream), d).0, c', id);
      case FloorItem(at, floor) => FloorElsewhereWhole(cfg, c, at, floor, c', reply, id);
    }
  }

  lemma SealWhole(id: StreamId, s: Stream)
    requires Whole(id, s) && PendingOk(id, s)
    ensures Whole(id, SealItem(s)) && PendingOk(id, SealItem(s))
  {
    hide Whole, PendingOk;
    SameWhole(id, s, SealItem(s));
    SamePending(id, s, SealItem(s));
  }

  lemma FloorElsewhereWhole(cfg: Config, c: Core, at: StreamId, floor: Mark, c': Core, reply: Reply, id: StreamId)
    requires FloorStep(cfg, c, at, floor, c', reply) && id != at && WholeAt(c, id)
    ensures WholeAt(c', id)
  {
    hide Whole, PendingOk, AdoptFloor, AfterAll;
    if !cfg.ackRefused(at.topic) {
      ChangedWhole(c, at, AdoptFloor(IsFull(cfg, at.topic), at, StreamAt(c, at), floor).0, c', id);
    }
  }

  /**
    A full-retention stream held from seq 1 stays whole through every run of appends, wire entries,
    seals, certificates, directives, recovery, commits, aborts and restarts: rows at exactly
    1..contigSeq, each chained from the one before starting at the seed, the head's chain the last.
  */
  lemma {:induction false} WholeRuns(cfg: Config, own: string, cs: seq<Core>, es: seq<Event>, id: StreamId)
    requires Run(cfg, own, cs, es) && IsFull(cfg, id.topic) && WholeAt(cs[0], id)
    requires forall e | e in es :: NoFloor(e, id)
    ensures WholeAt(cs[|es|], id)
  {
    if es != [] {
      var n := |es| - 1;
      assert Run(cfg, own, cs[..n + 1], es[..n]) by { hide Step; }
      WholeRuns(cfg, own, cs[..n + 1], es[..n], id);
      hide WholeAt, ItemStep, StreamAt, IsFull;
      assert Step(cfg, own, cs[n], es[n], cs[n + 1]) && NoFloor(es[n], id);
      match es[n]
      case Do(item, pt, reply) => ItemWhole(cfg, own, cs[n], item, pt, cs[n + 1], reply, id);
      case _ => SameStreams(cs[n], cs[n + 1], id);
    }
  }

  // ---- recovering streams ----

  lemma AppendTarget(cfg: Config, own: string, c: Core, item: Item, pt: nat, c': Core, reply: Reply, id: StreamId)
    requires item.AppendItem? && AppendStep(cfg, own, c, item, pt, c', reply) && TargetOk(id, StreamAt(c, id))
    ensures TargetOk(id, StreamAt(c', id))
  {
    hide Changed, AfterPersist, PrevChain, HoldsCanonical, StreamAt, IsFull;
    var at := StreamId(item.topic, own);
    var s := StreamAt(c, at);
    if s.head.seal == Open && Stamp(c.hlc, pt).Some? {
      var e := NewEntry(own, item, s.head, Stamp(c.hlc, pt).value, CausalOf(own, c.tails, item.causal));
      if cfg.valid(e) {
        ChangedAt(c, at, Advance(IsFull(cfg, item.topic), s, e), c', id);
      } else {
        SameStreams(c, c', id);
      }
    }
  }

  lemma ChangedAt(c: Core, at: StreamId, s: Stream, c': Core, id: StreamId)
    requires Changed(c, at, s, c')
    ensures StreamAt(c', id) == if id == at then s else StreamAt(c, id)
  {
  }

  lemma ItemTarget(cfg: Config, own: string, c: Core, item: Item, pt: nat, c': Core, reply: Reply, id: StreamId)
    requires ItemOk(item) && ItemStep(cfg, own, c, item, pt, c', reply) && WholeAt(c, id) && IsFull(cfg, id.topic)
    requires NoFloor(Do(item, pt, reply), id) && TargetOk(id, StreamAt(c, id))
    ensures TargetOk(id, StreamAt(c', id))
  {
    hide Whole, PendingOk, Changed, StreamAt, AppendStep, External, ApplyCert, ApplyDirective, AfterAll, TargetOk, AdoptFloor;
    match item {
      case AppendItem(_, _, _, _, _, _) => AppendTarget(cfg, own, c, item, pt, c', reply, id);
      case ExternalItem(e) =>
        var at := StreamOf(e);
        var o := External(IsFull(cfg, e.topic), cfg.pendingCap, CertAt(c.disk, e.topic), at, StreamAt(c, at), e);
        if id == at { ExternalTarget(cfg.pendingCap, CertAt(c.disk, e.topic), id, StreamAt(c, id), e); }
        ChangedAt(c, at, o.stream, c', id);
      case SealStreamItem(at) =>
        SealTarget(id, StreamAt(c, id));
        ChangedAt(c, at, SealItem(StreamAt(c, at)), c', id);
      case CertItem(cert) => CertTarget(id, StreamAt(c, id), cert);
      case DirectiveItem(d) =>
        if id == d.stream { DirectiveTarget(id, StreamAt(c, id), d); }
        ChangedAt(c, d.stream, ApplyDirective(d.stream, StreamAt(c, d.stream), d).0, c', id);
      case FloorItem(at, floor) =>
        if !cfg.ackRefused(at.topic) { ChangedAt(c, at, AdoptFloor(IsFull(cfg, at.topic), at, StreamAt(c, at), floor).0, c', id); }
    }
  }

  lemma SealTarget(id: StreamId, s: Stream)
    requires TargetOk(id, s)
    ensures TargetOk(id, SealItem(s))
  {
    hide HoldsCanonical;
  }

  /** A restart forgets the targets of recoveries; a commit keeps them. */
  lemma KeptTarget(c: Core, c': Core, id: StreamId)
    requires c'.disk.streams == c.disk.streams && (c'.recoveries == c.recoveries || c'.recoveries == map[]) && TargetOk(id, StreamAt(c, id))
    ensures TargetOk(id, StreamAt(c', id))
  {
    hide HoldsCanonical;
    SameStreams(c, c', id);
  }

  lemma StepTarget(cfg: Config, own: string, c: Core, e: Event, c': Core, id: StreamId)
    requires Step(cfg, own, c, e, c') && NoFloor(e, id) && IsFull(cfg, id.topic) && WholeAt(c, id) && TargetOk(id, StreamAt(c, id))
    ensures TargetOk(id, StreamAt(c', id))
  {
    hide WholeAt, ItemStep, StreamAt, IsFull, TargetOk;
    match e
    case Do(item, pt, reply) => ItemTarget(cfg, own, c, item, pt, c', reply, id);
    case _ => KeptTarget(c, c', id);
  }

  /** Through every run a recovering stream stays sealed and short of the end it is heading for. */
  lemma {:induction false} TargetRuns(cfg: Config, own: string, cs: seq<Core>, es: seq<Event>, id: StreamId)
    requires Run(cfg, own, cs, es) && IsFull(cfg, id.topic) && WholeAt(cs[0], id) && TargetOk(id, StreamAt(cs[0], id))
    requires forall e | e in es :: NoFloor(e, id)
    ensures WholeAt(cs[|es|], id) && TargetOk(id, StreamAt(cs[|es|], id))
  {
    hide Step, WholeAt, StreamAt, TargetOk, IsFull;
    WholeRuns(cfg, own, cs, es, id);
    if es != [] {
      var n := |es| - 1;
      TargetRuns(cfg, own, cs[..n + 1], es[..n], id);
      StepTarget(cfg, own, cs[n], es[n], cs[n + 1], id);
    }
  }

  /**
    Whatever a node has been through, delivering the canonical entries in order to any of its recovering
    streams held from seq 1 retires it at the end of the branch, holding exactly the branch, no row lost.
  */
  lemma RecoveryInRuns(cfg: Config, own: string, cs: seq<Core>, es: seq<Event>, id: StreamId, canon: seq<Entry>, rgen: nat)
    requires Run(cfg, own, cs, es) && IsFull(cfg, id.topic) && WholeAt(cs[0], id) && StreamAt(cs[0], id).target == None
    requires forall e | e in es :: NoFloor(e, id)
    requires Canonical(id, canon) && StreamAt(cs[|es|], id).target == Some(Target(FinalMark(id, canon), rgen))
    ensures var c, s := cs[|es|], StreamAt(cs[|es|], id);
            Retirement(id, s, Deliver(cfg.pendingCap, CertAt(c.disk, id.topic), id, s, canon, |canon|), canon, rgen)
  {
    assert TargetOk(id, StreamAt(cs[0], id));
    TargetRuns(cfg, own, cs, es, id);
    hide Run, StreamAt, Deliver, Retirement, TargetOk, Canonical;
    RecoveryCompletes(cfg.pendingCap, CertAt(cs[|es|].disk, id.topic), id, StreamAt(cs[|es|], id), canon, rgen);
  }

  // ---- the finality cut ----

  /** An entry at or before the watermark is at or below its writer's cut. */
  predicate Covered(cert: Option<Cert>, id: StreamId, n: nat, e: Entry)
  {
    cert.Some? && OrderCompare(OrderOf(e), cert.value.order) <= 0 ==> n <= Cover(cert.value, id.writer)
  }

  ghost predicate AllCovered(cert: Option<Cert>, id: StreamId, rows: Rows) { forall n | n in rows :: Covered(cert, id, n, rows[n]) }

  /** No row above the head. */
  ghost predicate RowsUnder(s: Stream) { forall n | n in s.rows :: 1 <= n <= s.head.contigSeq }

  ghost predicate StreamCut(cert: Option<Cert>, id: StreamId, s: Stream)
  {
    RowsUnder(s) && PendingOk(id, s) && AllCovered(cert, id, s.rows) && AllCovered(cert, id, s.pending)
  }

  lemma {:induction false} DrainCut(cert: Option<Cert>, full: bool, id: StreamId, s: Stream)
    requires StreamCut(cert, id, s)
    ensures StreamCut(cert, id, Drain(full, id, s))
    decreases |s.pending|
  {
    hide StreamCut, Verifies, Covered;
    var n := s.head.contigSeq + 1;
    if n in s.pending {
      var s' := s.(pending := s.pending - {n});
      SameHeadCut(cert, id, s, s');
      if Verifies(id, s', s.pending[n]) {
        AdvanceCut(cert, full, id, s', s.pending[n]) by { PendingCovered(cert, id, s, n); }
        DrainCut(cert, full, id, Advance(full, s', s.pending[n]));
      } else {
        SameHeadCut(cert, id, s', SealFork(s'));
      }
    }
  }

  lemma PendingCovered(cert: Option<Cert>, id: StreamId, s: Stream, n: nat)
    requires StreamCut(cert, id, s) && n in s.pending
    ensures Covered(cert, id, n, s.pending[n]) && s.pending[n].body.seqNo == n
  {
  }

  lemma AdvanceCut(cert: Option<Cert>, full: bool, id: StreamId, s: Stream, e: Entry)
    requires StreamCut(cert, id, s) && e.body.seqNo == s.head.contigSeq + 1 && (full ==> Covered(cert, id, e.body.seqNo, e))
    ensures StreamCut(cert, id, Advance(full, s, e))
  {
    hide Covered, PendingOk;
    SamePending(id, s, Advance(full, s, e));
  }

  lemma SameHeadCut(cert: Option<Cert>, id: StreamId, s: Stream, t: Stream)
    requires StreamCut(cert, id, s) && t.head.contigSeq == s.head.contigSeq && t.rows == s.rows
    requires forall n | n in t.pending :: n in s.pending && t.pending[n] == s.pending[n]
    ensures StreamCut(cert, id, t)
  {
    hide Covered;
    FewerCut(cert, id, s, t);
  }

  /** Dropping rows and pending rows, without lowering the head below a row, keeps the cut. */
  lemma FewerCut(cert: Option<Cert>, id: StreamId, s: Stream, t: Stream)
    requires StreamCut(cert, id, s) && RowsUnder(t)
    requires forall n | n in t.rows :: n in s.rows && t.rows[n] == s.rows[n]
    requires forall n | n in t.pending :: n in s.pending && t.pending[n] == s.pending[n]
    ensures StreamCut(cert, id, t)
  {
    hide Covered;
  }

  /** Ingest under the certificate keeps its cut; recovery is the exception. */
  lemma ExternalCut(cert: Option<Cert>, full: bool, cap: nat, id: StreamId, s: Stream, e: Entry)
    requires StreamCut(cert, id, s) && At(id, e.body.seqNo, e) && (s.head.seal == Open || s.target == None)
    ensures StreamCut(cert, id, External(full, cap, cert, id, s, e).stream)
  {
    hide StreamCut, Drain, Drained, Verifies, Advance;
    var n := e.body.seqNo;
    SameHeadCut(cert, id, s, SealFork(s));
    if s.head.seal == Open && !PreFinality(cert, e) {
      assert Covered(cert, id, n, e);
      if n == s.head.contigSeq + 1 {
        if Verifies(id, s, e) {
          AdvanceCut(cert, full, id, s, e);
          DrainCut(cert, full, id, Advance(full, s, e));
        }
      } else if n > s.head.contigSeq {
        PendCut(cert, id, s, e);
      }
    }
  }

  lemma PendCut(cert: Option<Cert>, id: StreamId, s: Stream, e: Entry)
    requires StreamCut(cert, id, s) && At(id, e.body.seqNo, e) && Covered(cert, id, e.body.seqNo, e)
    ensures StreamCut(cert, id, s.(pending := s.pending[e.body.seqNo := e]))
  {
    hide Covered;
  }

  lemma RowsAtOrBelow(cert: Cert, id: StreamId, rows: Rows)
    requires LastCovered(rows, cert.order) <= Cover(cert, id.writer)
    ensures AllCovered(Some(cert), id, rows)
  {
  }

  /**
    Exactly when a certificate leaves the cut intact on a stream: when no pending row is at or before
    the watermark but beyond the cut. Rows are swept by the item itself; pending rows are not.
  */
  lemma CertCutIff(cert: Cert, id: StreamId, s: Stream)
    requires RowsUnder(s) && PendingOk(id, s)
    ensures StreamCut(Some(cert), id, ApplyCert(id, s, cert)) <==> AllCovered(Some(cert), id, s.pending)
  {
    hide Covered, RowsFrom, LastCovered, PendingOk;
    var t := ApplyCert(id, s, cert);
    SamePending(id, s, t);
    if LastCovered(s.rows, cert.order) > Cover(cert, id.writer) {
      forall n | n in t.rows
        ensures Covered(Some(cert), id, n, t.rows[n])
      {
        BelowCutCovered(cert, id, n, t.rows[n]);
      }
    } else {
      RowsAtOrBelow(cert, id, s.rows);
    }
  }

  lemma BelowCutCovered(cert: Cert, id: StreamId, n: nat, e: Entry)
    requires n <= Cover(cert, id.writer)
    ensures Covered(Some(cert), id, n, e)
  {
  }

  lemma DirectiveCut(cert: Option<Cert>, id: StreamId, s: Stream, d: Directive)
    requires StreamCut(cert, id, s)
    ensures StreamCut(cert, id, ApplyDirective(id, s, d).0)
  {
    hide RowsFrom, FinalOf, HoldsCanonical, PendingOk, AllCovered;
    var t := ApplyDirective(id, s, d).0;
    assert forall n | n in t.rows :: n in s.rows && t.rows[n] == s.rows[n];
    assert t.pending == s.pending;
    assert RowsUnder(t);
    hide RowsUnder;
    FewerCut(cert, id, s, t);
  }

  lemma FloorCut(cert: Option<Cert>, full: bool, id: StreamId, s: Stream, floor: Mark)
    requires StreamCut(cert, id, s)
    ensures StreamCut(cert, id, AdoptFloor(full, id, s, floor).0)
  {
    hide Drain, Drained, AllCovered, PendingOk;
    if s.head.contigSeq < floor.seqNo && !FloorBarred(s.head, s.target, floor) {
      var s' := JumpToFloor(s, floor);
      assert RowsUnder(s');
      hide RowsUnder;
      FewerCut(cert, id, s, s');
      DrainCut(cert, full, id, s');
    }
  }

  /** An ingest under a certificate its entry does not offend; or one by a recovery that does not keep the entry. */
  lemma RecoveryUnder(full: bool, cap: nat, judge: Option<Cert>, cert: Option<Cert>, id: StreamId, s: Stream, e: Entry)
    requires StreamCut(judge, id, s) && At(id, e.body.seqNo, e)
    requires Covered(judge, id, e.body.seqNo, e) || (s.head.seal != Open && !(full && External(full, cap, cert, id, s, e).result == Applied))
    ensures StreamCut(judge, id, External(full, cap, cert, id, s, e).stream)
  {
    hide StreamCut, Drain, Drained, Verifies, Advance, RecoveryIngest, PreFinality, Covered;
    var n := e.body.seqNo;
    SameHeadCut(judge, id, s, SealFork(s));
    if s.head.seal != Open {
      if s.target.Some? && n <= s.target.value.final.seqNo {
        RecoveryTakes(full, cap, cert, id, s, e);
        RecoveryIngestUnder(judge, full, id, s, e, s.target.value);
      }
    } else if n == s.head.contigSeq + 1 {
      if Verifies(id, s, e) {
        AdvanceCut(judge, full, id, s, e);
        DrainCut(judge, full, id, Advance(full, s, e));
      }
    } else if n > s.head.contigSeq {
      PendCut(judge, id, s, e);
    }
  }

  lemma RecoveryTakes(full: bool, cap: nat, cert: Option<Cert>, id: StreamId, s: Stream, e: Entry)
    requires s.head.seal != Open && s.target.Some? && 0 < e.body.seqNo <= s.target.value.final.seqNo
    ensures External(full, cap, cert, id, s, e) == RecoveryIngest(full, id, s, e, s.target.value)
  {
    hide RecoveryIngest, PreFinality;
  }

  lemma RecoveryIngestUnder(judge: Option<Cert>, full: bool, id: StreamId, s: Stream, e: Entry, t: Target)
    requires StreamCut(judge, id, s) && At(id, e.body.seqNo, e)
    requires full && RecoveryIngest(full, id, s, e, t).result == Applied ==> Covered(judge, id, e.body.seqNo, e)
    ensures StreamCut(judge, id, RecoveryIngest(full, id, s, e, t).stream)
  {
    hide StreamCut, Rewind, Advance, Covered;
    var n := e.body.seqNo;
    var s' := if n <= s.head.contigSeq then Rewind(id, s, n) else s;
    if n <= s.head.contigSeq { RewindCut(judge, id, s, n); }
    var held := n <= s.head.contigSeq && n in s.rows && s.rows[n].chain == e.chain;
    if !held && n == s'.head.contigSeq + 1 && ChainOf(PrevChain(id, s'.head), e) == e.chain {
      AdvanceCut(judge, full, id, s', e);
      var a := Advance(full, s', e);
      SameHeadCut(judge, id, a, a.(head := RetireAt(a.head, t), target := None));
    }
  }

  /** Exactly when recovery leaves the cut intact: when it keeps no canonical entry as a row, or one within the cut. */
  lemma RecoveryCutIff(full: bool, cap: nat, cert: Cert, id: StreamId, s: Stream, e: Entry)
    requires StreamCut(Some(cert), id, s) && At(id, e.body.seqNo, e) && s.head.seal != Open && s.target.Some?
    ensures var o := External(full, cap, Some(cert), id, s, e);
            StreamCut(Some(cert), id, o.stream) <==> !(full && o.result == Applied) || Covered(Some(cert), id, e.body.seqNo, e)
  {
    hide Rewind, Drain, Drained, Verifies, PreFinality, StreamCut;
    var o := External(full, cap, Some(cert), id, s, e);
    if full && o.result == Applied && !Covered(Some(cert), id, e.body.seqNo, e) {
      hide Covered;
      assert e.body.seqNo in o.stream.rows && o.stream.rows[e.body.seqNo] == e;
      Uncovered(cert, id, o.stream, e.body.seqNo);
    } else {
      RecoveryUnder(full, cap, Some(cert), Some(cert), id, s, e);
    }
  }

  lemma Uncovered(cert: Cert, id: StreamId, s: Stream, n: nat)
    requires n in s.rows && !Covered(Some(cert), id, n, s.rows[n])
    ensures !StreamCut(Some(cert), id, s)
  {
  }

  lemma RewindCut(judge: Option<Cert>, id: StreamId, s: Stream, n: nat)
    requires StreamCut(judge, id, s) && 0 < n
    ensures StreamCut(judge, id, Rewind(id, s, n))
  {
    hide RowsFrom, PendingOk, Covered;
    var t := Rewind(id, s, n);
    assert RowsUnder(t);
    SamePending(id, s, t);
  }

  /** The certificate a stream of this node is held to: foreign streams of the topic only. */
  function Judge(c: Core, own: string, topic: string, id: StreamId): Option<Cert>
  {
    if id.topic == topic && id.writer != own then CertAt(c.disk, topic) else None
  }

  /** Every foreign stream of the topic respects its current certificate, and rows lie under heads everywhere. */
  ghost predicate CutOk(c: Core, own: string, topic: string)
  {
    forall id :: StreamCut(Judge(c, own, topic, id), id, StreamAt(c, id))
  }

  /**
    What the code does not guard: a recovery that keeps an entry beyond the cut, and a certificate that
    arrives while sq_pending holds a row it would refuse. RecoveryCutIff and CertCutIff say that these are
    exactly the steps that break the cut.
  */
  ghost predicate Guarded(cfg: Config, c: Core, e: Event, own: string, topic: string)
  {
    match e
    case Do(ExternalItem(entry), _, reply) =>
      var s := StreamAt(c, StreamOf(entry));
      entry.topic == topic && entry.writer != own && s.head.seal != Open && s.target.Some? && IsFull(cfg, topic) && reply == ExternalReply(Applied) ==>
        Covered(CertAt(c.disk, topic), StreamOf(entry), entry.body.seqNo, entry)
    case Do(CertItem(cert), _, _) =>
      cert.topic == topic ==>
        forall id: StreamId | id.topic == topic && id.writer != own :: AllCovered(Some(cert), id, StreamAt(c, id).pending)
    case _ => true
  }

  lemma CutAt(c: Core, own: string, topic: string, id: StreamId)
    requires CutOk(c, own, topic)
    ensures StreamCut(Judge(c, own, topic, id), id, StreamAt(c, id))
  {
  }

  lemma ChangedCut(c: Core, at: StreamId, s: Stream, c': Core, own: string, topic: string)
    requires CutOk(c, own, topic) && Changed(c, at, s, c') && StreamCut(Judge(c, own, topic, at), at, s)
    ensures CutOk(c', own, topic)
  {
    hide StreamCut, StreamAt;
    forall id
      ensures StreamCut(Judge(c', own, topic, id), id, StreamAt(c', id))
    {
      CutAt(c, own, topic, id);
    }
  }

  /** An own append is no foreign row. */
  lemma AppendCut(cfg: Config, own: string, c: Core, item: Item, pt: nat, c': Core, reply: Reply, topic: string)
    requires CutOk(c, own, topic) && item.AppendItem? && AppendStep(cfg, own, c, item, pt, c', reply)
    ensures CutOk(c', own, topic)
  {
    hide CutOk, StreamCut, Changed, StreamAt, AfterPersist, Advance, IsFull;
    var at := StreamId(item.topic, own);
    var s := StreamAt(c, at);
    CutAt(c, own, topic, at);
    if s.head.seal == Open && Stamp(c.hlc, pt).Some? {
      var e := NewEntry(own, item, s.head, Stamp(c.hlc, pt).value, CausalOf(own, c.tails, item.causal));
      if cfg.valid(e) {
        AdvanceCut(None, IsFull(cfg, item.topic), at, s, e);
        ChangedCut(c, at, Advance(IsFull(cfg, item.topic), s, e), c', own, topic);
      } else {
        SameDiskCut(c, c', own, topic);
      }
    }
  }

  lemma SameDiskCut(c: Core, c': Core, own: string, topic: string)
    requires CutOk(c, own, topic) && c'.disk.streams == c.disk.streams && c'.disk.finality == c.disk.finality
    requires c'.recoveries == c.recoveries || c'.recoveries == map[]
    ensures CutOk(c', own, topic)
  {
    hide StreamCut;
    forall id
      ensures StreamCut(Judge(c', own, topic, id), id, StreamAt(c', id))
    {
      CutAt(c, own, topic, id);
      SameHeadCut(Judge(c, own, topic, id), id, StreamAt(c, id), StreamAt(c', id));
    }
  }

  lemma SealCut(cert: Option<Cert>, id: StreamId, s: Stream)
    requires StreamCut(cert, id, s)
    ensures StreamCut(cert, id, SealItem(s))
  {
    hide StreamCut;
    SameHeadCut(cert, id, s, SealItem(s));
  }

  lemma CertItemCut(c: Core, cert: Cert, c': Core, own: string, topic: string)
    requires CutOk(c, own, topic) && CertStep(c, cert, c')
    requires cert.topic == topic ==>
               forall id: StreamId | id.topic == topic && id.writer != own :: AllCovered(Some(cert), id, StreamAt(c, id).pending)
    ensures CutOk(c', own, topic)
  {
    hide StreamCut, ApplyCert, AllCovered;
    forall id
      ensures StreamCut(Judge(c', own, topic, id), id, StreamAt(c', id))
    {
      CutAt(c, own, topic, id);
      var s := StreamAt(c, id);
      CutUnder(Judge(c, own, topic, id), id, s);
      if id.topic != cert.topic {
      } else if Record(c.disk, id).head.None? {
        NoHeadNoRows(c, id);
        if Judge(c', own, topic, id).Some? { NoRowsCut(Some(cert), id, s); }
      } else {
        ApplyCertUnder(cert, id, s);
        if Judge(c', own, topic, id).Some? { CertCutIff(cert, id, s); }
      }
    }
  }

  lemma CutUnder(cert: Option<Cert>, id: StreamId, s: Stream)
    requires StreamCut(cert, id, s)
    ensures RowsUnder(s) && PendingOk(id, s) && StreamCut(None, id, s)
  {
  }

  lemma ApplyCertUnder(cert: Cert, id: StreamId, s: Stream)
    requires StreamCut(None, id, s)
    ensures StreamCut(None, id, ApplyCert(id, s, cert))
  {
    hide RowsFrom, LastCovered, PendingOk;
    SamePending(id, s, ApplyCert(id, s, cert));
  }

  lemma NoHeadNoRows(c: Core, id: StreamId)
    requires RowsUnder(StreamAt(c, id)) && Record(c.disk, id).head.None?
    ensures StreamAt(c, id).rows == map[]
  {
    assert StreamAt(c, id).head.contigSeq == 0;
    assert forall n :: n !in StreamAt(c, id).rows;
  }

  lemma NoRowsCut(cert: Option<Cert>, id: StreamId, s: Stream)
    requires s.rows == map[] && PendingOk(id, s) && AllCovered(cert, id, s.pending)
    ensures StreamCut(cert, id, s)
  {
  }

  lemma ItemCut(cfg: Config, own: string, c: Core, item: Item, pt: nat, c': Core, reply: Reply, topic: string)
    requires ItemOk(item) && ItemStep(cfg, own, c, item, pt, c', reply) && CutOk(c, own, topic)
    requires Guarded(cfg, c, Do(item, pt, reply), own, topic)
    ensures CutOk(c', own, topic)
  {
    hide CutOk, StreamCut, Changed, StreamAt, AppendStep, External, CertStep, ApplyDirective, AdoptFloor, SealItem, AfterAll, IsFull;
    match item {
      case AppendItem(_, _, _, _, _, _) => AppendCut(cfg, own, c, item, pt, c', reply, topic);
      case ExternalItem(e) =>
        var at := StreamOf(e);
        CutAt(c, own, topic, at);
        var cert := CertAt(c.disk, e.topic);
        var o := External(IsFull(cfg, e.topic), cfg.pendingCap, cert, at, StreamAt(c, at), e);
        if Judge(c, own, topic, at).Some? {
          if StreamAt(c, at).head.seal == Open || StreamAt(c, at).target == None {
            ExternalCut(cert, IsFull(cfg, e.topic), cfg.pendingCap, at, StreamAt(c, at), e);
          } else {
            RecoveryUnder(IsFull(cfg, e.topic), cfg.pendingCap, cert, cert, at, StreamAt(c, at), e);
          }
        } else {
          RecoveryUnder(IsFull(cfg, e.topic), cfg.pendingCap, None, cert, at, StreamAt(c, at), e);
        }
        ChangedCut(c, at, o.stream, c', own, topic);
      case SealStreamItem(at) =>
        CutAt(c, own, topic, at);
        SealCut(Judge(c, own, topic, at), at, StreamAt(c, at));
        ChangedCut(c, at, SealItem(StreamAt(c, at)), c', own, topic);
      case CertItem(cert) => CertItemCut(c, cert, c', own, topic);
      case DirectiveItem(d) =>
        var at := d.stream;
        CutAt(c, own, topic, at);
        DirectiveCut(Judge(c, own, topic, at), at, StreamAt(c, at), d);
        ChangedCut(c, at, ApplyDirective(at, StreamAt(c, at), d).0, c', own, topic);
      case FloorItem(at, floor) =>
        CutAt(c, own, topic, at);
        FloorCut(Judge(c, own, topic, at), IsFull(cfg, at.topic), at, StreamAt(c, at), floor);
        if !cfg.ackRefused(at.topic) {
          ChangedCut(c, at, AdoptFloor(IsFull(cfg, at.topic), at, StreamAt(c, at), floor).0, c', own, topic);
        }
    }
  }

  /**
    Through every guarded run, with whatever certificate is current: every foreign row and pending row
    at or before the watermark is at or below its writer's cut.
  */
  lemma {:induction false} CutRuns(cfg: Config, own: string, cs: seq<Core>, es: seq<Event>, topic: string)
    requires Run(cfg, own, cs, es) && CutOk(cs[0], own, topic)
    requires forall i | 0 <= i < |es| :: Guarded(cfg, cs[i], es[i], own, topic)
    ensures CutOk(cs[|es|], own, topic)
  {
    if es != [] {
      var n := |es| - 1;
      hide CutOk, Guarded, ItemStep;
      assert Run(cfg, own, cs[..n + 1], es[..n]) by { hide Step; }
      CutRuns(cfg, own, cs[..n + 1], es[..n], topic);
      assert Step(cfg, own, cs[n], es[n], cs[n + 1]) && Guarded(cfg, cs[n], es[n], own, topic);
      match es[n]
      case Do(item, pt, reply) => ItemCut(cfg, own, cs[n], item, pt, cs[n + 1], reply, topic);
      case _ => SameDiskCut(cs[n], cs[n + 1], own, topic);
    }
  }

  /**
    Why the guard on certificates is there: a pending row the new certificate would refuse at ingest
    drains into the log behind the watermark as soon as the row before it arrives.
  */
  lemma PendingBreaksCut(cap: nat, id: StreamId, first: Entry, second: Entry, cert: Cert)
    requires cap > 0 && At(id, 1, first) && At(id, 2, second) && id.writer in cert.cut && cert.cut[id.writer].seqNo == 1
    requires first.chain == ChainOf(SeedOf(id), first) && second.chain == ChainOf(first.chain, second)
    requires HlcCompare(first.body.hlc, second.body.hlc) <= 0 && OrderCompare(OrderOf(second), cert.order) <= 0
    ensures var waiting := External(true, cap, None, id, EmptyStream(id), second).stream;
            var certified := ApplyCert(id, waiting, cert);
            var s := External(true, cap, Some(cert), id, certified, first).stream;
            2 in s.rows && !Covered(Some(cert), id, 2, s.rows[2])
  {
    var waiting := External(true, cap, None, id, EmptyStream(id), second).stream;
    assert waiting == EmptyStream(id).(pending := map[2 := second]);
    assert ApplyCert(id, waiting, cert) == waiting;
    var a := Advance(true, waiting, first);
    assert !PreFinality(Some(cert), first);
    assert Verifies(id, waiting, first);
    assert Verifies(id, a.(pending := a.pending - {2}), second);
    assert Drain(true, id, a) == Drain(true, id, Advance(true, a.(pending := a.pending - {2}), second));
  }
}
