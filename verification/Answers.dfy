/**
  What the commit queue answers, and why (src/log.ts:860-1013, 1335-1650): which contradictions are noticed, what a
  written row says, and what certificates and directives do, told by rows, seqs, chains and stamps.
*/
module Answers {
  import opened HlcClock
  import opened Entries
  import opened Streams
  import opened CommitQueue
  import Q = QueueRuns

  // ---- an entry from the wire ----

  /** At or before the finality watermark, and past the writer's cut. */
  predicate BehindWatermark(cert: Option<Cert>, e: Entry)
  {
    cert.Some? && !Before(cert.value.order, OrderOf(e))
    && (e.writer in cert.value.cut ==> e.body.seqNo > cert.value.cut[e.writer].seqNo)
  }

  /** Chains from what was there, and is not stamped before its row where that is held. */
  predicate Follows(prev: Chain, row: Option<Entry>, e: Entry)
  {
    e.chain == ChainOf(prev, e) && (row.Some? ==> HlcCompare(row.value.body.hlc, e.body.hlc) <= 0)
  }

  function RowAt(s: Stream, n: nat): Option<Entry> { if n in s.rows then Some(s.rows[n]) else None }

  /** The entry continues the stream as far as its head goes. */
  predicate Continues(id: StreamId, s: Stream, e: Entry)
  {
    var h := s.head.contigSeq;
    e.body.seqNo == h + 1
    && if h == 0 then Follows(Seed(id.topic, id.writer), None, e) else Follows(s.head.contigChain, RowAt(s, h), e)
  }

  /** What stands before place m once `e` has been taken in: e itself, or the pending row there. */
  function Prior(pending: Rows, e: Entry, m: nat): Option<Entry>
  {
    if m == e.body.seqNo + 1 then Some(e) else if m > 0 && m - 1 in pending then Some(pending[m - 1]) else None
  }

  /** The pending row m follows what stands before it; only a full topic keeps rows to compare stamps with. */
  predicate Links(full: bool, pending: Rows, e: Entry, m: nat)
  {
    m in pending && Prior(pending, e, m).Some?
    && Follows(Prior(pending, e, m).value.chain, if full then Prior(pending, e, m) else None, pending[m])
  }

  ghost predicate LinksUpTo(full: bool, pending: Rows, e: Entry, m: nat)
  {
    forall k | e.body.seqNo < k <= m :: Links(full, pending, e, k)
  }

  /** Behind an unbroken run of pending rows there is one that contradicts what it should follow. */
  ghost predicate BreaksAt(full: bool, pending: Rows, e: Entry, m: nat)
  {
    e.body.seqNo < m && m in pending && LinksUpTo(full, pending, e, m - 1) && !Links(full, pending, e, m)
  }

  /** Just past `e`: the head is there, and its row held exactly in a full topic. */
  ghost predicate JustPast(full: bool, s: Stream, e: Entry)
  {
    && s.head.seal == Open && s.head.contigSeq == e.body.seqNo > 0 && s.head.contigChain == e.chain
    && (forall n | n in s.rows :: n <= e.body.seqNo) && RowAt(s, e.body.seqNo) == (if full then Some(e) else None)
    && forall n | n in s.pending :: s.pending[n].body.seqNo == n
  }

  /** A drain goes on exactly as far as the pending rows link up, and seals the stream exactly when one is there that does not. */
  lemma {:induction false} DrainGoes(full: bool, id: StreamId, s: Stream, e: Entry)
    requires JustPast(full, s, e)
    ensures var t := Drain(full, id, s);
            var m := t.head.contigSeq;
            && m >= e.body.seqNo && LinksUpTo(full, s.pending, e, m) && !Links(full, s.pending, e, m + 1)
            && t.head.seal == (if m + 1 in s.pending then Fork else Open)
    decreases |s.pending|
  {
    hide LinksUpTo, Links, Verifies, JustPast, Advance;
    var n := e.body.seqNo + 1;
    NoneLinked(full, s.pending, e);
    HeadThere(full, s, e);
    if n in s.pending {
      var next, s' := s.pending[n], s.(pending := s.pending - {n});
      LinksNext(full, id, s, e);
      if Verifies(id, s', next) {
        DrainGoes(full, id, Advance(full, s', next), next);
        LinksOn(full, s.pending, e, Drain(full, id, Advance(full, s', next)).head.contigSeq);
      }
    }
  }

  lemma NoneLinked(full: bool, pending: Rows, e: Entry)
    ensures LinksUpTo(full, pending, e, e.body.seqNo)
  {
  }

  lemma HeadThere(full: bool, s: Stream, e: Entry)
    requires JustPast(full, s, e)
    ensures s.head.seal == Open && s.head.contigSeq == e.body.seqNo && (e.body.seqNo + 1 !in s.pending ==> !Links(full, s.pending, e, e.body.seqNo + 1))
  {
  }

  lemma LinksNext(full: bool, id: StreamId, s: Stream, e: Entry)
    requires JustPast(full, s, e) && e.body.seqNo + 1 in s.pending
    ensures var n := e.body.seqNo + 1;
            var next, s' := s.pending[n], s.(pending := s.pending - {n});
            && (Verifies(id, s', next) <==> Links(full, s.pending, e, n)) && (Verifies(id, s', next) ==> JustPast(full, Advance(full, s', next), next))
            && next.body.seqNo == n && Advance(full, s', next).pending == s'.pending && s'.head == s.head
  {
  }

  /** Past the first pending row, the rest links up as before. */
  lemma LinksOn(full: bool, pending: Rows, e: Entry, m: nat)
    requires e.body.seqNo + 1 in pending && Links(full, pending, e, e.body.seqNo + 1)
    requires var n := e.body.seqNo + 1; pending[n].body.seqNo == n && m >= n && LinksUpTo(full, pending - {n}, pending[n], m)
    ensures LinksUpTo(full, pending, e, m)
    ensures var n := e.body.seqNo + 1; Links(full, pending, e, m + 1) <==> Links(full, pending - {n}, pending[n], m + 1)
  {
    var n := e.body.seqNo + 1;
    forall k | k > n
      ensures Links(full, pending, e, k) <==> Links(full, pending - {n}, pending[n], k)
    {
    }
    forall k | e.body.seqNo < k <= m
      ensures Links(full, pending, e, k)
    {
      if k > n { assert Links(full, pending - {n}, pending[n], k); }
    }
  }

  /** What a wire entry contradicts: the row or pending row held at its seq, or, being next in line, the head; or a pending row contradicts it. */
  ghost predicate Contradiction(full: bool, id: StreamId, s: Stream, e: Entry)
  {
    || Disowned(id, s, e)
    || (Continues(id, s, e) && exists m: nat :: BreaksAt(full, s.pending, e, m))
  }

  /** The entry itself contradicts what is held. */
  predicate Disowned(id: StreamId, s: Stream, e: Entry)
  {
    var n, h := e.body.seqNo, s.head.contigSeq;
    || (n <= h && n in s.rows && s.rows[n].chain != e.chain)
    || (n > h + 1 && n in s.pending && s.pending[n].chain != e.chain)
    || (n == h + 1 && !Continues(id, s, e))
  }

  /** Rows not above the head, pending rows at their own seqs. */
  ghost predicate Kept(id: StreamId, s: Stream)
  {
    && (forall n | n in s.rows :: 0 < n <= s.head.contigSeq) && (forall n | n in s.pending :: At(id, n, s.pending[n]))
  }

  lemma {:induction false} DrainKept(full: bool, id: StreamId, s: Stream)
    requires Kept(id, s)
    ensures Kept(id, Drain(full, id, s))
    decreases |s.pending|
  {
    hide Verifies;
    var n := s.head.contigSeq + 1;
    if n in s.pending { DrainKept(full, id, Advance(full, s.(pending := s.pending - {n}), s.pending[n])); }
  }

  lemma IngestKept(full: bool, cap: nat, cert: Option<Cert>, id: StreamId, s: Stream, e: Entry)
    requires Kept(id, s) && At(id, e.body.seqNo, e) && e.body.seqNo > 0
    ensures Kept(id, External(full, cap, cert, id, s, e).stream)
  {
    hide Verifies, Drain, Drained, PreFinality, RecoveryIngest, Kept, Advance, At;
    var n := e.body.seqNo;
    if s.target.Some? { RecoveryKept(full, id, s, e, s.target.value); }
    SameKept(id, s, SealFork(s));
    if n == s.head.contigSeq + 1 {
      NextKept(full, id, s, e);
      DrainKept(full, id, Advance(full, s, e));
    } else {
      PendedKept(id, s, e);
    }
  }

  lemma NextKept(full: bool, id: StreamId, s: Stream, e: Entry)
    requires Kept(id, s) && At(id, e.body.seqNo, e) && e.body.seqNo == s.head.contigSeq + 1
    ensures Kept(id, Advance(full, s, e))
  {
  }

  lemma PendedKept(id: StreamId, s: Stream, e: Entry)
    requires Kept(id, s) && At(id, e.body.seqNo, e)
    ensures Kept(id, s.(pending := s.pending[e.body.seqNo := e]))
  {
  }

  lemma RecoveryKept(full: bool, id: StreamId, s: Stream, e: Entry, t: Target)
    requires Kept(id, s) && At(id, e.body.seqNo, e) && e.body.seqNo > 0
    ensures Kept(id, RecoveryIngest(full, id, s, e, t).stream)
  {
    hide PrevChain, Rewind, Kept, Advance;
    var n := e.body.seqNo;
    if n <= s.head.contigSeq { RewindKept(id, s, n); }
    var s' := if n <= s.head.contigSeq then Rewind(id, s, n) else s;
    if n == s'.head.contigSeq + 1 {
      NextKept(full, id, s', e);
      var a := Advance(full, s', e);
      SameKept(id, a, a.(head := RetireAt(a.head, t), target := None));
    }
  }

  lemma RewindKept(id: StreamId, s: Stream, n: nat)
    requires Kept(id, s) && 0 < n <= s.head.contigSeq
    ensures Kept(id, Rewind(id, s, n)) && Rewind(id, s, n).head.contigSeq == n - 1
  {
  }

  lemma CertKept(id: StreamId, s: Stream, cert: Cert)
    requires Kept(id, s)
    ensures Kept(id, ApplyCert(id, s, cert))
  {
    hide LastCovered;
  }

  lemma DirectiveKept(id: StreamId, s: Stream, d: Directive)
    requires Kept(id, s)
    ensures Kept(id, ApplyDirective(id, s, d).0)
  {
  }

  lemma FloorKept(full: bool, id: StreamId, s: Stream, floor: Mark)
    requires Kept(id, s)
    ensures Kept(id, AdoptFloor(full, id, s, floor).0)
  {
    hide Drain, Drained;
    if s.head.contigSeq < floor.seqNo { DrainKept(full, id, JumpToFloor(s, floor)); }
  }

  lemma AppendKept(cfg: Config, own: string, c: Core, item: Item, pt: nat, c': Core, reply: Reply, id: StreamId)
    requires item.AppendItem? && AppendStep(cfg, own, c, item, pt, c', reply) && Kept(id, StreamAt(c, id))
    ensures Kept(id, StreamAt(c', id))
  {
    hide Assemble, AfterPersist, PrevChain;
  }

  lemma ItemKept(cfg: Config, own: string, c: Core, item: Item, pt: nat, c': Core, reply: Reply, id: StreamId)
    requires ItemOk(item) && ItemStep(cfg, own, c, item, pt, c', reply) && Kept(id, StreamAt(c, id))
    ensures Kept(id, StreamAt(c', id))
  {
    hide StreamAt, AfterAll, MergeClock, AfterPersist, External, AdoptFloor, ApplyCert, ApplyDirective, Advance, Kept, AppendStep;
    var s := StreamAt(c, id);
    match item
    case AppendItem(_, _, _, _, _, _) => AppendKept(cfg, own, c, item, pt, c', reply, id);
    case ExternalItem(e) => if StreamOf(e) == id { IngestKept(IsFull(cfg, e.topic), cfg.pendingCap, CertAt(c.disk, e.topic), id, s, e); }
    case SealStreamItem(at) => SameKept(id, s, SealItem(s));
    case CertItem(cert) => CertKept(id, s, cert);
    case DirectiveItem(d) => DirectiveKept(id, s, d);
    case FloorItem(at, floor) => FloorKept(IsFull(cfg, at.topic), id, s, floor);
  }

  lemma SameKept(id: StreamId, s: Stream, t: Stream)
    requires Kept(id, s) && t.rows == s.rows && t.pending == s.pending && t.head.contigSeq == s.head.contigSeq
    ensures Kept(id, t)
  {
  }

  /** So it is through every run, crashes and restarts included. */
  lemma {:induction false} KeptRuns(cfg: Config, own: string, cs: seq<Core>, es: seq<Q.Event>, id: StreamId, i: nat)
    requires Q.Run(cfg, own, cs, es) && i < |cs| && Kept(id, StreamAt(cs[0], id))
    ensures Kept(id, StreamAt(cs[i], id))
  {
    hide ItemStep, Kept;
    if i > 0 {
      KeptRuns(cfg, own, cs, es, id, i - 1);
      StepThere(cfg, own, cs, es, i - 1);
      if es[i - 1].Do? { ItemKept(cfg, own, cs[i - 1], es[i - 1].item, es[i - 1].pt, cs[i], es[i - 1].reply, id); }
      else { SameKept(id, StreamAt(cs[i - 1], id), StreamAt(cs[i], id)); }
    }
  }

  lemma NextIngested(full: bool, cap: nat, cert: Option<Cert>, id: StreamId, s: Stream, e: Entry)
    requires Kept(id, s) && s.head.seal == Open && At(id, e.body.seqNo, e) && !BehindWatermark(cert, e) && e.body.seqNo == s.head.contigSeq + 1
    ensures var o := External(full, cap, cert, id, s, e);
            if !Continues(id, s, e) then o.stream == s.(head := s.head.(seal := Fork)) && o.result == Forked && !o.merges
            else o.result == Applied && o.merges
                 && o.stream.head.seal == if exists m: nat :: BreaksAt(full, s.pending, e, m) then Fork else Open
  {
    NotBehind(cert, e);
    NextTaken(full, id, s, e);
    hide Drain, Drained, PreFinality, BreaksAt, Links, LinksUpTo, JustPast, Continues, Verifies, Kept, Advance, BehindWatermark;
    if Continues(id, s, e) {
      var a := Advance(full, s, e);
      DrainGoes(full, id, a, e);
      BreakIsEnd(full, s.pending, e, Drain(full, id, a).head.contigSeq);
    }
  }

  lemma NextTaken(full: bool, id: StreamId, s: Stream, e: Entry)
    requires Kept(id, s) && s.head.seal == Open && At(id, e.body.seqNo, e) && e.body.seqNo == s.head.contigSeq + 1
    ensures Continues(id, s, e) <==> Verifies(id, s, e)
    ensures JustPast(full, Advance(full, s, e), e) && Advance(full, s, e).pending == s.pending
  {
  }

  lemma NotBehind(cert: Option<Cert>, e: Entry)
    requires e.body.seqNo > 0
    ensures PreFinality(cert, e) <==> BehindWatermark(cert, e)
  {
    if cert.Some? { OrderTotal(OrderOf(e), cert.value.order); }
  }

  /** The one place where a run of pending rows can break is where it ends. */
  lemma BreakIsEnd(full: bool, pending: Rows, e: Entry, m: nat)
    requires m >= e.body.seqNo && LinksUpTo(full, pending, e, m) && !Links(full, pending, e, m + 1)
    ensures (exists b: nat :: BreaksAt(full, pending, e, b)) <==> m + 1 in pending
  {
    hide Links;
    if m + 1 in pending { assert BreaksAt(full, pending, e, m + 1); }
    forall b: nat | BreaksAt(full, pending, e, b)
      ensures b == m + 1
    {
    }
  }

  /**
    Every wire entry on an open stream: refused exactly behind the watermark; the stream is sealed if and only if
    there is a contradiction; and the answer says which case it is. Nothing is skipped in silence.
  */
  lemma IngestSays(cfg: Config, own: string, c: Core, e: Entry, pt: nat, c': Core, reply: Reply)
    requires e.body.seqNo > 0 && ItemStep(cfg, own, c, ExternalItem(e), pt, c', reply)
    requires var id := StreamId(e.topic, e.writer); StreamAt(c, id).head.seal == Open && Kept(id, StreamAt(c, id))
    ensures var id, full := StreamId(e.topic, e.writer), IsFull(cfg, e.topic);
            var s, t, n, behind := StreamAt(c, id), StreamAt(c', id), e.body.seqNo, BehindWatermark(CertAt(c.disk, e.topic), e);
            var h := s.head.contigSeq;
            && reply.ExternalReply?
            && (reply.result == RejectedFinality <==> behind) && (behind ==> t == s)
            && (!behind ==>
                 && (t.head.seal == Fork <==> Contradiction(full, id, s, e)) && (t.head.seal != Fork ==> t.head.seal == Open)
                 && (reply.result == Forked <==> Disowned(id, s, e))
                 && (reply.result == Applied <==> Continues(id, s, e))
                 && (reply.result == Duplicate <==> (n <= h && (n !in s.rows || s.rows[n].chain == e.chain))
                                                    || (n > h + 1 && n in s.pending && s.pending[n].chain == e.chain))
                 && (reply.result == Pended <==> n > h + 1 && n !in s.pending && |s.pending| < cfg.pendingCap)
                 && (reply.result == DroppedOverflow <==> n > h + 1 && n !in s.pending && |s.pending| >= cfg.pendingCap)
                 && (reply.result == Pended ==> t == s.(pending := s.pending[n := e]))
                 && (reply.result == Duplicate || reply.result == DroppedOverflow ==> t == s)
                 && (reply.result == Forked ==> t == s.(head := s.head.(seal := Fork))))
  {
    hide Drain, Drained, Contradiction, AfterAll, MergeClock, BehindWatermark, StreamAt, OthersKept, IsFull;
    var id, full := StreamId(e.topic, e.writer), IsFull(cfg, e.topic);
    var s, cert := StreamAt(c, id), CertAt(c.disk, e.topic);
    assert StreamOf(e) == id;
    NotBehind(cert, e);
    OneContradiction(full, id, s, e);
    if !BehindWatermark(cert, e) && e.body.seqNo == s.head.contigSeq + 1 {
      NextIngested(full, cfg.pendingCap, cert, id, s, e);
    }
  }

  /** What a drain takes in: the pending rows, one after another, as far as the head gets. */
  ghost predicate TakenIn(full: bool, s: Stream, t: Stream, taken: seq<Entry>) { TakenFrom(s, t, taken) && TakenTo(full, s, t, taken) }

  ghost predicate TakenFrom(s: Stream, t: Stream, taken: seq<Entry>)
  {
    var h := s.head.contigSeq;
    && t.head.contigSeq == h + |taken| && (forall n | h < n <= h + |taken| :: n in s.pending && taken[n - h - 1] == s.pending[n])
    && t.head.contigChain == (if taken == [] then s.head.contigChain else taken[|taken| - 1].chain)
    && (forall n :: n in t.pending <==> n in s.pending && !(h < n <= t.head.contigSeq) && !(t.head.seal == Fork && n == t.head.contigSeq + 1))
    && (forall n | n in t.pending :: t.pending[n] == s.pending[n])
  }

  ghost predicate TakenTo(full: bool, s: Stream, t: Stream, taken: seq<Entry>)
  {
    var h := s.head.contigSeq;
    && t.head.contigSeq == h + |taken|
    && (forall n :: n in t.rows <==> n in s.rows || (full && h < n <= h + |taken|))
    && (forall n | n in t.rows :: t.rows[n] == if full && h < n <= h + |taken| then taken[n - h - 1] else s.rows[n])
    && t.quarantine == s.quarantine && t.target == s.target && t.floor == s.floor
  }

  lemma {:induction false} DrainTakesIn(full: bool, id: StreamId, s: Stream)
    requires s.head.seal == Open && forall n | n in s.pending :: s.pending[n].body.seqNo == n
    ensures TakenIn(full, s, Drain(full, id, s), Drained(full, id, s))
    decreases |s.pending|
  {
    hide Verifies, TakenFrom, TakenTo, TakenIn;
    var n := s.head.contigSeq + 1;
    if n !in s.pending {
      NothingTaken(full, s);
    } else {
      var e, s' := s.pending[n], s.(pending := s.pending - {n});
      if Verifies(id, s', e) {
        var a := Advance(full, s', e);
        assert a.pending == s'.pending && a.head.seal == Open;
        DrainTakesIn(full, id, a);
        OneMoreTaken(full, s, Drain(full, id, a), Drained(full, id, a));
      } else {
        BreakTaken(full, s);
      }
    }
  }

  lemma NothingTaken(full: bool, s: Stream)
    requires s.head.seal == Open && s.head.contigSeq + 1 !in s.pending
    ensures TakenIn(full, s, s, [])
  {
  }

  lemma BreakTaken(full: bool, s: Stream)
    requires s.head.contigSeq + 1 in s.pending
    ensures TakenIn(full, s, SealFork(s.(pending := s.pending - {s.head.contigSeq + 1})), [])
  {
  }

  lemma OneMoreTaken(full: bool, s: Stream, t: Stream, taken: seq<Entry>)
    requires var n := s.head.contigSeq + 1;
             n in s.pending && s.pending[n].body.seqNo == n && TakenIn(full, Advance(full, s.(pending := s.pending - {n}), s.pending[n]), t, taken)
    ensures TakenIn(full, s, t, [s.pending[s.head.contigSeq + 1]] + taken)
  {
    hide TakenFrom, TakenTo, Advance;
    OneMoreFrom(full, s, t, taken);
    OneMoreTo(full, s, t, taken);
  }

  lemma OneMoreFrom(full: bool, s: Stream, t: Stream, taken: seq<Entry>)
    requires var n := s.head.contigSeq + 1;
             n in s.pending && s.pending[n].body.seqNo == n && TakenFrom(Advance(full, s.(pending := s.pending - {n}), s.pending[n]), t, taken)
    ensures TakenFrom(s, t, [s.pending[s.head.contigSeq + 1]] + taken)
  {
    var n := s.head.contigSeq + 1;
    var a, all := Advance(full, s.(pending := s.pending - {n}), s.pending[n]), [s.pending[n]] + taken;
    forall m | n < m < n + |all|
      ensures m in s.pending && all[m - n] == s.pending[m]
    {
      assert m in a.pending && all[m - n] == taken[m - n - 1];
    }
  }

  lemma OneMoreTo(full: bool, s: Stream, t: Stream, taken: seq<Entry>)
    requires var n := s.head.contigSeq + 1;
             n in s.pending && s.pending[n].body.seqNo == n && TakenTo(full, Advance(full, s.(pending := s.pending - {n}), s.pending[n]), t, taken)
    ensures TakenTo(full, s, t, [s.pending[s.head.contigSeq + 1]] + taken)
  {
    var n := s.head.contigSeq + 1;
    var all := [s.pending[n]] + taken;
    forall m | m in t.rows && n < m < n + |all|
      ensures all[m - n] == taken[m - n - 1]
    {
    }
  }

  /** An entry that is taken in is applied, and after it every pending row that follows; each stands in the rows of a full topic and at the end of a ring. */
  lemma AppliedSays(cfg: Config, own: string, c: Core, e: Entry, pt: nat, c': Core)
    requires e.body.seqNo > 0 && ItemStep(cfg, own, c, ExternalItem(e), pt, c', ExternalReply(Applied))
    requires var id := StreamId(e.topic, e.writer); StreamAt(c, id).head.seal == Open && Kept(id, StreamAt(c, id))
    ensures var id, full := StreamId(e.topic, e.writer), cfg.retention(e.topic) == Full;
            var s, t := StreamAt(c, id), StreamAt(c', id);
            exists taken: seq<Entry> ::
              && c'.applied == c.applied + [e] + taken
              && TakenIn(full, s.(head := s.head.(contigSeq := e.body.seqNo, contigChain := e.chain), rows := if full then s.rows[e.body.seqNo := e] else s.rows), t, taken)
              && (cfg.retention(e.topic).Ring? && |RingOf(c.rings, e.topic)| <= cfg.retention(e.topic).size ==>
                    RingOf(c'.rings, e.topic) == Newest(RingOf(c.rings, e.topic) + OfTopic([e] + taken, e.topic), cfg.retention(e.topic).size))
  {
    hide StreamAt, OthersKept, MergeClock, PreFinality, RecoveryIngest, Verifies, Drain, Drained, AfterAll, TakenIn;
    var id, full := StreamId(e.topic, e.writer), cfg.retention(e.topic) == Full;
    assert StreamOf(e) == id;
    var a := Advance(full, StreamAt(c, id), e);
    DrainTakesIn(full, id, a);
    var taken := Drained(full, id, a);
    assert c'.applied == c.applied + [e] + taken;
    if cfg.retention(e.topic).Ring? && |RingOf(c.rings, e.topic)| <= cfg.retention(e.topic).size {
      RingHoldsNewest(cfg, c.rings, [e] + taken, e.topic, cfg.retention(e.topic).size);
    }
  }

  lemma OneContradiction(full: bool, id: StreamId, s: Stream, e: Entry)
    ensures Contradiction(full, id, s, e) <==> Disowned(id, s, e) || (Continues(id, s, e) && exists m: nat :: BreaksAt(full, s.pending, e, m))
    ensures e.body.seqNo != s.head.contigSeq + 1 ==> !Continues(id, s, e)
  {
  }

  // ---- from then on ----

  /** Only a directive for the stream opens a sealed stream again. */
  predicate Reopens(e: Q.Event, id: StreamId) { e.Do? && e.item.DirectiveItem? && e.item.directive.stream == id }

  lemma StaysSealed(cfg: Config, own: string, c: Core, e: Q.Event, c': Core, id: StreamId)
    requires Q.Step(cfg, own, c, e, c') && StreamAt(c, id).head.seal != Open && !Reopens(e, id)
    ensures StreamAt(c', id).head.seal != Open
  {
    hide Drain, Drained, Verifies, AfterAll, MergeClock, PreFinality, RowsFrom, RowsBelow, AfterPersist, LastCovered;
    if e.Do? { ItemStaysSealed(cfg, own, c, e.item, e.pt, c', e.reply, id); }
  }

  lemma ItemStaysSealed(cfg: Config, own: string, c: Core, item: Item, pt: nat, c': Core, reply: Reply, id: StreamId)
    requires ItemOk(item) && ItemStep(cfg, own, c, item, pt, c', reply) && StreamAt(c, id).head.seal != Open
    requires !(item.DirectiveItem? && item.directive.stream == id)
    ensures StreamAt(c', id).head.seal != Open
  {
    hide StreamAt, AfterAll, MergeClock, AfterPersist, External, AdoptFloor, ApplyCert, SealItem, Advance;
    var s := StreamAt(c, id);
    match item
    case AppendItem(_, _, _, _, _, _) => SealedAppend(cfg, own, c, item, pt, c', reply, id);
    case ExternalItem(e) => if StreamOf(e) == id { SealedIngest(IsFull(cfg, e.topic), cfg.pendingCap, CertAt(c.disk, e.topic), id, s, e); }
    case SealStreamItem(at) => SealedItem(s);
    case CertItem(cert) => SealedCert(id, s, cert);
    case DirectiveItem(d) =>
    case FloorItem(at, floor) => SealedFloor(IsFull(cfg, at.topic), id, s, floor);
  }

  lemma SealedAppend(cfg: Config, own: string, c: Core, item: Item, pt: nat, c': Core, reply: Reply, id: StreamId)
    requires item.AppendItem? && AppendStep(cfg, own, c, item, pt, c', reply) && StreamAt(c, id).head.seal != Open
    ensures StreamAt(c', id).head.seal != Open
  {
    hide AfterPersist, Advance, PrevChain;
  }

  lemma SealedIngest(full: bool, cap: nat, cert: Option<Cert>, id: StreamId, s: Stream, e: Entry)
    requires s.head.seal != Open && e.body.seqNo > 0
    ensures External(full, cap, cert, id, s, e).stream.head.seal != Open
  {
    hide RowsFrom, RowsBelow;
  }

  lemma SealedItem(s: Stream)
    requires s.head.seal != Open
    ensures SealItem(s).head.seal != Open
  {
  }

  lemma SealedCert(id: StreamId, s: Stream, cert: Cert)
    requires s.head.seal != Open
    ensures ApplyCert(id, s, cert).head.seal != Open
  {
    hide RowsFrom, RowsBelow, LastCovered;
  }

  lemma SealedFloor(full: bool, id: StreamId, s: Stream, floor: Mark)
    requires s.head.seal != Open
    ensures AdoptFloor(full, id, s, floor).0.head.seal != Open
  {
    hide Drain, Drained;
  }

  lemma {:induction false} SealedSince(cfg: Config, own: string, cs: seq<Core>, es: seq<Q.Event>, id: StreamId, i: nat, j: nat)
    requires Q.Run(cfg, own, cs, es) && i <= j < |cs| && StreamAt(cs[i], id).head.seal != Open
    requires forall k | i <= k < j :: !Reopens(es[k], id)
    ensures StreamAt(cs[j], id).head.seal != Open
  {
    hide Q.Step, StreamAt;
    if j > i {
      SealedSince(cfg, own, cs, es, id, i, j - 1);
      StaysSealed(cfg, own, cs[j - 1], es[j - 1], cs[j], id);
    }
  }

  /**
    A node that holds one row of a writer and is handed another for the same seq has the stream sealed, at once and
    through everything that follows, until a directive for that stream.
  */
  lemma EquivocationSeals(cfg: Config, own: string, cs: seq<Core>, es: seq<Q.Event>, i: nat, j: nat, e: Entry, pt: nat, reply: Reply)
    requires Q.Run(cfg, own, cs, es) && i < j < |cs| && es[i] == Q.Do(ExternalItem(e), pt, reply)
    requires var s := StreamAt(cs[i], StreamId(e.topic, e.writer));
             e.body.seqNo <= s.head.contigSeq && e.body.seqNo in s.rows && s.rows[e.body.seqNo].chain != e.chain
    requires !BehindWatermark(CertAt(cs[i].disk, e.topic), e)
    requires forall k | i < k < j :: !Reopens(es[k], StreamId(e.topic, e.writer))
    ensures StreamAt(cs[j], StreamId(e.topic, e.writer)).head.seal != Open
  {
    hide StreamAt, ItemStep, BehindWatermark;
    var id := StreamId(e.topic, e.writer);
    StepThere(cfg, own, cs, es, i);
    HeldContradicted(cfg, own, cs[i], e, pt, cs[i + 1], reply);
    SealedSince(cfg, own, cs, es, id, i + 1, j);
  }

  lemma StepThere(cfg: Config, own: string, cs: seq<Core>, es: seq<Q.Event>, i: nat)
    requires Q.Run(cfg, own, cs, es) && i < |es|
    ensures Q.Step(cfg, own, cs[i], es[i], cs[i + 1])
  {
  }

  lemma HeldContradicted(cfg: Config, own: string, c: Core, e: Entry, pt: nat, c': Core, reply: Reply)
    requires e.body.seqNo > 0 && ItemStep(cfg, own, c, ExternalItem(e), pt, c', reply) && !BehindWatermark(CertAt(c.disk, e.topic), e)
    requires var s := StreamAt(c, StreamId(e.topic, e.writer));
             e.body.seqNo <= s.head.contigSeq && e.body.seqNo in s.rows && s.rows[e.body.seqNo].chain != e.chain
    ensures StreamAt(c', StreamId(e.topic, e.writer)).head.seal != Open
  {
    hide Drain, Drained, AfterAll, MergeClock, StreamAt, OthersKept, BehindWatermark, PreFinality, RecoveryIngest;
    var id := StreamId(e.topic, e.writer);
    assert StreamOf(e) == id;
    NotBehind(CertAt(c.disk, e.topic), e);
    if StreamAt(c, id).head.seal != Open { SealedIngest(IsFull(cfg, e.topic), cfg.pendingCap, CertAt(c.disk, e.topic), id, StreamAt(c, id), e); }
  }

  // ---- an append ----

  /**
    A written append is one row, next under the own writer, saying exactly what was asked with the new clock as its stamp;
    it is applied, and stands in the rows of a full topic or at the end of the ring.
  */
  lemma AppendSays(cfg: Config, own: string, c: Core, item: Item, pt: nat, c': Core, id: EntryId)
    requires ItemOk(item) && ItemStep(cfg, own, c, item, pt, c', Appended(id))
    ensures item.AppendItem? && |c'.applied| == |c.applied| + 1 && c'.applied[..|c.applied|] == c.applied
    ensures var at := StreamId(item.topic, own);
            var s, t, e := StreamAt(c, at), StreamAt(c', at), c'.applied[|c.applied|];
            && id == EntryId(item.topic, own, s.head.contigSeq + 1) && e.topic == item.topic && e.writer == own && e.body.seqNo == id.seqNo
            && e.body.kind == item.kind && e.body.key == item.key && e.body.ref == item.ref && e.body.payload == item.payload
            && (item.causal.Given? ==> e.body.causal == item.causal.causal)
            && e.body.hlc == c'.hlc && HlcCompare(c.hlc, c'.hlc) < 0 && pt <= c'.hlc.l
            && e.chain == ChainOf(if s.head.contigSeq == 0 then Seed(item.topic, own) else s.head.contigChain, e)
            && t.head == s.head.(contigSeq := id.seqNo, contigChain := e.chain) && s.head.seal == Open
            && t == s.(head := t.head, rows := if cfg.retention(item.topic) == Full then s.rows[id.seqNo := e] else s.rows)
            && (forall o | o != at :: StreamAt(c', o) == StreamAt(c, o)) && c'.disk.finality == c.disk.finality
            && (cfg.retention(item.topic).Ring? && cfg.retention(item.topic).size > 0 ==>
                  item.topic in c'.rings && c'.rings[item.topic] != [] && c'.rings[item.topic][|c'.rings[item.topic]| - 1] == e)
  {
    hide StreamAt, External, ApplyCert, AdoptFloor, ApplyDirective, SealItem, AfterAll, MergeClock;
    if item.AppendItem? { OwnAppend(cfg, own, c, item, pt, c', id); }
  }

  lemma OwnAppend(cfg: Config, own: string, c: Core, item: Item, pt: nat, c': Core, id: EntryId)
    requires item.AppendItem? && AppendStep(cfg, own, c, item, pt, c', Appended(id))
    ensures |c'.applied| == |c.applied| + 1 && c'.applied[..|c.applied|] == c.applied
    ensures HlcCompare(c.hlc, c'.hlc) < 0 && pt <= c'.hlc.l
  {
    hide OthersKept, StreamAt, AfterPersist, NewEntry;
  }

  /** What a node took in, it writes after: an append that follows an ingest not too far ahead of the wall clock is stamped past the entry. */
  lemma AppendFollowsIngest(cfg: Config, own: string, c: Core, e: Entry, pt: nat, c1: Core, result: ApplyResult, item: Item, pt': nat, c2: Core, id: EntryId)
    requires e.body.seqNo > 0 && ItemStep(cfg, own, c, ExternalItem(e), pt, c1, ExternalReply(result)) && (result == Applied || result == Pended)
    requires StreamAt(c, StreamId(e.topic, e.writer)).head.seal == Open && e.body.hlc.l <= pt + cfg.epsilonMs
    requires c.hlc.c < C_LIMIT && e.body.hlc.c < C_LIMIT
    requires ItemOk(item) && ItemStep(cfg, own, c1, item, pt', c2, Appended(id))
    ensures |c2.applied| == |c1.applied| + 1 && HlcCompare(e.body.hlc, c2.applied[|c1.applied|].body.hlc) < 0
  {
    hide StreamAt, OthersKept, Drain, Drained, AfterAll, PreFinality;
    AppendSays(cfg, own, c1, item, pt', c2, id);
    hide ItemStep;
    IngestMerges(cfg, own, c, e, pt, c1, result);
    CompareTwice(e.body.hlc, c1.hlc, c2.hlc);
  }

  lemma IngestMerges(cfg: Config, own: string, c: Core, e: Entry, pt: nat, c': Core, result: ApplyResult)
    requires e.body.seqNo > 0 && ItemStep(cfg, own, c, ExternalItem(e), pt, c', ExternalReply(result)) && (result == Applied || result == Pended)
    requires StreamAt(c, StreamId(e.topic, e.writer)).head.seal == Open && e.body.hlc.l <= pt + cfg.epsilonMs
    requires c.hlc.c < C_LIMIT && e.body.hlc.c < C_LIMIT
    ensures HlcCompare(e.body.hlc, c'.hlc) < 0
  {
    hide StreamAt, OthersKept, Drain, Drained, AfterAll, PreFinality, Merge, HlcCompare;
    MergeDominates(c.hlc, e.body.hlc, pt);
  }

  lemma CompareTwice(a: Hlc, b: Hlc, c: Hlc)
    requires HlcCompare(a, b) < 0 && HlcCompare(b, c) < 0
    ensures HlcCompare(a, c) < 0
  {
  }

  /** An entry too far ahead of the wall clock, and one that is not taken in, leave the clock alone. */
  lemma ClockKept(cfg: Config, own: string, c: Core, e: Entry, pt: nat, c': Core, reply: Reply)
    requires e.body.seqNo > 0 && ItemStep(cfg, own, c, ExternalItem(e), pt, c', reply)
    requires e.body.hlc.l > pt + cfg.epsilonMs || StreamAt(c, StreamId(e.topic, e.writer)).head.seal != Open
             || (reply != ExternalReply(Applied) && reply != ExternalReply(Pended))
    ensures c'.hlc == c.hlc
  {
    hide StreamAt, OthersKept, Drain, Drained, AfterAll, PreFinality, Merge;
  }

  /** The row an append asks for. */
  function Asked(own: string, item: Item, h: Head, hlc: Hlc, causal: Option<(string, nat)>): Entry
    requires item.AppendItem?
  {
    var body := Body(h.contigSeq + 1, hlc, item.kind, item.key, causal, item.ref, item.payload);
    Entry(item.topic, own, body, Link(if h.contigSeq == 0 then Seed(item.topic, own) else h.contigChain, body))
  }

  /** An append that is not written changes no table and applies nothing; it is told that the writer is sealed exactly when that is so. */
  lemma AppendRefused(cfg: Config, own: string, c: Core, item: Item, pt: nat, c': Core, reply: Reply)
    requires item.AppendItem? && ItemStep(cfg, own, c, item, pt, c', reply)
    ensures reply == WriterSealed <==> StreamAt(c, StreamId(item.topic, own)).head.seal != Open
    ensures !reply.Appended? ==> c'.disk == c.disk && c'.applied == c.applied && c'.rings == c.rings && c'.recoveries == c.recoveries
    ensures reply.Appended? || reply == WriterSealed || reply == Invalid
    ensures var at := StreamId(item.topic, own);
            var s := StreamAt(c, at);
            var full := pt <= c.hlc.l && c.hlc.c + 1 >= C_LIMIT;
            reply == Invalid <==>
            s.head.seal == Open && (full || !cfg.valid(Asked(own, item, s.head, c'.hlc, CausalOf(own, c.tails, item.causal))))
  {
    hide OthersKept, StreamAt, AfterPersist, Advance, CausalOf;
  }

  // ---- rings ----

  function OfTopic(es: seq<Entry>, topic: string): seq<Entry>
  {
    if es == [] then [] else OfTopic(es[..|es| - 1], topic) + if es[|es| - 1].topic == topic then [es[|es| - 1]] else []
  }

  /** The newest of them, as many as there is room for. */
  function Newest(es: seq<Entry>, size: nat): seq<Entry> { if |es| > size then es[|es| - size..] else es }

  lemma {:induction false} AllAfterLast(cfg: Config, rings: Rings, es: seq<Entry>)
    requires es != []
    ensures AfterAll(cfg, rings, es) == AfterPersist(cfg, AfterAll(cfg, rings, es[..|es| - 1]), es[|es| - 1])
    decreases |es|
  {
    hide AfterPersist;
    if |es| > 1 {
      AllAfterLast(cfg, AfterPersist(cfg, rings, es[0]), es[1..]);
      assert es[1..][..|es| - 2] == es[..|es| - 1][1..];
    }
  }

  lemma PersistedRing(cfg: Config, rings: Rings, e: Entry, topic: string, size: nat, all: seq<Entry>)
    requires cfg.retention(topic) == Ring(size) && RingOf(rings, topic) == Newest(all, size)
    ensures RingOf(AfterPersist(cfg, rings, e), topic) == if e.topic == topic then Newest(all + [e], size) else RingOf(rings, topic)
  {
  }

  /** A ring holds the newest rows of its topic, in the order they were applied; rows of other topics leave it alone. */
  lemma {:induction false} RingHoldsNewest(cfg: Config, rings: Rings, es: seq<Entry>, topic: string, size: nat)
    requires cfg.retention(topic) == Ring(size) && |RingOf(rings, topic)| <= size
    ensures RingOf(AfterAll(cfg, rings, es), topic) == Newest(RingOf(rings, topic) + OfTopic(es, topic), size)
    decreases |es|
  {
    if es == [] {
      assert RingOf(rings, topic) + OfTopic(es, topic) == RingOf(rings, topic);
    } else {
      var front, last := es[..|es| - 1], es[|es| - 1];
      RingHoldsNewest(cfg, rings, front, topic, size);
      AllAfterLast(cfg, rings, es);
      var all := RingOf(rings, topic) + OfTopic(front, topic);
      PersistedRing(cfg, AfterAll(cfg, rings, front), last, topic, size, all);
      hide AfterPersist, AfterAll, Newest;
      if last.topic == topic {
        assert RingOf(rings, topic) + OfTopic(es, topic) == all + [last];
      } else {
        assert OfTopic(es, topic) == OfTopic(front, topic);
      }
    }
  }

  // ---- certificates, directives, floors ----

  /** A row at or before the watermark that the cut leaves out. */
  predicate LeftOut(cert: Cert, id: StreamId, s: Stream, n: nat)
  {
    n in s.rows && !Before(cert.order, OrderOf(s.rows[n])) && (id.writer in cert.cut ==> n > cert.cut[id.writer].seqNo)
  }

  /** The row at the cut is not the one the certificate names. */
  predicate CutConflict(cert: Cert, id: StreamId, s: Stream)
  {
    id.writer in cert.cut && var cut := cert.cut[id.writer];
    0 < cut.seqNo <= s.head.contigSeq && cut.seqNo in s.rows && s.rows[cut.seqNo].chain != cut.chain
  }

  /**
    What a certificate does to a stream: with a row left out by the cut, every row past the cut goes to quarantine and
    the head back to the cut; and an open stream is sealed if and only if there was such a row or its row at the
    cut is another one.
  */
  ghost predicate Certified(cert: Cert, id: StreamId, s: Stream, t: Stream)
  {
    var cut := if id.writer in cert.cut then cert.cut[id.writer].seqNo else 0;
    var late := exists n: nat :: LeftOut(cert, id, s, n);
    && (t.head.seal == if s.head.seal == Open && (late || CutConflict(cert, id, s)) then Fork else s.head.seal)
    && t.pending == s.pending && t.target == s.target && t.floor == s.floor
    && (late ==>
         && t.head.contigSeq == cut
         && t.head.contigChain == (if cut == 0 then Seed(id.topic, id.writer) else if cut in s.rows then s.rows[cut].chain else cert.cut[id.writer].chain)
         && (forall n :: n in t.rows <==> n in s.rows && n <= cut) && (forall n | n in t.rows :: t.rows[n] == s.rows[n])
         && forall n | n in s.rows && cut < n <= s.head.contigSeq :: n in t.quarantine && t.quarantine[n] == s.rows[n])
    && (!late ==> t.rows == s.rows && t.head.contigSeq == s.head.contigSeq && t.head.contigChain == s.head.contigChain && t.quarantine == s.quarantine)
  }

  lemma StreamCertified(cert: Cert, id: StreamId, s: Stream)
    requires forall n | n in s.rows :: n > 0
    ensures Certified(cert, id, s, ApplyCert(id, s, cert))
  {
    hide LastCovered, LeftOut;
    LateIff(cert, id, s);
  }

  /** A certificate is stored, and so done to each stream of its topic; to no other. */
  lemma CertSays(cfg: Config, own: string, c: Core, cert: Cert, pt: nat, c': Core, reply: Reply, id: StreamId)
    requires ItemStep(cfg, own, c, CertItem(cert), pt, c', reply)
    ensures CertAt(c'.disk, cert.topic) == Some(cert) && forall o | o != cert.topic :: CertAt(c'.disk, o) == CertAt(c.disk, o)
    ensures id.topic != cert.topic || Record(c.disk, id).head.None? ==> StreamAt(c', id) == StreamAt(c, id)
    ensures id.topic == cert.topic && Record(c.disk, id).head.Some? && Kept(id, StreamAt(c, id)) ==>
              Certified(cert, id, StreamAt(c, id), StreamAt(c', id))
  {
    hide StreamAt, ApplyCert, Certified;
    var s := StreamAt(c, id);
    if Kept(id, s) { StreamCertified(cert, id, s); }
  }

  lemma LateIff(cert: Cert, id: StreamId, s: Stream)
    requires forall n | n in s.rows :: n > 0
    ensures (exists n: nat :: LeftOut(cert, id, s, n)) <==> LastCovered(s.rows, cert.order) > Cover(cert, id.writer)
  {
    var m := LastCovered(s.rows, cert.order);
    if m > 0 { OrderTotal(OrderOf(s.rows[m]), cert.order); }
    if m > Cover(cert, id.writer) { assert LeftOut(cert, id, s, m); }
    forall n: nat | LeftOut(cert, id, s, n)
      ensures m > Cover(cert, id.writer)
    {
      OrderTotal(OrderOf(s.rows[n]), cert.order);
    }
  }

  /** A live directive opens a retired or recovering stream again if and only if it is newer and no fork stands; it moves no row. */
  lemma LiveSays(cfg: Config, own: string, c: Core, d: Directive, pt: nat, c': Core, reply: Reply)
    requires d.live && ItemStep(cfg, own, c, DirectiveItem(d), pt, c', reply)
    ensures var s, t := StreamAt(c, d.stream), StreamAt(c', d.stream);
            var reused := d.rgen in s.directives && s.directives[d.rgen] != d;
            && (reply == DirectiveReply(DirectiveApplied) <==> !reused && d.rgen > s.head.rgen && s.head.seal != Fork)
            && (reply == DirectiveReply(DirectiveApplied) ==> t.head.seal == Open && t.head.rgen == d.rgen && t.head.final == None && t.target == None)
            && (reply != DirectiveReply(DirectiveApplied) ==> t.head == s.head && t.target == s.target)
            && t.rows == s.rows && t.pending == s.pending && t.quarantine == s.quarantine
            && t.head.contigSeq == s.head.contigSeq && t.head.contigChain == s.head.contigChain
            && (reused ==> t.directives == s.directives) && (!reused ==> t.directives == s.directives[d.rgen := d])
  {
    hide StreamAt, OthersKept, TakeUp;
  }

  /** A retiring directive names where the stream ends; without a seq or a chain it ends at its start. */
  function EndOf(d: Directive): Mark
  {
    Mark(if d.finalSeq.Some? then d.finalSeq.value else 0, if d.finalChain.Some? then d.finalChain.value else Seed(d.stream.topic, d.stream.writer))
  }

  /** The stream reaches that end on that chain. */
  predicate Reaches(id: StreamId, s: Stream, m: Mark)
  {
    m.seqNo <= s.head.contigSeq
    && if m.seqNo == 0 then m.chain == Seed(id.topic, id.writer)
       else if m.seqNo == s.head.contigSeq then m.chain == s.head.contigChain
       else m.seqNo in s.rows && s.rows[m.seqNo].chain == m.chain
  }

  /**
    A retiring directive is refused exactly when its generation was used for another, and stale exactly when not newer
    and no fork stands. Else it retires the stream at its end if the stream reaches that, with every row past it in
    quarantine; and if not, seals it and has it recover towards that end.
  */
  lemma RetiringSays(cfg: Config, own: string, c: Core, d: Directive, pt: nat, c': Core, reply: Reply)
    requires !d.live && ItemStep(cfg, own, c, DirectiveItem(d), pt, c', reply)
    ensures var id, s, t, end := d.stream, StreamAt(c, d.stream), StreamAt(c', d.stream), EndOf(d);
            var reused, older := d.rgen in s.directives && s.directives[d.rgen] != d, d.rgen <= s.head.rgen && s.head.seal != Fork;
            && (reply == DirectiveReply(Refused) <==> reused)
            && (reply == DirectiveReply(Stale) <==> !reused && older)
            && (reply == DirectiveReply(DirectiveApplied) <==> !reused && !older && Reaches(id, s, end))
            && (reply == DirectiveReply(Recovering) <==> !reused && !older && !Reaches(id, s, end))
            && t.pending == s.pending && t.floor == s.floor && t.directives == (if reused then s.directives else s.directives[d.rgen := d])
            && (reused || older ==> t == s.(directives := t.directives))
            && (reply == DirectiveReply(DirectiveApplied) ==>
                  && t.head == Head(end.seqNo, end.chain, Retired, d.rgen, Some(end)) && t.target == None
                  && (forall n :: n in t.rows <==> n in s.rows && n <= end.seqNo) && (forall n | n in t.rows :: t.rows[n] == s.rows[n])
                  && forall n | n in s.rows && end.seqNo < n <= s.head.contigSeq :: n in t.quarantine && t.quarantine[n] == s.rows[n])
            && (reply == DirectiveReply(Recovering) ==>
                  && t.target == Some(Target(end, d.rgen)) && t.head == s.head.(seal := if s.head.seal == Open then Fork else s.head.seal)
                  && t.rows == s.rows && t.quarantine == s.quarantine)
  {
    hide StreamAt, OthersKept;
  }

  /** A seal seals. */
  lemma SealSays(cfg: Config, own: string, c: Core, id: StreamId, pt: nat, c': Core, reply: Reply)
    requires ItemStep(cfg, own, c, SealStreamItem(id), pt, c', reply)
    ensures var s, t := StreamAt(c, id), StreamAt(c', id);
            t.head.seal == (if s.head.seal == Open then Fork else s.head.seal) && t == s.(head := t.head) && t.head == s.head.(seal := t.head.seal)
  {
    hide StreamAt, OthersKept;
  }

  /** What the stream holds of the other branch from n on is put aside, and the head stands just below n. */
  ghost predicate PutAside(id: StreamId, s: Stream, n: nat, t: Stream)
  {
    && t.head.contigSeq == n - 1 && (forall m :: m in t.rows <==> m in s.rows && m < n) && (forall m | m in t.rows :: t.rows[m] == s.rows[m])
    && (forall m | m in s.rows && n <= m <= s.head.contigSeq :: m in t.quarantine && t.quarantine[m] == s.rows[m])
    && t.head.contigChain == (if n == 1 then Seed(id.topic, id.writer) else if n - 1 in s.rows then s.rows[n - 1].chain else s.head.contigChain)
    && t == s.(head := t.head, rows := t.rows, quarantine := t.quarantine) && t.head == s.head.(contigSeq := n - 1, contigChain := t.head.contigChain)
  }

  /**
    An entry on a sealed stream. Without a recovery, or past its end: nothing. In a recovery: the row already held is a
    duplicate; any other at or below the head puts the rows from there on aside; then an entry that is next in line and
    chains is taken, whenever it was stamped, and at the recovery's end the stream is retired there.
  */
  lemma RecoverySays(cfg: Config, own: string, c: Core, e: Entry, pt: nat, c': Core, reply: Reply)
    requires e.body.seqNo > 0 && ItemStep(cfg, own, c, ExternalItem(e), pt, c', reply)
    requires StreamAt(c, StreamId(e.topic, e.writer)).head.seal != Open
    ensures var id, full, n := StreamId(e.topic, e.writer), cfg.retention(e.topic) == Full, e.body.seqNo;
            var s, t := StreamAt(c, id), StreamAt(c', id);
            var recovers := s.target.Some? && n <= s.target.value.final.seqNo;
            var same := n <= s.head.contigSeq && n in s.rows && s.rows[n].chain == e.chain;
            && (reply == ExternalReply(Sealed) <==> !recovers) && (reply == ExternalReply(Duplicate) <==> recovers && same)
            && (!recovers || same ==> t == s && c'.applied == c.applied)
            && (recovers && !same ==>
                 && (exists u :: RecoveryTaken(full, id, s, e, u, t, reply))
                 && c'.applied == if reply == ExternalReply(Applied) then c.applied + [e] else c.applied)
  {
    hide StreamAt, OthersKept, AfterAll, MergeClock, PreFinality, Drain, Drained, Rewind, RecoveryTaken;
    var id := StreamId(e.topic, e.writer);
    assert StreamOf(e) == id;
    var s := StreamAt(c, id);
    if s.target.Some? && e.body.seqNo <= s.target.value.final.seqNo { RecoveryCases(cfg.retention(e.topic) == Full, id, s, e); }
  }

  /** From what is left, u. */
  ghost predicate RecoveryTaken(full: bool, id: StreamId, s: Stream, e: Entry, u: Stream, t: Stream, reply: Reply)
    requires s.target.Some?
  {
    var n, end := e.body.seqNo, s.target.value;
    && (if n <= s.head.contigSeq then PutAside(id, s, n, u) else u == s)
    && var next := n == u.head.contigSeq + 1 && e.chain == ChainOf(if n == 1 then Seed(id.topic, id.writer) else u.head.contigChain, e);
    && (reply == ExternalReply(Applied) <==> next)
    && (reply == ExternalReply(Forked) <==> !next && n == u.head.contigSeq + 1) && (reply == ExternalReply(Pended) <==> n != u.head.contigSeq + 1)
    && (!next ==> t == u)
    && (next ==>
         && t.rows == (if full then u.rows[n := e] else u.rows) && t.quarantine == u.quarantine && t.pending == u.pending && t.floor == u.floor
         && if Mark(n, e.chain) == end.final then t.head == Head(n, e.chain, Retired, end.rgen, Some(end.final)) && t.target == None
            else t.head == u.head.(contigSeq := n, contigChain := e.chain) && t.target == u.target)
  }

  lemma RecoveryCases(full: bool, id: StreamId, s: Stream, e: Entry)
    requires e.body.seqNo > 0 && s.target.Some?
    ensures var n := e.body.seqNo;
            var o := RecoveryIngest(full, id, s, e, s.target.value);
            if n <= s.head.contigSeq && n in s.rows && s.rows[n].chain == e.chain then o == Outcome(s, Duplicate, [], false)
            else RecoveryTaken(full, id, s, e, if n <= s.head.contigSeq then Rewind(id, s, n) else s, o.stream, ExternalReply(o.result))
                 && o.applied == if o.result == Applied then [e] else []
  {
    hide Rewind, PutAside;
    var n := e.body.seqNo;
    if n <= s.head.contigSeq {
      RewindPuts(id, s, n);
      if n in s.rows && s.rows[n].chain == e.chain {
      } else {
        RecoveryNext(full, id, s, e, Rewind(id, s, n));
      }
    } else {
      RecoveryNext(full, id, s, e, s);
    }
  }

  lemma RewindPuts(id: StreamId, s: Stream, n: nat)
    requires 0 < n <= s.head.contigSeq
    ensures PutAside(id, s, n, Rewind(id, s, n)) && Rewind(id, s, n).target == s.target && Rewind(id, s, n).head.contigSeq == n - 1
  {
  }

  lemma RecoveryNext(full: bool, id: StreamId, s: Stream, e: Entry, u: Stream)
    requires e.body.seqNo > 0 && s.target.Some? && u.target == s.target
    requires if e.body.seqNo <= s.head.contigSeq then u == Rewind(id, s, e.body.seqNo) && PutAside(id, s, e.body.seqNo, u) else u == s
    requires !(e.body.seqNo <= s.head.contigSeq && e.body.seqNo in s.rows && s.rows[e.body.seqNo].chain == e.chain)
    ensures var o := RecoveryIngest(full, id, s, e, s.target.value);
            RecoveryTaken(full, id, s, e, u, o.stream, ExternalReply(o.result)) && o.applied == if o.result == Applied then [e] else []
  {
    hide Rewind, PutAside;
  }

  /** A recovering stream at a floor: it is complete when that is its end. */
  ghost predicate FloorTaken(s: Stream, floor: Mark, t: Stream)
    requires s.target.Some?
  {
    var end := s.target.value;
    && t.rows == s.rows && t.quarantine == s.quarantine && t.pending == (map n | n in s.pending && n > floor.seqNo :: s.pending[n])
    && if floor.seqNo == end.final.seqNo then t.target == None && t.head == Head(floor.seqNo, floor.chain, Retired, end.rgen, Some(end.final))
       else t.target == s.target && t.head == s.head.(contigSeq := floor.seqNo, contigChain := floor.chain)
  }

  /**
    When a floor is taken up: never in a topic that prunes by acknowledgment only, and not below the head, on a fork, or
    past or against the end of a recovery.
  */
  lemma FloorSays(cfg: Config, own: string, c: Core, id: StreamId, floor: Mark, pt: nat, c': Core, reply: Reply)
    requires ItemStep(cfg, own, c, FloorItem(id, floor), pt, c', reply)
    ensures var s, t := StreamAt(c, id), StreamAt(c', id);
            var below := floor.seqNo <= s.head.contigSeq;
            var past := s.target.Some? && var end := s.target.value.final;
                        floor.seqNo > end.seqNo || (floor.seqNo == end.seqNo && floor.chain != end.chain);
            && (reply == FloorReply(Adopted) <==> !cfg.ackRefused(id.topic) && !below && !past && (s.target.Some? || s.head.seal == Open))
            && (reply == FloorReply(Noop) <==> !cfg.ackRefused(id.topic) && below)
            && (reply != FloorReply(Adopted) ==> t == s)
            && (reply == FloorReply(Adopted) && s.head.seal != Open ==> s.target.Some? && FloorTaken(s, floor, t))
            && (reply == FloorReply(Adopted) ==> t.floor == if s.floor.None? || s.floor.value.seqNo < floor.seqNo then Some(floor) else s.floor)
  {
    hide StreamAt, OthersKept, AfterAll, Drained;
    DrainKeepsFloor(IsFull(cfg, id.topic), id, JumpToFloor(StreamAt(c, id), floor));
    hide Drain;
  }

  lemma {:induction false} DrainKeepsFloor(full: bool, id: StreamId, s: Stream)
    ensures Drain(full, id, s).floor == s.floor
    decreases |s.pending|
  {
    hide Verifies;
    var n := s.head.contigSeq + 1;
    if n in s.pending { DrainKeepsFloor(full, id, Advance(full, s.(pending := s.pending - {n}), s.pending[n])); }
  }
}
