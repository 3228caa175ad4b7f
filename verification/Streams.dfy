/**
  One replicated stream as the commit queue sees it (src/log.ts on the tables of src/store.ts): its
  head, log rows, pending rows, quarantine, directives, floor and recovery target, and what each queue
  item does to it.
*/
module Streams {
  import opened HlcClock
  import opened Entries

  datatype StreamId = StreamId(topic: string, writer: string)

  datatype SealReason = Open | Fork | Retired

  /** A seq and the chain there: a cut, a floor, a final position. */
  datatype Mark = Mark(seqNo: nat, chain: Chain)

  /** sq_writers. */
  datatype Head = Head(contigSeq: nat, contigChain: Chain, seal: SealReason, rgen: nat, final: Option<Mark>)

  datatype Directive = Directive(stream: StreamId, live: bool, rgen: nat, finalSeq: Option<nat>, finalChain: Option<Chain>, signature: string)

  /** Recovery towards a canonical branch. */
  datatype Target = Target(final: Mark, rgen: nat)

  type Rows = map<nat, Entry>

  datatype Cert = Cert(topic: string, order: Order, cut: map<string, Mark>, generation: nat)

  /** Everything stored about one stream, by seq; `final` is the target recovery is heading for. */
  datatype Stream = Stream(
    head: Head, rows: Rows, pending: Rows, quarantine: Rows,
    directives: map<nat, Directive>, floor: Option<Mark>, target: Option<Target>)

  datatype ApplyResult = Applied | Pended | Duplicate | DroppedOverflow | Forked | Sealed | RejectedFinality

  datatype DirectiveResult = DirectiveApplied | Stale | Refused | Recovering

  datatype FloorResult = Adopted | Noop | FloorRefused

  function SeedOf(id: StreamId): Chain { Seed(id.topic, id.writer) }

  function StreamOf(e: Entry): StreamId { StreamId(e.topic, e.writer) }

  function DefaultHead(id: StreamId): Head { Head(0, SeedOf(id), Open, 0, None) }

  function EmptyStream(id: StreamId): Stream { Stream(DefaultHead(id), map[], map[], map[], map[], None, None) }

  /** What the next entry must chain from. */
  function PrevChain(id: StreamId, h: Head): Chain { if h.contigSeq == 0 then SeedOf(id) else h.contigChain }

  // ---- applying entries ----

  function SealFork(s: Stream): Stream { s.(head := s.head.(seal := Fork)) }

  /** Only a full-retention topic keeps the row. */
  function Advance(full: bool, s: Stream, e: Entry): Stream
  {
    s.(head := s.head.(contigSeq := e.body.seqNo, contigChain := e.chain),
       rows := if full then s.rows[e.body.seqNo := e] else s.rows)
  }

  predicate Verifies(id: StreamId, s: Stream, e: Entry)
  {
    && e.chain == ChainOf(PrevChain(id, s.head), e)
    && (s.head.contigSeq > 0 && s.head.contigSeq in s.rows ==> HlcCompare(s.rows[s.head.contigSeq].body.hlc, e.body.hlc) <= 0)
  }

  function VerifyAndApply(full: bool, id: StreamId, s: Stream, e: Entry): Stream
  {
    if Verifies(id, s, e) then Advance(full, s, e) else SealFork(s)
  }

  /** Pending rows that continue the head, one after another, until a gap or a fork. */
  function Drain(full: bool, id: StreamId, s: Stream): Stream
    decreases |s.pending|
  {
    var n := s.head.contigSeq + 1;
    if n !in s.pending then s
    else
      var e, s' := s.pending[n], s.(pending := s.pending - {n});
      if Verifies(id, s', e) then Drain(full, id, Advance(full, s', e)) else SealFork(s')
  }

  /** The entries a drain applies, in order. */
  function Drained(full: bool, id: StreamId, s: Stream): seq<Entry>
    decreases |s.pending|
  {
    var n := s.head.contigSeq + 1;
    if n !in s.pending then []
    else
      var e, s' := s.pending[n], s.(pending := s.pending - {n});
      if Verifies(id, s', e) then [e] + Drained(full, id, Advance(full, s', e)) else []
  }

  function RowsFrom(rows: Rows, from: nat, to: int): Rows { map n | n in rows && from <= n <= to :: rows[n] }

  function RowsBelow(rows: Rows, from: nat): Rows { map n | n in rows && n < from :: rows[n] }

  /** Quarantine the rows from `from` up to the head, and drop every row from there on. */
  function Displace(s: Stream, from: nat): Stream
  {
    s.(quarantine := s.quarantine + RowsFrom(s.rows, from, s.head.contigSeq), rows := RowsBelow(s.rows, from))
  }

  /** The seal of a completed recovery. */
  function RetireAt(h: Head, t: Target): Head { h.(seal := Retired, rgen := t.rgen, final := Some(t.final)) }

  /** What an item leaves behind: the stream, the answer, what it applied, and whether the clock merges the entry. */
  datatype Outcome = Outcome(stream: Stream, result: ApplyResult, applied: seq<Entry>, merges: bool)

  /** The canonical entry disagrees with the row held there: rewind to just below it. */
  function Rewind(id: StreamId, s: Stream, n: nat): Stream
    requires n > 0
  {
    var d := Displace(s, n);
    var prev := if n == 1 then Some(SeedOf(id)) else if n - 1 in s.rows then Some(s.rows[n - 1].chain) else None;
    d.(head := s.head.(contigSeq := n - 1, contigChain := if prev.Some? then prev.value else s.head.contigChain))
  }

  /** An entry during recovery; it never moves the clock. */
  function RecoveryIngest(full: bool, id: StreamId, s: Stream, e: Entry, t: Target): (o: Outcome)
    requires e.body.seqNo > 0
    ensures !o.merges
  {
    var n := e.body.seqNo;
    if n <= s.head.contigSeq && n in s.rows && s.rows[n].chain == e.chain then Outcome(s, Duplicate, [], false)
    else
      var s' := if n <= s.head.contigSeq then Rewind(id, s, n) else s;
      if n != s'.head.contigSeq + 1 then Outcome(s', Pended, [], false)
      else if ChainOf(PrevChain(id, s'.head), e) != e.chain then Outcome(s', Forked, [], false)
      else
        var a := Advance(full, s', e);
        if n == t.final.seqNo && e.chain == t.final.chain then
          Outcome(a.(head := RetireAt(a.head, t), target := None), Applied, [e], false)
        else Outcome(a, Applied, [e], false)
  }

  /** The cover a certificate gives a writer. */
  function Cover(cert: Cert, writer: string): nat { if writer in cert.cut then cert.cut[writer].seqNo else 0 }

  predicate PreFinality(cert: Option<Cert>, e: Entry)
  {
    cert.Some? && OrderCompare(OrderOf(e), cert.value.order) <= 0 && e.body.seqNo > Cover(cert.value, e.writer)
  }

  /** An entry from the wire or an import. */
  function External(full: bool, pendingCap: nat, cert: Option<Cert>, id: StreamId, s: Stream, e: Entry): Outcome
    requires e.body.seqNo > 0
  {
    var n := e.body.seqNo;
    if s.head.seal != Open then
      (if s.target.Some? && n <= s.target.value.final.seqNo then RecoveryIngest(full, id, s, e, s.target.value)
       else Outcome(s, Sealed, [], false))
    else if PreFinality(cert, e) then Outcome(s, RejectedFinality, [], false)
    else if n <= s.head.contigSeq then
      (if n in s.rows && s.rows[n].chain != e.chain then Outcome(SealFork(s), Forked, [], false)
       else Outcome(s, Duplicate, [], false))
    else if n == s.head.contigSeq + 1 then
      (if Verifies(id, s, e) then
         Outcome(Drain(full, id, Advance(full, s, e)), Applied, [e] + Drained(full, id, Advance(full, s, e)), true)
       else Outcome(SealFork(s), Forked, [], false))
    else if n in s.pending then
      (if s.pending[n].chain == e.chain then Outcome(s, Duplicate, [], false)
       else Outcome(SealFork(s), Forked, [], false))
    else if |s.pending| >= pendingCap then Outcome(s, DroppedOverflow, [], false)
    else Outcome(s.(pending := s.pending[n := e]), Pended, [], true)
  }

  // ---- seals, certificates, directives, floors ----

  function SealItem(s: Stream): Stream { if s.head.seal == Open then SealFork(s) else s }

  /** The largest number of a set, or 0. */
  function MaxOf(ns: set<nat>): (m: nat)
    ensures ns == {} ==> m == 0
    ensures ns != {} ==> m in ns
    ensures forall n | n in ns :: n <= m
  {
    if ns == {} then 0
    else
      MaxExists(ns);
      var m :| m in ns && Largest(ns, m);
      m
  }

  predicate Largest(ns: set<nat>, m: nat) { m in ns && forall n | n in ns :: n <= m }

  lemma {:induction false} MaxExists(ns: set<nat>)
    requires ns != {}
    ensures exists m :: Largest(ns, m)
    decreases |ns|
  {
    var a :| a in ns;
    var rest := ns - {a};
    if rest == {} {
      assert forall n | n in ns :: n !in rest;
      assert Largest(ns, a);
    } else {
      MaxExists(rest);
      var m :| Largest(rest, m);
      LargerOf(ns, a, m);
    }
  }

  lemma LargerOf(ns: set<nat>, a: nat, m: nat)
    requires a in ns && Largest(ns - {a}, m)
    ensures Largest(ns, if a < m then m else a)
  {
    forall n | n in ns
      ensures n <= m || n == a
    {
      if n != a { assert n in ns - {a}; }
    }
  }

  /** The last seq of a stream at or before a place in the total order, or 0. */
  function LastCovered(rows: Rows, p: Order): (m: nat)
    ensures forall n | n in rows && OrderCompare(OrderOf(rows[n]), p) <= 0 :: n <= m
    ensures m > 0 ==> m in rows && OrderCompare(OrderOf(rows[m]), p) <= 0
  {
    var ns := set n | n in rows && OrderCompare(OrderOf(rows[n]), p) <= 0 :: n;
    assert forall n | n in rows && OrderCompare(OrderOf(rows[n]), p) <= 0 :: n in ns;
    MaxOf(ns)
  }

  /** A higher certificate: rows at or before the watermark but beyond the cut go, with all that chains from them. */
  function ApplyCert(id: StreamId, s: Stream, cert: Cert): Stream
  {
    var cut := Cover(cert, id.writer);
    if LastCovered(s.rows, cert.order) > cut then
      var d := Displace(s, cut + 1);
      var chain :=
        if cut == 0 then SeedOf(id)
        else if cut in s.rows then s.rows[cut].chain
        else if id.writer in cert.cut then cert.cut[id.writer].chain
        else Foreign("");
      d.(head := s.head.(contigSeq := cut, contigChain := chain, seal := if s.head.seal == Open then Fork else s.head.seal))
    else if cut > 0 && s.head.contigSeq >= cut && cut in s.rows && s.rows[cut].chain != cert.cut[id.writer].chain
            && s.head.seal == Open then SealFork(s)
    else s
  }

  /** The chain held at a seq, for comparison with a canonical one. */
  function ChainAt(id: StreamId, h: Head, rows: Rows, n: nat): Option<Chain>
  {
    if n == 0 then Some(SeedOf(id))
    else if n == h.contigSeq then Some(h.contigChain)
    else if n in rows then Some(rows[n].chain)
    else None
  }

  function FinalOf(d: Directive): Mark
  {
    Mark(if d.finalSeq.Some? then d.finalSeq.value else 0, if d.finalChain.Some? then d.finalChain.value else SeedOf(d.stream))
  }

  predicate HoldsCanonical(id: StreamId, s: Stream, final: Mark)
  {
    s.head.contigSeq >= final.seqNo && ChainAt(id, s.head, s.rows, final.seqNo) == Some(final.chain)
  }

  /** A retiring directive: retire at the canonical end if it is held, else seal and start recovery. */
  function TakeUp(id: StreamId, s: Stream, final: Mark, rgen: nat): (Stream, DirectiveResult)
  {
    if HoldsCanonical(id, s, final) then
      (Displace(s, final.seqNo + 1).(head := Head(final.seqNo, final.chain, Retired, rgen, Some(final)), target := None),
       DirectiveApplied)
    else
      (s.(head := if s.head.seal == Open then s.head.(seal := Fork) else s.head, target := Some(Target(final, rgen))),
       Recovering)
  }

  /** A writer directive; the highest rgen wins. */
  function ApplyDirective(id: StreamId, s: Stream, d: Directive): (Stream, DirectiveResult)
  {
    if d.rgen in s.directives && s.directives[d.rgen] != d then (s, Refused)
    else
      var s' := s.(directives := s.directives[d.rgen := d]);
      if d.rgen <= s.head.rgen && s.head.seal != Fork then (s', Stale)
      else if d.live then
        (if s.head.seal == Fork then (s', Refused)
         else (s'.(head := s.head.(seal := Open, rgen := d.rgen, final := None), target := None), DirectiveApplied))
      else TakeUp(id, s', FinalOf(d), d.rgen)
  }

  /** A floor is refused on a sealed stream that is not recovering, and past or against a recovery target. */
  predicate FloorBarred(h: Head, target: Option<Target>, floor: Mark)
  {
    match target
    case None => h.seal != Open
    case Some(t) => floor.seqNo > t.final.seqNo || (floor.seqNo == t.final.seqNo && floor.chain != t.final.chain)
  }

  /** The head moves to the floor, completing a recovery that ends there; pending rows it covers go. */
  function JumpToFloor(s: Stream, floor: Mark): Stream
  {
    var h := s.head.(contigSeq := floor.seqNo, contigChain := floor.chain);
    var done := s.target.Some? && floor.seqNo == s.target.value.final.seqNo;
    s.(head := if done then RetireAt(h, s.target.value) else h,
       target := if done then None else s.target,
       floor := RaiseFloor(s.floor, floor),
       pending := map n | n in s.pending && n > floor.seqNo :: s.pending[n])
  }

  /** The head jumps to a peer's retention floor. */
  function AdoptFloor(full: bool, id: StreamId, s: Stream, floor: Mark): (Stream, FloorResult, seq<Entry>)
  {
    if s.head.contigSeq >= floor.seqNo then (s, Noop, [])
    else if FloorBarred(s.head, s.target, floor) then (s, FloorRefused, [])
    else
      var s' := JumpToFloor(s, floor);
      if s'.head.seal == Open then (Drain(full, id, s'), Adopted, Drained(full, id, s')) else (s', Adopted, [])
  }

  /** floorSet never lowers a floor. */
  function RaiseFloor(was: Option<Mark>, floor: Mark): Option<Mark>
  {
    if was.Some? && floor.seqNo <= was.value.seqNo then was else Some(floor)
  }

  // ---- whole streams ----

  predicate At(id: StreamId, n: nat, e: Entry) { StreamOf(e) == id && e.body.seqNo == n && n > 0 }

  /** Rows are at exactly 1..contigSeq, each chained from the one before starting at the seed; the head is the last. */
  ghost predicate Whole(id: StreamId, s: Stream)
  {
    && Dense(s.rows, s.head.contigSeq) && RowsOk(id, s.rows)
    && (s.head.contigChain == if s.head.contigSeq == 0 then SeedOf(id) else s.rows[s.head.contigSeq].chain)
  }

  function ChainBefore(id: StreamId, rows: Rows, n: nat): Chain
  {
    if n <= 1 || n - 1 !in rows then SeedOf(id) else rows[n - 1].chain
  }

  /** A row stands at its own place in the stream, chained from the row before it. */
  ghost predicate RowOk(id: StreamId, rows: Rows, n: nat)
    requires n in rows
  {
    At(id, n, rows[n]) && rows[n].chain == ChainOf(ChainBefore(id, rows, n), rows[n])
  }

  ghost predicate RowsOk(id: StreamId, rows: Rows) { forall n | n in rows :: RowOk(id, rows, n) }

  ghost predicate Dense(rows: Rows, k: nat) { forall n :: n in rows <==> 1 <= n <= k }

  ghost predicate PendingOk(id: StreamId, s: Stream)
  {
    forall n | n in s.pending :: At(id, n, s.pending[n])
  }

  lemma EmptyIsWhole(id: StreamId)
    ensures Whole(id, EmptyStream(id)) && PendingOk(id, EmptyStream(id))
  {
  }

  /** A row is right as long as it and the row before it stay. */
  lemma RowStays(id: StreamId, rows: Rows, rows': Rows, n: nat)
    requires n in rows && n in rows' && rows[n] == rows'[n] && RowOk(id, rows, n)
    requires n > 1 ==> n - 1 in rows && n - 1 in rows' && rows[n - 1] == rows'[n - 1]
    ensures RowOk(id, rows', n)
  {
  }

  lemma NewRowOk(id: StreamId, s: Stream, e: Entry)
    requires Whole(id, s) && At(id, s.head.contigSeq + 1, e) && e.chain == ChainOf(PrevChain(id, s.head), e)
    ensures RowOk(id, s.rows[s.head.contigSeq + 1 := e], s.head.contigSeq + 1)
  {
    hide RowOk, At;
    var k := s.head.contigSeq;
    var rows := s.rows[k + 1 := e];
    assert k > 0 ==> k in s.rows;
    assert ChainBefore(id, rows, k + 1) == PrevChain(id, s.head);
    NewRow(id, rows, k + 1);
  }

  lemma NewRow(id: StreamId, rows: Rows, n: nat)
    requires n in rows && At(id, n, rows[n]) && rows[n].chain == ChainOf(ChainBefore(id, rows, n), rows[n])
    ensures RowOk(id, rows, n)
  {
  }

  lemma OldRowOk(id: StreamId, s: Stream, e: Entry, n: nat)
    requires Whole(id, s) && n in s.rows
    ensures RowOk(id, s.rows[s.head.contigSeq + 1 := e], n)
  {
    hide RowOk;
    RowStays(id, s.rows, s.rows[s.head.contigSeq + 1 := e], n);
  }

  lemma DenseMore(rows: Rows, k: nat, e: Entry)
    requires Dense(rows, k)
    ensures Dense(rows[k + 1 := e], k + 1)
  {
  }

  lemma MoreRowsOk(id: StreamId, s: Stream, e: Entry)
    requires Whole(id, s) && At(id, s.head.contigSeq + 1, e) && e.chain == ChainOf(PrevChain(id, s.head), e)
    ensures RowsOk(id, s.rows[s.head.contigSeq + 1 := e])
  {
    hide *;
    var rows := s.rows[s.head.contigSeq + 1 := e];
    forall n | n in rows
      ensures RowOk(id, rows, n)
    {
      if n == s.head.contigSeq + 1 { NewRowOk(id, s, e); } else { OldRowOk(id, s, e, n); }
    }
    AllRowsOk(id, rows);
  }

  lemma AllRowsOk(id: StreamId, rows: Rows)
    requires forall n | n in rows :: RowOk(id, rows, n)
    ensures RowsOk(id, rows)
  {
  }

  lemma AdvanceWhole(id: StreamId, s: Stream, e: Entry)
    requires Whole(id, s) && At(id, s.head.contigSeq + 1, e) && e.chain == ChainOf(PrevChain(id, s.head), e)
    ensures Whole(id, Advance(true, s, e))
  {
    hide RowsOk, Dense, PrevChain, ChainOf;
    DenseMore(s.rows, s.head.contigSeq, e);
    MoreRowsOk(id, s, e);
  }

  lemma {:induction false} DrainWhole(id: StreamId, s: Stream)
    requires Whole(id, s) && PendingOk(id, s)
    ensures Whole(id, Drain(true, id, s)) && PendingOk(id, Drain(true, id, s))
    decreases |s.pending|
  {
    hide Whole;
    var n := s.head.contigSeq + 1;
    if n in s.pending {
      var e, s' := s.pending[n], s.(pending := s.pending - {n});
      SameWhole(id, s, s');
      if Verifies(id, s', e) {
        AdvanceWhole(id, s', e);
        DrainWhole(id, Advance(true, s', e));
      } else {
        SameWhole(id, s', SealFork(s'));
      }
    }
  }

  /** Wholeness looks only at the rows and the head position. */
  lemma SameWhole(id: StreamId, s: Stream, t: Stream)
    requires Whole(id, s) && s.rows == t.rows
    requires s.head.contigSeq == t.head.contigSeq && s.head.contigChain == t.head.contigChain
    ensures Whole(id, t)
  {
  }

  /** Cutting a whole stream back to `k` and giving it the chain held there leaves a whole stream. */
  lemma CutWhole(id: StreamId, s: Stream, k: nat, t: Stream)
    requires Whole(id, s) && k <= s.head.contigSeq && t.rows == RowsBelow(s.rows, k + 1)
    requires t.head.contigSeq == k && t.head.contigChain == if k == 0 then SeedOf(id) else s.rows[k].chain
    ensures Whole(id, t)
  {
    hide RowOk;
    forall n | n in t.rows
      ensures RowOk(id, t.rows, n)
    {
      RowStays(id, s.rows, t.rows, n);
    }
  }

  lemma WholeHas(id: StreamId, s: Stream, k: nat)
    requires Whole(id, s) && 0 < k <= s.head.contigSeq
    ensures k in s.rows && At(id, k, s.rows[k])
  {
    assert RowOk(id, s.rows, k);
  }

  lemma RewindWhole(id: StreamId, s: Stream, n: nat)
    requires Whole(id, s) && 0 < n <= s.head.contigSeq
    ensures Whole(id, Rewind(id, s, n)) && Rewind(id, s, n).head.contigSeq == n - 1
  {
    hide Whole, RowsFrom, RowsBelow;
    if n > 1 { WholeHas(id, s, n - 1); }
    CutWhole(id, s, n - 1, Rewind(id, s, n));
  }

  lemma RecoveryIngestWhole(id: StreamId, s: Stream, e: Entry, t: Target)
    requires Whole(id, s) && PendingOk(id, s) && At(id, e.body.seqNo, e)
    ensures var s' := RecoveryIngest(true, id, s, e, t).stream; Whole(id, s') && PendingOk(id, s')
  {
    hide Whole, RowsFrom, RowsBelow, PendingOk, Rewind;
    var n := e.body.seqNo;
    var s' := if n <= s.head.contigSeq then Rewind(id, s, n) else s;
    if n <= s.head.contigSeq {
      RewindWhole(id, s, n);
      RewindPending(id, s, n);
    }
    if n == s'.head.contigSeq + 1 && ChainOf(PrevChain(id, s'.head), e) == e.chain {
      AdvanceWhole(id, s', e);
      var a := Advance(true, s', e);
      SameWhole(id, a, a.(head := RetireAt(a.head, t), target := None));
    }
    SamePending(id, s, RecoveryIngest(true, id, s, e, t).stream);
  }

  /** Draining only removes pending rows. */
  lemma {:induction false} DrainPendingOk(full: bool, id: StreamId, s: Stream)
    requires PendingOk(id, s)
    ensures PendingOk(id, Drain(full, id, s))
    decreases |s.pending|
  {
    hide Verifies;
    var n := s.head.contigSeq + 1;
    if n in s.pending {
      DrainPendingOk(full, id, Advance(full, s.(pending := s.pending - {n}), s.pending[n]));
    }
  }

  lemma RecoveryPending(full: bool, id: StreamId, s: Stream, e: Entry, t: Target)
    requires e.body.seqNo > 0
    ensures RecoveryIngest(full, id, s, e, t).stream.pending == s.pending
  {
    hide Rewind, RetireAt;
    RewindPending(id, s, e.body.seqNo);
  }

  lemma ExternalPendingOk(full: bool, cap: nat, cert: Option<Cert>, id: StreamId, s: Stream, e: Entry)
    requires PendingOk(id, s) && At(id, e.body.seqNo, e)
    ensures PendingOk(id, External(full, cap, cert, id, s, e).stream)
  {
    hide Drain, Drained, Verifies, PreFinality, RecoveryIngest;
    if s.head.seal != Open {
      if s.target.Some? { RecoveryPending(full, id, s, e, s.target.value); }
    } else if e.body.seqNo == s.head.contigSeq + 1 {
      DrainPendingOk(full, id, Advance(full, s, e));
    }
  }

  lemma RewindPending(id: StreamId, s: Stream, n: nat)
    requires n > 0
    ensures Rewind(id, s, n).pending == s.pending
  {
  }

  lemma SamePending(id: StreamId, s: Stream, t: Stream)
    requires PendingOk(id, s) && s.pending == t.pending
    ensures PendingOk(id, t)
  {
  }

  lemma ExternalWhole(cap: nat, cert: Option<Cert>, id: StreamId, s: Stream, e: Entry)
    requires Whole(id, s) && PendingOk(id, s) && At(id, e.body.seqNo, e)
    ensures var s' := External(true, cap, cert, id, s, e).stream; Whole(id, s') && PendingOk(id, s')
  {
    hide Whole;
    SameWhole(id, s, SealFork(s));
    if s.head.seal != Open {
      if s.target.Some? { RecoveryIngestWhole(id, s, e, s.target.value); }
    } else if e.body.seqNo == s.head.contigSeq + 1 {
      if Verifies(id, s, e) {
        AdvanceWhole(id, s, e);
        DrainWhole(id, Advance(true, s, e));
      }
    } else {
      SameWhole(id, s, s.(pending := s.pending[e.body.seqNo := e]));
    }
  }

  lemma LastCoveredHeld(id: StreamId, s: Stream, p: Order)
    requires Whole(id, s)
    ensures LastCovered(s.rows, p) <= s.head.contigSeq
  {
    assert LastCovered(s.rows, p) > 0 ==> LastCovered(s.rows, p) in s.rows;
  }

  lemma CertWhole(id: StreamId, s: Stream, cert: Cert)
    requires Whole(id, s) && PendingOk(id, s)
    ensures Whole(id, ApplyCert(id, s, cert)) && PendingOk(id, ApplyCert(id, s, cert))
  {
    hide Whole, PendingOk, RowsFrom, RowsBelow, LastCovered;
    var cut := Cover(cert, id.writer);
    SamePending(id, s, ApplyCert(id, s, cert));
    if LastCovered(s.rows, cert.order) > cut {
      LastCoveredHeld(id, s, cert.order);
      if cut > 0 { WholeHas(id, s, cut); }
      CutWhole(id, s, cut, ApplyCert(id, s, cert));
    } else {
      SameWhole(id, s, ApplyCert(id, s, cert));
    }
  }

  lemma DirectiveWhole(id: StreamId, s: Stream, d: Directive)
    requires Whole(id, s) && PendingOk(id, s)
    ensures var s' := ApplyDirective(id, s, d).0; Whole(id, s') && PendingOk(id, s')
  {
    hide Whole, PendingOk, RowsFrom, RowsBelow, FinalOf;
    var s' := ApplyDirective(id, s, d).0;
    SamePending(id, s, s');
    var final := FinalOf(d);
    if s'.rows == s.rows && s'.head.contigSeq == s.head.contigSeq && s'.head.contigChain == s.head.contigChain {
      SameWhole(id, s, s');
    } else {
      HeldCanonical(id, s, final);
      CutWhole(id, s, final.seqNo, s');
    }
  }

  /** What a whole stream holds at a canonical position is the canonical chain. */
  lemma HeldCanonical(id: StreamId, s: Stream, final: Mark)
    requires Whole(id, s) && HoldsCanonical(id, s, final)
    ensures final.seqNo <= s.head.contigSeq && (final.seqNo > 0 ==> final.seqNo in s.rows)
    ensures final.chain == if final.seqNo == 0 then SeedOf(id) else s.rows[final.seqNo].chain
  {
  }

  // ---- recovery to a canonical branch ----

  /** The entry of a branch at seq n. */
  function Nth(canon: seq<Entry>, n: nat): Entry
    requires 1 <= n <= |canon|
  {
    canon[n - 1]
  }

  /** The chain after the first n entries. */
  function CanonChain(id: StreamId, canon: seq<Entry>, n: nat): Chain
    requires n <= |canon|
  {
    if n == 0 then SeedOf(id) else Nth(canon, n).chain
  }

  ghost predicate CanonOk(id: StreamId, canon: seq<Entry>, n: nat)
    requires 1 <= n <= |canon|
  {
    At(id, n, Nth(canon, n)) && Nth(canon, n).chain == ChainOf(CanonChain(id, canon, n - 1), Nth(canon, n))
  }

  /** One branch of a stream: each entry at its place, chained from the one before, starting at the seed. */
  ghost predicate Canonical(id: StreamId, canon: seq<Entry>) { forall n: nat | 1 <= n <= |canon| :: CanonOk(id, canon, n) }

  function FinalMark(id: StreamId, canon: seq<Entry>): Mark { Mark(|canon|, CanonChain(id, canon, |canon|)) }

  ghost predicate Agrees(rows: Rows, canon: seq<Entry>, k: nat)
  {
    k <= |canon| && forall n: nat | 1 <= n <= k :: n in rows && rows[n] == Nth(canon, n)
  }

  /** The rows are exactly the first k entries. */
  ghost predicate HoldsExactly(rows: Rows, canon: seq<Entry>, k: nat) { Agrees(rows, canon, k) && Dense(rows, k) }

  /** Every row of `s` is still held by `t`, or in its quarantine. */
  ghost predicate NothingLost(s: Stream, t: Stream)
  {
    forall n | n in s.rows :: (n in t.rows && t.rows[n] == s.rows[n]) || (n in t.quarantine && t.quarantine[n] == s.rows[n])
  }

  ghost predicate CanonicalAtEnd(id: StreamId, s: Stream, canon: seq<Entry>) { HoldsCanonical(id, s, FinalMark(id, canon)) }

  /** Two entries at one place with one chain are one entry: the chain covers all that is in them. */
  lemma SameChainSameEntry(id: StreamId, n: nat, a: Entry, b: Entry, p: Chain, q: Chain)
    requires At(id, n, a) && At(id, n, b) && a.chain == ChainOf(p, a) && b.chain == ChainOf(q, b) && a.chain == b.chain
    ensures a == b && p == q
  {
  }

  /** A row with the canonical chain is the canonical entry, and so is the row before it. */
  lemma CanonicalRow(id: StreamId, s: Stream, canon: seq<Entry>, n: nat)
    requires Whole(id, s) && Canonical(id, canon) && 1 <= n <= |canon| && n <= s.head.contigSeq
    requires n in s.rows && s.rows[n].chain == Nth(canon, n).chain
    ensures s.rows[n] == Nth(canon, n)
    ensures n > 1 ==> n - 1 in s.rows && s.rows[n - 1].chain == Nth(canon, n - 1).chain
  {
    assert CanonOk(id, canon, n) && RowOk(id, s.rows, n);
    if n > 1 { WholeHas(id, s, n - 1); }
    hide Whole, Canonical;
    SameChainSameEntry(id, n, s.rows[n], Nth(canon, n), ChainBefore(id, s.rows, n), CanonChain(id, canon, n - 1));
  }

  lemma AgreesMore(rows: Rows, canon: seq<Entry>, k: nat)
    requires Agrees(rows, canon, k) && k < |canon| && k + 1 in rows && rows[k + 1] == Nth(canon, k + 1)
    ensures Agrees(rows, canon, k + 1)
  {
  }

  /** A whole stream that holds the chain of the k-th canonical entry holds the first k. */
  lemma {:induction false} HoldsCanonicalRows(id: StreamId, s: Stream, canon: seq<Entry>, k: nat)
    requires Whole(id, s) && Canonical(id, canon) && k <= |canon| && k <= s.head.contigSeq
    requires k > 0 ==> k in s.rows && s.rows[k].chain == Nth(canon, k).chain
    ensures Agrees(s.rows, canon, k)
  {
    hide Whole, Canonical, Nth;
    if k > 0 {
      CanonicalRow(id, s, canon, k);
      HoldsCanonicalRows(id, s, canon, k - 1);
      hide Agrees;
      AgreesMore(s.rows, canon, k - 1);
    }
  }
}
