/**
  Fork recovery (src/log.ts:932-1013, 1382-1441): a retiring directive names the canonical end of a
  stream; delivering the canonical entries in order turns whatever the node held into exactly them.
*/
module Recovery {
  import opened HlcClock
  import opened Entries
  import opened Streams

  lemma CanonPlace(id: StreamId, canon: seq<Entry>, n: nat)
    requires Canonical(id, canon) && 1 <= n <= |canon|
    ensures At(id, n, Nth(canon, n)) && Nth(canon, n).chain == ChainOf(CanonChain(id, canon, n - 1), Nth(canon, n))
  {
    assert CanonOk(id, canon, n);
  }

  /** Deliver the first k canonical entries from the wire, in order. */
  ghost function Deliver(cap: nat, cert: Option<Cert>, id: StreamId, s: Stream, canon: seq<Entry>, k: nat): Stream
    requires Canonical(id, canon) && k <= |canon|
  {
    if k == 0 then s
    else
      CanonPlace(id, canon, k);
      External(true, cap, cert, id, Deliver(cap, cert, id, s, canon, k - 1), Nth(canon, k)).stream
  }

  /** A recovering stream is sealed, and does not hold the end it is heading for. */
  ghost predicate TargetOk(id: StreamId, s: Stream)
  {
    s.target.Some? ==> s.head.seal != Open && !HoldsCanonical(id, s, s.target.value.final)
  }

  /** A whole stream recovering towards the end of this branch. */
  ghost predicate Begun(id: StreamId, s: Stream, canon: seq<Entry>, rgen: nat)
  {
    Whole(id, s) && TargetOk(id, s) && s.target == Some(Target(FinalMark(id, canon), rgen))
  }

  /** After the first k canonical entries: untouched so far, or rewound to exactly them. */
  ghost predicate Underway(id: StreamId, s0: Stream, s: Stream, canon: seq<Entry>, rgen: nat, k: nat)
  {
    && Begun(id, s, canon, rgen) && k <= s.head.contigSeq && Agrees(s.rows, canon, k)
    && (s == s0 || s.head.contigSeq == k) && NothingLost(s0, s)
  }

  /** Retired at the canonical end, holding exactly the canonical rows, and no row gone without a trace. */
  ghost predicate Retirement(id: StreamId, s0: Stream, t: Stream, canon: seq<Entry>, rgen: nat)
  {
    var final := FinalMark(id, canon);
    && t.head == Head(final.seqNo, final.chain, Retired, rgen, Some(final)) && t.target == None
    && HoldsExactly(t.rows, canon, |canon|) && NothingLost(s0, t)
  }

  /** The local row agrees: nothing to do yet. */
  lemma StepAgrees(id: StreamId, s0: Stream, s: Stream, canon: seq<Entry>, rgen: nat, k: nat)
    requires Canonical(id, canon) && Underway(id, s0, s, canon, rgen, k) && k < |canon| && k < s.head.contigSeq
    requires k + 1 in s.rows && s.rows[k + 1].chain == Nth(canon, k + 1).chain
    ensures k + 1 < |canon| && Underway(id, s0, s, canon, rgen, k + 1)
  {
    hide Whole, Canonical, Agrees, NothingLost;
    CanonicalRow(id, s, canon, k + 1);
    AgreesMore(s.rows, canon, k);
    if k + 1 == |canon| {
      EndHeld(id, s, canon);
    }
  }

  lemma EndHeld(id: StreamId, s: Stream, canon: seq<Entry>)
    requires Whole(id, s) && 0 < |canon| <= s.head.contigSeq && |canon| in s.rows
    requires s.rows[|canon|].chain == Nth(canon, |canon|).chain
    ensures CanonicalAtEnd(id, s, canon)
  {
  }

  lemma DisplaceLosesNothing(id: StreamId, s: Stream, t: Stream, n: nat)
    requires Whole(id, s) && t.rows == RowsBelow(s.rows, n)
    requires t.quarantine == s.quarantine + RowsFrom(s.rows, n, s.head.contigSeq)
    ensures NothingLost(s, t)
  {
    forall m | m in s.rows
      ensures (m in t.rows && t.rows[m] == s.rows[m]) || (m in t.quarantine && t.quarantine[m] == s.rows[m])
    {
      hide RowsOk;
      assert 1 <= m <= s.head.contigSeq;
      if m >= n { assert m in RowsFrom(s.rows, n, s.head.contigSeq); }
    }
  }

  lemma RewindLosesNothing(id: StreamId, s: Stream, n: nat)
    requires Whole(id, s) && 0 < n <= s.head.contigSeq
    ensures NothingLost(s, Rewind(id, s, n))
  {
    hide Whole, RowsFrom, RowsBelow;
    DisplaceLosesNothing(id, s, Rewind(id, s, n), n);
  }

  lemma RewindAgrees(id: StreamId, s: Stream, canon: seq<Entry>, n: nat)
    requires n > 0 && Agrees(s.rows, canon, n - 1)
    ensures Agrees(Rewind(id, s, n).rows, canon, n - 1)
  {
  }

  lemma RewindKeeps(id: StreamId, s: Stream, n: nat)
    requires n > 0
    ensures Rewind(id, s, n).target == s.target && Rewind(id, s, n).head.seal == s.head.seal
  {
  }

  lemma NotAtEnd(id: StreamId, s: Stream, canon: seq<Entry>)
    requires s.head.contigSeq < |canon|
    ensures !CanonicalAtEnd(id, s, canon)
  {
  }

  /** The local row disagrees: rewound to just below it. */
  lemma StepRewinds(id: StreamId, s0: Stream, s: Stream, canon: seq<Entry>, rgen: nat, k: nat)
    requires Underway(id, s0, s, canon, rgen, k) && k < |canon| && k < s.head.contigSeq
    ensures Underway(id, s0, Rewind(id, s, k + 1), canon, rgen, k) && Rewind(id, s, k + 1).head.contigSeq == k
  {
    hide Whole, Agrees, NothingLost, Rewind, CanonicalAtEnd;
    RewindWhole(id, s, k + 1);
    RewindLosesNothing(id, s, k + 1);
    RewindAgrees(id, s, canon, k + 1);
    RewindKeeps(id, s, k + 1);
    NotAtEnd(id, Rewind(id, s, k + 1), canon);
  }

  lemma AdvanceLosesNothing(s0: Stream, s: Stream, e: Entry)
    requires NothingLost(s0, s) && e.body.seqNo !in s.rows
    ensures NothingLost(s0, Advance(true, s, e))
  {
  }

  lemma AdvanceAgrees(s: Stream, canon: seq<Entry>, k: nat)
    requires Agrees(s.rows, canon, k) && k < |canon| && Nth(canon, k + 1).body.seqNo == k + 1
    ensures Agrees(Advance(true, s, Nth(canon, k + 1)).rows, canon, k + 1)
  {
  }

  /** A whole stream that has exactly the first k canonical entries accepts the next one. */
  lemma NextVerifies(id: StreamId, s: Stream, canon: seq<Entry>, k: nat)
    requires Canonical(id, canon) && Whole(id, s) && Agrees(s.rows, canon, k) && s.head.contigSeq == k < |canon|
    ensures Nth(canon, k + 1).chain == ChainOf(PrevChain(id, s.head), Nth(canon, k + 1))
  {
    CanonPlace(id, canon, k + 1);
    assert s.head.contigChain == CanonChain(id, canon, k);
  }

  lemma StepAdvances(id: StreamId, s0: Stream, s: Stream, canon: seq<Entry>, rgen: nat, k: nat)
    requires Canonical(id, canon) && Underway(id, s0, s, canon, rgen, k) && k < |canon| && k == s.head.contigSeq
    ensures var t := Advance(true, s, Nth(canon, k + 1));
            && Whole(id, t) && Agrees(t.rows, canon, k + 1) && NothingLost(s0, t) && t.head.contigSeq == k + 1
            && t.head.contigChain == Nth(canon, k + 1).chain
  {
    hide Canonical, Agrees, NothingLost, CanonicalAtEnd, RowsOk;
    CanonPlace(id, canon, k + 1);
    NextVerifies(id, s, canon, k);
    assert k + 1 !in s.rows;
    hide Whole;
    AdvanceWhole(id, s, Nth(canon, k + 1));
    AdvanceLosesNothing(s0, s, Nth(canon, k + 1));
    AdvanceAgrees(s, canon, k);
  }

  /** The next canonical entry takes recovery one step further, or completes it. */
  lemma RecoveryStep(id: StreamId, s0: Stream, s: Stream, canon: seq<Entry>, rgen: nat, k: nat)
    requires Canonical(id, canon) && Underway(id, s0, s, canon, rgen, k) && k < |canon| && Nth(canon, k + 1).body.seqNo == k + 1
    ensures var t := RecoveryIngest(true, id, s, Nth(canon, k + 1), s.target.value).stream;
            if k + 1 < |canon| then Underway(id, s0, t, canon, rgen, k + 1) else Retirement(id, s0, t, canon, rgen)
  {
    hide Whole, Canonical, Agrees, NothingLost, CanonicalAtEnd, Rewind, Nth, HoldsExactly;
    var e := Nth(canon, k + 1);
    if k < s.head.contigSeq && k + 1 in s.rows && s.rows[k + 1].chain == e.chain {
      StepAgrees(id, s0, s, canon, rgen, k);
    } else {
      if k < s.head.contigSeq { StepRewinds(id, s0, s, canon, rgen, k); }
      var s' := if k < s.head.contigSeq then Rewind(id, s, k + 1) else s;
      NextVerifies(id, s', canon, k);
      StepAdvances(id, s0, s', canon, rgen, k);
      var a := Advance(true, s', e);
      if k + 1 < |canon| {
        NotAtEnd(id, a, canon);
      } else {
        Completes(id, s0, a, canon);
        SameLoss(s0, a, a.(head := RetireAt(a.head, s.target.value), target := None));
      }
    }
  }

  lemma Completes(id: StreamId, s0: Stream, a: Stream, canon: seq<Entry>)
    requires Whole(id, a) && Agrees(a.rows, canon, |canon|) && a.head.contigSeq == |canon|
    ensures HoldsExactly(a.rows, canon, |canon|)
  {
  }

  lemma SameLoss(s0: Stream, s: Stream, t: Stream)
    requires NothingLost(s0, s) && s.rows == t.rows && s.quarantine == t.quarantine
    ensures NothingLost(s0, t)
  {
  }

  lemma {:induction false} DeliveryUnderway(cap: nat, cert: Option<Cert>, id: StreamId, s: Stream, canon: seq<Entry>, rgen: nat, k: nat)
    requires Canonical(id, canon) && Begun(id, s, canon, rgen) && 0 < |canon| && k <= |canon|
    ensures var t := Deliver(cap, cert, id, s, canon, k);
            if k < |canon| then Underway(id, s, t, canon, rgen, k) else Retirement(id, s, t, canon, rgen)
  {
    hide Whole, Canonical, CanonicalAtEnd, RecoveryIngest, Retirement;
    if k == 0 {
    } else {
      CanonPlace(id, canon, k);
      DeliveryUnderway(cap, cert, id, s, canon, rgen, k - 1);
      RecoveryStep(id, s, Deliver(cap, cert, id, s, canon, k - 1), canon, rgen, k - 1);
    }
  }

  /**
    From any whole recovering stream, delivering the canonical entries in order retires it there, holding
    exactly the canonical rows, every displaced row in quarantine.
  */
  lemma RecoveryCompletes(cap: nat, cert: Option<Cert>, id: StreamId, s: Stream, canon: seq<Entry>, rgen: nat)
    requires Canonical(id, canon) && Begun(id, s, canon, rgen)
    ensures Retirement(id, s, Deliver(cap, cert, id, s, canon, |canon|), canon, rgen)
  {
    NonEmptyCanon(id, s, canon);
    hide *;
    DeliveryUnderway(cap, cert, id, s, canon, rgen, |canon|);
  }

  /** What a stream sealed and not recovering makes of entries: nothing. */
  lemma {:induction false} SealedIgnores(cap: nat, cert: Option<Cert>, id: StreamId, s: Stream, canon: seq<Entry>, k: nat)
    requires Canonical(id, canon) && k <= |canon| && s.head.seal != Open && s.target == None
    ensures Deliver(cap, cert, id, s, canon, k) == s
  {
    hide Canonical, RecoveryIngest, Drain, Drained, Verifies, PreFinality, Advance, Nth;
    if k > 0 {
      SealedIgnores(cap, cert, id, s, canon, k - 1);
      CanonPlace(id, canon, k);
    }
  }

  /** A retiring directive that finds the canonical end held retires the stream there and then. */
  lemma DirectiveRetires(id: StreamId, s: Stream, d: Directive, canon: seq<Entry>)
    requires Whole(id, s) && Canonical(id, canon) && d.stream == id && !d.live && FinalOf(d) == FinalMark(id, canon)
    requires ApplyDirective(id, s, d).1 == DirectiveApplied
    ensures Retirement(id, s, ApplyDirective(id, s, d).0, canon, d.rgen)
  {
    hide Whole, Canonical, RowsFrom, RowsBelow, FinalOf, Agrees, NothingLost, HoldsExactly, CanonChain;
    var final := FinalMark(id, canon);
    var t := ApplyDirective(id, s, d).0;
    HeldCanonical(id, s, final);
    CanonChainNth(id, canon);
    HoldsCanonicalRows(id, s, canon, |canon|);
    BelowAgrees(s.rows, canon);
    CutWhole(id, s, |canon|, t);
    Completes(id, s, t, canon);
    DisplaceLosesNothing(id, s, t, |canon| + 1);
  }

  lemma BelowAgrees(rows: Rows, canon: seq<Entry>)
    requires Agrees(rows, canon, |canon|)
    ensures Agrees(RowsBelow(rows, |canon| + 1), canon, |canon|)
  {
  }

  lemma CanonChainNth(id: StreamId, canon: seq<Entry>)
    ensures |canon| > 0 ==> CanonChain(id, canon, |canon|) == Nth(canon, |canon|).chain
  {
  }

  /** A retiring directive that does not find it begins recovery. */
  lemma DirectiveBegins(id: StreamId, s: Stream, d: Directive, canon: seq<Entry>)
    requires Whole(id, s) && !d.live && FinalOf(d) == FinalMark(id, canon)
    requires ApplyDirective(id, s, d).1 == Recovering
    ensures Begun(id, ApplyDirective(id, s, d).0, canon, d.rgen) && ApplyDirective(id, s, d).0.rows == s.rows
  {
    hide Whole, FinalOf, FinalMark;
    SameWhole(id, s, ApplyDirective(id, s, d).0);
  }

  /**
    Retirement converges: once a retiring directive naming the end of a canonical branch has been taken
    up, whatever the node held before, delivering the branch leaves the stream retired at its end,
    holding exactly the branch and having lost no row.
  */
  lemma RetirementConverges(cap: nat, cert: Option<Cert>, id: StreamId, s: Stream, d: Directive, canon: seq<Entry>)
    requires Whole(id, s) && Canonical(id, canon) && d.stream == id && !d.live && FinalOf(d) == FinalMark(id, canon)
    requires ApplyDirective(id, s, d).1 in {DirectiveApplied, Recovering}
    ensures Retirement(id, s, Deliver(cap, cert, id, ApplyDirective(id, s, d).0, canon, |canon|), canon, d.rgen)
  {
    hide Whole, Canonical, Deliver, FinalOf, ApplyDirective, CanonicalAtEnd, HoldsExactly, NothingLost;
    var t := ApplyDirective(id, s, d).0;
    if ApplyDirective(id, s, d).1 == DirectiveApplied {
      DirectiveRetires(id, s, d, canon);
      SealedIgnores(cap, cert, id, t, canon, |canon|);
    } else {
      DirectiveBegins(id, s, d, canon);
      RecoveryCompletes(cap, cert, id, t, canon, d.rgen);
      SameStart(s, t, Deliver(cap, cert, id, t, canon, |canon|));
    }
  }

  lemma SameStart(s: Stream, t: Stream, u: Stream)
    requires s.rows == t.rows && NothingLost(t, u)
    ensures NothingLost(s, u)
  {
  }

  lemma NonEmptyCanon(id: StreamId, s: Stream, canon: seq<Entry>)
    requires !CanonicalAtEnd(id, s, canon)
    ensures 0 < |canon|
  {
  }

  // ---- recovering streams stay recoverable ----

  lemma ExternalTarget(cap: nat, cert: Option<Cert>, id: StreamId, s: Stream, e: Entry)
    requires Whole(id, s) && TargetOk(id, s) && At(id, e.body.seqNo, e)
    ensures TargetOk(id, External(true, cap, cert, id, s, e).stream)
  {
    hide Whole, HoldsCanonical, Drained, Verifies, PreFinality, Drain;
    if s.head.seal == Open {
      if e.body.seqNo == s.head.contigSeq + 1 { DrainTarget(id, Advance(true, s, e)); }
    } else if s.target.Some? && e.body.seqNo <= s.target.value.final.seqNo {
      IngestTarget(id, s, e, s.target.value);
    }
  }

  /** Draining touches no recovery target. */
  lemma {:induction false} DrainTarget(id: StreamId, s: Stream)
    ensures Drain(true, id, s).target == s.target
    decreases |s.pending|
  {
    hide Verifies;
    var n := s.head.contigSeq + 1;
    if n in s.pending {
      DrainTarget(id, Advance(true, s.(pending := s.pending - {n}), s.pending[n]));
    }
  }

  lemma IngestTarget(id: StreamId, s: Stream, e: Entry, t: Target)
    requires Whole(id, s) && TargetOk(id, s) && s.head.seal != Open && s.target == Some(t)
    requires At(id, e.body.seqNo, e) && e.body.seqNo <= t.final.seqNo
    ensures TargetOk(id, RecoveryIngest(true, id, s, e, t).stream)
  {
    hide Whole, RowsFrom, RowsBelow;
    var n := e.body.seqNo;
    if n <= s.head.contigSeq {
      RewindWhole(id, s, n);
      RewindKeeps(id, s, n);
    }
    hide Rewind;
  }

  lemma CertTarget(id: StreamId, s: Stream, cert: Cert)
    requires Whole(id, s) && TargetOk(id, s)
    ensures TargetOk(id, ApplyCert(id, s, cert))
  {
    hide RowsOk, LastCovered, Cover, RowsFrom;
    LastCoveredHeld(id, s, cert.order);
  }

  lemma DirectiveTarget(id: StreamId, s: Stream, d: Directive)
    requires Whole(id, s) && TargetOk(id, s)
    ensures TargetOk(id, ApplyDirective(id, s, d).0)
  {
    hide Whole, FinalOf, Displace;
  }
}
