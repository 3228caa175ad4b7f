/**
  Finality certificates (src/finality.ts): the proposal projects a watermark onto every writer, and the
  chain of accepted certificates never goes back.
*/
module Finality {
  import opened HlcClock
  import opened Entries
  import opened Streams

  // ---- proposing ----

  /** maxOrderUpTo: the last place in the total order among rows stamped at or before a time. */
  method MaxOrderUpTo(log: seq<Entry>, cutoff: int) returns (p: Option<Order>)
    ensures p.None? <==> forall e | e in log :: e.body.hlc.l > cutoff
    ensures p.Some? ==> exists e :: e in log && e.body.hlc.l <= cutoff && OrderOf(e) == p.value
    ensures p.Some? ==> forall e | e in log && e.body.hlc.l <= cutoff :: OrderCompare(OrderOf(e), p.value) <= 0
  {
    p := None;
    var i := 0;
    while i < |log|
      invariant 0 <= i <= |log|
      invariant p.None? <==> forall e | e in log[..i] :: e.body.hlc.l > cutoff
      invariant p.Some? ==> exists e :: e in log[..i] && e.body.hlc.l <= cutoff && OrderOf(e) == p.value
      invariant p.Some? ==> forall e | e in log[..i] && e.body.hlc.l <= cutoff :: OrderCompare(OrderOf(e), p.value) <= 0
    {
      ghost var was := p;
      assert log[..i + 1] == log[..i] + [log[i]];
      if log[i].body.hlc.l <= cutoff && (p.None? || Before(p.value, OrderOf(log[i]))) {
        p := Some(OrderOf(log[i]));
        forall e | e in log[..i + 1] && e.body.hlc.l <= cutoff
          ensures OrderCompare(OrderOf(e), p.value) <= 0
        {
          OrderTotal(p.value, p.value);
          if e in log[..i] { AtOrBefore(OrderOf(e), was.value, p.value); }
        }
      } else if p.Some? {
        OrderTotal(p.value, OrderOf(log[i]));
      }
      i := i + 1;
    }
    assert log[..i] == log;
  }

  lemma AtOrBefore(a: Order, b: Order, c: Order)
    requires OrderCompare(a, b) <= 0 && OrderCompare(b, c) <= 0
    ensures OrderCompare(a, c) <= 0
  {
    OrderTotal(a, b);
    OrderTotal(b, c);
    if a != b && b != c { OrderTransitive(a, b, c); }
  }

  /** lastSeqAtOrBeforeOrder, with the chain of that row. */
  method LastMark(log: seq<Entry>, writer: string, p: Order) returns (m: Option<Mark>)
    ensures m.None? <==> forall e | e in log && e.writer == writer :: OrderCompare(OrderOf(e), p) > 0
    ensures m.Some? ==> exists e :: e in log && Projected(e, writer, p) && m.value == Mark(e.body.seqNo, e.chain)
    ensures m.Some? ==> forall e | e in log && Projected(e, writer, p) :: e.body.seqNo <= m.value.seqNo
  {
    m := None;
    var i := 0;
    while i < |log|
      invariant 0 <= i <= |log|
      invariant m.None? <==> forall e | e in log[..i] :: !Projected(e, writer, p)
      invariant m.Some? ==> exists e :: e in log[..i] && Projected(e, writer, p) && m.value == Mark(e.body.seqNo, e.chain)
      invariant m.Some? ==> forall e | e in log[..i] && Projected(e, writer, p) :: e.body.seqNo <= m.value.seqNo
    {
      assert log[..i + 1] == log[..i] + [log[i]];
      if Projected(log[i], writer, p) && (m.None? || log[i].body.seqNo > m.value.seqNo) {
        m := Some(Mark(log[i].body.seqNo, log[i].chain));
      }
      i := i + 1;
    }
    assert log[..i] == log;
  }

  /** A row of this writer at or before the watermark. */
  predicate Projected(e: Entry, writer: string, p: Order) { e.writer == writer && OrderCompare(OrderOf(e), p) <= 0 }

  /** The cut is the projection of the watermark: per writer, the last row at or before it and its chain. */
  ghost predicate Projection(log: seq<Entry>, p: Order, cut: map<string, Mark>)
  {
    forall w: string :: ProjectedWriter(log, p, w, if w in cut then Some(cut[w]) else None)
  }

  ghost predicate ProjectedWriter(log: seq<Entry>, p: Order, w: string, m: Option<Mark>)
  {
    match m
    case None => forall e | e in log :: !Projected(e, w, p)
    case Some(mark) =>
      && (exists e :: e in log && Projected(e, w, p) && mark == Mark(e.body.seqNo, e.chain))
      && forall e | e in log && Projected(e, w, p) :: e.body.seqNo <= mark.seqNo
  }

  /** Every row stamped at or before the cutoff is at or before the watermark, and the watermark is such a row. */
  ghost predicate Watermark(log: seq<Entry>, cutoff: int, p: Order)
  {
    && (exists e :: e in log && e.body.hlc.l <= cutoff && OrderOf(e) == p)
    && forall e | e in log && e.body.hlc.l <= cutoff :: OrderCompare(OrderOf(e), p) <= 0
  }

  function GenerationOf(existing: Option<Cert>): nat { if existing.Some? then existing.value.generation else 0 }

  /**
    proposeFinality over the rows of a topic, with every seq at least 1: nothing when no row is old
    enough or none is newer than the current watermark; otherwise the next generation, at the watermark,
    cut by its projection.
  */
  method ProposeFinality(topic: string, log: seq<Entry>, existing: Option<Cert>, cutoff: int) returns (r: Option<Cert>)
    requires forall e | e in log :: e.body.seqNo > 0
    ensures r.Some? ==>
              && r.value.topic == topic && r.value.generation == (if existing.Some? then existing.value.generation else 0) + 1
              && Watermark(log, cutoff, r.value.order) && Projection(log, r.value.order, r.value.cut)
              && (existing.Some? ==> Before(existing.value.order, r.value.order))
    ensures r.None? <==> (forall e | e in log && e.body.hlc.l <= cutoff ::
                            existing.Some? && OrderCompare(OrderOf(e), existing.value.order) <= 0)
  {
    var p := MaxOrderUpTo(log, cutoff);
    if p.None? { return None; }
    if existing.Some? {
      OrderTotal(p.value, existing.value.order);
      if OrderCompare(p.value, existing.value.order) <= 0 {
        forall e | e in log && e.body.hlc.l <= cutoff
          ensures OrderCompare(OrderOf(e), existing.value.order) <= 0
        {
          AtOrBefore(OrderOf(e), p.value, existing.value.order);
        }
        return None;
      }
    }
    var cut: map<string, Mark> := map[];
    var todo := set e | e in log :: e.writer;
    while todo != {}
      invariant forall w: string ::
        if w in todo then w !in cut else ProjectedWriter(log, p.value, w, if w in cut then Some(cut[w]) else None)
    {
      var w :| w in todo;
      todo := todo - {w};
      var m := LastMark(log, w, p.value);
      if m.Some? { cut := cut[w := m.value]; }
    }
    r := Some(Cert(topic, p.value, cut, GenerationOf(existing) + 1));
  }

  /** A stream's rows are the topic's rows of its writer. */
  ghost predicate RowsOfWriter(log: seq<Entry>, id: StreamId, rows: Rows)
  {
    && (forall n | n in rows :: rows[n] in log && At(id, n, rows[n]))
    && (forall e | e in log && e.writer == id.writer :: e.body.seqNo in rows && rows[e.body.seqNo] == e)
  }

  /** At the node that proposed it, a certificate leaves every stream as it is. */
  lemma ProposalSweepsNothing(id: StreamId, s: Stream, log: seq<Entry>, cert: Cert)
    requires RowsOfWriter(log, id, s.rows) && Projection(log, cert.order, cert.cut)
    ensures ApplyCert(id, s, cert) == s
  {
    hide RowsFrom, RowsBelow;
    var w := id.writer;
    assert ProjectedWriter(log, cert.order, w, if w in cert.cut then Some(cert.cut[w]) else None);
    CoveredRowProjected(id, s.rows, log, cert.order);
    if w in cert.cut {
      var e :| e in log && Projected(e, w, cert.order) && cert.cut[w] == Mark(e.body.seqNo, e.chain);
      assert e.body.seqNo in s.rows && s.rows[e.body.seqNo] == e;
    }
  }

  /** The last covered row of a stream is a projected row of the log. */
  lemma CoveredRowProjected(id: StreamId, rows: Rows, log: seq<Entry>, p: Order)
    requires RowsOfWriter(log, id, rows)
    ensures var n := LastCovered(rows, p);
            n > 0 ==> n in rows && rows[n] in log && Projected(rows[n], id.writer, p) && rows[n].body.seqNo == n
  {
    var n := LastCovered(rows, p);
    if n > 0 { assert At(id, n, rows[n]); }
  }

  // ---- accepting ----

  datatype Verdict = Accept | DuplicateCert | StaleCert | Bad

  /** A certificate as it arrives: what finality is about, who signed, whether the signature checks, and the rest. */
  datatype Offer = Offer(cert: Cert, authority: string, verified: bool, rest: string)

  /** verifyAndClassify, on a topic whose policy names `authority`; the offer held now is the last one accepted. */
  function Classify(authority: Option<string>, o: Offer, held: Option<Offer>): Verdict
  {
    if authority != Some(o.authority) || !o.verified then Bad
    else if held.None? then Accept
    else if o.cert.generation < held.value.cert.generation then StaleCert
    else if o.cert.generation == held.value.cert.generation then (if o == held.value then DuplicateCert else Bad)
    else if OrderCompare(o.cert.order, held.value.cert.order) < 0 then Bad
    else Accept
  }

  function AfterOffer(authority: Option<string>, o: Offer, held: Option<Offer>): Option<Offer>
  {
    if Classify(authority, o, held) == Accept then Some(o) else held
  }

  function AfterOffers(authority: Option<string>, os: seq<Offer>, held: Option<Offer>): Option<Offer>
  {
    if os == [] then held else AfterOffer(authority, os[|os| - 1], AfterOffers(authority, os[..|os| - 1], held))
  }

  /** Signed by the topic's authority. */
  predicate Signed(authority: Option<string>, o: Offer) { authority == Some(o.authority) && o.verified }

  /** Nothing is ever held but what was held at first and what the topic's authority signed; without an authority nothing changes. */
  lemma {:induction false} HeldIsSigned(authority: Option<string>, os: seq<Offer>, held: Option<Offer>)
    ensures var h := AfterOffers(authority, os, held); h == held || exists o :: o in os && h == Some(o) && Signed(authority, o)
    ensures authority == None ==> AfterOffers(authority, os, held) == held
  {
    if os != [] {
      var n := |os| - 1;
      HeldIsSigned(authority, os[..n], held);
      assert os[n] in os;
    }
  }

  /** Over any offers, one more changes what is held if and only if it is signed, of a higher generation, and its watermark is not behind. */
  lemma ChangesIff(authority: Option<string>, os: seq<Offer>, held: Option<Offer>, o: Offer)
    ensures var h, h' := AfterOffers(authority, os, held), AfterOffers(authority, os + [o], held);
            && (h' == h || h' == Some(o))
            && (h' != h <==> Signed(authority, o)
                             && (h.None? || (o.cert.generation > h.value.cert.generation && !Before(o.cert.order, h.value.cert.order))))
  {
    assert (os + [o])[..|os|] == os;
    var h := AfterOffers(authority, os, held);
    if h.Some? { OrderTotal(o.cert.order, h.value.cert.order); }
  }

  /** What is made of an offer: bad exactly when it is unsigned, contradicts the one held at its generation, or would take the watermark back. */
  lemma VerdictIff(authority: Option<string>, o: Offer, held: Option<Offer>)
    ensures var v, signed := Classify(authority, o, held), Signed(authority, o);
            && (v == DuplicateCert <==> signed && held == Some(o))
            && (v == StaleCert <==> signed && held.Some? && o.cert.generation < held.value.cert.generation)
            && (v == Bad <==> || !signed
                              || (held.Some? && o.cert.generation == held.value.cert.generation && held != Some(o))
                              || (held.Some? && o.cert.generation > held.value.cert.generation && Before(o.cert.order, held.value.cert.order)))
            && (v == Accept <==> AfterOffer(authority, o, held) != held)
  {
    if held.Some? { OrderTotal(o.cert.order, held.value.cert.order); }
  }

  /** No later than: generation and watermark both. */
  ghost predicate NotBefore(a: Option<Offer>, b: Option<Offer>)
  {
    a.None? || (b.Some? && a.value.cert.generation <= b.value.cert.generation
                && OrderCompare(a.value.cert.order, b.value.cert.order) <= 0
                && (a != b ==> a.value.cert.generation < b.value.cert.generation))
  }

  /** Whatever arrives in whatever order: the held watermark never goes back, and a change is a higher generation. */
  lemma {:induction false} WatermarkMonotone(authority: Option<string>, os: seq<Offer>, held: Option<Offer>, k: nat)
    requires k <= |os|
    ensures NotBefore(AfterOffers(authority, os[..k], held), AfterOffers(authority, os, held))
    decreases |os|
  {
    if k == |os| {
      assert os[..k] == os;
      var a := AfterOffers(authority, os, held);
      if a.Some? { OrderTotal(a.value.cert.order, a.value.cert.order); }
    } else {
      var n := |os| - 1;
      WatermarkMonotone(authority, os[..n], held, k);
      assert os[..n][..k] == os[..k];
      var a, b, c := AfterOffers(authority, os[..k], held), AfterOffers(authority, os[..n], held), AfterOffers(authority, os, held);
      if b.Some? && b != c { OrderTotal(b.value.cert.order, c.value.cert.order); }
      if a.Some? && b != c { AtOrBefore(a.value.cert.order, b.value.cert.order, c.value.cert.order); }
    }
  }

  /** A proposal over the held certificate, once signed, is accepted. */
  lemma ProposalIsAccepted(authority: string, o: Offer, held: Option<Offer>)
    requires o.authority == authority && o.verified && o.cert.generation == GenerationOf(if held.Some? then Some(held.value.cert) else None) + 1
    requires held.Some? ==> Before(held.value.cert.order, o.cert.order)
    ensures AfterOffer(Some(authority), o, held) == Some(o)
  {
    if held.Some? { OrderTotal(held.value.cert.order, o.cert.order); }
  }
}
