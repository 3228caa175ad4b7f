/** The sync engine's answers and rounds (src/sync.ts): serving a WANT, completing one, and paged HAVE vectors. */
module Sync {
  import opened HlcClock
  import opened Entries
  import opened Streams
  import Replication

  const ENTRIES_BATCH_MAX: nat := 100

  // ---- WANT, responder side ----

  datatype Batch = Batch(fromSeq: nat, toSeq: nat, entries: seq<Entry>, last: bool)

  datatype Answer = Denied | Truncated(floor: Mark) | Batches(batches: seq<Batch>)

  /** entriesRange: the held rows of a range, in seq order. */
  function RangeList(rows: Rows, from: nat, upto: nat): seq<Entry>
    decreases upto
  {
    if upto < from then []
    else if upto == 0 then (if 0 in rows then [rows[0]] else [])
    else RangeList(rows, from, upto - 1) + if upto in rows then [rows[upto]] else []
  }

  function Sent(batches: seq<Batch>): seq<Entry>
  {
    if batches == [] then [] else Sent(batches[..|batches| - 1]) + batches[|batches| - 1].entries
  }

  /** Every row sits under its own seq. */
  ghost predicate Keyed(rows: Rows) { forall n | n in rows :: rows[n].body.seqNo == n && n > 0 }

  lemma {:induction false} RangeBounds(rows: Rows, from: nat, upto: nat)
    requires Keyed(rows)
    ensures forall i | 0 <= i < |RangeList(rows, from, upto)| ::
              var e := RangeList(rows, from, upto)[i];
              from <= e.body.seqNo <= upto && e.body.seqNo in rows && rows[e.body.seqNo] == e
    decreases upto
  {
    if upto >= from && upto > 0 { RangeBounds(rows, from, upto - 1); }
  }

  /** A range lists exactly the rows held there, by increasing seq. */
  lemma {:induction false} RangeHolds(rows: Rows, from: nat, upto: nat)
    requires Keyed(rows)
    ensures forall e :: e in RangeList(rows, from, upto) <==> from <= e.body.seqNo <= upto && e.body.seqNo in rows && rows[e.body.seqNo] == e
    ensures forall i, j | 0 <= i < j < |RangeList(rows, from, upto)| :: RangeList(rows, from, upto)[i].body.seqNo < RangeList(rows, from, upto)[j].body.seqNo
    decreases upto
  {
    if upto >= from && upto > 0 {
      RangeHolds(rows, from, upto - 1);
      RangeBounds(rows, from, upto - 1);
    }
  }

  /** The first n held rows of a range are the held rows up to the n-th of them. */
  lemma {:induction false} RangePrefix(rows: Rows, from: nat, upto: nat, n: nat)
    requires Keyed(rows) && 0 < n <= |RangeList(rows, from, upto)|
    ensures RangeList(rows, from, upto)[..n] == RangeList(rows, from, RangeList(rows, from, upto)[n - 1].body.seqNo)
    decreases upto
  {
    var all := RangeList(rows, from, upto);
    RangeBounds(rows, from, upto);
    if n == |all| && upto in rows {
      assert all[n - 1] == rows[upto];
      assert all[..n] == all;
    } else {
      RangePrefix(rows, from, upto - 1, n);
      var fewer := RangeList(rows, from, upto - 1);
      assert all[..n] == fewer[..n] && all[n - 1] == fewer[n - 1];
    }
  }

  lemma {:induction false} RangeSplit(rows: Rows, from: nat, mid: nat, upto: nat)
    requires from <= mid + 1 && mid <= upto
    ensures RangeList(rows, from, mid) + RangeList(rows, mid + 1, upto) == RangeList(rows, from, upto)
    decreases upto
  {
    if upto > mid {
      RangeSplit(rows, from, mid, upto - 1);
    }
  }

  function Bytes(es: seq<Entry>, cost: Entry -> nat): nat
  {
    if es == [] then 0 else Bytes(es[..|es| - 1], cost) + cost(es[|es| - 1])
  }

  /** The bytes of some rows are those of each, added up. */
  lemma {:induction false} BytesAdd(es: seq<Entry>, fs: seq<Entry>, cost: Entry -> nat)
    ensures Bytes(es + fs, cost) == Bytes(es, cost) + Bytes(fs, cost) && (|es| == 1 ==> Bytes(es, cost) == cost(es[0]))
  {
    if fs == [] {
      assert es + fs == es;
    } else {
      BytesAdd(es, fs[..|fs| - 1], cost);
      assert (es + fs)[..|es + fs| - 1] == es + fs[..|fs| - 1];
    }
    if |es| == 1 { assert es[..0] == []; }
  }

  /** How many rows of a page fit: at least one, then as many as the byte budget allows, and no fewer. */
  method FitBatch(page: seq<Entry>, budget: nat, cost: Entry -> nat) returns (n: nat)
    requires page != []
    ensures 0 < n <= |page|
    ensures n > 1 ==> Bytes(page[..n], cost) <= budget
    ensures n < |page| ==> Bytes(page[..n + 1], cost) > budget
  {
    n := 0;
    var bytes := 0;
    while n < |page|
      invariant n <= |page| && bytes == Bytes(page[..n], cost)
      invariant n > 1 ==> bytes <= budget
    {
      assert page[..n + 1][..n] == page[..n];
      if n > 0 && bytes + cost(page[n]) > budget { return; }
      bytes := bytes + cost(page[n]);
      n := n + 1;
    }
  }

  function LastSeq(b: Batch): nat
    requires b.entries != []
  {
    b.entries[|b.entries| - 1].body.seqNo
  }

  /** A batch within the byte budget, unless one row alone exceeds it, and marked last exactly when it reaches the head. */
  predicate BatchOk(b: Batch, toSeq: nat, budget: nat, cost: Entry -> nat)
  {
    && b.entries != [] && b.toSeq == toSeq && (b.last <==> LastSeq(b) >= toSeq)
    && (|b.entries| > 1 ==> Bytes(b.entries, cost) <= budget)
  }

  /** Each batch starts just past the last row of the one before. */
  predicate Tiled(batches: seq<Batch>, fromSeq: nat)
  {
    && (forall i | 0 <= i < |batches| :: batches[i].entries != [])
    && (batches != [] ==> batches[0].fromSeq == fromSeq)
    && forall i | 0 < i < |batches| :: batches[i].fromSeq == LastSeq(batches[i - 1]) + 1
  }

  predicate Reaches(batches: seq<Batch>, fromSeq: nat, from: nat)
  {
    Tiled(batches, fromSeq) && from == if batches == [] then fromSeq else LastSeq(batches[|batches| - 1]) + 1
  }

  lemma NextTile(batches: seq<Batch>, fromSeq: nat, b: Batch)
    requires b.entries != []
    ensures Reaches(batches, fromSeq, b.fromSeq) ==> Reaches(batches + [b], fromSeq, LastSeq(b) + 1)
  {
  }

  lemma Tiles(batches: seq<Batch>, fromSeq: nat, from: nat)
    requires Reaches(batches, fromSeq, from)
    ensures Tiled(batches, fromSeq)
  {
  }

  lemma NoTiles(fromSeq: nat)
    ensures Reaches([], fromSeq, fromSeq)
  {
  }

  /** The next batch: the rows held from `from` on, up to its last row, as many as fit. */
  method NextBatch(rows: Rows, from: nat, toSeq: nat, page: seq<Entry>, budget: nat, cost: Entry -> nat) returns (b: Batch)
    requires Keyed(rows) && 0 < from <= toSeq && page != [] && page == RangeList(rows, from, Min(toSeq, from + ENTRIES_BATCH_MAX - 1))
    ensures BatchOk(b, toSeq, budget, cost) && b.entries != [] && b.fromSeq == from
    ensures from <= LastSeq(b) <= toSeq && b.entries == RangeList(rows, from, LastSeq(b))
    ensures b.entries <= page && (|b.entries| < |page| ==> Bytes(page[..|b.entries| + 1], cost) > budget)
  {
    hide RangeList, Bytes, Keyed;
    var n := FitBatch(page, budget, cost);
    var last := page[..n][n - 1].body.seqNo;
    RangeBounds(rows, from, Min(toSeq, from + ENTRIES_BATCH_MAX - 1));
    RangePrefix(rows, from, Min(toSeq, from + ENTRIES_BATCH_MAX - 1), n);
    b := Batch(from, toSeq, page[..n], last >= toSeq);
  }

  /** At or below the floor: the rows asked for are gone. */
  predicate BelowFloor(floor: Option<Mark>, fromSeq: nat) { floor.Some? && fromSeq <= floor.value.seqNo }

  /** The completion without rows. */
  function EmptyDone(fromSeq: nat, toSeq: nat): Answer { Batches([Batch(fromSeq, toSeq, [], true)]) }

  /**
    serveWant. A snapshot offer, or a floor a peer before proto 3 cannot be told of, is answered by an empty
    completion; at or below the floor anyone else gets TRUNCATED and nothing else. Otherwise the batches
    are, in order and without gaps or repeats, the rows held from `fromSeq` on up to where serving
    stopped: at the captured head, at a full lane, or at a hole wider than a page. The last batch is
    marked exactly when it reaches the head.
  */
  method ServeWant(rows: Rows, toSeq: nat, floor: Option<Mark>, fromSeq: nat, budget: nat, cost: Entry -> nat, accepts: nat -> bool,
                   proto: nat, offered: bool, mutualFull: bool)
    returns (a: Answer, ghost served: nat)
    requires Keyed(rows) && fromSeq > 0
    ensures a == Denied <==> !mutualFull
    ensures a.Truncated? <==> mutualFull && !offered && floor.Some? && fromSeq <= floor.value.seqNo && proto >= 3
    ensures a.Truncated? ==> a.floor == floor.value
    ensures mutualFull && offered ==> a == Batches([Batch(fromSeq, toSeq, [], true)])
    ensures mutualFull && floor.Some? && fromSeq <= floor.value.seqNo && proto < 3 ==> a == Batches([Batch(fromSeq, toSeq, [], true)])
    ensures mutualFull && !(floor.Some? && fromSeq <= floor.value.seqNo) && fromSeq > toSeq ==> a == Batches([Batch(fromSeq, toSeq, [], true)])
    ensures fromSeq <= toSeq ==> served <= toSeq
    ensures a.Batches? ==> served + 1 >= fromSeq && Sent(a.batches) == RangeList(rows, fromSeq, served)
    ensures mutualFull && !offered && !(floor.Some? && fromSeq <= floor.value.seqNo) && fromSeq <= toSeq ==>
              || served >= toSeq
              || !accepts(|a.batches|)
              || RangeList(rows, served + 1, Min(toSeq, served + ENTRIES_BATCH_MAX)) == []
    ensures mutualFull && !offered && !(floor.Some? && fromSeq <= floor.value.seqNo) && fromSeq <= toSeq ==>
              Tiled(a.batches, fromSeq) && forall i | 0 <= i < |a.batches| :: accepts(i) && BatchOk(a.batches[i], toSeq, budget, cost)
  {
    hide RangeList, BatchOk, Sent, Keyed, Tiled, Reaches, LastSeq;
    NoTiles(fromSeq);
    served := fromSeq - 1;
    NoneServed(rows, fromSeq);
    SentOneMore([], Batch(fromSeq, toSeq, [], true));
    assert [] + [Batch(fromSeq, toSeq, [], true)] == [Batch(fromSeq, toSeq, [], true)];
    if !mutualFull { return Denied, served; }
    if offered { return EmptyDone(fromSeq, toSeq), served; }
    if BelowFloor(floor, fromSeq) { return if proto >= 3 then Truncated(floor.value) else EmptyDone(fromSeq, toSeq), served; }
    if fromSeq > toSeq { return EmptyDone(fromSeq, toSeq), served; }
    var batches: seq<Batch> := [];
    var from := fromSeq;
    while from <= toSeq
      invariant fromSeq <= from <= toSeq + 1 && Sent(batches) == RangeList(rows, fromSeq, from - 1)
      invariant forall i | 0 <= i < |batches| :: accepts(i) && BatchOk(batches[i], toSeq, budget, cost)
      invariant Reaches(batches, fromSeq, from)
      decreases toSeq + 1 - from
    {
      var page := RangeList(rows, from, Min(toSeq, from + ENTRIES_BATCH_MAX - 1));
      Tiles(batches, fromSeq, from);
      if page == [] { return Batches(batches), from - 1; }
      var b := NextBatch(rows, from, toSeq, page, budget, cost);
      NextTile(batches, fromSeq, b);
      if !accepts(|batches|) { return Batches(batches), from - 1; }
      var last := LastSeq(b);
      RangeSplit(rows, fromSeq, from - 1, last);
      SentOneMore(batches, b);
      batches := batches + [b];
      from := last + 1;
    }
    Tiles(batches, fromSeq, from);
    return Batches(batches), from - 1;
  }

  lemma SentOneMore(batches: seq<Batch>, b: Batch)
    ensures Sent(batches + [b]) == Sent(batches) + b.entries
  {
    assert (batches + [b])[..|batches|] == batches;
  }

  lemma NoneServed(rows: Rows, fromSeq: nat)
    requires fromSeq > 0
    ensures RangeList(rows, fromSeq, fromSeq - 1) == [] == Sent([])
  {
  }

  /** Where every row above the floor is held, what is served is exactly the author's rows, none missing. */
  lemma {:induction false} ServesTheBranch(rows: Rows, h: seq<Entry>, from: nat, upto: nat)
    requires from > 0 && upto <= |h| && forall n: nat | from <= n <= upto :: n in rows && rows[n] == Nth(h, n)
    ensures upto + 1 >= from ==> |RangeList(rows, from, upto)| == upto + 1 - from
    ensures upto + 1 >= from ==> forall i | 0 <= i < upto + 1 - from :: RangeList(rows, from, upto)[i] == Nth(h, from + i)
    decreases upto
  {
    if upto >= from { ServesTheBranch(rows, h, from, upto - 1); }
  }

  // ---- WANT, requester side ----

  /** The stream after the entries of a round, in order. */
  function AfterRound(full: bool, cap: nat, id: StreamId, s: Stream, es: seq<Entry>): Stream
    requires forall e | e in es :: e.body.seqNo > 0
  {
    if es == [] then s else External(full, cap, None, id, AfterRound(full, cap, id, s, es[..|es| - 1]), es[|es| - 1]).stream
  }

  lemma {:induction false} DrainForward(full: bool, id: StreamId, s: Stream)
    requires forall n | n in s.pending :: s.pending[n].body.seqNo == n
    ensures Drain(full, id, s).head.contigSeq >= s.head.contigSeq
    decreases |s.pending|
  {
    hide Verifies;
    var n := s.head.contigSeq + 1;
    if n in s.pending {
      DrainForward(full, id, Advance(full, s.(pending := s.pending - {n}), s.pending[n]));
    }
  }

  /** One entry of the branch, next in line or already covered, leaves the head at or past it. */
  lemma EntryAdvances(full: bool, cap: nat, id: StreamId, h: seq<Entry>, s: Stream, k: nat)
    requires Canonical(id, h) && Replication.HlcOrdered(h) && Replication.Tracks(id, h, s)
    requires 1 <= k <= |h| && s.head.contigSeq >= k - 1 && Nth(h, k).body.seqNo == k
    ensures var t := External(full, cap, None, id, s, Nth(h, k)).stream;
            Replication.Tracks(id, h, t) && t.head.contigSeq >= k
  {
    hide Canonical, Replication.HlcOrdered, Verifies, Drain, Drained, RecoveryIngest, Nth, Replication.OnMark;
    Replication.ExternalTracks(full, cap, id, h, s, Nth(h, k));
    if s.head.contigSeq == k - 1 {
      Replication.OnBranchNext(id, h, s, Nth(h, k));
      PendingSeqs(id, h, s);
      DrainForward(full, id, Advance(full, s, Nth(h, k)));
    }
  }

  lemma PendingSeqs(id: StreamId, h: seq<Entry>, s: Stream)
    requires Canonical(id, h) && Replication.Tracks(id, h, s)
    ensures forall n | n in s.pending :: s.pending[n].body.seqNo == n
  {
    forall n | n in s.pending
      ensures s.pending[n].body.seqNo == n
    {
      assert CanonOk(id, h, n);
    }
  }

  /**
    A complete WANT round catches the requester up: from a copy that follows the author, the rows after
    its head, delivered in order, bring the head to the end of the round at least.
  */
  lemma {:induction false} RoundCatchesUp(full: bool, cap: nat, id: StreamId, h: seq<Entry>, s: Stream, es: seq<Entry>)
    requires Canonical(id, h) && Replication.HlcOrdered(h) && Replication.Tracks(id, h, s)
    requires s.head.contigSeq + |es| <= |h|
    requires forall i | 0 <= i < |es| :: es[i] == Nth(h, s.head.contigSeq + 1 + i) && es[i].body.seqNo == s.head.contigSeq + 1 + i
    ensures var t := AfterRound(full, cap, id, s, es);
            Replication.Tracks(id, h, t) && t.head.contigSeq >= s.head.contigSeq + |es|
  {
    hide Canonical, Replication.HlcOrdered, Replication.Tracks, External, Nth;
    if es != [] {
      var k := |es| - 1;
      RoundCatchesUp(full, cap, id, h, s, es[..k]);
      assert es[k] == Nth(h, s.head.contigSeq + 1 + k) && es[k].body.seqNo == s.head.contigSeq + 1 + k;
      EntryAdvances(full, cap, id, h, AfterRound(full, cap, id, s, es[..k]), s.head.contigSeq + 1 + k);
    }
  }

  // ---- paged HAVE vectors ----

  /** What a vector says of one stream: a live head or a tombstone, with its rgen. */
  datatype StreamVec = Live(contig: nat, chain: Chain, rgen: nat) | Tombstone(finalSeq: nat, finalChain: Chain, rgen: nat)

  datatype TopicVec = TopicVec(fgen: Option<nat>, writers: map<string, StreamVec>)

  type Vectors = map<string, TopicVec>

  function TopicOf(v: Vectors, t: string): TopicVec { if t in v then v[t] else TopicVec(None, map[]) }

  function WithFgen(v: TopicVec, fgen: Option<nat>): TopicVec { if fgen.Some? then v.(fgen := fgen) else v }

  /** The topic appears, with its certificate generation if there is one. */
  function PutTopic(v: Vectors, t: string, fgen: Option<nat>): Vectors { v[t := WithFgen(TopicOf(v, t), fgen)] }

  function WithStream(v: TopicVec, fgen: Option<nat>, w: string, s: StreamVec): TopicVec
  {
    WithFgen(v, fgen).(writers := v.writers[w := s])
  }

  function PutStream(v: Vectors, t: string, fgen: Option<nat>, w: string, s: StreamVec): Vectors
  {
    v[t := WithStream(TopicOf(v, t), fgen, w, s)]
  }

  /** What a page adds to a topic. */
  function Both(a: TopicVec, b: TopicVec): TopicVec { TopicVec(WithFgen(a, b.fgen).fgen, a.writers + b.writers) }

  /** Merge a page into what has been merged so far, topic by topic. */
  function Overlay(a: Vectors, b: Vectors): Vectors { map t | t in a.Keys + b.Keys :: Both(TopicOf(a, t), TopicOf(b, t)) }

  function Merge(pages: seq<Vectors>): Vectors
  {
    if pages == [] then map[] else Overlay(Merge(pages[..|pages| - 1]), pages[|pages| - 1])
  }

  lemma SameVectors(l: Vectors, r: Vectors)
    requires l.Keys == r.Keys && forall t | t in l :: TopicOf(l, t) == TopicOf(r, t)
    ensures l == r
  {
    assert forall t | t in l :: l[t] == r[t] by {
      forall t | t in l ensures l[t] == r[t] { assert TopicOf(l, t) == TopicOf(r, t); }
    }
  }

  lemma BothFgen(a: TopicVec, b: TopicVec, fgen: Option<nat>)
    ensures Both(a, WithFgen(b, fgen)) == WithFgen(Both(a, b), fgen)
  {
  }

  lemma BothStream(a: TopicVec, b: TopicVec, fgen: Option<nat>, w: string, s: StreamVec)
    ensures Both(a, WithStream(b, fgen, w, s)) == WithStream(Both(a, b), fgen, w, s)
  {
    assert a.writers + b.writers[w := s] == (a.writers + b.writers)[w := s];
  }

  lemma AtOverlay(a: Vectors, b: Vectors, t: string)
    ensures TopicOf(Overlay(a, b), t) == Both(TopicOf(a, t), TopicOf(b, t))
  {
    if t !in a && t !in b {
      var none: map<string, StreamVec> := map[];
      assert none + none == none;
    }
  }

  lemma OverlayKeys(a: Vectors, b: Vectors)
    ensures Overlay(a, b).Keys == a.Keys + b.Keys
  {
  }

  lemma OverlayTopic(a: Vectors, b: Vectors, t: string, fgen: Option<nat>)
    ensures Overlay(a, PutTopic(b, t, fgen)) == PutTopic(Overlay(a, b), t, fgen)
  {
    hide Overlay, Both, WithFgen;
    var l, r := Overlay(a, PutTopic(b, t, fgen)), PutTopic(Overlay(a, b), t, fgen);
    OverlayKeys(a, b);
    OverlayKeys(a, PutTopic(b, t, fgen));
    forall u
      ensures TopicOf(l, u) == TopicOf(r, u)
    {
      AtOverlay(a, b, u);
      AtOverlay(a, PutTopic(b, t, fgen), u);
      BothFgen(TopicOf(a, t), TopicOf(b, t), fgen);
    }
    SameVectors(l, r);
  }

  lemma OverlayStream(a: Vectors, b: Vectors, t: string, fgen: Option<nat>, w: string, s: StreamVec)
    ensures Overlay(a, PutStream(b, t, fgen, w, s)) == PutStream(Overlay(a, b), t, fgen, w, s)
  {
    hide Overlay, Both, WithStream;
    var l, r := Overlay(a, PutStream(b, t, fgen, w, s)), PutStream(Overlay(a, b), t, fgen, w, s);
    OverlayKeys(a, b);
    OverlayKeys(a, PutStream(b, t, fgen, w, s));
    forall u
      ensures TopicOf(l, u) == TopicOf(r, u)
    {
      AtOverlay(a, b, u);
      AtOverlay(a, PutStream(b, t, fgen, w, s), u);
      BothStream(TopicOf(a, t), TopicOf(b, t), fgen, w, s);
    }
    SameVectors(l, r);
  }

  lemma OverlayEmpty(a: Vectors)
    ensures Overlay(a, map[]) == a
  {
    hide Overlay;
    OverlayKeys(a, map[]);
    forall t | t in a
      ensures TopicOf(Overlay(a, map[]), t) == TopicOf(a, t)
    {
      AtOverlay(a, map[], t);
      assert a[t].writers + map[] == a[t].writers;
    }
    SameVectors(Overlay(a, map[]), a);
  }

  /** Every fact of a page about a topic is a fact of the vectors. */
  ghost predicate PartTopic(p: TopicVec, v: TopicVec)
  {
    p.fgen == v.fgen && forall w | w in p.writers :: w in v.writers && p.writers[w] == v.writers[w]
  }

  ghost predicate Part(p: Vectors, v: Vectors) { forall t | t in p :: t in v && PartTopic(p[t], v[t]) }

  /** The bytes counted for these streams of the vectors. */
  function ListBytes(l: seq<(string, string)>, v: Vectors, cost: (string, string, StreamVec) -> nat): nat
    requires forall x | x in l :: x.0 in v && x.1 in v[x.0].writers
  {
    if l == [] then 0
    else
      var x := l[|l| - 1];
      ListBytes(l[..|l| - 1], v, cost) + cost(x.0, x.1, v[x.0].writers[x.1])
  }

  /** The streams of a page. */
  ghost predicate Lists(l: seq<(string, string)>, p: Vectors) { forall t, w :: (t, w) in l <==> t in p && w in p[t].writers }

  /** A page within the byte budget, unless one stream alone exceeds it. */
  ghost predicate PageOk(p: Vectors, l: seq<(string, string)>, v: Vectors, budget: nat, cost: (string, string, StreamVec) -> nat)
  {
    Part(p, v) && Lists(l, p) && (forall x | x in l :: x.0 in v && x.1 in v[x.0].writers) && (|l| > 1 ==> ListBytes(l, v, cost) <= budget)
  }

  lemma PageGrows(p: Vectors, l: seq<(string, string)>, v: Vectors, budget: nat, cost: (string, string, StreamVec) -> nat, t: string, w: string)
    requires PageOk(p, l, v, budget, cost) && t in v && w in v[t].writers
    requires l == [] || ListBytes(l, v, cost) + cost(t, w, v[t].writers[w]) <= budget
    ensures var p', l' := PutStream(p, t, v[t].fgen, w, v[t].writers[w]), l + [(t, w)];
            PageOk(p', l', v, budget, cost) && ListBytes(l', v, cost) == ListBytes(l, v, cost) + cost(t, w, v[t].writers[w])
  {
    var p', l' := PutStream(p, t, v[t].fgen, w, v[t].writers[w]), l + [(t, w)];
    assert l'[..|l'| - 1] == l;
    StreamPart(p, v, t, w);
    StreamListed(p, l, v, t, w);
    hide Part, Lists, PutStream;
    forall x | x in l'
      ensures x.0 in v && x.1 in v[x.0].writers
    {
      if x !in l { assert x == (t, w); }
    }
  }

  lemma StreamListed(p: Vectors, l: seq<(string, string)>, v: Vectors, t: string, w: string)
    requires Lists(l, p) && t in v && w in v[t].writers
    ensures Lists(l + [(t, w)], PutStream(p, t, v[t].fgen, w, v[t].writers[w]))
  {
  }

  lemma TopicGrows(p: Vectors, l: seq<(string, string)>, v: Vectors, budget: nat, cost: (string, string, StreamVec) -> nat, t: string)
    requires PageOk(p, l, v, budget, cost) && t in v
    ensures PageOk(PutTopic(p, t, v[t].fgen), l, v, budget, cost)
  {
    TopicPart(p, v, t);
    hide Part;
  }

  lemma EmptyPageOk(v: Vectors, budget: nat, cost: (string, string, StreamVec) -> nat)
    ensures PageOk(map[], [], v, budget, cost) && ListBytes([], v, cost) == 0
  {
  }

  lemma SomethingListed(p: Vectors, l: seq<(string, string)>, v: Vectors, budget: nat, cost: (string, string, StreamVec) -> nat)
    requires PageOk(p, l, v, budget, cost) && l != []
    ensures p != map[]
  {
    var x := l[0];
    assert x in l && (x.0, x.1) in l;
    assert x.0 in p;
  }

  /** Closing a page changes nothing of what has been said. */
  lemma PageClosed(pages: seq<Vectors>, current: Vectors)
    ensures Merge(pages + [current]) == Overlay(Merge(pages), current)
    ensures Overlay(Merge(pages + [current]), map[]) == Overlay(Merge(pages), current)
    ensures Overlay(Merge([]), map[]) == map[]
  {
    assert (pages + [current])[..|pages|] == pages;
    OverlayEmpty(Merge(pages + [current]));
    OverlayEmpty(map[]);
  }

  /** The pages closed so far and the one being filled. */
  ghost predicate Paged(pages: seq<Vectors>, lists: seq<seq<(string, string)>>, current: Vectors, list: seq<(string, string)>, bytes: nat,
                        v: Vectors, budget: nat, cost: (string, string, StreamVec) -> nat)
  {
    && |lists| == |pages| && (forall i | 0 <= i < |pages| :: PageOk(pages[i], lists[i], v, budget, cost))
    && PageOk(current, list, v, budget, cost) && (forall x | x in list :: x.0 in v && x.1 in v[x.0].writers) && bytes == ListBytes(list, v, cost)
  }

  /** The first stream of the next page would not have fitted. */
  ghost predicate Overfull(l: seq<(string, string)>, next: seq<(string, string)>, v: Vectors, budget: nat, cost: (string, string, StreamVec) -> nat)
  {
    && (forall x | x in l :: x.0 in v && x.1 in v[x.0].writers) && next != [] && next[0].0 in v && next[0].1 in v[next[0].0].writers
    && ListBytes(l, v, cost) + cost(next[0].0, next[0].1, v[next[0].0].writers[next[0].1]) > budget
  }

  ghost predicate AllFull(lists: seq<seq<(string, string)>>, v: Vectors, budget: nat, cost: (string, string, StreamVec) -> nat)
  {
    forall i | 0 < i < |lists| :: Overfull(lists[i - 1], lists[i], v, budget, cost)
  }

  lemma NextFull(lists: seq<seq<(string, string)>>, list: seq<(string, string)>, v: Vectors, budget: nat, cost: (string, string, StreamVec) -> nat, x: (string, string))
    requires AllFull(lists + [list], v, budget, cost)
    ensures list != [] ==> AllFull(lists + [list + [x]], v, budget, cost)
    ensures Overfull(list, [x], v, budget, cost) ==> AllFull(lists + [list] + [[x]], v, budget, cost)
  {
    var all := lists + [list];
    hide ListBytes;
    forall i | 0 < i < |all|
      ensures list != [] ==> Overfull((lists + [list + [x]])[i - 1], (lists + [list + [x]])[i], v, budget, cost)
    {
      assert Overfull(all[i - 1], all[i], v, budget, cost);
    }
    forall i | 0 < i < |all| + 1
      ensures Overfull(list, [x], v, budget, cost) ==> Overfull((all + [[x]])[i - 1], (all + [[x]])[i], v, budget, cost)
    {
      if i < |all| { assert Overfull(all[i - 1], all[i], v, budget, cost); }
    }
  }

  /** paginateHave: pages that merge, in order, to the vectors, none saying anything else, each within the byte budget and as full as that allows. */
  method PaginateHave(vectors: Vectors, budget: nat, cost: (string, string, StreamVec) -> nat) returns (pages: seq<Vectors>, ghost lists: seq<seq<(string, string)>>)
    ensures pages != [] && Merge(pages) == vectors && |lists| == |pages|
    ensures forall i | 0 <= i < |pages| :: PageOk(pages[i], lists[i], vectors, budget, cost)
    ensures AllFull(lists, vectors, budget, cost)
  {
    hide Overlay, PutTopic, PutStream, PageOk, ListBytes, Both, Merge, AllFull, Overfull, Paged, TopicDone;
    ghost var list := [];
    OneFull(vectors, budget, cost);
    NothingPaged(vectors, budget, cost);
    pages, lists := [], [];
    var current: Vectors, bytes: nat := map[], 0;
    ghost var done: Vectors := map[];
    var topics := vectors.Keys;
    PageClosed([], map[]);
    while topics != {}
      invariant topics <= vectors.Keys && Overlay(Merge(pages), current) == done
      invariant done.Keys == vectors.Keys - topics && forall t | t in done :: done[t] == vectors[t]
      invariant Paged(pages, lists, current, list, bytes, vectors, budget, cost)
      invariant AllFull(lists + [list], vectors, budget, cost) && (lists != [] ==> list != [])
    {
      var t :| t in topics;
      var v := vectors[t];
      var writers := v.writers.Keys;
      TopicStarts(done, vectors, topics, t);
      while writers != {}
        invariant writers <= v.writers.Keys && Overlay(Merge(pages), current) == done
        invariant TopicDone(done, vectors, topics - {t}, t, writers)
        invariant Paged(pages, lists, current, list, bytes, vectors, budget, cost)
        invariant AllFull(lists + [list], vectors, budget, cost) && (lists != [] ==> list != [])
      {
        var w :| w in writers;
        var s := v.writers[w];
        NextFull(lists, list, vectors, budget, cost, (t, w));
        if list == [] { OnlyFull(lists, (t, w), vectors, budget, cost); }
        if bytes + cost(t, w, s) > budget && current != map[] {
          PageClosed(pages, current);
          ClosedPaged(pages, lists, current, list, bytes, vectors, budget, cost, t, w);
          pages, lists := pages + [current], lists + [list];
          current, bytes, list := map[], 0, [];
        }
        assert [] + [(t, w)] == [(t, w)];
        OverlayStream(Merge(pages), current, t, v.fgen, w, s);
        MorePaged(pages, lists, current, list, bytes, vectors, budget, cost, t, w);
        OneMoreDone(done, vectors, topics - {t}, t, writers, w);
        current := PutStream(current, t, v.fgen, w, s);
        done := PutStream(done, t, v.fgen, w, s);
        bytes, list := bytes + cost(t, w, s), list + [(t, w)];
        writers := writers - {w};
      }
      if v.writers == map[] {
        OverlayTopic(Merge(pages), current, t, v.fgen);
        TopicPaged(pages, lists, current, list, bytes, vectors, budget, cost, t);
        EmptyTopicDone(done, vectors, topics - {t}, t);
        current := PutTopic(current, t, v.fgen);
        done := PutTopic(done, t, v.fgen);
      }
      WholeTopicDone(done, vectors, topics - {t}, t);
      topics := topics - {t};
    }
    assert done == vectors;
    LastPaged(pages, lists, current, list, bytes, vectors, budget, cost);
    PageClosed(pages, current);
    pages, lists := pages + [current], lists + [list];
  }

  lemma OneFull(v: Vectors, budget: nat, cost: (string, string, StreamVec) -> nat)
    ensures AllFull([] + [[]], v, budget, cost)
  {
  }

  lemma OnlyFull(lists: seq<seq<(string, string)>>, x: (string, string), v: Vectors, budget: nat, cost: (string, string, StreamVec) -> nat)
    ensures lists == [] ==> AllFull(lists + [[x]], v, budget, cost)
  {
  }

  lemma NothingPaged(v: Vectors, budget: nat, cost: (string, string, StreamVec) -> nat)
    ensures Paged([], [], map[], [], 0, v, budget, cost)
  {
    EmptyPageOk(v, budget, cost);
  }

  /** Closing a page that the next stream would not fit. */
  lemma ClosedPaged(pages: seq<Vectors>, lists: seq<seq<(string, string)>>, current: Vectors, list: seq<(string, string)>, bytes: nat,
                    v: Vectors, budget: nat, cost: (string, string, StreamVec) -> nat, t: string, w: string)
    requires Paged(pages, lists, current, list, bytes, v, budget, cost) && t in v && w in v[t].writers && bytes + cost(t, w, v[t].writers[w]) > budget
    ensures Paged(pages + [current], lists + [list], map[], [], 0, v, budget, cost) && Overfull(list, [(t, w)], v, budget, cost)
  {
    hide PageOk;
    EmptyPageOk(v, budget, cost);
  }

  /** One more stream on a page it fits, or on an empty one. */
  lemma MorePaged(pages: seq<Vectors>, lists: seq<seq<(string, string)>>, current: Vectors, list: seq<(string, string)>, bytes: nat,
                  v: Vectors, budget: nat, cost: (string, string, StreamVec) -> nat, t: string, w: string)
    requires Paged(pages, lists, current, list, bytes, v, budget, cost) && t in v && w in v[t].writers
    requires bytes + cost(t, w, v[t].writers[w]) <= budget || current == map[]
    ensures var c := cost(t, w, v[t].writers[w]);
            Paged(pages, lists, PutStream(current, t, v[t].fgen, w, v[t].writers[w]), list + [(t, w)], bytes + c, v, budget, cost)
  {
    hide PageOk, ListBytes, PutStream;
    if list != [] { SomethingListed(current, list, v, budget, cost); }
    PageGrows(current, list, v, budget, cost, t, w);
    forall x | x in list + [(t, w)]
      ensures x.0 in v && x.1 in v[x.0].writers
    {
      if x !in list { assert x == (t, w); }
    }
  }

  lemma TopicPaged(pages: seq<Vectors>, lists: seq<seq<(string, string)>>, current: Vectors, list: seq<(string, string)>, bytes: nat,
                   v: Vectors, budget: nat, cost: (string, string, StreamVec) -> nat, t: string)
    requires Paged(pages, lists, current, list, bytes, v, budget, cost) && t in v
    ensures Paged(pages, lists, PutTopic(current, t, v[t].fgen), list, bytes, v, budget, cost)
  {
    hide PageOk, PutTopic;
    TopicGrows(current, list, v, budget, cost, t);
  }

  lemma LastPaged(pages: seq<Vectors>, lists: seq<seq<(string, string)>>, current: Vectors, list: seq<(string, string)>, bytes: nat,
                  v: Vectors, budget: nat, cost: (string, string, StreamVec) -> nat)
    requires Paged(pages, lists, current, list, bytes, v, budget, cost)
    ensures |lists + [list]| == |pages + [current]|
    ensures forall i | 0 <= i < |pages + [current]| :: PageOk((pages + [current])[i], (lists + [list])[i], v, budget, cost)
  {
    hide PageOk;
  }

  /** Topics outside `rest` and other than t are complete; t has every writer outside `left`, and appears once it has one. */
  ghost predicate TopicDone(done: Vectors, v: Vectors, rest: set<string>, t: string, left: set<string>)
    requires t in v
  {
    && (forall u | u in v && u != t && u !in rest :: u in done && done[u] == v[u]) && (forall u | u in done :: u in v && u !in rest)
    && (if left == v[t].writers.Keys then t !in done
        else t in done && done[t].fgen == v[t].fgen && done[t].writers == v[t].writers - left)
  }

  lemma TopicStarts(done: Vectors, v: Vectors, topics: set<string>, t: string)
    requires t in topics && topics <= v.Keys && done.Keys == v.Keys - topics && forall u | u in done :: done[u] == v[u]
    ensures TopicDone(done, v, topics - {t}, t, v[t].writers.Keys)
  {
  }

  lemma OneMoreDone(done: Vectors, v: Vectors, rest: set<string>, t: string, left: set<string>, w: string)
    requires t in v && t !in rest && TopicDone(done, v, rest, t, left) && w in left && left <= v[t].writers.Keys
    ensures TopicDone(PutStream(done, t, v[t].fgen, w, v[t].writers[w]), v, rest, t, left - {w})
  {
    var d := PutStream(done, t, v[t].fgen, w, v[t].writers[w]);
    assert w !in left - {w};
    assert d[t].writers == TopicOf(done, t).writers[w := v[t].writers[w]];
    assert TopicOf(done, t).writers == v[t].writers - left by {
      if left == v[t].writers.Keys { assert v[t].writers - left == map[]; }
    }
    assert (v[t].writers - left)[w := v[t].writers[w]] == v[t].writers - (left - {w});
  }

  lemma EmptyTopicDone(done: Vectors, v: Vectors, rest: set<string>, t: string)
    requires t in v && t !in rest && v[t].writers == map[] && TopicDone(done, v, rest, t, {})
    ensures TopicComplete(PutTopic(done, t, v[t].fgen), v, rest, t)
  {
  }

  ghost predicate TopicComplete(done: Vectors, v: Vectors, rest: set<string>, t: string)
    requires t in v
  {
    (forall u | u in v && u !in rest :: u in done && done[u] == v[u]) && forall u | u in done :: u in v && u !in rest
  }

  lemma WholeTopicDone(done: Vectors, v: Vectors, rest: set<string>, t: string)
    requires t in v && t !in rest && (TopicComplete(done, v, rest, t) || (v[t].writers != map[] && TopicDone(done, v, rest, t, {})))
    ensures TopicComplete(done, v, rest, t)
  {
    assert v[t].writers - {} == v[t].writers;
  }

  lemma StreamPart(p: Vectors, v: Vectors, t: string, w: string)
    requires Part(p, v) && t in v && w in v[t].writers
    ensures Part(PutStream(p, t, v[t].fgen, w, v[t].writers[w]), v)
  {
  }

  lemma TopicPart(p: Vectors, v: Vectors, t: string)
    requires Part(p, v) && t in v
    ensures Part(PutTopic(p, t, v[t].fgen), v)
  {
  }

  predicate Knows(v: Vectors, t: string, w: string) { t in v && w in v[t].writers }

  lemma BothPart(a: TopicVec, b: TopicVec, v: TopicVec)
    requires PartTopic(a, v) && PartTopic(b, v)
    ensures PartTopic(Both(a, b), v)
  {
  }

  lemma OverlayPart(a: Vectors, b: Vectors, v: Vectors)
    requires Part(a, v) && Part(b, v)
    ensures Part(Overlay(a, b), v)
    ensures forall t, w :: Knows(Overlay(a, b), t, w) <==> Knows(a, t, w) || Knows(b, t, w)
  {
    hide PartTopic;
    forall t | t in Overlay(a, b)
      ensures t in v && PartTopic(Overlay(a, b)[t], v[t])
    {
      OnePart(a, b, v, t);
    }
  }

  lemma OnePart(a: Vectors, b: Vectors, v: Vectors, t: string)
    requires Part(a, v) && Part(b, v) && (t in a || t in b)
    ensures t in v && PartTopic(Both(TopicOf(a, t), TopicOf(b, t)), v[t])
  {
    if t in a && t in b { BothPart(a[t], b[t], v[t]); }
  }

  /** What a merge of parts knows: exactly what some page knows. */
  lemma {:induction false} MergeKnows(pages: seq<Vectors>, v: Vectors)
    requires forall p | p in pages :: Part(p, v)
    ensures Part(Merge(pages), v)
    ensures forall t :: t in Merge(pages) <==> exists p :: p in pages && t in p
    ensures forall t, w :: Knows(Merge(pages), t, w) <==> exists p :: p in pages && Knows(p, t, w)
  {
    hide Part, Overlay, Knows;
    if pages != [] {
      var rest, last := pages[..|pages| - 1], pages[|pages| - 1];
      assert pages == rest + [last];
      MergeKnows(rest, v);
      OverlayPart(Merge(rest), last, v);
      OverlayKeys(Merge(rest), last);
    } else {
      NothingKnown(v);
    }
  }

  lemma NothingKnown(v: Vectors)
    ensures Part(map[], v) && forall t, w :: !Knows(map[], t, w)
  {
  }

  /** A part that knows every topic and every stream is the whole. */
  lemma WholePart(p: Vectors, v: Vectors)
    requires Part(p, v) && p.Keys == v.Keys && forall t, w :: Knows(v, t, w) ==> Knows(p, t, w)
    ensures p == v
  {
    forall t | t in p
      ensures TopicOf(p, t) == TopicOf(v, t)
    {
      assert PartTopic(p[t], v[t]);
      forall w | w in v[t].writers ensures w in p[t].writers { assert Knows(v, t, w); }
      assert p[t].writers == v[t].writers;
    }
    SameVectors(p, v);
  }

  /** Pages may arrive in any order, and any of them more than once: the round merges to the same vectors. */
  lemma AnyOrderMerges(pages: seq<Vectors>, arrived: seq<Vectors>, v: Vectors)
    requires Merge(pages) == v && (forall p | p in pages :: Part(p, v)) && forall p :: p in arrived <==> p in pages
    ensures Merge(arrived) == v
  {
    hide Part, Knows, Merge;
    MergeKnows(pages, v);
    MergeKnows(arrived, v);
    assert forall t :: t in Merge(arrived) <==> t in v;
    WholePart(Merge(arrived), v);
  }
}
