/** Greedy schedule slicing (harness/minimize.ts:324-458): reduce a failing scenario until nothing more can go. */
module Minimizing {
  import opened HlcClock

  const MIN_WINDOW_MS: int := 500
  const MIN_SEGMENT_MS: int := 500

  datatype FaultWindow = FaultWindow(node: int, fromMs: int, toMs: int)

  datatype Segment = Segment(id: string, fromMs: int, toMs: int, count: int)

  datatype Params = Params(windows: seq<FaultWindow>, segments: seq<Segment>, nodes: int)

  // ---- the single reductions ----

  function Without<T>(xs: seq<T>, i: nat): seq<T>
    requires i < |xs|
  {
    xs[..i] + xs[i + 1..]
  }

  function DropWindow(p: Params, i: nat): Params
    requires i < |p.windows|
  {
    p.(windows := Without(p.windows, i))
  }

  function DropSegment(p: Params, i: nat): Params
    requires i < |p.segments|
  {
    p.(segments := Without(p.segments, i))
  }

  /** The top node may go while nothing refers to it. */
  predicate NodeSpare(p: Params, minNodes: int) { p.nodes > minNodes && forall w | w in p.windows :: w.node < p.nodes - 1 }

  function DropNode(p: Params): Params { p.(nodes := p.nodes - 1) }

  function Middle(fromMs: int, toMs: int): int { fromMs + (toMs - fromMs) / 2 }

  predicate WideWindow(p: Params, i: nat)
    requires i < |p.windows|
  {
    p.windows[i].toMs - p.windows[i].fromMs > MIN_WINDOW_MS
  }

  function WindowHalf(p: Params, i: nat, first: bool): Params
    requires i < |p.windows|
  {
    var w := p.windows[i];
    var mid := Middle(w.fromMs, w.toMs);
    p.(windows := p.windows[i := if first then w.(toMs := mid) else w.(fromMs := mid)])
  }

  predicate Busy(p: Params, i: nat)
    requires i < |p.segments|
  {
    p.segments[i].count > 1
  }

  function HalveCount(p: Params, i: nat): Params
    requires i < |p.segments|
  {
    p.(segments := p.segments[i := p.segments[i].(count := p.segments[i].count / 2)])
  }

  predicate WideSegment(p: Params, i: nat)
    requires i < |p.segments|
  {
    p.segments[i].toMs - p.segments[i].fromMs > MIN_SEGMENT_MS
  }

  function SegmentHalf(p: Params, i: nat, first: bool): Params
    requires i < |p.segments|
  {
    var s := p.segments[i];
    var mid := Middle(s.fromMs, s.toMs);
    p.(segments := p.segments[i := if first then s.(toMs := mid) else s.(fromMs := mid)])
  }

  /** One reduction of any kind that the minimizer may try. */
  ghost predicate Reduction(p: Params, minNodes: int, q: Params)
  {
    || (exists i: nat :: i < |p.windows| && q == DropWindow(p, i))
    || (exists i: nat :: i < |p.segments| && q == DropSegment(p, i))
    || (NodeSpare(p, minNodes) && q == DropNode(p))
    || (exists i: nat, first: bool :: i < |p.windows| && WideWindow(p, i) && q == WindowHalf(p, i, first))
    || (exists i: nat :: i < |p.segments| && Busy(p, i) && q == HalveCount(p, i))
    || (exists i: nat, first: bool :: i < |p.segments| && WideSegment(p, i) && q == SegmentHalf(p, i, first))
  }

  /** What these are: a window or segment left out, the unused top node left out, one half of a window or segment, or half a segment's operations. */
  ghost predicate Simpler(p: Params, minNodes: int, q: Params)
  {
    || (exists i: nat :: i < |p.windows| && q == Params(p.windows[..i] + p.windows[i + 1..], p.segments, p.nodes))
    || (exists i: nat :: i < |p.segments| && q == Params(p.windows, p.segments[..i] + p.segments[i + 1..], p.nodes))
    || (p.nodes > minNodes && (forall w | w in p.windows :: w.node < p.nodes - 1) && q == Params(p.windows, p.segments, p.nodes - 1))
    || (exists i: nat, w: FaultWindow :: i < |p.windows| && HalfWindow(p.windows[i], w) && q == Params(p.windows[i := w], p.segments, p.nodes))
    || (exists i: nat, s: Segment :: i < |p.segments| && (HalfSegment(p.segments[i], s) || HalfCount(p.segments[i], s)) && q == Params(p.windows, p.segments[i := s], p.nodes))
  }

  predicate HalfWindow(v: FaultWindow, w: FaultWindow)
  {
    var mid := v.fromMs + (v.toMs - v.fromMs) / 2;
    v.toMs - v.fromMs > 500 && (w == FaultWindow(v.node, v.fromMs, mid) || w == FaultWindow(v.node, mid, v.toMs))
  }

  predicate HalfSegment(r: Segment, s: Segment)
  {
    var mid := r.fromMs + (r.toMs - r.fromMs) / 2;
    r.toMs - r.fromMs > 500 && (s == Segment(r.id, r.fromMs, mid, r.count) || s == Segment(r.id, mid, r.toMs, r.count))
  }

  predicate HalfCount(r: Segment, s: Segment) { r.count > 1 && s == Segment(r.id, r.fromMs, r.toMs, r.count / 2) }

  lemma ReductionIff(p: Params, minNodes: int, q: Params)
    ensures Reduction(p, minNodes, q) <==> Simpler(p, minNodes, q)
  {
    forall i: nat, first: bool | i < |p.windows| && WideWindow(p, i) && q == WindowHalf(p, i, first)
      ensures Simpler(p, minNodes, q)
    {
      assert HalfWindow(p.windows[i], q.windows[i]) && q == Params(p.windows[i := q.windows[i]], p.segments, p.nodes);
    }
    forall i: nat, first: bool | i < |p.segments| && WideSegment(p, i) && q == SegmentHalf(p, i, first)
      ensures Simpler(p, minNodes, q)
    {
      assert HalfSegment(p.segments[i], q.segments[i]) && q == Params(p.windows, p.segments[i := q.segments[i]], p.nodes);
    }
    forall i: nat | i < |p.segments| && Busy(p, i) && q == HalveCount(p, i)
      ensures Simpler(p, minNodes, q)
    {
      assert HalfCount(p.segments[i], q.segments[i]) && q == Params(p.windows, p.segments[i := q.segments[i]], p.nodes);
    }
    forall i: nat, w: FaultWindow | i < |p.windows| && HalfWindow(p.windows[i], w) && q == Params(p.windows[i := w], p.segments, p.nodes)
      ensures Reduction(p, minNodes, q)
    {
      assert q == WindowHalf(p, i, true) || q == WindowHalf(p, i, false);
    }
    forall i: nat, s: Segment | i < |p.segments| && HalfSegment(p.segments[i], s) && q == Params(p.windows, p.segments[i := s], p.nodes)
      ensures Reduction(p, minNodes, q)
    {
      assert q == SegmentHalf(p, i, true) || q == SegmentHalf(p, i, false);
    }
    forall i: nat, s: Segment | i < |p.segments| && HalfCount(p.segments[i], s) && q == Params(p.windows, p.segments[i := s], p.nodes)
      ensures Reduction(p, minNodes, q)
    {
      assert q == HalveCount(p, i);
    }
    forall i: nat | i < |p.windows| && q == Params(p.windows[..i] + p.windows[i + 1..], p.segments, p.nodes)
      ensures Reduction(p, minNodes, q)
    {
      assert q == DropWindow(p, i);
    }
    forall i: nat | i < |p.segments| && q == Params(p.windows, p.segments[..i] + p.segments[i + 1..], p.nodes)
      ensures Reduction(p, minNodes, q)
    {
      assert q == DropSegment(p, i);
    }
  }

  // ---- every reduction makes the scenario smaller, and keeps it a slice ----

  function Weight(n: int): nat { if n < 0 then 0 else n }

  function WindowSize(w: FaultWindow): nat { 1 + Weight(w.toMs - w.fromMs) }

  function SegmentSize(s: Segment): nat { 1 + Weight(s.toMs - s.fromMs) + Weight(s.count) }

  function WindowsSize(ws: seq<FaultWindow>): nat { if ws == [] then 0 else WindowSize(ws[0]) + WindowsSize(ws[1..]) }

  function SegmentsSize(ss: seq<Segment>): nat { if ss == [] then 0 else SegmentSize(ss[0]) + SegmentsSize(ss[1..]) }

  function Size(p: Params, minNodes: int): nat { WindowsSize(p.windows) + SegmentsSize(p.segments) + Weight(p.nodes - minNodes) }

  lemma {:induction false} WindowsSizeAt(ws: seq<FaultWindow>, i: nat, w: FaultWindow)
    requires i < |ws|
    ensures WindowsSize(Without(ws, i)) == WindowsSize(ws) - WindowSize(ws[i])
    ensures WindowsSize(ws[i := w]) == WindowsSize(ws) - WindowSize(ws[i]) + WindowSize(w)
  {
    hide WindowSize;
    if i == 0 {
      assert Without(ws, 0) == ws[1..] && ws[0 := w][1..] == ws[1..];
    } else {
      WindowsSizeAt(ws[1..], i - 1, w);
      assert Without(ws, i)[1..] == Without(ws[1..], i - 1) && ws[i := w][1..] == ws[1..][i - 1 := w];
    }
  }

  lemma {:induction false} SegmentsSizeAt(ss: seq<Segment>, i: nat, s: Segment)
    requires i < |ss|
    ensures SegmentsSize(Without(ss, i)) == SegmentsSize(ss) - SegmentSize(ss[i])
    ensures SegmentsSize(ss[i := s]) == SegmentsSize(ss) - SegmentSize(ss[i]) + SegmentSize(s)
  {
    hide SegmentSize;
    if i == 0 {
      assert Without(ss, 0) == ss[1..] && ss[0 := s][1..] == ss[1..];
    } else {
      SegmentsSizeAt(ss[1..], i - 1, s);
      assert Without(ss, i)[1..] == Without(ss[1..], i - 1) && ss[i := s][1..] == ss[1..][i - 1 := s];
    }
  }

  ghost predicate WindowWithin(w: FaultWindow, ws: seq<FaultWindow>)
  {
    exists v :: v in ws && v.node == w.node && v.fromMs <= w.fromMs && w.toMs <= v.toMs
  }

  ghost predicate SegmentWithin(s: Segment, ss: seq<Segment>)
  {
    exists v :: v in ss && v.id == s.id && v.fromMs <= s.fromMs && s.toMs <= v.toMs && s.count <= v.count
  }

  /** A part of the original scenario: fewer nodes, and windows and segments inside original ones. */
  ghost predicate Slice(p: Params, b: Params)
  {
    p.nodes <= b.nodes && (forall w | w in p.windows :: WindowWithin(w, b.windows)) && forall s | s in p.segments :: SegmentWithin(s, b.segments)
  }

  lemma SliceSelf(b: Params)
    ensures Slice(b, b)
  {
  }

  lemma SliceFewer(p: Params, q: Params, b: Params)
    requires Slice(p, b) && q.nodes <= p.nodes && (forall w | w in q.windows :: WindowWithin(w, p.windows))
    requires forall s | s in q.segments :: SegmentWithin(s, p.segments)
    ensures Slice(q, b)
  {
    forall w | w in q.windows
      ensures WindowWithin(w, b.windows)
    {
      var v :| v in p.windows && v.node == w.node && v.fromMs <= w.fromMs && w.toMs <= v.toMs;
      assert WindowWithin(v, b.windows);
    }
    forall s | s in q.segments
      ensures SegmentWithin(s, b.segments)
    {
      var v :| v in p.segments && v.id == s.id && v.fromMs <= s.fromMs && s.toMs <= v.toMs && s.count <= v.count;
      assert SegmentWithin(v, b.segments);
    }
  }

  lemma WithoutIn<T>(xs: seq<T>, i: nat, x: T)
    requires i < |xs| && x in Without(xs, i)
    ensures x in xs
  {
  }

  lemma DropWindowShrinks(p: Params, i: nat, minNodes: int)
    requires i < |p.windows|
    ensures Size(DropWindow(p, i), minNodes) < Size(p, minNodes)
    ensures forall b | Slice(p, b) :: Slice(DropWindow(p, i), b)
  {
    WindowsSizeAt(p.windows, i, p.windows[i]);
    forall b | Slice(p, b)
      ensures Slice(DropWindow(p, i), b)
    {
      forall w | w in DropWindow(p, i).windows ensures w in p.windows { WithoutIn(p.windows, i, w); }
    }
  }

  lemma DropSegmentShrinks(p: Params, i: nat, minNodes: int)
    requires i < |p.segments|
    ensures Size(DropSegment(p, i), minNodes) < Size(p, minNodes)
    ensures forall b | Slice(p, b) :: Slice(DropSegment(p, i), b)
  {
    SegmentsSizeAt(p.segments, i, p.segments[i]);
    forall b | Slice(p, b)
      ensures Slice(DropSegment(p, i), b)
    {
      forall s | s in DropSegment(p, i).segments ensures s in p.segments { WithoutIn(p.segments, i, s); }
    }
  }

  lemma WindowHalfShrinks(p: Params, i: nat, first: bool, minNodes: int)
    requires i < |p.windows| && WideWindow(p, i)
    ensures Size(WindowHalf(p, i, first), minNodes) < Size(p, minNodes)
    ensures forall b | Slice(p, b) :: Slice(WindowHalf(p, i, first), b)
  {
    var q := WindowHalf(p, i, first);
    WindowsSizeAt(p.windows, i, q.windows[i]);
    forall b | Slice(p, b)
      ensures Slice(q, b)
    {
      assert WindowWithin(q.windows[i], p.windows) by { assert p.windows[i] in p.windows; }
      SliceFewer(p, q, b);
    }
  }

  lemma HalveCountShrinks(p: Params, i: nat, minNodes: int)
    requires i < |p.segments| && Busy(p, i)
    ensures Size(HalveCount(p, i), minNodes) < Size(p, minNodes)
    ensures forall b | Slice(p, b) :: Slice(HalveCount(p, i), b)
  {
    var q := HalveCount(p, i);
    SegmentsSizeAt(p.segments, i, q.segments[i]);
    forall b | Slice(p, b)
      ensures Slice(q, b)
    {
      assert SegmentWithin(q.segments[i], p.segments) by { assert p.segments[i] in p.segments; }
      SliceFewer(p, q, b);
    }
  }

  lemma SegmentHalfShrinks(p: Params, i: nat, first: bool, minNodes: int)
    requires i < |p.segments| && WideSegment(p, i)
    ensures Size(SegmentHalf(p, i, first), minNodes) < Size(p, minNodes)
    ensures forall b | Slice(p, b) :: Slice(SegmentHalf(p, i, first), b)
  {
    var q := SegmentHalf(p, i, first);
    SegmentsSizeAt(p.segments, i, q.segments[i]);
    forall b | Slice(p, b)
      ensures Slice(q, b)
    {
      assert SegmentWithin(q.segments[i], p.segments) by { assert p.segments[i] in p.segments; }
      SliceFewer(p, q, b);
    }
  }

  // ---- the greedy search ----

  /** After some attempts: smaller if any was kept, untouched if none was. */
  ghost predicate Progress(before: Params, after: Params, minNodes: int, changed: bool)
  {
    if changed then Size(after, minNodes) < Size(before, minNodes) else after == before
  }

  lemma ProgressMore(a: Params, b: Params, c: Params, minNodes: int, first: bool, second: bool)
    requires Progress(a, b, minNodes, first) && Progress(b, c, minNodes, second)
    ensures Progress(a, c, minNodes, first || second)
  {
  }

  class Minimizer {
    /** Does the target property still fail under these parameters? */
    const fails: Params -> bool
    const minNodes: int
    const baseline: Params
    var params: Params

    constructor (fails: Params -> bool, minNodes: int, baseline: Params)
      ensures this.fails == fails && this.minNodes == minNodes && this.baseline == baseline && params == baseline
    {
      this.fails, this.minNodes, this.baseline, params := fails, minNodes, baseline, baseline;
    }

    /** What holds of the current parameters all along. */
    ghost predicate Kept()
      reads this`params
    {
      Slice(params, baseline) && (params == baseline || fails(params))
    }

    /** Keep a candidate only if the property still fails. */
    method Attempt(cand: Params) returns (ok: bool)
      requires Slice(cand, baseline) && Kept()
      modifies this`params
      ensures Kept() && ok == fails(cand) && params == if ok then cand else old(params)
    {
      hide Slice;
      ok := fails(cand);
      if ok { params := cand; }
    }

    method DropWindows() returns (changed: bool)
      requires Kept()
      modifies this`params
      ensures Kept() && Progress(old(params), params, minNodes, changed)
      ensures !changed ==> forall i: nat | i < |params.windows| :: !fails(DropWindow(params, i))
    {
      hide Slice, Size;
      changed := false;
      var i: nat := 0;
      while i < |params.windows|
        invariant i <= |params.windows| && Kept() && Progress(old(params), params, minNodes, changed)
        invariant !changed ==> forall j: nat | j < i :: !fails(DropWindow(params, j))
        decreases |params.windows| - i
      {
        DropWindowShrinks(params, i, minNodes);
        var ok := Attempt(DropWindow(params, i));
        if ok { changed := true; } else { i := i + 1; }
      }
    }

    method DropSegments() returns (changed: bool)
      requires Kept()
      modifies this`params
      ensures Kept() && Progress(old(params), params, minNodes, changed)
      ensures !changed ==> forall i: nat | i < |params.segments| :: !fails(DropSegment(params, i))
    {
      hide Slice, Size;
      changed := false;
      var i: nat := 0;
      while i < |params.segments|
        invariant i <= |params.segments| && Kept() && Progress(old(params), params, minNodes, changed)
        invariant !changed ==> forall j: nat | j < i :: !fails(DropSegment(params, j))
        decreases |params.segments| - i
      {
        DropSegmentShrinks(params, i, minNodes);
        var ok := Attempt(DropSegment(params, i));
        if ok { changed := true; } else { i := i + 1; }
      }
    }

    method DropNodes() returns (changed: bool)
      requires Kept()
      modifies this`params
      ensures Kept() && Progress(old(params), params, minNodes, changed)
      ensures !changed ==> !(NodeSpare(params, minNodes) && fails(DropNode(params)))
    {
      changed := false;
      while NodeSpare(params, minNodes)
        invariant Kept() && Progress(old(params), params, minNodes, changed)
        decreases params.nodes - minNodes
      {
        var ok := Attempt(DropNode(params));
        if !ok { break; }
        changed := true;
      }
    }

    /** Halve one fault window for as long as one of its halves suffices. */
    method ShrinkWindow(i: nat) returns (changed: bool)
      requires Kept() && i < |params.windows|
      modifies this`params
      ensures Kept() && Progress(old(params), params, minNodes, changed) && |params.windows| == |old(params.windows)|
      ensures !changed && WideWindow(params, i) ==> forall first :: !fails(WindowHalf(params, i, first))
    {
      hide Slice, Size;
      changed := false;
      while WideWindow(params, i)
        invariant Kept() && Progress(old(params), params, minNodes, changed) && i < |params.windows| == |old(params.windows)|
        decreases Size(params, minNodes)
      {
        WindowHalfShrinks(params, i, true, minNodes);
        var ok := Attempt(WindowHalf(params, i, true));
        if !ok {
          WindowHalfShrinks(params, i, false, minNodes);
          ok := Attempt(WindowHalf(params, i, false));
          if !ok { return; }
        }
        changed := true;
      }
    }

    method ShrinkWindows() returns (changed: bool)
      requires Kept()
      modifies this`params
      ensures Kept() && Progress(old(params), params, minNodes, changed)
      ensures !changed ==> forall i: nat, first | i < |params.windows| && WideWindow(params, i) :: !fails(WindowHalf(params, i, first))
    {
      hide Slice, Size, Progress;
      changed := false;
      NoProgress(params, minNodes);
      var i: nat := 0;
      while i < |params.windows|
        invariant i <= |params.windows| && Kept() && Progress(old(params), params, minNodes, changed)
        invariant !changed ==> forall j: nat, first | j < i && WideWindow(params, j) :: !fails(WindowHalf(params, j, first))
        decreases |params.windows| - i
      {
        ghost var mid := params;
        var more := ShrinkWindow(i);
        ProgressMore(old(params), mid, params, minNodes, changed, more);
        Untouched(mid, params, minNodes, more);
        changed := changed || more;
        i := i + 1;
      }
    }

    method HalveSegment(i: nat) returns (changed: bool)
      requires Kept() && i < |params.segments|
      modifies this`params
      ensures Kept() && Progress(old(params), params, minNodes, changed) && |params.segments| == |old(params.segments)|
      ensures !changed && Busy(params, i) ==> !fails(HalveCount(params, i))
    {
      hide Slice, Size;
      changed := false;
      while Busy(params, i)
        invariant Kept() && Progress(old(params), params, minNodes, changed) && i < |params.segments| == |old(params.segments)|
        decreases Size(params, minNodes)
      {
        HalveCountShrinks(params, i, minNodes);
        var ok := Attempt(HalveCount(params, i));
        if !ok { return; }
        changed := true;
      }
    }

    method ShrinkSegment(i: nat) returns (changed: bool)
      requires Kept() && i < |params.segments|
      modifies this`params
      ensures Kept() && Progress(old(params), params, minNodes, changed) && |params.segments| == |old(params.segments)|
      ensures !changed && WideSegment(params, i) ==> forall first :: !fails(SegmentHalf(params, i, first))
    {
      hide Slice, Size;
      changed := false;
      while WideSegment(params, i)
        invariant Kept() && Progress(old(params), params, minNodes, changed) && i < |params.segments| == |old(params.segments)|
        decreases Size(params, minNodes)
      {
        SegmentHalfShrinks(params, i, true, minNodes);
        var ok := Attempt(SegmentHalf(params, i, true));
        if !ok {
          SegmentHalfShrinks(params, i, false, minNodes);
          ok := Attempt(SegmentHalf(params, i, false));
          if !ok { return; }
        }
        changed := true;
      }
    }

    method ShrinkSegments() returns (changed: bool)
      requires Kept()
      modifies this`params
      ensures Kept() && Progress(old(params), params, minNodes, changed)
      ensures !changed ==> forall i: nat | i < |params.segments| && Busy(params, i) :: !fails(HalveCount(params, i))
      ensures !changed ==> forall i: nat, first | i < |params.segments| && WideSegment(params, i) :: !fails(SegmentHalf(params, i, first))
    {
      hide Slice, Size, Progress;
      changed := false;
      NoProgress(params, minNodes);
      var i: nat := 0;
      while i < |params.segments|
        invariant i <= |params.segments| && Kept() && Progress(old(params), params, minNodes, changed)
        invariant !changed ==> forall j: nat | j < i && Busy(params, j) :: !fails(HalveCount(params, j))
        invariant !changed ==> forall j: nat, first | j < i && WideSegment(params, j) :: !fails(SegmentHalf(params, j, first))
        decreases |params.segments| - i
      {
        ghost var start := params;
        var a := HalveSegment(i);
        ghost var mid := params;
        var b := ShrinkSegment(i);
        ProgressMore(old(params), start, mid, minNodes, changed, a);
        ProgressMore(old(params), mid, params, minNodes, changed || a, b);
        Untouched(start, mid, minNodes, a);
        Untouched(mid, params, minNodes, b);
        changed := changed || a || b;
        i := i + 1;
      }
    }

    /**
      Repeat passes over all kinds of reductions until one changes nothing. For every deterministic check
      this ends, with a slice of the baseline that still fails (the baseline itself if nothing could be
      reduced) although no single further reduction of it does.
    */
    method Minimize()
      requires params == baseline
      modifies this`params
      ensures Slice(params, baseline) && (params == baseline || fails(params))
      ensures fails(baseline) ==> fails(params)
      ensures forall q | Reduction(params, minNodes, q) :: !fails(q)
    {
      SliceSelf(baseline);
      hide Slice, Size, Progress;
      while true
        invariant Kept()
        decreases Size(params, minNodes)
      {
        ghost var p0 := params;
        var a := DropWindows();
        ghost var p1 := params;
        var b := DropSegments();
        ghost var p2 := params;
        var c := DropNodes();
        ghost var p3 := params;
        var d := ShrinkWindows();
        ghost var p4 := params;
        var e := ShrinkSegments();
        ProgressMore(p0, p1, p2, minNodes, a, b);
        ProgressMore(p0, p2, p3, minNodes, a || b, c);
        ProgressMore(p0, p3, p4, minNodes, a || b || c, d);
        ProgressMore(p0, p4, params, minNodes, a || b || c || d, e);
        Untouched(p0, p1, minNodes, a);
        Untouched(p1, p2, minNodes, b);
        Untouched(p2, p3, minNodes, c);
        Untouched(p3, p4, minNodes, d);
        Untouched(p4, params, minNodes, e);
        if !(a || b || c || d || e) { return; }
        Smaller(p0, params, minNodes);
      }
    }
  }

  lemma NoProgress(p: Params, minNodes: int)
    ensures Progress(p, p, minNodes, false)
  {
  }

  lemma Untouched(p: Params, q: Params, minNodes: int, changed: bool)
    requires Progress(p, q, minNodes, changed)
    ensures !changed ==> p == q
  {
  }

  lemma Smaller(p: Params, q: Params, minNodes: int)
    requires Progress(p, q, minNodes, true)
    ensures Size(q, minNodes) < Size(p, minNodes)
  {
  }
}
