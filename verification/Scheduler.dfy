/** The virtual-time scheduler of the deterministic harness (harness/scheduler.ts): a binary heap of timed events. */
module Scheduling {
  import opened HlcClock

  class Ev {
    const at: int
    const seqNo: nat
    var cancelled: bool

    constructor (at: int, seqNo: nat)
      ensures this.at == at && this.seqNo == seqNo && !cancelled
    {
      this.at, this.seqNo, cancelled := at, seqNo, false;
    }
  }

  /** What a callback (with the microtasks it leaves behind) does to the scheduler. */
  datatype Action = ScheduleAt(at: int) | CancelEvent(handle: nat)

  datatype RunResult = Finished | InThePast | Runaway

  /** Earlier in time, or scheduled earlier at the same time. */
  predicate Less(a: Ev, b: Ev) { if a.at != b.at then a.at < b.at else a.seqNo < b.seqNo }

  lemma LessTransitive(a: Ev, b: Ev, c: Ev)
    requires !Less(b, a) && !Less(c, b)
    ensures !Less(c, a)
  {
  }

  function Parent(i: nat): nat
    requires i > 0
  {
    (i - 1) / 2
  }

  /** The heap order holds between i and its parent. */
  predicate Fits(h: seq<Ev>, i: nat)
    requires 0 < i < |h|
  {
    !Less(h[i], h[Parent(i)])
  }

  ghost predicate HeapOk(h: seq<Ev>) { forall i | 0 < i < |h| :: Fits(h, i) }

  /** Heap order except that h[i] may be too early for its place. */
  ghost predicate HeapButUp(h: seq<Ev>, i: nat)
  {
    && (forall j | 0 < j < |h| && j != i :: Fits(h, j))
    && forall j | 0 < j < |h| && Parent(j) == i && i > 0 :: i < |h| && !Less(h[j], h[Parent(i)])
  }

  /** Heap order except that h[i] may be too late for its place. */
  ghost predicate HeapButDown(h: seq<Ev>, i: nat)
  {
    && (forall j | 0 < j < |h| && Parent(j) != i :: Fits(h, j))
    && forall j | 0 < j < |h| && Parent(j) == i && i > 0 :: i < |h| && !Less(h[j], h[Parent(i)])
  }

  function Swap(h: seq<Ev>, i: nat, j: nat): seq<Ev>
    requires i < |h| && j < |h|
  {
    h[i := h[j]][j := h[i]]
  }

  lemma SwapSame(h: seq<Ev>, i: nat, j: nat)
    requires i < |h| && j < |h|
    ensures multiset(Swap(h, i, j)) == multiset(h) && |Swap(h, i, j)| == |h|
  {
  }

  lemma SwapUp(h: seq<Ev>, i: nat)
    requires 0 < i < |h| && HeapButUp(h, i) && Less(h[i], h[Parent(i)])
    ensures HeapButUp(Swap(h, i, Parent(i)), Parent(i))
  {
    var p, g := Parent(i), Swap(h, i, Parent(i));
    forall j | 0 < j < |g| && j != p
      ensures Fits(g, j)
    {
      if j != i { assert Fits(h, j); }
      if p > 0 { assert Fits(h, p); }
    }
    forall j | 0 < j < |g| && Parent(j) == p && p > 0
      ensures !Less(g[j], g[Parent(p)])
    {
      assert Fits(h, p);
      if j != i { assert Fits(h, j); }
    }
  }

  lemma SwapDown(h: seq<Ev>, i: nat, c: nat)
    requires i < |h| && 0 < c < |h| && Parent(c) == i && HeapButDown(h, i) && Less(h[c], h[i])
    requires forall j | 0 < j < |h| && Parent(j) == i :: !Less(h[j], h[c])
    ensures HeapButDown(Swap(h, i, c), c)
  {
    var g := Swap(h, i, c);
    forall j | 0 < j < |g| && Parent(j) != c
      ensures Fits(g, j)
    {
      if j != i && Parent(j) != i { assert Fits(h, j); }
    }
    forall j | 0 < j < |g| && Parent(j) == c
      ensures !Less(g[j], g[Parent(c)])
    {
      assert Fits(h, j);
    }
  }

  /** Nothing in a heap comes before its top. */
  lemma {:induction false} TopFirst(h: seq<Ev>, i: nat)
    requires HeapOk(h) && i < |h|
    ensures !Less(h[i], h[0])
  {
    if i > 0 {
      TopFirst(h, Parent(i));
      assert Fits(h, i);
      LessTransitive(h[0], h[Parent(i)], h[i]);
    }
  }

  /** No event is on the heap twice. */
  ghost predicate Once(h: seq<Ev>) { forall e | e in h :: multiset(h)[e] == 1 }

  /** Executed events stand by time, and at one time in the order they were scheduled. */
  ghost predicate InOrder(log: seq<Ev>)
  {
    forall i, j | 0 <= i < j < |log| :: log[i].at < log[j].at || (log[i].at == log[j].at && log[i].seqNo < log[j].seqNo)
  }

  class Scheduler {
    var heap: seq<Ev>
    var seqNo: nat
    var nowMs: int
    /** Every event handed out, by its number. */
    var issued: seq<Ev>
    ghost var repr: set<Ev>

    /** Events run so far, in order; and events lost to the runaway guard. */
    ghost var log: seq<Ev>
    ghost var lost: set<Ev>
    /** Whether each event of the log was cancelled when it ran. */
    ghost var deadAtRun: seq<bool>

    ghost predicate Ordered()
      reads this`heap, this`nowMs, this`log
    {
      && HeapOk(heap) && InOrder(log)
      && (forall e | e in heap :: e.at >= nowMs && (log != [] ==> Less(log[|log| - 1], e)))
      && (log != [] ==> log[|log| - 1].at <= nowMs)
    }

    ghost predicate Numbered()
      reads this`heap, this`seqNo, this`issued, this`log
    {
      && seqNo == |issued| && (forall k | 0 <= k < |issued| :: issued[k].seqNo == k)
      && (forall e | e in heap :: e in issued) && (forall e | e in log :: e in issued) && Once(heap)
    }

    /** No event goes missing: it ran, it waits, it was cancelled, or the runaway guard took it. */
    ghost predicate Accounted()
      reads this`heap, this`issued, this`log, this`lost, this`repr, this.repr
    {
      forall e | e in issued :: e in repr && (e in log || e in heap || e.cancelled || e in lost)
    }

    ghost predicate Valid()
      reads this, this.repr
    {
      Ordered() && Numbered() && Accounted() && |deadAtRun| == |log|
    }

    constructor (startMs: int)
      ensures Valid() && fresh(repr) && nowMs == startMs && heap == [] && log == [] && lost == {}
    {
      heap, seqNo, nowMs, issued, repr, log, lost, deadAtRun := [], 0, startMs, [], {}, [], {}, [];
    }

    method BubbleUp(i0: nat)
      requires i0 < |heap| && HeapButUp(heap, i0)
      modifies this`heap
      ensures HeapOk(heap) && multiset(heap) == old(multiset(heap)) && |heap| == old(|heap|)
    {
      hide HeapButUp;
      var i: nat := i0;
      while i > 0
        invariant i < |heap| == old(|heap|) && HeapButUp(heap, i) && multiset(heap) == old(multiset(heap))
      {
        var parent := (i - 1) / 2;
        if !Less(heap[i], heap[parent]) {
          ButUpDone(heap, i);
          return;
        }
        SwapUp(heap, i);
        SwapSame(heap, i, parent);
        heap := heap[i := heap[parent]][parent := heap[i]];
        i := parent;
      }
      ButUpDone(heap, i);
    }

    method SinkDown(i0: nat)
      requires i0 < |heap| && HeapButDown(heap, i0)
      modifies this`heap
      ensures HeapOk(heap) && multiset(heap) == old(multiset(heap)) && |heap| == old(|heap|)
    {
      hide HeapButDown;
      var i: nat := i0;
      while true
        invariant i < |heap| == old(|heap|) && HeapButDown(heap, i) && multiset(heap) == old(multiset(heap))
        decreases |heap| - i
      {
        var l, r, smallest := 2 * i + 1, 2 * i + 2, i;
        if l < |heap| && Less(heap[l], heap[smallest]) { smallest := l; }
        if r < |heap| && Less(heap[r], heap[smallest]) { smallest := r; }
        SmallestChild(heap, i, smallest);
        if smallest == i {
          ButDownDone(heap, i);
          return;
        }
        SwapDown(heap, i, smallest);
        SwapSame(heap, i, smallest);
        heap := heap[i := heap[smallest]][smallest := heap[i]];
        i := smallest;
      }
    }

    /** Put an event on the heap. */
    method Push(ev: Ev)
      requires HeapOk(heap)
      modifies this`heap
      ensures HeapOk(heap) && multiset(heap) == old(multiset(heap)) + multiset{ev} && |heap| == old(|heap|) + 1
    {
      PushedButUp(heap, ev);
      heap := heap + [ev];
      BubbleUp(|heap| - 1);
    }

    /** Take the first event off; nothing left on the heap comes before it. */
    method TakeTop() returns (top: Ev)
      requires HeapOk(heap) && heap != []
      modifies this`heap
      ensures HeapOk(heap) && multiset(heap) == old(multiset(heap)) - multiset{top} && top in old(heap) && |heap| == old(|heap|) - 1
      ensures forall e | e in heap :: !Less(e, top)
    {
      ghost var was := heap;
      top := heap[0];
      var last := heap[|heap| - 1];
      NothingBeforeTop(heap);
      heap := heap[..|heap| - 1];
      assert was == heap + [last];
      if heap != [] {
        MovedToTop(was, heap, last);
        heap := heap[0 := last];
        SinkDown(0);
      }
      StillAfter(was, heap, top);
    }

    method Schedule(atMs: int) returns (ev: Ev)
      requires Valid()
      modifies this`heap, this`seqNo, this`issued, this`repr
      ensures Valid() && fresh(ev) && issued == old(issued) + [ev] && repr == old(repr) + {ev}
      ensures ev.at == Max(atMs, nowMs) && ev.seqNo == old(seqNo) && !ev.cancelled
      ensures multiset(heap) == old(multiset(heap)) + multiset{ev}
    {
      hide HeapOk, InOrder;
      ev := new Ev(Max(atMs, nowMs), seqNo);
      if log != [] { NumberBelow(issued, log[|log| - 1]); }
      ghost var was := heap;
      seqNo := seqNo + 1;
      issued, repr := issued + [ev], repr + {ev};
      Push(ev);
      PushedOnce(was, heap, ev);
    }

    method Cancel(ev: Ev)
      requires Valid() && ev in issued
      modifies ev`cancelled
      ensures Valid() && ev.cancelled
    {
      ev.cancelled := true;
    }

    /** One event has been taken off: it is next, and everything else is as it should be. */
    ghost predicate Holding(ev: Ev)
      reads this, this.repr
    {
      && Ordered() && Numbered() && |deadAtRun| == |log| && ev in issued && ev !in heap && ev.at >= nowMs
      && (log != [] ==> Less(log[|log| - 1], ev)) && (forall e | e in heap :: Less(ev, e))
      && forall e | e in issued :: e in repr && (e == ev || e in log || e in heap || e.cancelled || e in lost)
    }

    /**
      pop: the first event that is not cancelled, dropping cancelled ones on the way; None only when
      none is left.
    */
    method Pop() returns (r: Option<Ev>)
      requires Valid()
      modifies this`heap
      ensures forall e | e in heap :: e in old(heap)
      ensures match r
              case None => Valid() && heap == []
              case Some(ev) => Holding(ev) && !ev.cancelled && ev.at >= nowMs
    {
      hide HeapOk, InOrder;
      r := None;
      while heap != []
        invariant Valid()
        invariant forall e | e in heap :: e in old(heap)
        decreases |heap|
      {
        ghost var was := heap;
        var top := TakeTop();
        TakenOnce(was, heap, top);
        LaterThan(issued, heap, top);
        if !top.cancelled { return Some(top); }
      }
    }

    /** Nothing left to run: time still advances to the boundary. */
    method AdvanceTo(untilMs: int)
      requires Valid() && heap == [] && nowMs <= untilMs
      modifies this`nowMs
      ensures Valid() && nowMs == untilMs
    {
      hide InOrder;
      nowMs := untilMs;
    }

    /** The runaway guard stops the run with the event in hand. */
    method Lose(ev: Ev)
      requires Holding(ev)
      modifies this`lost
      ensures Valid()
    {
      hide HeapOk, InOrder;
      lost := lost + {ev};
    }

    /** Time stops at the boundary: the event goes back. */
    method PutBack(ev: Ev, untilMs: int)
      requires Holding(ev) && nowMs <= untilMs < ev.at
      modifies this`heap, this`nowMs
      ensures Valid() && nowMs == untilMs && forall e | e in heap :: e.at > untilMs
    {
      hide HeapOk, InOrder;
      ghost var was := heap;
      Push(ev);
      PushedOnce(was, heap, ev);
      nowMs := untilMs;
    }

    /** Advance the clock to the event and run it. */
    method Execute(ev: Ev, actions: seq<Action>)
      requires Holding(ev) && !ev.cancelled
      modifies this`heap, this`seqNo, this`issued, this`nowMs, this`log, this`deadAtRun, this`repr, this.repr
      ensures Valid() && log == old(log) + [ev] && deadAtRun == old(deadAtRun) + [old(ev.cancelled)] && nowMs == ev.at
      ensures old(issued) <= issued && fresh(repr - old(repr))
    {
      hide HeapOk, InOrder;
      LogGrows(log, ev);
      nowMs := ev.at;
      log, deadAtRun := log + [ev], deadAtRun + [ev.cancelled];
      hide Less;
      Perform(actions);
    }

    /** A callback, with the microtasks after it: any scheduling and cancelling it likes. */
    method Perform(actions: seq<Action>)
      requires Valid()
      modifies this`heap, this`seqNo, this`issued, this`repr, this.repr
      ensures Valid() && old(issued) <= issued && fresh(repr - old(repr))
      ensures forall e | e in old(issued) && old(e.cancelled) :: e.cancelled
    {
      var i := 0;
      while i < |actions|
        invariant Valid() && old(issued) <= issued && fresh(repr - old(repr))
        invariant forall e | e in old(issued) && old(e.cancelled) :: e.cancelled
      {
        match actions[i] {
          case ScheduleAt(at) =>
            var _ := Schedule(at);
          case CancelEvent(k) =>
            if k < |issued| {
              assert issued[k] in issued;
              Cancel(issued[k]);
            }
        }
        i := i + 1;
      }
    }

    /**
      Run in (time, insertion) order until nothing is left or `untilMs` is passed. `world` says what the
      callback of the n-th event of this run does. However callbacks schedule and cancel, over any number of
      runs: events run in strictly increasing (at, seq) order, none of them cancelled when it ran; the
      clock never goes back; and no event is missing.
    */
    method Run(untilMs: Option<int>, maxEvents: nat, settle: seq<Action>, world: nat -> seq<Action>) returns (r: RunResult)
      requires Valid()
      modifies this`heap, this`seqNo, this`issued, this`nowMs, this`log, this`deadAtRun, this`lost, this`repr, this.repr
      ensures Valid() && nowMs >= old(nowMs) && old(log) <= log && old(issued) <= issued && fresh(repr - old(repr))
      ensures old(deadAtRun) <= deadAtRun && forall i | |old(log)| <= i < |log| :: !deadAtRun[i]
      ensures r == InThePast <==> untilMs.Some? && untilMs.value < old(nowMs)
      ensures r == InThePast ==> log == old(log) && nowMs == old(nowMs) && heap == old(heap)
      ensures r == Finished && untilMs.None? ==> heap == []
      ensures r == Finished && untilMs.Some? ==> nowMs == untilMs.value && forall e | e in heap && !e.cancelled :: e.at > untilMs.value
      ensures untilMs.Some? && r != InThePast ==> forall e | e in log[|old(log)|..] :: e.at <= untilMs.value
      ensures r != Runaway ==> lost == old(lost)
      ensures |log| <= |old(log)| + maxEvents && (r == Runaway ==> |log| == |old(log)| + maxEvents)
    {
      hide Ordered, Numbered, Accounted, Holding;
      if untilMs.Some? && untilMs.value < nowMs { return InThePast; }
      Perform(settle);
      var count := 0;
      ghost var before := log;
      while true
        invariant Valid() && nowMs >= old(nowMs) && old(issued) <= issued && lost == old(lost)
        invariant fresh(repr - old(repr))
        invariant old(deadAtRun) <= deadAtRun && forall i | |before| <= i < |log| :: !deadAtRun[i]
        invariant before <= log && |log| == |before| + count && count <= maxEvents
        invariant untilMs.Some? ==> nowMs <= untilMs.value && forall e | e in log[|before|..] :: e.at <= untilMs.value
        decreases maxEvents - count
      {
        var ev := Pop();
        if ev.None? {
          if untilMs.Some? && untilMs.value > nowMs { AdvanceTo(untilMs.value); }
          return Finished;
        }
        if untilMs.Some? && ev.value.at > untilMs.value {
          PutBack(ev.value, untilMs.value);
          return Finished;
        }
        if count + 1 > maxEvents {
          Lose(ev.value);
          return Runaway;
        }
        count := count + 1;
        ghost var was := log;
        Execute(ev.value, world(count - 1));
        assert log[|before|..] == was[|before|..] + [ev.value];
      }
    }
  }

  lemma NumberBelow(issued: seq<Ev>, e: Ev)
    requires e in issued && forall k | 0 <= k < |issued| :: issued[k].seqNo == k
    ensures e.seqNo < |issued|
  {
  }

  lemma PushedOnce(was: seq<Ev>, h: seq<Ev>, e: Ev)
    requires Once(was) && e !in was && multiset(h) == multiset(was) + multiset{e}
    ensures Once(h) && (forall x | x in h :: x in was || x == e) && e in h && forall x | x in was :: x in h
  {
    forall x | x in h
      ensures multiset(h)[x] == 1 && (x in was || x == e)
    {
      assert x in multiset(h);
      if x in was { assert multiset(was)[x] == 1; } else { assert multiset(was)[x] == 0; }
    }
    assert e in multiset(h);
    forall x | x in was
      ensures x in h
    {
      assert x in multiset(h);
    }
  }

  lemma TakenOnce(was: seq<Ev>, h: seq<Ev>, top: Ev)
    requires Once(was) && top in was && multiset(h) == multiset(was) - multiset{top}
    ensures Once(h) && top !in h && (forall x | x in h :: x in was) && forall x | x in was :: x in h || x == top
  {
    assert multiset(was)[top] == 1;
    forall x | x in h
      ensures multiset(h)[x] == 1 && x in was && x != top
    {
      assert x in multiset(h);
      assert x in multiset(was);
      assert multiset(was)[x] == 1;
    }
    forall x | x in was
      ensures x in h || x == top
    {
      assert x in multiset(was);
      if x != top { assert x in multiset(h); }
    }
  }

  /** Distinct events are told apart by their numbers, so not earlier means later. */
  lemma LaterThan(issued: seq<Ev>, h: seq<Ev>, top: Ev)
    requires forall k | 0 <= k < |issued| :: issued[k].seqNo == k
    requires top in issued && top !in h && forall e | e in h :: e in issued && !Less(e, top)
    ensures forall e | e in h :: Less(top, e)
  {
    forall e | e in h
      ensures Less(top, e)
    {
      var i :| 0 <= i < |issued| && issued[i] == e;
      var j :| 0 <= j < |issued| && issued[j] == top;
      assert e.seqNo != top.seqNo;
    }
  }

  lemma LogGrows(log: seq<Ev>, e: Ev)
    requires InOrder(log) && (log != [] ==> Less(log[|log| - 1], e))
    ensures InOrder(log + [e])
  {
    forall i | 0 <= i < |log|
      ensures Less(log[i], e)
    {
      if i < |log| - 1 { assert Less(log[i], log[|log| - 1]); }
    }
  }

  lemma ButUpDone(h: seq<Ev>, i: nat)
    requires HeapButUp(h, i) && (0 < i < |h| ==> Fits(h, i))
    ensures HeapOk(h)
  {
  }

  lemma ButDownDone(h: seq<Ev>, i: nat)
    requires HeapButDown(h, i) && forall j | 0 < j < |h| && Parent(j) == i :: Fits(h, j)
    ensures HeapOk(h)
  {
  }

  /** Comparing with both children finds the least of the three. */
  lemma SmallestChild(h: seq<Ev>, i: nat, s: nat)
    requires i < |h| && s < |h| && (s == i || s == 2 * i + 1 || s == 2 * i + 2)
    requires s == i ==> (2 * i + 1 < |h| ==> !Less(h[2 * i + 1], h[i])) && (2 * i + 2 < |h| ==> !Less(h[2 * i + 2], h[i]))
    requires s != i ==> Less(h[s], h[i]) && (2 * i + 1 < |h| ==> !Less(h[2 * i + 1], h[s])) && (2 * i + 2 < |h| ==> !Less(h[2 * i + 2], h[s]))
    ensures forall j | 0 < j < |h| && Parent(j) == i :: !Less(h[j], h[s])
    ensures s == i ==> forall j | 0 < j < |h| && Parent(j) == i :: Fits(h, j)
    ensures s != i ==> s > 0 && Parent(s) == i && s > i
  {
    forall j | 0 < j < |h| && Parent(j) == i
      ensures j == 2 * i + 1 || j == 2 * i + 2
    {
    }
  }

  lemma PushedButUp(h: seq<Ev>, e: Ev)
    requires HeapOk(h)
    ensures HeapButUp(h + [e], |h|)
  {
    forall j | 0 < j < |h + [e]| && j != |h|
      ensures Fits(h + [e], j)
    {
      assert Fits(h, j);
    }
  }

  lemma NothingBeforeTop(h: seq<Ev>)
    requires HeapOk(h) && h != []
    ensures forall e | e in h :: !Less(e, h[0])
  {
    forall e | e in h
      ensures !Less(e, h[0])
    {
      var i :| 0 <= i < |h| && h[i] == e;
      TopFirst(h, i);
    }
  }

  /** The last event moved to the top of the shortened heap. */
  lemma MovedToTop(was: seq<Ev>, h: seq<Ev>, last: Ev)
    requires HeapOk(was) && was == h + [last] && h != []
    ensures HeapButDown(h[0 := last], 0)
    ensures multiset(h[0 := last]) == multiset(was) - multiset{was[0]}
  {
    forall j | 0 < j < |h| && Parent(j) != 0
      ensures Fits(h[0 := last], j)
    {
      assert Fits(was, j);
    }
    assert h == [h[0]] + h[1..] && h[0 := last] == [last] + h[1..];
    assert multiset(was) == multiset{h[0]} + multiset(h[1..]) + multiset{last};
  }

  lemma StillAfter(was: seq<Ev>, h: seq<Ev>, top: Ev)
    requires multiset(h) <= multiset(was) && forall e | e in was :: !Less(e, top)
    ensures forall e | e in h :: !Less(e, top)
  {
    forall e | e in h
      ensures e in was
    {
      assert multiset(h)[e] > 0;
      assert multiset(was)[e] > 0;
    }
  }
}
