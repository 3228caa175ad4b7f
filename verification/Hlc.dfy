/** Hybrid logical clocks and the total order over log entries (src/hlc.ts). */
module HlcClock {
  datatype Option<+T> = None | Some(value: T)

  /** hlc.c is always below this bound. */
  const C_LIMIT: nat := 0x1_0000_0000

  /** A stamp, and equally the state of a node's clock. */
  datatype Hlc = Hlc(l: nat, c: nat)

  /** The place of an entry in a topic's total order. */
  datatype Order = Order(l: nat, c: nat, writer: string, seqNo: nat)

  function Max(a: int, b: int): int { if a < b then b else a }

  function Min(a: int, b: int): int { if a < b then a else b }

  /** Stamp on append; None is the ERR_ENTRY_ENCODING overflow guard. */
  function Stamp(state: Hlc, pt: nat): (r: Option<Hlc>)
  {
    var l := Max(state.l, pt);
    var c := if l == state.l then state.c + 1 else 0;
    if c >= C_LIMIT then None else Some(Hlc(l, c))
  }

  /** Merge on receive, with the carry that keeps c below C_LIMIT. */
  function Merge(state: Hlc, remote: Hlc, pt: nat): (r: Hlc)
  {
    var l := Max(Max(state.l, remote.l), pt);
    var c :=
      if l == state.l && l == remote.l then Max(state.c, remote.c) + 1
      else if l == state.l then state.c + 1
      else if l == remote.l then remote.c + 1
      else 0;
    if c >= C_LIMIT then Hlc(l + 1, 0) else Hlc(l, c)
  }

  predicate IsOverEpsilon(remote: Hlc, pt: nat, epsilonMs: nat) { remote.l > pt + epsilonMs }

  function HlcCompare(a: Hlc, b: Hlc): int
  {
    if a.l != b.l then (if a.l < b.l then -1 else 1)
    else if a.c != b.c then (if a.c < b.c then -1 else 1)
    else 0
  }

  /** String comparison, character by character, a proper prefix first. */
  predicate StringLess(a: string, b: string)
  {
    if b == "" then false
    else if a == "" then true
    else a[0] < b[0] || (a[0] == b[0] && StringLess(a[1..], b[1..]))
  }

  function OrderCompare(a: Order, b: Order): int
  {
    if a.l != b.l then (if a.l < b.l then -1 else 1)
    else if a.c != b.c then (if a.c < b.c then -1 else 1)
    else if a.writer != b.writer then (if StringLess(a.writer, b.writer) then -1 else 1)
    else if a.seqNo != b.seqNo then (if a.seqNo < b.seqNo then -1 else 1)
    else 0
  }

  predicate Before(a: Order, b: Order) { OrderCompare(a, b) < 0 }

  // ---- the comparison is a strict total order ----

  lemma {:induction false} StringLessTotal(a: string, b: string)
    ensures StringLess(a, b) ==> !StringLess(b, a)
    ensures a == b || StringLess(a, b) || StringLess(b, a)
    ensures !StringLess(a, a)
  {
    if a != "" {
      StringLessTotal(a[1..], if b == "" then "" else b[1..]);
      if b != "" && a[0] == b[0] && a[1..] == b[1..] {
        assert a == [a[0]] + a[1..] && b == [b[0]] + b[1..];
      }
    }
  }

  lemma {:induction false} StringLessTransitive(a: string, b: string, c: string)
    requires StringLess(a, b) && StringLess(b, c)
    ensures StringLess(a, c)
  {
    if a != "" && a[0] == b[0] && b[0] == c[0] {
      StringLessTransitive(a[1..], b[1..], c[1..]);
    }
  }

  /** Exactly one of a < b, a == b, b < a. */
  lemma OrderTotal(a: Order, b: Order)
    ensures Before(a, b) ==> !Before(b, a)
    ensures a == b || Before(a, b) || Before(b, a)
    ensures !Before(a, a)
    ensures OrderCompare(a, b) == 0 <==> a == b
    ensures OrderCompare(a, b) == -OrderCompare(b, a)
  {
    StringLessTotal(a.writer, b.writer);
  }

  lemma OrderTransitive(a: Order, b: Order, c: Order)
    requires Before(a, b) && Before(b, c)
    ensures Before(a, c)
  {
    if a.l == b.l == c.l && a.c == b.c == c.c && a.writer != b.writer && b.writer != c.writer {
      StringLessTransitive(a.writer, b.writer, c.writer);
      StringLessTotal(a.writer, c.writer);
    }
  }

  /** The longest common prefix ends before the end of b, and a ends there or has the smaller character next. */
  ghost predicate SmallerAt(a: string, b: string, k: nat)
  {
    k <= |a| && k < |b| && a[..k] == b[..k] && (k == |a| || a[k] < b[k])
  }

  lemma {:induction false} StringLessIff(a: string, b: string)
    ensures StringLess(a, b) <==> exists k: nat :: SmallerAt(a, b, k)
  {
    if b == "" || a == "" {
      if b != "" { assert SmallerAt(a, b, 0); }
    } else {
      StringLessIff(a[1..], b[1..]);
      assert a == [a[0]] + a[1..] && b == [b[0]] + b[1..];
      if a[0] < b[0] { assert SmallerAt(a, b, 0); }
      if StringLess(a[1..], b[1..]) && a[0] == b[0] {
        var k: nat :| SmallerAt(a[1..], b[1..], k);
        assert a[..k + 1] == [a[0]] + a[1..][..k] && b[..k + 1] == [b[0]] + b[1..][..k];
        assert SmallerAt(a, b, k + 1);
      }
      forall k: nat | k > 0 && SmallerAt(a, b, k)
        ensures a[0] == b[0] && SmallerAt(a[1..], b[1..], k - 1)
      {
        assert a[0] == a[..k][0] && b[0] == b[..k][0];
        assert a[1..][..k - 1] == a[..k][1..] && b[1..][..k - 1] == b[..k][1..];
      }
    }
  }

  /** By time, then counter, then writer, then seq. */
  lemma BeforeIff(a: Order, b: Order)
    ensures Before(a, b) <==>
            || a.l < b.l
            || (a.l == b.l && a.c < b.c)
            || (a.l == b.l && a.c == b.c && exists k: nat :: SmallerAt(a.writer, b.writer, k))
            || (a.l == b.l && a.c == b.c && a.writer == b.writer && a.seqNo < b.seqNo)
  {
    StringLessIff(a.writer, b.writer);
    StringLessTotal(a.writer, b.writer);
    hide StringLess;
  }

  // ---- clock properties ----

  /** A merge moves the clock strictly past both inputs, never behind the wall clock, and keeps c bounded. */
  lemma MergeDominates(state: Hlc, remote: Hlc, pt: nat)
    requires state.c < C_LIMIT && remote.c < C_LIMIT
    ensures var m := Merge(state, remote, pt);
            HlcCompare(state, m) < 0 && HlcCompare(remote, m) < 0 && pt <= m.l && m.c < C_LIMIT
  {
  }

  /** Strictly earlier. */
  predicate Earlier(a: Hlc, b: Hlc) { a.l < b.l || (a.l == b.l && a.c < b.c) }

  predicate InBounds(h: Hlc) { h.c < C_LIMIT }

  /** A stamp is the first clock value past the clock and not behind the wall clock; it is refused exactly when the counter is used up. */
  lemma StampIsFirst(state: Hlc, pt: nat)
    requires InBounds(state)
    ensures Stamp(state, pt).None? <==> pt <= state.l && state.c + 1 == C_LIMIT
    ensures Stamp(state, pt).Some? ==> var h := Stamp(state, pt).value;
                                       Earlier(state, h) && pt <= h.l && InBounds(h) && forall o | Earlier(state, o) && pt <= o.l :: !Earlier(o, h)
  {
  }

  /** A merge is the first clock value in bounds that is past both clocks and not behind the wall clock. */
  lemma MergeIsFirst(state: Hlc, remote: Hlc, pt: nat)
    requires InBounds(state) && InBounds(remote)
    ensures var m := Merge(state, remote, pt);
            && Earlier(state, m) && Earlier(remote, m) && pt <= m.l && InBounds(m)
            && forall o | InBounds(o) && Earlier(state, o) && Earlier(remote, o) && pt <= o.l :: !Earlier(o, m)
  {
  }

  lemma CompareIff(a: Hlc, b: Hlc)
    ensures (HlcCompare(a, b) < 0 <==> Earlier(a, b)) && (HlcCompare(a, b) == 0 <==> a == b)
  {
  }

  /** One thing that happens to a node's clock. */
  datatype ClockEvent = StampAt(pt: nat) | MergeAt(remote: Hlc, pt: nat)

  predicate ValidEvent(e: ClockEvent) { e.MergeAt? ==> e.remote.c < C_LIMIT }

  /** The stamps a node hands out over a run of clock events; a refused stamp leaves the clock alone. */
  function Stamps(state: Hlc, events: seq<ClockEvent>): seq<Hlc>
    decreases |events|
  {
    if events == [] then []
    else
      match events[0]
      case StampAt(pt) =>
        (match Stamp(state, pt)
         case None => Stamps(state, events[1..])
         case Some(h) => [h] + Stamps(h, events[1..]))
      case MergeAt(remote, pt) => Stamps(Merge(state, remote, pt), events[1..])
  }

  /** Every stamp is above `floor` with a bounded counter, and the stamps strictly increase. */
  ghost predicate Increasing(floor: Hlc, stamps: seq<Hlc>)
  {
    && (forall i | 0 <= i < |stamps| :: HlcCompare(floor, stamps[i]) < 0 && stamps[i].c < C_LIMIT)
    && (forall i, j | 0 <= i < j < |stamps| :: HlcCompare(stamps[i], stamps[j]) < 0)
  }

  /**
    Over any run, with any wall clock (rewinds included) and any merged remote stamps, the stamps a
    node hands out strictly increase, all lie strictly above the starting clock, and the counter never
    reaches its bound.
  */
  lemma {:induction false} StampsStrictlyIncrease(state: Hlc, events: seq<ClockEvent>)
    requires state.c < C_LIMIT && forall e | e in events :: ValidEvent(e)
    ensures Increasing(state, Stamps(state, events))
    decreases |events|
  {
    if events != [] {
      assert ValidEvent(events[0]);
      match events[0]
      case StampAt(pt) =>
        if Stamp(state, pt).Some? {
          StampsStrictlyIncrease(Stamp(state, pt).value, events[1..]);
        } else {
          StampsStrictlyIncrease(state, events[1..]);
        }
      case MergeAt(remote, pt) =>
        MergeDominates(state, remote, pt);
        StampsStrictlyIncrease(Merge(state, remote, pt), events[1..]);
    }
  }
}
