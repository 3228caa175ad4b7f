/**
  Acknowledged retention (src/retention.ts, src/log.ts:1246-1329): which members pin the floor, how far
  each stream may be pruned, and why a member that keeps what it acknowledged never meets a floor.
*/
module Retention {
  import opened HlcClock
  import opened Entries
  import opened Streams

  /** What streamHead reads of a row. */
  datatype Row = Row(rowid: nat, seqNo: nat, hlcL: nat, chain: Chain)

  datatype StreamView = StreamView(writer: string, contigSeq: nat, seal: SealReason, finalSeq: Option<nat>, recovering: bool)

  /** sq_ack_nodes. */
  datatype AckNode = AckNode(firstAt: nat, seenAt: Option<nat>, proto: Option<nat>)

  datatype Options = Options(
    olderThanMs: nat, maxLagMs: nat, members: Option<set<string>>, excludeMembers: set<string>, maxRows: nat, dryRun: bool)

  // ---- who pins ----

  function MaxOption(a: Option<nat>, b: Option<nat>): Option<nat>
  {
    if a.None? then b else if b.None? then a else if a.value < b.value then b else a
  }

  /** The newest sign of life of a node; a host-named node never seen before counts from now. */
  function Evidence(nodes: map<string, AckNode>, newest: map<string, nat>, named: bool, now: nat, node: string): Option<nat>
  {
    var seen := if node in nodes then nodes[node].seenAt else None;
    var first := if node in nodes then Some(nodes[node].firstAt) else if named then Some(now) else None;
    MaxOption(MaxOption(seen, first), if node in newest then Some(newest[node]) else None)
  }

  /** The candidates: the named members, or every recorded node and every writer not retired; never this node. */
  predicate Candidate(nodes: map<string, AckNode>, o: Options, streams: seq<StreamView>, self: string, node: string)
  {
    && node != self
    && match o.members
       case Some(members) => node in members
       case None => node in nodes || exists s :: s in streams && s.seal != Retired && s.writer == node
  }

  predicate Current(nodes: map<string, AckNode>, newest: map<string, nat>, o: Options, now: nat, node: string)
  {
    var e := Evidence(nodes, newest, o.members.Some?, now, node);
    node !in o.excludeMembers && e.Some? && now - e.value <= o.maxLagMs
  }

  function CandidateNames(nodes: map<string, AckNode>, o: Options, streams: seq<StreamView>, self: string): set<string>
  {
    (match o.members
     case Some(members) => members
     case None => nodes.Keys + set s | s in streams && s.seal != Retired :: s.writer) - {self}
  }

  /** How many times the allowed lag a silent node is remembered. */
  const ACK_FORGET_LAG_MULTIPLE: nat := 2

  datatype Exclusion = Excluded | Lagging

  /** What pruneAcked reports of a candidate. */
  datatype MemberReport = MemberReport(node: string, lastSeenAt: Option<nat>, why: Option<Exclusion>)

  function ReportOf(nodes: map<string, AckNode>, newest: map<string, nat>, o: Options, now: nat, node: string): MemberReport
  {
    var why :=
      if node in o.excludeMembers then Some(Excluded)
      else if !Current(nodes, newest, o, now, node) then Some(Lagging)
      else None;
    MemberReport(node, if node in nodes then nodes[node].seenAt else None, why)
  }

  /** A recorded node the host excludes, or silent for long, is forgotten. */
  predicate Forgettable(nodes: map<string, AckNode>, newest: map<string, nat>, o: Options, now: nat, node: string)
  {
    var e := Evidence(nodes, newest, o.members.Some?, now, node);
    node in nodes && (node in o.excludeMembers || (e.Some? && now - e.value > o.maxLagMs * ACK_FORGET_LAG_MULTIPLE))
  }

  /** planMembers' plan: every current candidate pins, every candidate is reported, and exactly the long gone are forgotten. */
  ghost predicate Planned(nodes: map<string, AckNode>, newest: map<string, nat>, o: Options, streams: seq<StreamView>, self: string, now: nat,
                          p: Plan)
  {
    && (forall n :: n in p.included <==> Candidate(nodes, o, streams, self, n) && Current(nodes, newest, o, now, n))
    && (forall n :: n in p.forget <==> Candidate(nodes, o, streams, self, n) && Forgettable(nodes, newest, o, now, n))
    && (forall r :: r in p.members <==> Candidate(nodes, o, streams, self, r.node) && r == ReportOf(nodes, newest, o, now, r.node))
  }

  datatype Plan = Plan(members: seq<MemberReport>, included: seq<string>, forget: seq<string>)

  method PlanMembers(nodes: map<string, AckNode>, newest: map<string, nat>, o: Options, streams: seq<StreamView>, self: string, now: nat)
    returns (p: Plan)
    ensures Planned(nodes, newest, o, streams, self, now, p)
  {
    p := Plan([], [], []);
    var todo := CandidateNames(nodes, o, streams, self);
    ghost var names := todo;
    assert forall n :: n in names <==> Candidate(nodes, o, streams, self, n);
    hide Current, Forgettable, Candidate;
    while todo != {}
      invariant todo <= names
      invariant forall n :: n in p.included <==> n in names - todo && Current(nodes, newest, o, now, n)
      invariant forall n :: n in p.forget <==> n in names - todo && Forgettable(nodes, newest, o, now, n)
      invariant forall r :: r in p.members <==> r.node in names - todo && r == ReportOf(nodes, newest, o, now, r.node)
    {
      var node :| node in todo;
      todo := todo - {node};
      var r := ReportOf(nodes, newest, o, now, node);
      p := p.(members := p.members + [r]);
      if r.why.None? { p := p.(included := p.included + [node]); }
      if Forgettable(nodes, newest, o, now, node) { p := p.(forget := p.forget + [node]); }
    }
  }

  /**
    Who pins, told by signs of life: when a node was last seen, when it was first, or now for one the host names and that
    is not on record, and the newest row it wrote. A candidate that is not excluded pins if and only if one of them is at
    most the allowed lag old; it is forgotten exactly when on record, and excluded or with every sign older than
    twice that; and it is reported with just that reason.
  */
  lemma PlanSays(nodes: map<string, AckNode>, newest: map<string, nat>, o: Options, streams: seq<StreamView>, self: string, now: nat, p: Plan, n: string)
    requires Planned(nodes, newest, o, streams, self, now, p)
    ensures var candidate := n != self && (if o.members.Some? then n in o.members.value
                                           else n in nodes || exists s :: s in streams && s.writer == n && s.seal != Retired);
            var excluded := n in o.excludeMembers;
            var recent := (n in nodes && (now - nodes[n].firstAt <= o.maxLagMs || (nodes[n].seenAt.Some? && now - nodes[n].seenAt.value <= o.maxLagMs)))
                          || (n !in nodes && o.members.Some?) || (n in newest && now - newest[n] <= o.maxLagMs);
            var silent := (n in nodes ==> now - nodes[n].firstAt > 2 * o.maxLagMs && (nodes[n].seenAt.Some? ==> now - nodes[n].seenAt.value > 2 * o.maxLagMs))
                          && (n in newest ==> now - newest[n] > 2 * o.maxLagMs);
            && (n in p.included <==> candidate && !excluded && recent)
            && (n in p.forget <==> candidate && n in nodes && (excluded || silent))
            && (candidate <==> exists r :: r in p.members && r.node == n)
            && forall r | r in p.members && r.node == n ::
                 r.lastSeenAt == (if n in nodes then nodes[n].seenAt else None)
                 && r.why == if excluded then Some(Excluded) else if recent then None else Some(Lagging)
  {
    assert Candidate(nodes, o, streams, self, n) ==> ReportOf(nodes, newest, o, now, n) in p.members;
  }

  /** Who pins the floor is not forgotten. */
  lemma PinnersRemembered(nodes: map<string, AckNode>, newest: map<string, nat>, o: Options, streams: seq<StreamView>, self: string, now: nat,
                          p: Plan, node: string)
    requires Planned(nodes, newest, o, streams, self, now, p) && node in p.included
    ensures node !in p.forget
  {
  }

  // ---- how far ----

  /** A retired stream may go to its end, a live one to its head. */
  function CapOf(s: StreamView): nat
  {
    if s.seal == Retired then (if s.finalSeq.Some? then s.finalSeq.value else s.contigSeq) else s.contigSeq
  }

  /** What a member holds of a stream: what it acknowledged, all of it if it is the author, else nothing. */
  function AckOf(acks: map<(string, string), nat>, node: string, s: StreamView): nat
  {
    if (node, s.writer) in acks then acks[(node, s.writer)] else if node == s.writer then CapOf(s) else 0
  }

  /** The least any included member holds of a stream, at most its cap. */
  ghost predicate IsAckFloor(acks: map<(string, string), nat>, included: seq<string>, s: StreamView, floor: nat)
  {
    && floor <= CapOf(s) && (forall m | m in included :: floor <= AckOf(acks, m, s))
    && (floor == CapOf(s) || exists m :: m in included && floor == AckOf(acks, m, s))
  }

  /** Who holds the floor down: nobody, or a node on record for less than the cap. */
  ghost predicate IsPinner(acks: map<(string, string), nat>, included: seq<string>, s: StreamView, floor: nat, pinnedBy: Option<string>)
  {
    match pinnedBy
    case None => floor == CapOf(s)
    case Some(m) => m in included && floor == AckOf(acks, m, s) < CapOf(s)
  }

  /** ackFloors, one stream: the least any included member holds, and who holds it down. */
  method AckFloor(acks: map<(string, string), nat>, included: seq<string>, s: StreamView) returns (floor: nat, pinnedBy: Option<string>)
    ensures IsAckFloor(acks, included, s, floor) && IsPinner(acks, included, s, floor, pinnedBy)
  {
    floor, pinnedBy := CapOf(s), None;
    var i := 0;
    while i < |included|
      invariant 0 <= i <= |included|
      invariant floor <= CapOf(s) && forall m | m in included[..i] :: floor <= AckOf(acks, m, s)
      invariant match pinnedBy
                case None => floor == CapOf(s)
                case Some(m) => m in included && floor == AckOf(acks, m, s) < CapOf(s)
    {
      var a := AckOf(acks, included[i], s);
      if a < floor { floor, pinnedBy := a, Some(included[i]); }
      i := i + 1;
    }
    assert included[..i] == included;
  }

  function HeadCap(s: StreamView): int { if s.seal == Retired then CapOf(s) else s.contigSeq - 1 }

  function FloorSeq(floor: Option<Mark>): nat { if floor.Some? then floor.value.seqNo else 0 }

  function PruneTarget(s: StreamView, ackFloor: nat, floor: Option<Mark>): int { Max(Min(ackFloor, HeadCap(s)), FloorSeq(floor)) }

  /** At or below the target, old enough, and read by every consumer. */
  predicate Deletable(r: Row, target: int, cutoff: int, cursorFloor: Option<nat>)
  {
    r.seqNo <= target && r.hlcL < cutoff && (cursorFloor.Some? ==> r.rowid <= cursorFloor.value)
  }

  /** How many rows from the front may go: the walk stops at the first that may not, or at the budget. */
  method WalkPrefix(rows: seq<Row>, target: int, cutoff: int, cursorFloor: Option<nat>, budget: nat) returns (n: nat)
    ensures n <= |rows| && n <= budget && forall i | 0 <= i < n :: Deletable(rows[i], target, cutoff, cursorFloor)
    ensures n == budget || n == |rows| || !Deletable(rows[n], target, cutoff, cursorFloor)
  {
    n := 0;
    while n < |rows|
      invariant n <= |rows| && n <= budget
      invariant forall i | 0 <= i < n :: Deletable(rows[i], target, cutoff, cursorFloor)
    {
      if !Deletable(rows[n], target, cutoff, cursorFloor) || n == budget { return; }
      n := n + 1;
    }
  }

  ghost predicate BySeq(rows: seq<Row>) { forall i, j | 0 <= i < j < |rows| :: rows[i].seqNo < rows[j].seqNo }

  /** deleteStreamPrefix. */
  function RowsAbove(rows: seq<Row>, seqNo: nat): seq<Row>
  {
    if rows == [] then [] else (if rows[0].seqNo > seqNo then [rows[0]] else []) + RowsAbove(rows[1..], seqNo)
  }

  /** Deleting up to the seq of the n-th row deletes exactly the first n. */
  lemma {:induction false} DropsPrefix(rows: seq<Row>, n: nat)
    requires BySeq(rows) && 0 < n <= |rows|
    ensures RowsAbove(rows, rows[n - 1].seqNo) == rows[n..]
  {
    if n == 1 {
      NothingDropped(rows[1..], rows[0].seqNo);
    } else {
      assert rows[1..][n - 2] == rows[n - 1];
      DropsPrefix(rows[1..], n - 1);
    }
  }

  lemma {:induction false} NothingDropped(rows: seq<Row>, seqNo: nat)
    requires forall r | r in rows :: r.seqNo > seqNo
    ensures RowsAbove(rows, seqNo) == rows
  {
    if rows != [] {
      NothingDropped(rows[1..], seqNo);
    }
  }

  /** How many rows go: the longest deletable prefix within the budget; none of a forked or recovering stream. */
  ghost predicate Walked(s: StreamView, ackFloor: nat, cutoff: int, cursorFloor: Option<nat>, budget: nat, n: nat, rows: seq<Row>, floor: Option<Mark>)
  {
    var target := PruneTarget(s, ackFloor, floor);
    if s.seal == Fork || s.recovering then n == 0
    else
      && n <= |rows| && n <= budget
      && (forall i | 0 <= i < n :: Deletable(rows[i], target, cutoff, cursorFloor))
      && (n == budget || n == |rows| || !Deletable(rows[n], target, cutoff, cursorFloor))
  }

  /** The last of the first n rows becomes the floor if it is higher. */
  function FloorAfter(rows: seq<Row>, floor: Option<Mark>, n: nat): Option<Mark>
    requires n <= |rows|
  {
    if n > 0 && rows[n - 1].seqNo > FloorSeq(floor) then Some(Mark(rows[n - 1].seqNo, rows[n - 1].chain)) else floor
  }

  /** One stream after a prune: that prefix is gone, and the floor is the last of it if that raises it. */
  ghost predicate StreamPruned(s: StreamView, ackFloor: nat, cutoff: int, cursorFloor: Option<nat>, budget: nat, n: nat,
                               rows: seq<Row>, floor: Option<Mark>, rows': seq<Row>, floor': Option<Mark>)
  {
    && Walked(s, ackFloor, cutoff, cursorFloor, budget, n, rows, floor) && n <= |rows| && rows' == rows[n..]
    && floor' == FloorAfter(rows, floor, n)
  }

  /** Nothing more of this stream could go. */
  ghost predicate DoneWith(s: StreamView, ackFloor: nat, cutoff: int, cursorFloor: Option<nat>, n: nat, rows: seq<Row>, floor: Option<Mark>)
  {
    s.seal == Fork || s.recovering || n >= |rows| || !Deletable(rows[n], PruneTarget(s, ackFloor, floor), cutoff, cursorFloor)
  }

  /** What a prune did: rows gone (or, on a dry run, that would go), and whether some may be left for another call. */
  datatype PruneResult = PruneResult(pruned: nat, more: bool, counts: seq<nat>, ackFloors: seq<nat>, plan: Plan, writers: seq<WriterReport>)

  datatype Skipped = SkippedFork | SkippedRecovery

  /** What pruneAcked reports of a stream. */
  datatype WriterReport = WriterReport(floor: nat, ackFloor: nat, pinnedBy: Option<string>, skipped: Option<Skipped>)

  function SkipOf(s: StreamView): Option<Skipped>
  {
    if s.seal == Fork then Some(SkippedFork) else if s.recovering then Some(SkippedRecovery) else None
  }

  /** The floor where the counted rows put it, deleted or not. */
  ghost predicate Reached(n: nat, rows: seq<Row>, floor: Option<Mark>, seqNo: nat) { n <= |rows| && seqNo == FloorSeq(FloorAfter(rows, floor, n)) }

  /** hlcLAt. */
  function TimeAt(rows: seq<Row>, seqNo: nat): Option<nat>
  {
    if rows == [] then None else if rows[0].seqNo == seqNo then Some(rows[0].hlcL) else TimeAt(rows[1..], seqNo)
  }

  /** The row at this seq is held, and stamped t. */
  ghost predicate StampedAt(rows: seq<Row>, seqNo: nat, t: nat) { exists i :: 0 <= i < |rows| && rows[i].seqNo == seqNo && rows[i].hlcL == t }

  lemma {:induction false} TimeIs(rows: seq<Row>, seqNo: nat, t: nat)
    requires BySeq(rows)
    ensures TimeAt(rows, seqNo) == Some(t) <==> StampedAt(rows, seqNo, t)
  {
    if rows != [] {
      TimeIs(rows[1..], seqNo, t);
      if StampedAt(rows, seqNo, t) && rows[0].seqNo != seqNo {
        var i :| 0 <= i < |rows| && rows[i].seqNo == seqNo && rows[i].hlcL == t;
        assert rows[1..][i - 1] == rows[i];
      }
      if StampedAt(rows[1..], seqNo, t) {
        var i :| 0 <= i < |rows[1..]| && rows[1..][i].seqNo == seqNo && rows[1..][i].hlcL == t;
        assert rows[i + 1] == rows[1..][i];
      }
    }
  }

  /** Among the first k streams one of this writer has rows, and its head row, held, is stamped t. */
  ghost predicate HeadTime(streams: seq<StreamView>, k: nat, rows: map<string, seq<Row>>, w: string, t: nat)
    requires k <= |streams|
  {
    exists j :: 0 <= j < k && streams[j].writer == w && streams[j].contigSeq > 0 && w in rows && StampedAt(rows[w], streams[j].contigSeq, t)
  }

  /** The newest row times by writer are exactly those of the first k streams. */
  ghost predicate TimesOf(newest: map<string, nat>, streams: seq<StreamView>, k: nat, rows: map<string, seq<Row>>)
    requires k <= |streams|
  {
    forall w, t: nat :: (if w in newest then Some(newest[w]) else None) == Some(t) <==> HeadTime(streams, k, rows, w, t)
  }

  lemma OneMoreTime(streams: seq<StreamView>, k: nat, rows: map<string, seq<Row>>, newest: map<string, nat>, at: Option<nat>)
    requires k < |streams| && DistinctWriters(streams) && TimesOf(newest, streams, k, rows)
    requires var s := streams[k];
             forall t: nat :: at == Some(t) <==> s.contigSeq > 0 && s.writer in rows && StampedAt(rows[s.writer], s.contigSeq, t)
    ensures TimesOf(if at.Some? then newest[streams[k].writer := at.value] else newest, streams, k + 1, rows)
  {
    hide StampedAt;
    var newest', next := if at.Some? then newest[streams[k].writer := at.value] else newest, k + 1;
    forall w, t: nat
      ensures (if w in newest' then Some(newest'[w]) else None) == Some(t) <==> HeadTime(streams, next, rows, w, t)
    {
      if w == streams[k].writer {
        assert !HeadTime(streams, k, rows, w, t);
        if at == Some(t) { assert HeadTime(streams, next, rows, w, t); }
      } else {
        assert HeadTime(streams, next, rows, w, t) <==> HeadTime(streams, k, rows, w, t);
      }
    }
  }

  /** The rows, floors and acknowledgments of one topic at one node. */
  class AckedTopic {
    const self: string
    var rows: map<string, seq<Row>>
    var floors: map<string, Mark>
    /** By node and writer. */
    var acks: map<(string, string), nat>
    var nodes: map<string, AckNode>

    constructor (self: string, rows: map<string, seq<Row>>, floors: map<string, Mark>, acks: map<(string, string), nat>, nodes: map<string, AckNode>)
      ensures this.self == self && this.rows == rows && this.floors == floors && this.acks == acks && this.nodes == nodes
    {
      this.self, this.rows, this.floors, this.acks, this.nodes := self, rows, floors, acks, nodes;
    }

    ghost predicate Valid()
      reads this`rows
    {
      forall w | w in rows :: BySeq(rows[w])
    }

    function RowsOf(w: string): seq<Row>
      reads this`rows
    {
      if w in rows then rows[w] else []
    }

    function FloorOf(w: string): Option<Mark>
      reads this`floors
    {
      if w in floors then Some(floors[w]) else None
    }

    /** The stamp of each stream's head row, where that is held. */
    method HeadTimes(streams: seq<StreamView>) returns (newest: map<string, nat>)
      requires Valid() && DistinctWriters(streams)
      ensures TimesOf(newest, streams, |streams|, rows)
    {
      newest := map[];
      var k := 0;
      while k < |streams|
        invariant 0 <= k <= |streams|
        invariant TimesOf(newest, streams, k, rows)
      {
        var s := streams[k];
        var at := if s.contigSeq == 0 then None else TimeAt(RowsOf(s.writer), s.contigSeq);
        forall t: nat { TimeIs(RowsOf(s.writer), s.contigSeq, t); }
        OneMoreTime(streams, k, rows, newest, at);
        if at.Some? { newest := newest[s.writer := at.value]; }
        k := k + 1;
      }
    }

    /** deleteStreamPrefix, with the floor raised to its last row. */
    method DropFirst(w: string, n: nat)
      requires Valid() && 0 < n <= |RowsOf(w)|
      modifies this`rows, this`floors
      ensures Valid() && RowsOf(w) == old(RowsOf(w))[n..] && FloorOf(w) == FloorAfter(old(RowsOf(w)), old(FloorOf(w)), n)
      ensures forall v | v != w :: RowsOf(v) == old(RowsOf(v)) && FloorOf(v) == old(FloorOf(v))
    {
      var held, prev := RowsOf(w), FloorOf(w);
      var last := held[n - 1];
      if last.seqNo > FloorSeq(prev) { floors := floors[w := Mark(last.seqNo, last.chain)]; }
      DropsPrefix(held, n);
      rows := rows[w := RowsAbove(held, last.seqNo)];
    }

    /** Walk and delete one stream's prefix; on a dry run only count it. */
    method PruneStream(s: StreamView, ackFloor: nat, cutoff: int, cursorFloor: Option<nat>, budget: nat, dryRun: bool) returns (n: nat, more: bool)
      requires Valid()
      modifies this`rows, this`floors
      ensures Valid() && n <= budget && (more ==> n == budget)
      ensures forall w | w != s.writer :: RowsOf(w) == old(RowsOf(w)) && FloorOf(w) == old(FloorOf(w))
      ensures Handled(s, ackFloor, cutoff, cursorFloor, budget, dryRun, n, more, old(RowsOf(s.writer)), old(FloorOf(s.writer)),
                      RowsOf(s.writer), FloorOf(s.writer))
      ensures dryRun ==> rows == old(rows) && floors == old(floors)
    {
      hide Deletable, PruneTarget;
      n, more := 0, false;
      if s.seal == Fork || s.recovering { return; }
      if budget == 0 { return 0, true; }
      var held := RowsOf(s.writer);
      var target := PruneTarget(s, ackFloor, FloorOf(s.writer));
      n := WalkPrefix(held, target, cutoff, cursorFloor, budget);
      more := n == budget && |held| > n && Deletable(held[n], target, cutoff, cursorFloor);
      if n == 0 || dryRun { return; }
      DropFirst(s.writer, n);
    }

    /** The streams of the topic, each with its ack floor, within one budget of rows. */
    method PruneStreams(streams: seq<StreamView>, ackFloors: seq<nat>, o: Options, now: nat, cursorFloor: Option<nat>)
      returns (counts: seq<nat>, more: bool, reached: seq<nat>)
      requires Valid() && |ackFloors| == |streams| && DistinctWriters(streams)
      modifies this`rows, this`floors
      ensures Valid() && |counts| == |streams| && Sum(counts) <= o.maxRows && (more ==> Sum(counts) == o.maxRows)
      ensures o.dryRun ==> rows == old(rows) && floors == old(floors)
      ensures |reached| == |streams|
      ensures forall i | 0 <= i < |streams| :: Reached(counts[i], old(RowsOf(streams[i].writer)), old(FloorOf(streams[i].writer)), reached[i])
      ensures forall i | 0 <= i < |streams| ::
                HandledAt(streams, ackFloors, o, now, cursorFloor, counts, more, i, old(RowsOf(streams[i].writer)), old(FloorOf(streams[i].writer)),
                          RowsOf(streams[i].writer), FloorOf(streams[i].writer))
      ensures forall w | !exists s :: s in streams && s.writer == w :: RowsOf(w) == old(RowsOf(w)) && FloorOf(w) == old(FloorOf(w))
    {
      hide BySeq, Sum, Handled, HandledAt, Reached;
      counts, more, reached := [], false, [];
      var budget := o.maxRows;
      NoneSummed();
      var k := 0;
      while k < |streams|
        invariant 0 <= k <= |streams| == |ackFloors| && |counts| == k && Valid() && Sum(counts) + budget == o.maxRows && (more ==> budget == 0)
        invariant o.dryRun ==> rows == old(rows) && floors == old(floors)
        invariant |reached| == k
        invariant forall i | 0 <= i < k :: Reached(counts[i], old(RowsOf(streams[i].writer)), old(FloorOf(streams[i].writer)), reached[i])
        invariant forall i | 0 <= i < k ::
                    HandledAt(streams, ackFloors, o, now, cursorFloor, counts, more, i, old(RowsOf(streams[i].writer)), old(FloorOf(streams[i].writer)),
                              RowsOf(streams[i].writer), FloorOf(streams[i].writer))
        invariant forall w | !exists i :: 0 <= i < k && streams[i].writer == w :: RowsOf(w) == old(RowsOf(w)) && FloorOf(w) == old(FloorOf(w))
      {
        var w := streams[k].writer;
        assert RowsOf(w) == old(RowsOf(w)) && FloorOf(w) == old(FloorOf(w));
        var held, prev := RowsOf(w), FloorOf(w);
        var n, left := PruneStream(streams[k], ackFloors[k], now - o.olderThanMs, cursorFloor, budget, o.dryRun);
        ReachedNow(streams[k], ackFloors[k], now - o.olderThanMs, cursorFloor, budget, o.dryRun, n, left, old(RowsOf(w)), old(FloorOf(w)), RowsOf(w), FloorOf(w));
        reached := reached + [FloorSeq(FloorAfter(held, prev, n))];
        OneMoreHandled(streams, ackFloors, o, now, cursorFloor, counts, more, n, left, budget, old(RowsOf(w)), old(FloorOf(w)), RowsOf(w), FloorOf(w));
        OneMoreSummed(counts, n);
        counts := counts + [n];
        budget := budget - n;
        more := more || left;
        k := k + 1;
      }
    }

    /**
      pruneAcked: refused for a topic without acknowledged retention; else plan who pins, take each stream's ack
      floor, prune, report, and forget the long gone. Every stream loses exactly its longest deletable prefix the
      row budget allows, and nothing else changes; a dry run counts and reports the same and changes nothing; `more`
      is false only when nothing deletable is left.
    */
    method PruneAcked(streams: seq<StreamView>, o: Options, now: nat, cursorFloor: Option<nat>, refused: bool)
      returns (r: Option<PruneResult>, ghost newest: map<string, nat>)
      requires Valid() && DistinctWriters(streams)
      modifies this`rows, this`floors, this`acks, this`nodes
      ensures Valid() && (r.None? <==> refused)
      ensures refused || o.dryRun ==> rows == old(rows) && floors == old(floors) && acks == old(acks) && nodes == old(nodes)
      ensures r.Some? ==> TimesOf(newest, streams, |streams|, old(rows))
      ensures r.Some? ==> Planned(old(nodes), newest, o, streams, self, now, r.value.plan)
      ensures r.Some? ==> |r.value.counts| == |streams| == |r.value.ackFloors| == |r.value.writers| && r.value.pruned == Sum(r.value.counts) <= o.maxRows
      ensures r.Some? && r.value.more ==> r.value.pruned == o.maxRows
      ensures r.Some? ==> forall i | 0 <= i < |streams| ::
                HandledAt(streams, r.value.ackFloors, o, now, cursorFloor, r.value.counts, r.value.more, i,
                          old(RowsOf(streams[i].writer)), old(FloorOf(streams[i].writer)), RowsOf(streams[i].writer), FloorOf(streams[i].writer))
      ensures r.Some? ==> forall i | 0 <= i < |streams| ::
                var w := r.value.writers[i];
                && IsAckFloor(old(acks), r.value.plan.included, streams[i], r.value.ackFloors[i])
                && IsPinner(old(acks), r.value.plan.included, streams[i], w.ackFloor, w.pinnedBy)
                && w.ackFloor == r.value.ackFloors[i]
                && (w.skipped == Some(SkippedFork) <==> streams[i].seal == Fork)
                && (w.skipped == Some(SkippedRecovery) <==> streams[i].seal != Fork && streams[i].recovering)
                && Reached(r.value.counts[i], old(RowsOf(streams[i].writer)), old(FloorOf(streams[i].writer)), w.floor)
      ensures forall w | !exists s :: s in streams && s.writer == w :: RowsOf(w) == old(RowsOf(w)) && FloorOf(w) == old(FloorOf(w))
      ensures r.Some? && !o.dryRun ==> forall k: (string, string) :: k in acks <==> k in old(acks) && k.0 !in r.value.plan.forget
      ensures r.Some? && !o.dryRun ==> forall k | k in acks :: acks[k] == old(acks)[k]
      ensures r.Some? && !o.dryRun ==> forall n ::
                n in nodes <==> n !in r.value.plan.forget && (n in old(nodes) || (o.members.Some? && n in o.members.value && n != self))
      ensures r.Some? && !o.dryRun ==> forall n | n in nodes :: nodes[n] == if n in old(nodes) then old(nodes)[n] else AckNode(now, None, None)
    {
      hide Planned, HandledAt, Sum, BySeq, IsAckFloor, DistinctWriters, IsPinner, Reached, TimesOf;
      if refused { return None, map[]; }
      var times := HeadTimes(streams);
      newest := times;
      var plan := PlanMembers(nodes, times, o, streams, self, now);
      var ackFloors, pinners := AckFloors(acks, plan.included, streams);
      var counts, more, reached := PruneStreams(streams, ackFloors, o, now, cursorFloor);
      var pruned := Total(counts);
      if !o.dryRun {
        acks := Without(acks, plan.forget);
        nodes := Noted(nodes, o, self, now, plan.forget);
      }
      var writers := seq(|streams|, i requires 0 <= i < |streams| => WriterReport(reached[i], ackFloors[i], pinners[i], SkipOf(streams[i])));
      r := Some(PruneResult(pruned, more, counts, ackFloors, plan, writers));
    }
  }

  /** ackFloors. */
  method AckFloors(acks: map<(string, string), nat>, included: seq<string>, streams: seq<StreamView>)
    returns (floors: seq<nat>, pinners: seq<Option<string>>)
    ensures |floors| == |streams| && forall i | 0 <= i < |streams| :: IsAckFloor(acks, included, streams[i], floors[i])
    ensures |pinners| == |streams| && forall i | 0 <= i < |streams| :: IsPinner(acks, included, streams[i], floors[i], pinners[i])
  {
    hide IsAckFloor, IsPinner;
    floors, pinners := [], [];
    var k := 0;
    while k < |streams|
      invariant 0 <= k <= |streams| && |floors| == |pinners| == k
      invariant forall i | 0 <= i < k :: IsAckFloor(acks, included, streams[i], floors[i])
      invariant forall i | 0 <= i < k :: IsPinner(acks, included, streams[i], floors[i], pinners[i])
    {
      var floor, pinnedBy := AckFloor(acks, included, streams[k]);
      floors, pinners := floors + [floor], pinners + [pinnedBy];
      k := k + 1;
    }
  }

  /** ackForget: no acknowledgment of these nodes stays. */
  function Without(acks: map<(string, string), nat>, forget: seq<string>): map<(string, string), nat>
  {
    map k | k in acks && k.0 !in forget :: acks[k]
  }

  /** ackNodeName starts the clock of a host-named node never seen; a forgotten node is gone. */
  function Noted(nodes: map<string, AckNode>, o: Options, self: string, now: nat, forget: seq<string>): map<string, AckNode>
  {
    var named := if o.members.Some? then map n | n in o.members.value && n != self && n !in nodes :: AckNode(now, None, None) else map[];
    var all := nodes + named;
    map n | n in all && n !in forget :: all[n]
  }

  method Total(ns: seq<nat>) returns (t: nat)
    ensures t == Sum(ns)
  {
    t := 0;
    var i := 0;
    while i < |ns|
      invariant 0 <= i <= |ns| && t == Sum(ns[..i])
    {
      assert ns[..i + 1][..i] == ns[..i];
      t := t + ns[i];
      i := i + 1;
    }
    assert ns[..i] == ns;
  }

  /** One stream handled: counted exactly, deleted unless on a dry run, and done with unless more is announced. */
  ghost predicate Handled(s: StreamView, ackFloor: nat, cutoff: int, cursorFloor: Option<nat>, budget: nat, dryRun: bool, n: nat, more: bool,
                          rows: seq<Row>, floor: Option<Mark>, rows': seq<Row>, floor': Option<Mark>)
  {
    && Walked(s, ackFloor, cutoff, cursorFloor, budget, n, rows, floor)
    && (if dryRun then rows' == rows && floor' == floor
        else StreamPruned(s, ackFloor, cutoff, cursorFloor, budget, n, rows, floor, rows', floor'))
    && (!more ==> DoneWith(s, ackFloor, cutoff, cursorFloor, n, rows, floor))
  }

  /** The i-th stream handled with what the streams before it left of the budget. */
  ghost predicate HandledAt(streams: seq<StreamView>, ackFloors: seq<nat>, o: Options, now: nat, cursorFloor: Option<nat>, counts: seq<nat>, more: bool,
                            i: nat, rows: seq<Row>, floor: Option<Mark>, rows': seq<Row>, floor': Option<Mark>)
    requires i < |streams| && i < |ackFloors|
  {
    i < |counts| && Sum(counts[..i]) <= o.maxRows
    && Handled(streams[i], ackFloors[i], now - o.olderThanMs, cursorFloor, o.maxRows - Sum(counts[..i]), o.dryRun, counts[i], more,
               rows, floor, rows', floor')
  }

  lemma ReachedNow(s: StreamView, ackFloor: nat, cutoff: int, cursorFloor: Option<nat>, budget: nat, dryRun: bool, n: nat, more: bool,
                   rows: seq<Row>, floor: Option<Mark>, rows': seq<Row>, floor': Option<Mark>)
    requires Handled(s, ackFloor, cutoff, cursorFloor, budget, dryRun, n, more, rows, floor, rows', floor')
    ensures n <= |rows| && Reached(n, rows, floor, FloorSeq(FloorAfter(rows, floor, n)))
  {
  }

  /** Handling one more stream leaves what was said of the earlier ones, and says the same of it. */
  lemma OneMoreHandled(streams: seq<StreamView>, ackFloors: seq<nat>, o: Options, now: nat, cursorFloor: Option<nat>, counts: seq<nat>, more: bool,
                       n: nat, left: bool, budget: nat, rows: seq<Row>, floor: Option<Mark>, rows': seq<Row>, floor': Option<Mark>)
    requires |counts| < |streams| == |ackFloors| && Sum(counts) + budget == o.maxRows
    requires Handled(streams[|counts|], ackFloors[|counts|], now - o.olderThanMs, cursorFloor, budget, o.dryRun, n, left, rows, floor, rows', floor')
    ensures forall i, a, f, a', f' | 0 <= i < |counts| && HandledAt(streams, ackFloors, o, now, cursorFloor, counts, more, i, a, f, a', f') ::
              HandledAt(streams, ackFloors, o, now, cursorFloor, counts + [n], more || left, i, a, f, a', f')
    ensures HandledAt(streams, ackFloors, o, now, cursorFloor, counts + [n], more || left, |counts|, rows, floor, rows', floor')
  {
    hide Walked, StreamPruned, Sum, DoneWith;
    assert forall i | 0 <= i <= |counts| :: (counts + [n])[..i] == counts[..i];
    assert counts[..|counts|] == counts;
  }

  ghost predicate DistinctWriters(streams: seq<StreamView>)
  {
    forall i, j | 0 <= i < j < |streams| :: streams[i].writer != streams[j].writer
  }

  function Sum(ns: seq<nat>): nat { if ns == [] then 0 else Sum(ns[..|ns| - 1]) + ns[|ns| - 1] }

  lemma NoneSummed()
    ensures Sum([]) == 0
  {
  }

  lemma OneMoreSummed(ns: seq<nat>, n: nat)
    ensures Sum(ns + [n]) == Sum(ns) + n
  {
    assert (ns + [n])[..|ns|] == ns;
  }

  // ---- what a prune means ----

  /** A floor rises at most to what every included member holds, and never falls. */
  lemma FloorBound(s: StreamView, ackFloor: nat, cutoff: int, cursorFloor: Option<nat>, budget: nat, n: nat,
                   rows: seq<Row>, floor: Option<Mark>, rows': seq<Row>, floor': Option<Mark>)
    requires BySeq(rows) && StreamPruned(s, ackFloor, cutoff, cursorFloor, budget, n, rows, floor, rows', floor')
    ensures FloorSeq(floor) <= FloorSeq(floor') <= Max(FloorSeq(floor), ackFloor)
    ensures forall r | r in rows && r !in rows' :: r.seqNo <= FloorSeq(floor')
    ensures forall r | r in rows && r.seqNo > FloorSeq(floor') :: r in rows'
    ensures floor'.Some? && floor' != floor ==> exists r :: r in rows && floor'.value == Mark(r.seqNo, r.chain)
  {
    forall r | r in rows
      ensures r !in rows' ==> r.seqNo <= FloorSeq(floor')
    {
      var i :| 0 <= i < |rows| && rows[i] == r;
      if i >= n { assert rows'[i - n] == r; }
    }
    if floor' != floor { assert rows[n - 1] in rows; }
  }

  /** What a member has of a stream: what it is on record for, or all of its own. */
  predicate Has(acks: map<(string, string), nat>, m: string, s: StreamView, seqNo: nat)
  {
    if (m, s.writer) in acks then seqNo <= acks[(m, s.writer)]
    else seqNo == 0 || (m == s.writer && seqNo <= if s.seal == Retired && s.finalSeq.Some? then s.finalSeq.value else s.contigSeq)
  }

  /** Old enough, read by every consumer, and under the floor already or else held by all who pin and not the head row of a live stream. */
  predicate MayGo(acks: map<(string, string), nat>, included: seq<string>, s: StreamView, cutoff: int, cursorFloor: Option<nat>, floor: Option<Mark>, r: Row)
  {
    && r.hlcL < cutoff && (cursorFloor.Some? ==> r.rowid <= cursorFloor.value)
    && ((floor.Some? && r.seqNo <= floor.value.seqNo)
        || r.seqNo == 0
        || ((forall m | m in included :: Has(acks, m, s, r.seqNo))
            && if s.seal != Retired then r.seqNo < s.contigSeq else r.seqNo <= if s.finalSeq.Some? then s.finalSeq.value else s.contigSeq))
  }

  /** Exactly the rows go that may, from the front, up to the first that may not or the budget; none of a forked or recovering stream. */
  lemma PrunedSays(acks: map<(string, string), nat>, included: seq<string>, s: StreamView, ackFloor: nat, cutoff: int, cursorFloor: Option<nat>, budget: nat,
                   n: nat, rows: seq<Row>, floor: Option<Mark>)
    requires IsAckFloor(acks, included, s, ackFloor) && Walked(s, ackFloor, cutoff, cursorFloor, budget, n, rows, floor)
    ensures s.seal == Fork || s.recovering ==> n == 0
    ensures n <= |rows| && forall i | 0 <= i < n :: MayGo(acks, included, s, cutoff, cursorFloor, floor, rows[i])
    ensures s.seal != Fork && !s.recovering && n < |rows| && n < budget ==> !MayGo(acks, included, s, cutoff, cursorFloor, floor, rows[n])
  {
    hide Deletable, MayGo;
    forall r
      ensures Deletable(r, PruneTarget(s, ackFloor, floor), cutoff, cursorFloor) <==> MayGo(acks, included, s, cutoff, cursorFloor, floor, r)
    {
      GoIff(acks, included, s, ackFloor, cutoff, cursorFloor, floor, r);
    }
  }

  lemma GoIff(acks: map<(string, string), nat>, included: seq<string>, s: StreamView, ackFloor: nat, cutoff: int, cursorFloor: Option<nat>,
              floor: Option<Mark>, r: Row)
    requires IsAckFloor(acks, included, s, ackFloor)
    ensures Deletable(r, PruneTarget(s, ackFloor, floor), cutoff, cursorFloor) <==> MayGo(acks, included, s, cutoff, cursorFloor, floor, r)
  {
    forall m
      ensures Has(acks, m, s, r.seqNo) <==> r.seqNo <= AckOf(acks, m, s)
    {
    }
  }

  /** A live stream keeps the row at its head, its monotonicity anchor, unless an adopted floor already covers it. */
  lemma HeadRowStays(s: StreamView, ackFloor: nat, cutoff: int, cursorFloor: Option<nat>, budget: nat, n: nat,
                     rows: seq<Row>, floor: Option<Mark>, rows': seq<Row>, floor': Option<Mark>, head: Row)
    requires StreamPruned(s, ackFloor, cutoff, cursorFloor, budget, n, rows, floor, rows', floor')
    requires s.seal != Retired && FloorSeq(floor) < s.contigSeq && head in rows && head.seqNo == s.contigSeq
    ensures head in rows'
  {
    var i :| 0 <= i < |rows| && rows[i] == head;
    assert i >= n;
    assert rows'[i - n] == head;
  }

  // ---- acknowledgments ----

  datatype AckKey = AckKey(topic: string, node: string, writer: string)

  type Vectors = map<string, map<string, nat>>

  function AckAt(acks: map<AckKey, nat>, k: AckKey): Option<nat> { if k in acks then Some(acks[k]) else None }

  /** sq_ack_nodes, keyed by topic and node. */
  datatype NodeKey = NodeKey(topic: string, node: string)

  const ACK_SEEN_REFRESH_MS: nat := 60000

  /** The head a HAVE round states for a stream of an eligible topic. */
  function Advertised(eligible: set<string>, node: string, vectors: Vectors, k: AckKey): Option<nat>
  {
    if k.node == node && k.topic in eligible && k.topic in vectors && k.writer in vectors[k.topic] then Some(vectors[k.topic][k.writer])
    else None
  }

  /** Everything advertised for the finished topics is on record, the rest as before. */
  ghost predicate RecordedSoFar(eligible: set<string>, node: string, vectors: Vectors, pending: set<string>,
                                acks: map<AckKey, nat>, acks': map<AckKey, nat>)
  {
    forall k :: AckAt(acks', k) ==
      if Advertised(eligible, node, vectors, k).Some? && k.topic !in pending then Advertised(eligible, node, vectors, k)
      else AckAt(acks, k)
  }

  /** ackNodeSeen: when it was first seen never changes, and the protocol version stays when none is told. */
  function Seen(was: Option<AckNode>, at: nat, proto: Option<nat>): AckNode
  {
    match was
    case None => AckNode(at, Some(at), proto)
    case Some(n) => AckNode(n.firstAt, Some(at), if proto.Some? then proto else n.proto)
  }

  /** A node seen just now, under the protocol version it told, or the one it told before. */
  predicate SeenAt(was: Option<AckNode>, at: nat, proto: Option<nat>, n: Option<AckNode>)
  {
    && n.Some? && n.value.seenAt == Some(at)
    && n.value.proto == if proto.Some? then proto else if was.Some? then was.value.proto else None
  }

  /** A node seen just now, or so recently that the stamp may stand; when it was first seen never changes. */
  predicate SeenStamp(was: Option<AckNode>, at: nat, proto: Option<nat>, n: Option<AckNode>)
  {
    && n.Some? && n.value.seenAt.Some? && n.value.firstAt == (if was.Some? then was.value.firstAt else at)
    && (|| SeenAt(was, at, proto, n)
        || (n == was && at - n.value.seenAt.value < ACK_SEEN_REFRESH_MS))
  }

  function NodeAt(nodes: map<NodeKey, AckNode>, k: NodeKey): Option<AckNode> { if k in nodes then Some(nodes[k]) else None }

  /** In every finished topic of the round the node is stamped; no other stamp moved. */
  ghost predicate SeenSoFar(eligible: set<string>, node: string, vectors: Vectors, at: nat, proto: Option<nat>, pending: set<string>,
                            nodes: map<NodeKey, AckNode>, nodes': map<NodeKey, AckNode>)
  {
    forall k: NodeKey :: if k.node == node && k.topic in eligible && k.topic in vectors && k.topic !in pending
                then SeenStamp(NodeAt(nodes, k), at, proto, NodeAt(nodes', k)) else NodeAt(nodes', k) == NodeAt(nodes, k)
  }

  /** A topic in which the round put anything new on record is stamped now. */
  ghost predicate StampedIfNew(topic: string, node: string, at: nat, proto: Option<nat>, acks: map<AckKey, nat>, acks': map<AckKey, nat>,
                               nodes: map<NodeKey, AckNode>, nodes': map<NodeKey, AckNode>)
  {
    (exists w :: AckAt(acks', AckKey(topic, node, w)) != AckAt(acks, AckKey(topic, node, w))) ==>
      SeenAt(NodeAt(nodes, NodeKey(topic, node)), at, proto, NodeAt(nodes', NodeKey(topic, node)))
  }

  ghost predicate NewStamped(eligible: set<string>, node: string, vectors: Vectors, at: nat, proto: Option<nat>, pending: set<string>,
                             acks: map<AckKey, nat>, acks': map<AckKey, nat>, nodes: map<NodeKey, AckNode>, nodes': map<NodeKey, AckNode>)
  {
    forall t | t in eligible && t in vectors && t !in pending :: StampedIfNew(t, node, at, proto, acks, acks', nodes, nodes')
  }

  /** Nothing of another topic moved. */
  ghost predicate OnlyTopic(topic: string, acks: map<AckKey, nat>, acks': map<AckKey, nat>, nodes: map<NodeKey, AckNode>, nodes': map<NodeKey, AckNode>)
  {
    (forall k: AckKey | k.topic != topic :: AckAt(acks', k) == AckAt(acks, k)) && forall k: NodeKey | k.topic != topic :: NodeAt(nodes', k) == NodeAt(nodes, k)
  }

  /** What was there of the topics still to do. */
  ghost predicate StillThere(pending: set<string>, acks: map<AckKey, nat>, acks': map<AckKey, nat>, nodes: map<NodeKey, AckNode>, nodes': map<NodeKey, AckNode>)
  {
    (forall k: AckKey | k.topic in pending :: AckAt(acks', k) == AckAt(acks, k)) && forall k: NodeKey | k.topic in pending :: NodeAt(nodes', k) == NodeAt(nodes, k)
  }

  lemma TopicStamped(eligible: set<string>, node: string, vectors: Vectors, at: nat, proto: Option<nat>, pending: set<string>, topic: string,
                     start: map<AckKey, nat>, acks: map<AckKey, nat>, acks': map<AckKey, nat>,
                     startNodes: map<NodeKey, AckNode>, nodes: map<NodeKey, AckNode>, nodes': map<NodeKey, AckNode>)
    requires NewStamped(eligible, node, vectors, at, proto, pending, start, acks, startNodes, nodes) && StillThere(pending, start, acks, startNodes, nodes)
    requires topic in pending && OnlyTopic(topic, acks, acks', nodes, nodes') && StampedIfNew(topic, node, at, proto, acks, acks', nodes, nodes')
    ensures NewStamped(eligible, node, vectors, at, proto, pending - {topic}, start, acks', startNodes, nodes')
    ensures StillThere(pending - {topic}, start, acks', startNodes, nodes')
  {
    hide SeenAt, AckAt, NodeAt;
    forall t | t in eligible && t in vectors && t !in pending - {topic}
      ensures StampedIfNew(t, node, at, proto, start, acks', startNodes, nodes')
    {
      if t != topic { assert StampedIfNew(t, node, at, proto, start, acks, startNodes, nodes); }
    }
  }

  ghost predicate MemoFits(acks: map<AckKey, nat>, last: map<AckKey, nat>) { forall k | k in last :: AckAt(acks, k) == Some(last[k]) }

  ghost predicate SeenFits(nodes: map<NodeKey, AckNode>, seen: map<NodeKey, nat>)
  {
    forall k | k in seen :: k in nodes && nodes[k].seenAt == Some(seen[k])
  }

  /** The heads of one topic, except those of `todo`, are on record. */
  ghost predicate TopicSoFar(topic: string, node: string, heads: map<string, nat>, todo: set<string>, acks: map<AckKey, nat>, acks': map<AckKey, nat>)
  {
    forall k :: AckAt(acks', k) ==
      if k.topic == topic && k.node == node && k.writer in heads && k.writer !in todo then Some(heads[k.writer]) else AckAt(acks, k)
  }

  lemma TopicDone(eligible: set<string>, node: string, vectors: Vectors, pending: set<string>, topic: string,
                  start: map<AckKey, nat>, acks: map<AckKey, nat>, acks': map<AckKey, nat>)
    requires RecordedSoFar(eligible, node, vectors, pending, start, acks) && topic in pending && topic in eligible && topic in vectors
    requires TopicSoFar(topic, node, vectors[topic], {}, acks, acks')
    ensures RecordedSoFar(eligible, node, vectors, pending - {topic}, start, acks')
  {
    forall k
      ensures AckAt(acks', k) ==
        if Advertised(eligible, node, vectors, k).Some? && k.topic !in pending - {topic} then Advertised(eligible, node, vectors, k) else AckAt(start, k)
    {
      assert AckAt(acks, k) == if Advertised(eligible, node, vectors, k).Some? && k.topic !in pending then Advertised(eligible, node, vectors, k) else AckAt(start, k);
    }
  }

  lemma TopicSeen(eligible: set<string>, node: string, vectors: Vectors, at: nat, proto: Option<nat>, pending: set<string>, topic: string,
                  start: map<NodeKey, AckNode>, nodes: map<NodeKey, AckNode>, nodes': map<NodeKey, AckNode>)
    requires SeenSoFar(eligible, node, vectors, at, proto, pending, start, nodes) && topic in pending && topic in eligible && topic in vectors
    requires forall k | k != NodeKey(topic, node) :: NodeAt(nodes', k) == NodeAt(nodes, k)
    requires SeenStamp(NodeAt(nodes, NodeKey(topic, node)), at, proto, NodeAt(nodes', NodeKey(topic, node)))
    ensures SeenSoFar(eligible, node, vectors, at, proto, pending - {topic}, start, nodes')
  {
    hide SeenStamp, NodeAt;
    var k0 := NodeKey(topic, node);
    assert NodeAt(nodes, k0) == NodeAt(start, k0);
    forall k: NodeKey
      ensures if k.node == node && k.topic in eligible && k.topic in vectors && k.topic !in pending - {topic}
              then SeenStamp(NodeAt(start, k), at, proto, NodeAt(nodes', k)) else NodeAt(nodes', k) == NodeAt(start, k)
    {
      if k != k0 { assert NodeAt(nodes', k) == NodeAt(nodes, k); }
    }
  }

  lemma OneMoreHead(topic: string, node: string, heads: map<string, nat>, todo: set<string>, start: map<AckKey, nat>, acks: map<AckKey, nat>,
                    last: map<AckKey, nat>, w: string)
    requires TopicSoFar(topic, node, heads, todo, start, acks) && MemoFits(acks, last) && w in heads
    ensures var k, n := AckKey(topic, node, w), heads[w];
            && MemoFits(acks[k := n], last[k := n]) && TopicSoFar(topic, node, heads, todo - {w}, start, acks[k := n])
            && (k in last && last[k] == n ==> TopicSoFar(topic, node, heads, todo - {w}, start, acks))
  {
    var k0, n := AckKey(topic, node, w), heads[w];
    forall k
      ensures AckAt(acks[k0 := n], k) ==
        if k.topic == topic && k.node == node && k.writer in heads && k.writer !in todo - {w} then Some(heads[k.writer]) else AckAt(start, k)
    {
      assert k != k0 ==> AckAt(acks[k0 := n], k) == AckAt(acks, k);
    }
    if k0 in last && last[k0] == n { assert acks[k0 := n] == acks; }
  }

  lemma OneTopic(topic: string, node: string, heads: map<string, nat>, at: nat, proto: Option<nat>, changed: bool,
                 acks: map<AckKey, nat>, acks': map<AckKey, nat>, nodes: map<NodeKey, AckNode>, nodes': map<NodeKey, AckNode>)
    requires TopicSoFar(topic, node, heads, {}, acks, acks') && (!changed ==> acks' == acks)
    requires forall k | k != NodeKey(topic, node) :: NodeAt(nodes', k) == NodeAt(nodes, k)
    requires changed ==> SeenAt(NodeAt(nodes, NodeKey(topic, node)), at, proto, NodeAt(nodes', NodeKey(topic, node)))
    ensures OnlyTopic(topic, acks, acks', nodes, nodes') && StampedIfNew(topic, node, at, proto, acks, acks', nodes, nodes')
  {
    hide SeenAt;
  }

  /** Peers' acknowledgments and signs of life, with memos that save unchanged writes. */
  class AckRecorder {
    const self: string
    const eligible: set<string>
    /** sq_acks and sq_ack_nodes. */
    var acks: map<AckKey, nat>
    var nodes: map<NodeKey, AckNode>
    var last: map<AckKey, nat>
    var seenWritten: map<NodeKey, nat>

    /** The memos never claim more than what is stored. */
    ghost predicate MemoOk()
      reads this`acks, this`nodes, this`last, this`seenWritten
    {
      MemoFits(acks, last) && SeenFits(nodes, seenWritten)
    }

    constructor (self: string, eligible: set<string>, acks: map<AckKey, nat>, nodes: map<NodeKey, AckNode>)
      ensures MemoOk() && this.acks == acks && this.nodes == nodes && this.self == self && this.eligible == eligible
    {
      this.self, this.eligible, this.acks, this.nodes, last, seenWritten := self, eligible, acks, nodes, map[], map[];
    }

    /** The heads of one topic; answers whether any was new to the memo. */
    method RecordTopic(topic: string, node: string, heads: map<string, nat>) returns (changed: bool)
      requires MemoFits(acks, last)
      modifies this`acks, this`last
      ensures MemoFits(acks, last) && TopicSoFar(topic, node, heads, {}, old(acks), acks)
      ensures !changed ==> acks == old(acks)
    {
      changed := false;
      var todo := heads.Keys;
      while todo != {}
        invariant MemoFits(acks, last) && todo <= heads.Keys
        invariant TopicSoFar(topic, node, heads, todo, old(acks), acks) && (!changed ==> acks == old(acks))
      {
        hide TopicSoFar, MemoFits;
        var w :| w in todo;
        OneMoreHead(topic, node, heads, todo, old(acks), acks, last, w);
        todo := todo - {w};
        var k, seqNo := AckKey(topic, node, w), heads[w];
        if !(k in last && last[k] == seqNo) {
          last := last[k := seqNo];
          acks := acks[k := seqNo];
          changed := true;
        }
      }
    }

    /** ackNodeSeen, unless nothing changed and the stamp is recent. */
    method Stamp(topic: string, node: string, at: nat, proto: Option<nat>, changed: bool)
      requires SeenFits(nodes, seenWritten)
      modifies this`nodes, this`seenWritten
      ensures SeenFits(nodes, seenWritten) && SeenStamp(NodeAt(old(nodes), NodeKey(topic, node)), at, proto, NodeAt(nodes, NodeKey(topic, node)))
      ensures forall k | k != NodeKey(topic, node) :: NodeAt(nodes, k) == NodeAt(old(nodes), k)
      ensures changed ==> SeenAt(NodeAt(old(nodes), NodeKey(topic, node)), at, proto, NodeAt(nodes, NodeKey(topic, node)))
    {
      var k := NodeKey(topic, node);
      if changed || k !in seenWritten || at - seenWritten[k] >= ACK_SEEN_REFRESH_MS {
        seenWritten := seenWritten[k := at];
        nodes := nodes[k := Seen(NodeAt(nodes, k), at, proto)];
      }
    }

    /** One completed HAVE round; a failed transaction leaves the tables as they were and drops the memos. */
    method Record(node: string, vectors: Vectors, at: nat, proto: Option<nat>, fails: bool)
      requires MemoOk()
      modifies this`acks, this`nodes, this`last, this`seenWritten
      ensures MemoOk()
      ensures node == self || fails ==> acks == old(acks) && nodes == old(nodes)
      ensures node != self && !fails ==> RecordedSoFar(eligible, node, vectors, {}, old(acks), acks)
      ensures node != self && !fails ==> SeenSoFar(eligible, node, vectors, at, proto, {}, old(nodes), nodes)
      ensures node != self && !fails ==> NewStamped(eligible, node, vectors, at, proto, {}, old(acks), acks, old(nodes), nodes)
    {
      if node == self { return; }
      var acksBefore, nodesBefore := acks, nodes;
      var todo := set t | t in eligible && t in vectors;
      while todo != {}
        invariant MemoOk() && forall t | t in todo :: t in eligible && t in vectors
        invariant RecordedSoFar(eligible, node, vectors, todo, acksBefore, acks)
        invariant SeenSoFar(eligible, node, vectors, at, proto, todo, nodesBefore, nodes)
        invariant NewStamped(eligible, node, vectors, at, proto, todo, acksBefore, acks, nodesBefore, nodes)
        invariant StillThere(todo, acksBefore, acks, nodesBefore, nodes)
      {
        hide RecordedSoFar, SeenSoFar, TopicSoFar, SeenStamp, MemoFits, SeenFits, NewStamped, StillThere, SeenAt, OnlyTopic, StampedIfNew;
        var t :| t in todo;
        ghost var acksWas, nodesWas := acks, nodes;
        var changed := RecordTopic(t, node, vectors[t]);
        TopicDone(eligible, node, vectors, todo, t, acksBefore, acksWas, acks);
        Stamp(t, node, at, proto, changed);
        TopicSeen(eligible, node, vectors, at, proto, todo, t, nodesBefore, nodesWas, nodes);
        OneTopic(t, node, vectors[t], at, proto, changed, acksWas, acks, nodesWas, nodes);
        TopicStamped(eligible, node, vectors, at, proto, todo, t, acksBefore, acksWas, acks, nodesBefore, nodesWas, nodes);
        todo := todo - {t};
      }
      if fails {
        acks, nodes := acksBefore, nodesBefore;
        last, seenWritten := map[], map[];
      }
    }

    /** A node forgotten by a prune is forgotten in the tables and in the memos. */
    method Forget(topic: string, node: string)
      requires MemoOk()
      modifies this`acks, this`nodes, this`last, this`seenWritten
      ensures MemoOk()
      ensures forall k :: AckAt(acks, k) == if k.topic == topic && k.node == node then None else AckAt(old(acks), k)
      ensures forall k :: NodeAt(nodes, k) == if k == NodeKey(topic, node) then None else NodeAt(old(nodes), k)
    {
      acks := map k | k in acks && !(k.topic == topic && k.node == node) :: acks[k];
      last := map k | k in last && !(k.topic == topic && k.node == node) :: last[k];
      nodes := nodes - {NodeKey(topic, node)};
      seenWritten := seenWritten - {NodeKey(topic, node)};
    }
  }

  /** A prune that counts a member never lifts the floor past what the member is on record for. */
  lemma PruneRespectsMember(acks: map<(string, string), nat>, included: seq<string>, m: string, s: StreamView, ackFloor: nat,
                            cutoff: int, cursorFloor: Option<nat>, budget: nat, n: nat,
                            rows: seq<Row>, floor: Option<Mark>, rows': seq<Row>, floor': Option<Mark>)
    requires m in included && IsAckFloor(acks, included, s, ackFloor)
    requires BySeq(rows) && StreamPruned(s, ackFloor, cutoff, cursorFloor, budget, n, rows, floor, rows', floor')
    ensures FloorSeq(floor) <= FloorSeq(floor') <= Max(FloorSeq(floor), AckOf(acks, m, s))
  {
    FloorBound(s, ackFloor, cutoff, cursorFloor, budget, n, rows, floor, rows', floor');
  }
}
