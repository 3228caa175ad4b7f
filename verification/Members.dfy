/**
  A member of acknowledged retention (src/retention.ts, src/log.ts:1246-1329, src/sync.ts:789-936): why a node that
  is counted in every prune and keeps what it acknowledged never asks for a row that is gone.
*/
module Membership {
  import opened HlcClock
  import opened Entries
  import opened Streams
  import opened CommitQueue
  import opened Retention
  import R = Replication
  import Sync

  ghost predicate InList(list: seq<Row>, n: nat) { exists i :: 0 <= i < |list| && list[i].seqNo == n }

  ghost predicate RowOf(rows: Rows, r: Row) { r.seqNo in rows && r.chain == rows[r.seqNo].chain && r.hlcL == rows[r.seqNo].body.hlc.l }

  /** The rows of a stream as streamHead reads them. */
  ghost predicate ListOf(list: seq<Row>, rows: Rows)
  {
    BySeq(list) && (forall n | n in rows :: InList(list, n)) && forall i | 0 <= i < |list| :: RowOf(rows, list[i])
  }

  /** The stream as pruneAcked sees it. */
  function ViewOf(c: Core, id: StreamId): StreamView
  {
    var s := StreamAt(c, id);
    StreamView(id.writer, s.head.contigSeq, s.head.seal, if s.head.final.Some? then Some(s.head.final.value.seqNo) else None, s.target.Some?)
  }

  function TopicAcks(acks: map<AckKey, nat>, topic: string): map<(string, string), nat>
  {
    map k | k in acks && k.topic == topic :: (k.node, k.writer) := acks[k]
  }

  function HeadOf(c: Core, id: StreamId): nat { StreamAt(c, id).head.contigSeq }

  function FloorOf(c: Core, id: StreamId): nat { FloorSeq(StreamAt(c, id).floor) }

  /** One call of pruneAcked: what it is given, and the plan it makes. */
  datatype Call = Call(nodes: map<string, AckNode>, newest: map<string, nat>, o: Options, streams: seq<StreamView>, now: nat,
                       cursorFloor: Option<nat>, plan: Plan)

  /** The call's effect on one stream: the listed rows' deletable prefix is gone, the floor raised; all else stays. */
  ghost predicate PrunedAs(call: Call, acks: map<(string, string), nat>, v: StreamView, s: Stream, s': Stream, ackFloor: nat, budget: nat,
                           list: seq<Row>, n: nat)
  {
    && IsAckFloor(acks, call.plan.included, v, ackFloor) && ListOf(list, s.rows) && n <= |list|
    && StreamPruned(v, ackFloor, call.now - call.o.olderThanMs, call.cursorFloor, budget, n, list, s.floor, list[n..], s'.floor)
    && ListOf(list[n..], s'.rows) && (forall m | m in s'.rows :: m in s.rows && s'.rows[m] == s.rows[m])
    && s' == s.(rows := s'.rows, floor := s'.floor)
  }

  ghost predicate StreamStep(call: Call, acks: map<(string, string), nat>, v: StreamView, s: Stream, s': Stream)
  {
    exists ackFloor: nat, budget: nat, list, n: nat :: PrunedAs(call, acks, v, s, s', ackFloor, budget, list, n)
  }

  ghost predicate Listed(call: Call, writer: string) { exists v :: v in call.streams && v.writer == writer }

  /** pruneAcked at a node: it plans from its own tables, and prunes the listed streams of the topic. */
  ghost predicate PruneStep(self: string, topic: string, call: Call, acks: map<AckKey, nat>, c: Core, c': Core)
  {
    && Planned(call.nodes, call.newest, call.o, call.streams, self, call.now, call.plan)
    && (forall v | v in call.streams :: v == ViewOf(c, StreamId(topic, v.writer)))
    && forall id: StreamId ::
         if id.topic == topic && Listed(call, id.writer) then StreamStep(call, TopicAcks(acks, topic), ViewOf(c, id), StreamAt(c, id), StreamAt(c', id))
         else StreamAt(c', id) == StreamAt(c, id)
  }

  /** What a call of PruneAcked leaves is such a step: its rows are lists of the stream's rows. */
  lemma HandledIsStep(call: Call, acks: map<(string, string), nat>, v: StreamView, s: Stream, s': Stream, ackFloor: nat, budget: nat,
                      more: bool, list: seq<Row>, list': seq<Row>, n: nat)
    requires IsAckFloor(acks, call.plan.included, v, ackFloor) && ListOf(list, s.rows)
    requires Handled(v, ackFloor, call.now - call.o.olderThanMs, call.cursorFloor, budget, false, n, more, list, s.floor, list', s'.floor)
    requires s' == s.(rows := map m | m in s.rows && (n > 0 ==> m > list[n - 1].seqNo) :: s.rows[m], floor := s'.floor)
    ensures StreamStep(call, acks, v, s, s')
  {
    hide IsAckFloor, Walked, DoneWith;
    DroppedList(list, s.rows, n, s'.rows);
    assert PrunedAs(call, acks, v, s, s', ackFloor, budget, list, n);
  }

  lemma DroppedList(list: seq<Row>, rows: Rows, n: nat, rows': Rows)
    requires ListOf(list, rows) && n <= |list| && rows' == map m | m in rows && (n > 0 ==> m > list[n - 1].seqNo) :: rows[m]
    ensures ListOf(list[n..], rows')
  {
    hide InList;
    forall m | m in rows'
      ensures InList(list[n..], m)
    {
      StillListed(list, n, m);
    }
    forall i | 0 <= i < |list[n..]|
      ensures RowOf(rows', list[n..][i])
    {
      assert list[n..][i] == list[i + n] && RowOf(rows, list[i + n]);
      assert n > 0 ==> list[n - 1].seqNo < list[i + n].seqNo;
    }
  }

  lemma StillListed(list: seq<Row>, n: nat, m: nat)
    requires BySeq(list) && n <= |list| && InList(list, m) && (n > 0 ==> m > list[n - 1].seqNo)
    ensures InList(list[n..], m)
  {
    var i :| 0 <= i < |list| && list[i].seqNo == m;
    assert i >= n;
    assert list[n..][i - n].seqNo == m;
  }

  // ---- a pruning node and a member ----

  /** The pruning node with what it has on record, and the member. */
  datatype Site = Site(pruner: Core, member: Core, acks: map<AckKey, nat>)

  datatype Event = Recorded(node: string, vectors: Vectors) | Forgotten(node: string) | Prune(call: Call) | PrunerMoves | MemberMoves

  /** The nodes, and the topic whose retention this is about. */
  datatype Pair = Pair(self: string, member: string, topic: string, eligible: set<string>)

  ghost predicate Step(p: Pair, a: Site, e: Event, b: Site)
  {
    match e
    case Recorded(node, vectors) => b == a.(acks := b.acks) && node != p.self && RecordedSoFar(p.eligible, node, vectors, {}, a.acks, b.acks)
    case Forgotten(node) =>
      b == a.(acks := b.acks) && forall k :: AckAt(b.acks, k) == if k.topic == p.topic && k.node == node then None else AckAt(a.acks, k)
    case Prune(call) =>
      b == a.(pruner := b.pruner) && p.member in call.plan.included && PruneStep(p.self, p.topic, call, a.acks, a.pruner, b.pruner)
    case PrunerMoves => b == a.(pruner := b.pruner) && forall id: StreamId | id.topic == p.topic :: StreamAt(b.pruner, id).floor == StreamAt(a.pruner, id).floor
    case MemberMoves => b == a.(member := b.member)
  }

  /** The node adopts no floors, and counts the member in every prune; anything else may happen in any order. */
  ghost predicate Run(p: Pair, sites: seq<Site>, es: seq<Event>)
  {
    |sites| == |es| + 1 && forall i | 0 <= i < |es| :: Step(p, sites[i], es[i], sites[i + 1])
  }

  /** What the member is on record for in a stream: its acknowledgment, or all that the node has of the member's own stream. */
  function OnRecord(p: Pair, a: Site, id: StreamId): nat { AckOf(TopicAcks(a.acks, p.topic), p.member, ViewOf(a.pruner, id)) }

  /** The member starts at or above the floor, and its head never drops below what it was ever on record for. */
  ghost predicate Keeps(p: Pair, sites: seq<Site>, id: StreamId)
  {
    && (forall j | 0 <= j < |sites| :: FloorOf(sites[0].pruner, id) <= HeadOf(sites[j].member, id))
    && forall i, j | 0 <= i <= j < |sites| :: OnRecord(p, sites[i], id) <= HeadOf(sites[j].member, id)
  }

  lemma PruneBounds(p: Pair, call: Call, a: Site, b: Site, id: StreamId)
    requires id.topic == p.topic && p.member in call.plan.included && PruneStep(p.self, p.topic, call, a.acks, a.pruner, b.pruner)
    ensures FloorOf(b.pruner, id) <= Max(FloorOf(a.pruner, id), OnRecord(p, a, id))
  {
    hide StreamAt, Planned, ViewOf, TopicAcks, AckOf;
    var s, s', v, acks := StreamAt(a.pruner, id), StreamAt(b.pruner, id), ViewOf(a.pruner, id), TopicAcks(a.acks, p.topic);
    if Listed(call, id.writer) {
      assert StreamStep(call, acks, v, s, s');
      StepBounds(call, acks, v, s, s', p.member);
    }
  }

  lemma StepBounds(call: Call, acks: map<(string, string), nat>, v: StreamView, s: Stream, s': Stream, m: string)
    requires StreamStep(call, acks, v, s, s') && m in call.plan.included
    ensures FloorSeq(s'.floor) <= Max(FloorSeq(s.floor), AckOf(acks, m, v))
  {
    hide IsAckFloor, StreamPruned, AckOf;
    var ackFloor: nat, budget: nat, list, n: nat :| PrunedAs(call, acks, v, s, s', ackFloor, budget, list, n);
    PruneRespectsMember(acks, call.plan.included, m, v, ackFloor, call.now - call.o.olderThanMs, call.cursorFloor, budget, n,
                        list, s.floor, list[n..], s'.floor);
  }

  lemma {:induction false} FloorKept(p: Pair, sites: seq<Site>, es: seq<Event>, j: nat, k: nat, id: StreamId)
    requires Run(p, sites, es) && Keeps(p, sites, id) && id.topic == p.topic && j <= k < |sites|
    ensures FloorOf(sites[j].pruner, id) <= HeadOf(sites[k].member, id)
  {
    hide OnRecord, HeadOf, PruneStep;
    if j > 0 {
      FloorKept(p, sites, es, j - 1, k, id);
      var a, b := sites[j - 1], sites[j];
      assert Step(p, a, es[j - 1], b);
      assert OnRecord(p, a, id) <= HeadOf(sites[k].member, id);
      match es[j - 1]
      case Prune(call) => PruneBounds(p, call, a, b, id);
      case _ =>
    }
  }

  /**
    A member counted in every prune that keeps what it acknowledged always asks above the floor: a WANT for the
    row after its head never meets it, and a floor that a delayed WANT did draw finds the member's head at or
    above it whenever it arrives, so adopting it does nothing.
  */
  lemma MemberNeverTruncated(p: Pair, sites: seq<Site>, es: seq<Event>, j: nat, k: nat, id: StreamId, full: bool)
    requires Run(p, sites, es) && Keeps(p, sites, id) && id.topic == p.topic && j <= k < |sites|
    ensures !Sync.BelowFloor(StreamAt(sites[j].pruner, id).floor, HeadOf(sites[j].member, id) + 1)
    ensures FloorOf(sites[j].pruner, id) <= HeadOf(sites[k].member, id)
    ensures StreamAt(sites[j].pruner, id).floor.Some? ==>
              AdoptFloor(full, id, StreamAt(sites[k].member, id), StreamAt(sites[j].pruner, id).floor.value) == (StreamAt(sites[k].member, id), Noop, [])
  {
    FloorKept(p, sites, es, j, j, id);
    FloorKept(p, sites, es, j, k, id);
    hide StreamAt, Drain, Drained;
  }

  /** serveWant at the pruning node, asked by the member for the row after its head: rows, never a TRUNCATED. */
  method ServeMember(p: Pair, ghost sites: seq<Site>, ghost es: seq<Event>, ghost j: nat, id: StreamId, rows: Rows, toSeq: nat, floor: Option<Mark>,
                     head: nat, budget: nat, cost: Entry -> nat, accepts: nat -> bool, proto: nat)
    returns (a: Sync.Answer, ghost served: nat)
    requires Run(p, sites, es) && Keeps(p, sites, id) && id.topic == p.topic && j < |sites|
    requires var s := StreamAt(sites[j].pruner, id); rows == s.rows && toSeq == s.head.contigSeq && floor == s.floor && Sync.Keyed(rows)
    requires head == HeadOf(sites[j].member, id)
    ensures a.Batches? && Sync.Sent(a.batches) == Sync.RangeList(rows, head + 1, served)
    ensures head < toSeq ==>
              || served >= toSeq || !accepts(|a.batches|)
              || Sync.RangeList(rows, served + 1, Min(toSeq, served + Sync.ENTRIES_BATCH_MAX)) == []
  {
    MemberNeverTruncated(p, sites, es, j, j, id, true);
    hide Run, Keeps, StreamAt, Sync.Keyed, Sync.RangeList, Sync.Sent;
    a, served := Sync.ServeWant(rows, toSeq, floor, head + 1, budget, cost, accepts, proto, false, true);
  }

  // ---- a WANT that arrives late ----

  /** A node holding one stream, these rows and this floor. */
  function OneStream(id: StreamId, rows: Rows, head: Mark, floor: Option<Mark>): Core
  {
    Core(Disk(map[id := Stored(Some(Head(head.seqNo, head.chain, Open, 0, None)), rows, map[], map[], map[], floor)], map[], Hlc(0, 0)),
         map[], Hlc(0, 0), map[], map[], [])
  }

  /** Two rows, the head row alone above a floor, and nothing yet. */
  function BothRows(id: StreamId, first: Entry, second: Entry): Core { OneStream(id, map[1 := first, 2 := second], Mark(2, second.chain), None) }

  function HeadRow(id: StreamId, first: Entry, second: Entry): Core
  {
    OneStream(id, map[2 := second], Mark(2, second.chain), Some(Mark(1, first.chain)))
  }

  function Nothing(id: StreamId): Core { OneStream(id, map[], Mark(0, SeedOf(id)), None) }

  lemma LateStreams(id: StreamId, first: Entry, second: Entry)
    ensures var s, t, n := StreamAt(BothRows(id, first, second), id), StreamAt(HeadRow(id, first, second), id), StreamAt(Nothing(id), id);
            && s.rows == map[1 := first, 2 := second] && s.floor == None && s.head.contigSeq == 2
            && t == s.(rows := map[2 := second], floor := Some(Mark(1, first.chain))) && n.head.contigSeq == 0
    ensures ViewOf(BothRows(id, first, second), id) == StreamView(id.writer, 2, Open, None, false)
    ensures forall o | o != id :: StreamAt(HeadRow(id, first, second), o) == StreamAt(BothRows(id, first, second), o)
  {
  }

  /** Two rows are pruned down to the head row, the member having acknowledged both. */
  function LateCall(self: string, member: string, first: Entry): Call
  {
    var now := first.body.hlc.l + 1;
    Call(map[member := AckNode(0, Some(now), None)], map[], Options(0, 10, None, {}, 10, false), [StreamView(self, 2, Open, None, false)], now, None,
         Plan([MemberReport(member, Some(now), None)], [member], []))
  }

  lemma LatePlanned(self: string, member: string, first: Entry)
    requires self != member
    ensures var c := LateCall(self, member, first); Planned(c.nodes, c.newest, c.o, c.streams, self, c.now, c.plan)
    ensures var c := LateCall(self, member, first); member in c.plan.included && c.streams == [StreamView(self, 2, Open, None, false)]
    ensures forall w :: Listed(LateCall(self, member, first), w) <==> w == self
  {
    var c := LateCall(self, member, first);
    assert c.streams[0].writer == self;
    forall n
      ensures Candidate(c.nodes, c.o, c.streams, self, n) <==> n == member
    {
    }
  }

  lemma LatePrune(p: Pair, id: StreamId, first: Entry, second: Entry, acks: map<AckKey, nat>)
    requires p.self == id.writer != p.member && p.topic == id.topic
    requires acks == map[AckKey(id.topic, p.member, id.writer) := 2]
    ensures PruneStep(p.self, p.topic, LateCall(p.self, p.member, first), acks, BothRows(id, first, second), HeadRow(id, first, second))
  {
    var call, c, c' := LateCall(p.self, p.member, first), BothRows(id, first, second), HeadRow(id, first, second);
    hide Planned, StreamStep, StreamAt, LateCall, ViewOf, TopicAcks, BothRows, HeadRow, Listed;
    LatePlanned(p.self, p.member, first);
    LateStreams(id, first, second);
    LateStream(p, id, first, second, acks);
    assert id == StreamId(p.topic, p.self);
    forall o: StreamId
      ensures if o.topic == p.topic && Listed(call, o.writer) then StreamStep(call, TopicAcks(acks, p.topic), ViewOf(c, o), StreamAt(c, o), StreamAt(c', o))
              else StreamAt(c', o) == StreamAt(c, o)
    {
      if o.topic == p.topic && Listed(call, o.writer) { assert o == id; }
    }
  }

  lemma LateStream(p: Pair, id: StreamId, first: Entry, second: Entry, acks: map<AckKey, nat>)
    requires p.self == id.writer != p.member && p.topic == id.topic && acks == map[AckKey(id.topic, p.member, id.writer) := 2]
    ensures var c, c' := BothRows(id, first, second), HeadRow(id, first, second);
            StreamStep(LateCall(p.self, p.member, first), TopicAcks(acks, p.topic), ViewOf(c, id), StreamAt(c, id), StreamAt(c', id))
  {
    var call, c, c' := LateCall(p.self, p.member, first), BothRows(id, first, second), HeadRow(id, first, second);
    LateStreams(id, first, second);
    hide StreamAt, BothRows, HeadRow, ViewOf;
    var s, s' := StreamAt(c, id), StreamAt(c', id);
    var list := [Row(1, 1, first.body.hlc.l, first.chain), Row(2, 2, second.body.hlc.l, second.chain)];
    var ta := TopicAcks(acks, p.topic);
    assert AckKey(p.topic, p.member, id.writer) in acks && (p.member, id.writer) in ta && ta[(p.member, id.writer)] == 2;
    assert list[0].seqNo == 1 && list[1].seqNo == 2;
    assert InList(list, 1) && InList(list, 2);
    assert list[1..] == [list[1]];
    assert InList(list[1..], 2) by { assert list[1..][0].seqNo == 2; }
    assert ListOf(list, s.rows) && ListOf(list[1..], s'.rows);
    assert PrunedAs(call, ta, ViewOf(c, id), s, s', 2, 10, list, 1);
  }

  /** The member catches up, acknowledges both rows, and is counted in a prune of the first. */
  function LateSites(p: Pair, id: StreamId, first: Entry, second: Entry): seq<Site>
  {
    var both, acks := BothRows(id, first, second), map[AckKey(id.topic, p.member, id.writer) := 2];
    [Site(both, Nothing(id), map[]), Site(both, both, map[]), Site(both, both, acks), Site(HeadRow(id, first, second), both, acks)]
  }

  function LateEvents(p: Pair, id: StreamId, first: Entry): seq<Event>
  {
    [MemberMoves, Recorded(p.member, map[id.topic := map[id.writer := 2]]), Prune(LateCall(p.self, p.member, first))]
  }

  lemma ThreeSteps(p: Pair, a: Site, b: Site, c: Site, d: Site, e: Event, f: Event, g: Event)
    requires Step(p, a, e, b) && Step(p, b, f, c) && Step(p, c, g, d)
    ensures Run(p, [a, b, c, d], [e, f, g])
  {
    hide Step;
  }

  lemma LateRecorded(p: Pair, id: StreamId, both: Core)
    requires p.self != p.member && p.topic == id.topic && id.topic in p.eligible
    ensures Step(p, Site(both, both, map[]), Recorded(p.member, map[id.topic := map[id.writer := 2]]),
                 Site(both, both, map[AckKey(id.topic, p.member, id.writer) := 2]))
  {
  }

  lemma LateRun(p: Pair, id: StreamId, first: Entry, second: Entry)
    requires p.self == id.writer != p.member && p.topic == id.topic && id.topic in p.eligible
    ensures Run(p, LateSites(p, id, first, second), LateEvents(p, id, first))
  {
    hide PruneStep, StreamAt, BothRows, HeadRow, Nothing, LateCall, Planned, Listed, RecordedSoFar, Run, ViewOf;
    var both, acks := BothRows(id, first, second), map[AckKey(id.topic, p.member, id.writer) := 2];
    var vectors: Vectors := map[id.topic := map[id.writer := 2]];
    LatePrune(p, id, first, second, acks);
    LatePlanned(p.self, p.member, first);
    LateRecorded(p, id, both);
    ThreeSteps(p, Site(both, Nothing(id), map[]), Site(both, both, map[]), Site(both, both, acks), Site(HeadRow(id, first, second), both, acks),
               MemberMoves, Recorded(p.member, vectors), Prune(LateCall(p.self, p.member, first)));
  }

  lemma FourKeep(p: Pair, a: Site, b: Site, c: Site, d: Site, id: StreamId)
    requires FloorOf(a.pruner, id) == 0 && OnRecord(p, a, id) == 0 && OnRecord(p, b, id) == 0 && OnRecord(p, c, id) == 2 && OnRecord(p, d, id) == 2
    requires HeadOf(b.member, id) == 2 && HeadOf(c.member, id) == 2 && HeadOf(d.member, id) == 2
    ensures Keeps(p, [a, b, c, d], id)
  {
    hide OnRecord, HeadOf, FloorOf;
    var sites := [a, b, c, d];
    forall i, j | 0 <= i <= j < |sites|
      ensures OnRecord(p, sites[i], id) <= HeadOf(sites[j].member, id)
    {
      if i >= 2 { assert j == 2 || j == 3; }
    }
  }

  lemma LateKeeps(p: Pair, id: StreamId, first: Entry, second: Entry)
    requires p.self == id.writer != p.member && p.topic == id.topic
    ensures Keeps(p, LateSites(p, id, first, second), id)
  {
    hide OnRecord, StreamAt, BothRows, HeadRow, Nothing, ViewOf, Keeps;
    var both, cut := BothRows(id, first, second), HeadRow(id, first, second);
    var acks: map<AckKey, nat> := map[AckKey(id.topic, p.member, id.writer) := 2];
    LateStreams(id, first, second);
    LateRecords(p, id, both, cut, Nothing(id), acks);
    FourKeep(p, Site(both, Nothing(id), map[]), Site(both, both, map[]), Site(both, both, acks), Site(cut, both, acks), id);
  }

  lemma LateRecords(p: Pair, id: StreamId, full: Core, cut: Core, none: Core, acks: map<AckKey, nat>)
    requires p.self == id.writer != p.member && p.topic == id.topic && acks == map[AckKey(id.topic, p.member, id.writer) := 2]
    requires StreamAt(full, id).head.contigSeq == 2 && StreamAt(cut, id).head.contigSeq == 2
    ensures OnRecord(p, Site(full, none, map[]), id) == 0 && OnRecord(p, Site(full, full, map[]), id) == 0
    ensures OnRecord(p, Site(full, full, acks), id) == 2 && OnRecord(p, Site(cut, full, acks), id) == 2
  {
    hide StreamAt;
    var k := AckKey(p.topic, p.member, id.writer);
    assert k in acks;
    assert (p.member, id.writer) in TopicAcks(acks, p.topic) && TopicAcks(acks, p.topic)[(p.member, id.writer)] == 2;
    assert (p.member, id.writer) !in TopicAcks(map[], p.topic);
  }

  /**
    A delayed WANT can meet the floor: sent for row 1, and answered after the member has caught up, acknowledged
    both rows and been counted in a prune of the first.
  */
  lemma DelayedWantMeetsFloor(p: Pair, id: StreamId, first: Entry, second: Entry)
    requires p.self == id.writer != p.member && p.topic == id.topic && id.topic in p.eligible
    ensures exists sites: seq<Site>, es: seq<Event> :: Run(p, sites, es) && Keeps(p, sites, id) && |sites| == 4
                                && Sync.BelowFloor(StreamAt(sites[3].pruner, id).floor, HeadOf(sites[0].member, id) + 1)
  {
    hide Run, Keeps, StreamAt, BothRows, HeadRow, Nothing, LateEvents, ViewOf;
    LateRun(p, id, first, second);
    LateKeeps(p, id, first, second);
    LateStreams(id, first, second);
    var sites := LateSites(p, id, first, second);
    assert Sync.BelowFloor(StreamAt(sites[3].pruner, id).floor, HeadOf(sites[0].member, id) + 1);
  }

  // ---- any number of nodes ----

  /** A net of nodes, and what one of them has on record. */
  datatype Joint = Joint(net: R.Net, acks: map<AckKey, nat>)

  datatype Move =
    | NetMove(node: string, e: R.Event)
    | RecordMove(node: string, vectors: Vectors, since: nat)
    | ForgetMove(node: string)
    | PruneMove(call: Call)

  /** A vector the node really had when it sent it. */
  ghost predicate TrueOf(vectors: Vectors, c: Core)
  {
    forall t, w | t in vectors && w in vectors[t] :: vectors[t][w] == HeadOf(c, StreamId(t, w))
  }

  /** The pruning node deletes rows of the topic only through pruneAcked, and takes no floors for it. */
  predicate Allowed(p: Pair, node: string, e: R.Event)
  {
    node == p.self ==>
      match e
      case Prune(id, _) => id.topic != p.topic
      case TakeFloor(m, _) => m.TruncatedMsg? ==> m.stream.topic != p.topic
      case _ => true
  }

  ghost predicate JointStep(cfg: Config, p: Pair, js: seq<Joint>, i: nat, m: Move)
    requires i + 1 < |js|
  {
    var a, b := js[i], js[i + 1];
    match m
    case NetMove(node, e) => R.Step(cfg, a.net, node, e, b.net) && b.acks == a.acks && Allowed(p, node, e)
    case RecordMove(node, vectors, since) =>
      b.net == a.net && node != p.self && since <= i && node in js[since].net.nodes && TrueOf(vectors, js[since].net.nodes[node])
      && RecordedSoFar(p.eligible, node, vectors, {}, a.acks, b.acks)
    case ForgetMove(node) =>
      b.net == a.net && forall k :: AckAt(b.acks, k) == if k.topic == p.topic && k.node == node then None else AckAt(a.acks, k)
    case PruneMove(call) =>
      b.acks == a.acks && p.member in call.plan.included && p.self in a.net.nodes && p.self in b.net.nodes
      && b.net == a.net.(nodes := a.net.nodes[p.self := b.net.nodes[p.self]])
      && PruneStep(p.self, p.topic, call, a.acks, a.net.nodes[p.self], b.net.nodes[p.self])
      && b.net.nodes[p.self] == a.net.nodes[p.self].(disk := a.net.nodes[p.self].disk.(streams := b.net.nodes[p.self].disk.streams))
  }

  ghost predicate JointRun(cfg: Config, p: Pair, js: seq<Joint>, ms: seq<Move>)
  {
    && |js| == |ms| + 1 && p.self != p.member && R.Start(js[0].net) && js[0].acks == map[]
    && p.self in js[0].net.nodes && p.member in js[0].net.nodes
    && forall i | 0 <= i < |ms| :: JointStep(cfg, p, js, i, ms[i])
  }

  // ---- one step of a node that follows every branch ----

  lemma {:induction false} DrainFloor(full: bool, id: StreamId, s: Stream)
    ensures Drain(full, id, s).floor == s.floor
    decreases |s.pending|
  {
    hide Verifies;
    var n := s.head.contigSeq + 1;
    if n in s.pending { DrainFloor(full, id, Advance(full, s.(pending := s.pending - {n}), s.pending[n])); }
  }

  lemma ExternalGrows(full: bool, cap: nat, id: StreamId, h: seq<Entry>, s: Stream, e: Entry)
    requires Canonical(id, h) && R.Tracks(id, h, s) && e.body.seqNo > 0
    ensures var t := External(full, cap, None, id, s, e).stream; t.head.contigSeq >= s.head.contigSeq && t.floor == s.floor
  {
    Sync.PendingSeqs(id, h, s);
    hide Canonical, Verifies, Drain, Drained, RecoveryIngest, R.OnMark, R.OnBranch;
    if e.body.seqNo == s.head.contigSeq + 1 {
      Sync.DrainForward(full, id, Advance(full, s, e));
      DrainFloor(full, id, Advance(full, s, e));
    }
  }

  lemma FloorGrows(full: bool, id: StreamId, h: seq<Entry>, s: Stream, m: Mark)
    requires Canonical(id, h) && R.Tracks(id, h, s)
    ensures AdoptFloor(full, id, s, m).0.head.contigSeq >= s.head.contigSeq
  {
    Sync.PendingSeqs(id, h, s);
    hide Canonical, Verifies, Drain, Drained, R.OnMark, R.OnBranch;
    if s.head.contigSeq < m.seqNo { Sync.DrainForward(full, id, JumpToFloor(s, m)); }
  }

  lemma CommitAt(c: Core, at: StreamId, s: Stream, mid: Core, c': Core, id: StreamId)
    requires Changed(c, at, s, mid) && c' == mid.(applied := [], disk := mid.disk.(hlc := mid.hlc))
    ensures StreamAt(c', id) == if id == at then s else StreamAt(c, id)
  {
    R.SettledOthers(c, at, s, mid, c');
    hide StreamAt;
  }

  lemma WriteMoves(cfg: Config, w: string, c: Core, item: Item, pt: nat, c': Core, id: StreamId)
    requires item.AppendItem? && R.Commit(cfg, w, c, item, pt, c')
    ensures HeadOf(c', id) >= HeadOf(c, id) && StreamAt(c', id).floor == StreamAt(c, id).floor
  {
    hide Changed, AfterPersist, StreamAt;
    var mid: Core, reply: Reply :| ItemStep(cfg, w, c, item, pt, mid, reply) && c' == mid.(applied := [], disk := mid.disk.(hlc := mid.hlc));
    R.Settled(mid, c');
    var at := StreamId(item.topic, w);
    var s := StreamAt(c, at);
    if s.head.seal == Open && Stamp(c.hlc, pt).Some? {
      var e := NewEntry(w, item, s.head, Stamp(c.hlc, pt).value, CausalOf(w, c.tails, item.causal));
      if cfg.valid(e) {
        CommitAt(c, at, Advance(IsFull(cfg, item.topic), s, e), mid, c', id);
      } else {
        SameStreamsAt(c, mid, id);
      }
    }
  }

  lemma SameStreamsAt(c: Core, c': Core, id: StreamId)
    requires c'.disk.streams == c.disk.streams && c'.recoveries == c.recoveries
    ensures StreamAt(c', id) == StreamAt(c, id)
  {
  }

  lemma TakeEntryMoves(cfg: Config, h: R.History, w: string, c: Core, e: Entry, pt: nat, c': Core, id: StreamId)
    requires R.HistoryOk(h) && R.NodeOk(h, w, c) && e.body.seqNo > 0 && R.Commit(cfg, w, c, ExternalItem(e), pt, c')
    ensures HeadOf(c', id) >= HeadOf(c, id) && StreamAt(c', id).floor == StreamAt(c, id).floor
  {
    hide Changed, StreamAt, External, R.Tracks, Canonical, R.HlcOrdered, AfterAll, MergeClock, IsFull, R.OwnOk;
    var mid: Core, reply: Reply :|
      ItemStep(cfg, w, c, ExternalItem(e), pt, mid, reply) && c' == mid.(applied := [], disk := mid.disk.(hlc := mid.hlc));
    var at := StreamOf(e);
    R.NodeAt(h, w, c, at);
    R.NoFinality(h, w, c, e.topic);
    ExternalGrows(IsFull(cfg, e.topic), cfg.pendingCap, at, R.Written(h, at), StreamAt(c, at), e);
    CommitAt(c, at, External(IsFull(cfg, e.topic), cfg.pendingCap, None, at, StreamAt(c, at), e).stream, mid, c', id);
  }

  lemma TakeFloorMoves(cfg: Config, h: R.History, w: string, c: Core, at: StreamId, m: Mark, pt: nat, c': Core, id: StreamId)
    requires R.HistoryOk(h) && R.NodeOk(h, w, c) && R.Commit(cfg, w, c, FloorItem(at, m), pt, c')
    ensures HeadOf(c', id) >= HeadOf(c, id) && (id != at ==> StreamAt(c', id).floor == StreamAt(c, id).floor)
  {
    hide Changed, StreamAt, AdoptFloor, R.Tracks, Canonical, R.HlcOrdered, AfterAll, IsFull, R.OwnOk;
    var mid: Core, reply: Reply :|
      ItemStep(cfg, w, c, FloorItem(at, m), pt, mid, reply) && c' == mid.(applied := [], disk := mid.disk.(hlc := mid.hlc));
    R.NodeAt(h, w, c, at);
    if cfg.ackRefused(at.topic) {
      R.Settled(mid, c');
    } else {
      FloorGrows(IsFull(cfg, at.topic), at, R.Written(h, at), StreamAt(c, at), m);
      CommitAt(c, at, AdoptFloor(IsFull(cfg, at.topic), at, StreamAt(c, at), m).0, mid, c', id);
    }
  }

  lemma RestartMoves(h: R.History, w: string, c: Core, c': Core, id: StreamId)
    requires R.NodeOk(h, w, c) && c' == Core(c.disk, map[], c.disk.hlc, map[], map[], [])
    ensures StreamAt(c', id) == StreamAt(c, id)
  {
    R.NodeAt(h, w, c, id);
  }

  /** No step of such a node takes a head back; only a prune or a floor taken in moves a floor. */
  lemma NodeMoves(cfg: Config, w: string, g: R.Net, c: Core, e: R.Event, c': Core, g': R.Net, id: StreamId)
    requires R.NetOk(g) && w in g.nodes && g.nodes[w] == c && R.NodeStep(cfg, w, g, c, e, c', g')
    ensures HeadOf(c', id) >= HeadOf(c, id)
    ensures !(e.Prune? && e.stream == id) && !(e.TakeFloor? && e.truncated.TruncatedMsg? && e.truncated.stream == id) ==>
              StreamAt(c', id).floor == StreamAt(c, id).floor
  {
    hide R.Commit, R.NodeOk, R.HistoryOk, StreamAt, R.NewRow, Changed, R.OnMark, R.OnHistory, R.Contradicts, R.Pruned, R.MaySend;
    var h := g.history;
    match e
    case Write(item, pt) => WriteMoves(cfg, w, c, item, pt, c', id);
    case TakeEntry(m, k, pt) => TakeEntryMoves(cfg, h, w, c, m.entries[k], pt, c', id);
    case TakeHave(m) =>
      assert R.MsgOk(h, m);
      R.NodeAt(h, w, c, m.stream);
      R.NoContradiction(m.stream, R.Written(h, m.stream), StreamAt(c, m.stream), m.mark);
    case TakeFloor(m, pt) => TakeFloorMoves(cfg, h, w, c, m.stream, m.mark, pt, c', id);
    case Prune(at, upto) => PruneMoves(c, at, upto, c', id);
    case Send(m) =>
    case FoldRow(row) => R.TailsKeep(h, w, c, c');
    case RestartNode => RestartMoves(h, w, c, c', id);
  }

  lemma PruneMoves(c: Core, at: StreamId, upto: nat, c': Core, id: StreamId)
    requires upto in StreamAt(c, at).rows && Changed(c, at, R.Pruned(StreamAt(c, at), upto), c')
    ensures HeadOf(c', id) == HeadOf(c, id) && (id != at ==> StreamAt(c', id) == StreamAt(c, id))
  {
  }

  // ---- a prune in the net ----

  lemma StreamStepTracks(call: Call, acks: map<(string, string), nat>, v: StreamView, id: StreamId, h: seq<Entry>, s: Stream, s': Stream)
    requires StreamStep(call, acks, v, s, s') && R.Tracks(id, h, s)
    ensures R.Tracks(id, h, s') && s'.head == s.head
  {
    hide IsAckFloor, R.OnMark, Walked;
    var ackFloor: nat, budget: nat, list, n: nat :| PrunedAs(call, acks, v, s, s', ackFloor, budget, list, n);
    if n > 0 {
      assert RowOf(s.rows, list[n - 1]);
      MarkOnBranch(id, h, s.rows, list[n - 1]);
    }
  }

  lemma MarkOnBranch(id: StreamId, h: seq<Entry>, rows: Rows, r: Row)
    requires R.OnBranch(h, rows) && RowOf(rows, r)
    ensures R.OnMark(id, h, Mark(r.seqNo, r.chain))
  {
  }

  lemma PruneStepKeeps(p: Pair, call: Call, acks: map<AckKey, nat>, h: R.History, c: Core, c': Core)
    requires R.NodeOk(h, p.self, c) && PruneStep(p.self, p.topic, call, acks, c, c') && c' == c.(disk := c.disk.(streams := c'.disk.streams))
    ensures R.NodeOk(h, p.self, c') && forall id :: HeadOf(c', id) == HeadOf(c, id)
  {
    hide StreamAt, Planned, ViewOf, TopicAcks, R.Tracks, R.OwnOk, StreamStep, R.Written;
    forall id
      ensures R.Tracks(id, R.Written(h, id), StreamAt(c', id)) && HeadOf(c', id) == HeadOf(c, id)
      ensures id.writer == p.self ==> R.OwnOk(R.Written(h, id), StreamAt(c', id), c'.hlc)
    {
      R.NodeAt(h, p.self, c, id);
      if id.topic == p.topic && Listed(call, id.writer) {
        StreamStepTracks(call, TopicAcks(acks, p.topic), ViewOf(c, id), id, R.Written(h, id), StreamAt(c, id), StreamAt(c', id));
        SameHeadOwn(R.Written(h, id), StreamAt(c, id), StreamAt(c', id), c.hlc);
      }
    }
  }

  lemma SameHeadOwn(h: seq<Entry>, s: Stream, s': Stream, hlc: Hlc)
    requires s'.head == s.head
    ensures R.OwnOk(h, s, hlc) ==> R.OwnOk(h, s', hlc)
  {
  }

  // ---- joint runs ----

  ghost predicate Here(p: Pair, j: Joint) { p.self in j.net.nodes && p.member in j.net.nodes }

  lemma JointStepKeeps(cfg: Config, p: Pair, js: seq<Joint>, i: nat, m: Move)
    requires i + 1 < |js| && JointStep(cfg, p, js, i, m) && p.self != p.member && R.NetOk(js[i].net) && Here(p, js[i])
    ensures R.NetOk(js[i + 1].net) && Here(p, js[i + 1])
    ensures forall id :: HeadOf(js[i + 1].net.nodes[p.member], id) >= HeadOf(js[i].net.nodes[p.member], id)
    ensures !m.PruneMove? ==>
              forall id: StreamId | id.topic == p.topic ::
                StreamAt(js[i + 1].net.nodes[p.self], id).floor == StreamAt(js[i].net.nodes[p.self], id).floor
  {
    hide R.NetOk, HeadOf, StreamAt, R.NodeStep, PruneStep, RecordedSoFar, TrueOf;
    var a, b := js[i].net, js[i + 1].net;
    match m
    case NetMove(node, e) =>
      R.StepKeeps(cfg, a, node, e, b);
      forall id
        ensures HeadOf(b.nodes[p.member], id) >= HeadOf(a.nodes[p.member], id)
        ensures id.topic == p.topic ==> StreamAt(b.nodes[p.self], id).floor == StreamAt(a.nodes[p.self], id).floor
      {
        NodeMoves(cfg, node, a, a.nodes[node], e, b.nodes[node], b, id);
      }
    case PruneMove(call) => PruneMoveKeeps(p, call, js[i].acks, a, b);
    case _ =>
  }

  lemma PruneMoveKeeps(p: Pair, call: Call, acks: map<AckKey, nat>, a: R.Net, b: R.Net)
    requires R.NetOk(a) && p.self in a.nodes && p.self in b.nodes && b == a.(nodes := a.nodes[p.self := b.nodes[p.self]])
    requires PruneStep(p.self, p.topic, call, acks, a.nodes[p.self], b.nodes[p.self])
    requires b.nodes[p.self] == a.nodes[p.self].(disk := a.nodes[p.self].disk.(streams := b.nodes[p.self].disk.streams))
    ensures R.NetOk(b)
  {
    hide R.NodeOk, R.HistoryOk, R.MsgOk, PruneStep;
    PruneStepKeeps(p, call, acks, a.history, a.nodes[p.self], b.nodes[p.self]);
  }

  lemma {:induction false} JointOk(cfg: Config, p: Pair, js: seq<Joint>, ms: seq<Move>, n: nat)
    requires JointRun(cfg, p, js, ms) && n < |js|
    ensures R.NetOk(js[n].net) && Here(p, js[n])
  {
    hide R.NetOk, JointStep, R.Start;
    if n == 0 {
      R.StartOk(js[0].net);
    } else {
      JointOk(cfg, p, js, ms, n - 1);
      JointStepKeeps(cfg, p, js, n - 1, ms[n - 1]);
    }
  }

  /** Heads of the member never go back. */
  lemma {:induction false} HeadsGrow(cfg: Config, p: Pair, js: seq<Joint>, ms: seq<Move>, i: nat, j: nat, id: StreamId)
    requires JointRun(cfg, p, js, ms) && i <= j < |js|
    ensures Here(p, js[i]) && Here(p, js[j]) && HeadOf(js[i].net.nodes[p.member], id) <= HeadOf(js[j].net.nodes[p.member], id)
    decreases j
  {
    hide R.NetOk, JointStep, R.Start, HeadOf;
    JointOk(cfg, p, js, ms, i);
    if i < j {
      HeadsGrow(cfg, p, js, ms, i, j - 1, id);
      JointOk(cfg, p, js, ms, j - 1);
      JointStepKeeps(cfg, p, js, j - 1, ms[j - 1]);
    }
  }

  /** What is on record of the member is at most its head. */
  lemma {:induction false} RecordsTrue(cfg: Config, p: Pair, js: seq<Joint>, ms: seq<Move>, n: nat, id: StreamId)
    requires JointRun(cfg, p, js, ms) && n < |js| && id.topic == p.topic
    ensures var a := AckAt(js[n].acks, AckKey(p.topic, p.member, id.writer));
            Here(p, js[n]) && (a.Some? ==> a.value <= HeadOf(js[n].net.nodes[p.member], id))
  {
    hide R.NetOk, R.Start, HeadOf, PruneStep, R.Step;
    JointOk(cfg, p, js, ms, n);
    if n > 0 {
      var k := AckKey(p.topic, p.member, id.writer);
      RecordsTrue(cfg, p, js, ms, n - 1, id);
      HeadsGrow(cfg, p, js, ms, n - 1, n, id);
      assert JointStep(cfg, p, js, n - 1, ms[n - 1]);
      match ms[n - 1]
      case RecordMove(node, vectors, since) =>
        HeadsGrow(cfg, p, js, ms, since, n, id);
        assert AckAt(js[n].acks, k) == if Advertised(p.eligible, node, vectors, k).Some? then Advertised(p.eligible, node, vectors, k) else AckAt(js[n - 1].acks, k);
      case ForgetMove(node) => assert AckAt(js[n].acks, k) == if k.node == node then None else AckAt(js[n - 1].acks, k);
      case _ =>
    }
  }

  ghost function SiteOf(p: Pair, j: Joint): Site
    requires Here(p, j)
  {
    Site(j.net.nodes[p.self], j.net.nodes[p.member], j.acks)
  }

  function EventOf(p: Pair, m: Move): Event
  {
    match m
    case NetMove(node, _) => if node == p.member then MemberMoves else PrunerMoves
    case RecordMove(node, vectors, _) => Recorded(node, vectors)
    case ForgetMove(node) => Forgotten(node)
    case PruneMove(call) => Prune(call)
  }

  /** A copy is never ahead of its author, so what is on record of the member it holds. */
  lemma RecordHeld(cfg: Config, p: Pair, js: seq<Joint>, ms: seq<Move>, n: nat, id: StreamId)
    requires JointRun(cfg, p, js, ms) && n < |js| && id.topic == p.topic
    ensures Here(p, js[n]) && OnRecord(p, SiteOf(p, js[n]), id) <= HeadOf(js[n].net.nodes[p.member], id)
  {
    JointOk(cfg, p, js, ms, n);
    RecordsTrue(cfg, p, js, ms, n, id);
    var g := js[n].net;
    OwnStreamHeld(g, p.self, p.member, id);
    hide StreamAt, R.NetOk, JointRun;
    assert (p.member, id.writer) in TopicAcks(js[n].acks, p.topic) <==> AckKey(p.topic, p.member, id.writer) in js[n].acks;
  }

  lemma OwnStreamHeld(g: R.Net, self: string, member: string, id: StreamId)
    requires R.NetOk(g) && self in g.nodes && member in g.nodes
    ensures ViewOf(g.nodes[self], id).seal == Open
    ensures id.writer == member ==> HeadOf(g.nodes[self], id) <= HeadOf(g.nodes[member], id)
  {
    R.NodeAt(g.history, self, g.nodes[self], id);
    R.NodeAt(g.history, member, g.nodes[member], id);
  }

  /** Seen from the two nodes, a run of the whole net is a run of the pair, and the member keeps what it acknowledged. */
  lemma JointIsRun(cfg: Config, p: Pair, js: seq<Joint>, ms: seq<Move>)
    requires JointRun(cfg, p, js, ms)
    ensures forall j | 0 <= j < |js| :: Here(p, js[j])
    ensures var sites := seq(|js|, j requires 0 <= j < |js| && Here(p, js[j]) => SiteOf(p, js[j]));
            && Run(p, sites, seq(|ms|, i requires 0 <= i < |ms| => EventOf(p, ms[i])))
            && forall id: StreamId | id.topic == p.topic :: Keeps(p, sites, id)
  {
    forall j | 0 <= j < |js|
      ensures Here(p, js[j])
    {
      JointOk(cfg, p, js, ms, j);
    }
    var sites := seq(|js|, j requires 0 <= j < |js| && Here(p, js[j]) => SiteOf(p, js[j]));
    var es := seq(|ms|, i requires 0 <= i < |ms| => EventOf(p, ms[i]));
    forall i | 0 <= i < |ms|
      ensures Step(p, sites[i], es[i], sites[i + 1])
    {
      MoveIsStep(cfg, p, js, ms, i);
    }
    forall id: StreamId | id.topic == p.topic
      ensures Keeps(p, sites, id)
    {
      JointKeeps(cfg, p, js, ms, sites, id);
    }
  }

  lemma MoveIsStep(cfg: Config, p: Pair, js: seq<Joint>, ms: seq<Move>, i: nat)
    requires JointRun(cfg, p, js, ms) && i < |ms|
    ensures Here(p, js[i]) && Here(p, js[i + 1]) && Step(p, SiteOf(p, js[i]), EventOf(p, ms[i]), SiteOf(p, js[i + 1]))
  {
    hide R.NetOk, R.Start, PruneStep, RecordedSoFar, R.NodeStep, StreamAt;
    JointOk(cfg, p, js, ms, i);
    JointOk(cfg, p, js, ms, i + 1);
    assert JointStep(cfg, p, js, i, ms[i]);
    JointStepKeeps(cfg, p, js, i, ms[i]);
  }

  lemma JointKeeps(cfg: Config, p: Pair, js: seq<Joint>, ms: seq<Move>, sites: seq<Site>, id: StreamId)
    requires JointRun(cfg, p, js, ms) && id.topic == p.topic && |sites| == |js|
    requires forall j | 0 <= j < |js| :: Here(p, js[j]) && sites[j] == SiteOf(p, js[j])
    ensures Keeps(p, sites, id)
  {
    NoFloorYet(p, js[0], id) by { hide JointStep; }
    hide StreamAt, JointRun, OnRecord;
    forall i, j | 0 <= i <= j < |sites|
      ensures OnRecord(p, sites[i], id) <= HeadOf(sites[j].member, id)
    {
      RecordHeld(cfg, p, js, ms, i, id);
      HeadsGrow(cfg, p, js, ms, i, j, id);
    }
  }

  lemma NoFloorYet(p: Pair, j: Joint, id: StreamId)
    requires R.Start(j.net) && Here(p, j)
    ensures FloorOf(j.net.nodes[p.self], id) == 0
  {
  }

  /**
    In every run of any number of nodes exchanging messages over links that lose, repeat, delay and reorder, at a
    node that prunes a topic only through pruneAcked, counts the member in every prune and adopts no floors for
    it: whatever HAVE rounds it has on record, however late, the member's WANT for the row after its head never
    meets the floor, and adopting any floor it ever had would do nothing at the member.
  */
  lemma NetMemberNeverTruncated(cfg: Config, p: Pair, js: seq<Joint>, ms: seq<Move>, j: nat, k: nat, id: StreamId, full: bool)
    requires JointRun(cfg, p, js, ms) && id.topic == p.topic && j <= k < |js|
    ensures Here(p, js[j]) && Here(p, js[k])
    ensures var floor, member := StreamAt(js[j].net.nodes[p.self], id).floor, js[k].net.nodes[p.member];
            && !Sync.BelowFloor(floor, HeadOf(js[j].net.nodes[p.member], id) + 1)
            && (floor.Some? ==> AdoptFloor(full, id, StreamAt(member, id), floor.value) == (StreamAt(member, id), Noop, []))
  {
    JointIsRun(cfg, p, js, ms);
    var sites := seq(|js|, j requires 0 <= j < |js| && Here(p, js[j]) => SiteOf(p, js[j]));
    var es := seq(|ms|, i requires 0 <= i < |ms| => EventOf(p, ms[i]));
    hide JointRun, Run, Keeps, StreamAt, AdoptFloor;
    MemberNeverTruncated(p, sites, es, j, k, id, full);
  }
}
