/**
  Subscription serving (src/subs.ts:312-355, 601-741, 755-881): deltas, one coalesced resync per
  subscriber, SNAPs paced onto a lane that may refuse anything, journal catch-up, resume and epoch resets.
*/
module Subs {
  import opened HlcClock
  import V = Views
  import Snap

  /** {epoch, deltaSeq}: what a client says it has. */
  datatype Cursor = Cursor(epoch: string, deltaSeq: nat)

  /** What goes onto a subscriber's data lane; a SNAP chunk names the table its body encodes. */
  datatype Out = SnapFrame(chunk: nat, total: nat, table: V.Table, cursor: Cursor) | DeltaFrame(change: V.Change, cursor: Cursor)

  datatype JournalEntry = JournalEntry(deltaSeq: nat, change: V.Change, bytes: nat)

  /** A SNAP being paced out. */
  datatype SnapJob = SnapJob(table: V.Table, total: nat, next: nat, cursor: Cursor)

  /** Serving state of one subscriber: whether a timer is armed, and every frame its lane has taken. */
  datatype Serve = Serve(pending: bool, snap: Option<SnapJob>, timer: bool, backoffMs: nat, sent: seq<Out>)

  datatype SnapCache = SnapCache(epoch: string, deltaSeq: nat, table: V.Table)

  // ---- the client ----

  /** Chunks of one SNAP received so far. */
  datatype Got = Got(cursor: Cursor, total: nat, have: set<nat>)

  datatype Client = Client(table: V.Table, cursor: Option<Cursor>, got: Option<Got>)

  /** handleSnap and handleDelta. */
  function Receive(c: Client, f: Out): Client
  {
    match f
    case DeltaFrame(change, cursor) => Client(V.ApplyChange(c.table, change), Some(cursor), c.got)
    case SnapFrame(k, total, table, cursor) =>
      var have := (if c.got.Some? && c.got.value.cursor == cursor && c.got.value.total == total then c.got.value.have else {}) + {k};
      if |have| < total then c.(got := Some(Got(cursor, total, have))) else Client(table, Some(cursor), None)
  }

  /** The client once it has received every frame of the list. */
  function After(base: Client, sent: seq<Out>): Client
  {
    if sent == [] then base else Receive(After(base, sent[..|sent| - 1]), sent[|sent| - 1])
  }

  // ---- replaying changes ----

  /** Apply the changes from number d on. */
  function ApplyFrom(t: V.Table, changes: seq<V.Change>, d: nat): V.Table
    decreases |changes| - d
  {
    if d >= |changes| then t else ApplyFrom(V.ApplyChange(t, changes[d]), changes, d + 1)
  }

  lemma {:induction false} ApplyOneMore(t: V.Table, changes: seq<V.Change>, c: V.Change, d: nat)
    requires d <= |changes|
    ensures ApplyFrom(t, changes + [c], d) == V.ApplyChange(ApplyFrom(t, changes, d), c)
    decreases |changes| - d
  {
    hide V.ApplyChange;
    if d < |changes| {
      ApplyOneMore(V.ApplyChange(t, changes[d]), changes, c, d + 1);
    } else {
      assert ApplyFrom(V.ApplyChange(t, c), changes + [c], d + 1) == V.ApplyChange(t, c);
    }
  }

  function Value(t: V.Table, k: string): Option<string> { if k in t then Some(t[k]) else None }

  predicate Touches(c: V.Change, k: string)
  {
    match c
    case Reset(_) => true
    case Diff(upserts, deletes) => k in upserts || k in deletes
  }

  predicate TouchedFrom(changes: seq<V.Change>, d: nat, k: string) { exists i :: d <= i < |changes| && Touches(changes[i], k) }

  lemma ChangeValue(t: V.Table, u: V.Table, c: V.Change, k: string)
    ensures Touches(c, k) ==> Value(V.ApplyChange(t, c), k) == Value(V.ApplyChange(u, c), k)
    ensures !Touches(c, k) ==> Value(V.ApplyChange(t, c), k) == Value(t, k)
  {
  }

  /** A key some later change touches ends up the same from any table; a key none touches keeps its value. */
  lemma {:induction false} ValueAfter(t: V.Table, u: V.Table, changes: seq<V.Change>, d: nat, k: string)
    ensures TouchedFrom(changes, d, k) || Value(t, k) == Value(u, k) ==> Value(ApplyFrom(t, changes, d), k) == Value(ApplyFrom(u, changes, d), k)
    ensures !TouchedFrom(changes, d, k) ==> Value(ApplyFrom(t, changes, d), k) == Value(t, k)
    decreases |changes| - d
  {
    hide V.ApplyChange, Touches, Value;
    if d < |changes| {
      var t', u' := V.ApplyChange(t, changes[d]), V.ApplyChange(u, changes[d]);
      ValueAfter(t', u', changes, d + 1, k);
      ChangeValue(t, u, changes[d], k);
      ChangeValue(u, t, changes[d], k);
    }
  }

  lemma SameTable(t: V.Table, u: V.Table)
    requires forall k :: Value(t, k) == Value(u, k)
    ensures t == u
  {
    assert forall k :: k in t <==> k in u by {
      forall k ensures k in t <==> k in u { assert Value(t, k) == Value(u, k); }
    }
    assert forall k | k in t :: t[k] == u[k] by {
      forall k | k in t ensures t[k] == u[k] { assert Value(t, k) == Value(u, k); }
    }
  }

  /** Replaying changes already applied is harmless: a table that ends right from d on ends right from any s <= d on. */
  lemma Redo(start: V.Table, t: V.Table, changes: seq<V.Change>, s: nat, d: nat)
    requires s <= d <= |changes| && ApplyFrom(t, changes, d) == ApplyFrom(start, changes, 0)
    ensures ApplyFrom(t, changes, s) == ApplyFrom(start, changes, 0)
  {
    hide ApplyFrom, Value, TouchedFrom;
    var mid := Prefixed(start, changes, s);
    PrefixedThen(start, changes, s);
    forall k
      ensures Value(ApplyFrom(t, changes, s), k) == Value(ApplyFrom(start, changes, 0), k)
    {
      ValueAfter(t, mid, changes, s, k);
      ValueAfter(t, t, changes, d, k);
      if !TouchedFrom(changes, s, k) { LaterUntouched(changes, s, d, k); }
    }
    SameTable(ApplyFrom(t, changes, s), ApplyFrom(start, changes, 0));
  }

  lemma LaterUntouched(changes: seq<V.Change>, s: nat, d: nat, k: string)
    requires s <= d && !TouchedFrom(changes, s, k)
    ensures !TouchedFrom(changes, d, k)
  {
  }

  /** The table after the first s changes. */
  function Prefixed(start: V.Table, changes: seq<V.Change>, s: nat): V.Table
    requires s <= |changes|
  {
    if s == 0 then start else V.ApplyChange(Prefixed(start, changes, s - 1), changes[s - 1])
  }

  lemma {:induction false} PrefixedThen(start: V.Table, changes: seq<V.Change>, s: nat)
    requires s <= |changes|
    ensures ApplyFrom(Prefixed(start, changes, s), changes, s) == ApplyFrom(start, changes, 0)
  {
    hide V.ApplyChange;
    if s > 0 { PrefixedThen(start, changes, s - 1); }
  }

  // ---- what a group has published ----

  /** The current epoch, the table it started from, the changes published in it, and every epoch used before. */
  datatype Feed = Feed(epoch: string, start: V.Table, changes: seq<V.Change>, past: set<string>)

  function Now(f: Feed): V.Table { ApplyFrom(f.start, f.changes, 0) }

  /** The remaining changes turn this table into the current one. */
  ghost predicate CatchesUp(f: Feed, t: V.Table, d: nat) { d <= |f.changes| && ApplyFrom(t, f.changes, d) == Now(f) }

  /** The client knows of no epoch the group has not used. */
  predicate Epochs(f: Feed, c: Client)
  {
    && (c.cursor.Some? ==> c.cursor.value.epoch in f.past + {f.epoch})
    && (c.got.Some? ==> c.got.value.cursor.epoch in f.past + {f.epoch})
  }

  /** A client whose cursor names the current epoch lacks only the changes after it. */
  ghost predicate ClientOk(f: Feed, c: Client)
  {
    Epochs(f, c) && (c.cursor.Some? && c.cursor.value.epoch == f.epoch ==> CatchesUp(f, c.table, c.cursor.value.deltaSeq))
  }

  /** However much of what was sent has arrived, from the first `since` frames on, the client is in order. */
  ghost predicate AllOk(f: Feed, base: Client, sent: seq<Out>, since: nat)
  {
    (|sent| >= since ==> ClientOk(f, After(base, sent))) && (sent != [] ==> AllOk(f, base, sent[..|sent| - 1], since))
  }

  lemma {:induction false} PrefixOk(f: Feed, base: Client, sent: seq<Out>, since: nat, p: nat)
    requires AllOk(f, base, sent, since) && since <= p <= |sent|
    ensures AllOk(f, base, sent[..p], since) && ClientOk(f, After(base, sent[..p]))
    decreases |sent|
  {
    hide ClientOk;
    if p == |sent| {
      assert sent[..p] == sent;
    } else {
      PrefixOk(f, base, sent[..|sent| - 1], since, p);
      assert sent[..|sent| - 1][..p] == sent[..p];
    }
  }

  /** Fewer frames than it takes say nothing. */
  lemma {:induction false} TooFew(f: Feed, base: Client, sent: seq<Out>, since: nat)
    requires |sent| < since
    ensures AllOk(f, base, sent, since)
  {
    hide ClientOk;
    if sent != [] { TooFew(f, base, sent[..|sent| - 1], since); }
  }

  /** A change is published. */
  function Published(f: Feed, c: V.Change): Feed { f.(changes := f.changes + [c]) }

  /** A new epoch begins from a new table. */
  function Restarted(f: Feed, epoch: string, table: V.Table): Feed { Feed(epoch, table, [], f.past + {f.epoch}) }

  lemma PublishedCatchesUp(f: Feed, c: V.Change, t: V.Table, d: nat)
    requires CatchesUp(f, t, d)
    ensures CatchesUp(Published(f, c), t, d)
  {
    ApplyOneMore(t, f.changes, c, d);
    ApplyOneMore(f.start, f.changes, c, 0);
  }

  lemma PublishedClient(f: Feed, c: V.Change, client: Client)
    requires ClientOk(f, client)
    ensures ClientOk(Published(f, c), client)
  {
    hide CatchesUp;
    if client.cursor.Some? && client.cursor.value.epoch == f.epoch {
      PublishedCatchesUp(f, c, client.table, client.cursor.value.deltaSeq);
    }
  }

  lemma {:induction false} PublishedAll(f: Feed, c: V.Change, base: Client, sent: seq<Out>, since: nat)
    requires AllOk(f, base, sent, since)
    ensures AllOk(Published(f, c), base, sent, since)
  {
    hide ClientOk, Published;
    if |sent| >= since { PublishedClient(f, c, After(base, sent)); }
    if sent != [] { PublishedAll(f, c, base, sent[..|sent| - 1], since); }
  }

  lemma {:induction false} RestartedAll(f: Feed, epoch: string, table: V.Table, base: Client, sent: seq<Out>, since: nat)
    requires AllOk(f, base, sent, since) && epoch !in f.past + {f.epoch}
    ensures AllOk(Restarted(f, epoch, table), base, sent, since)
  {
    if sent != [] { RestartedAll(f, epoch, table, base, sent[..|sent| - 1], since); }
  }

  // ---- frames keep the client in order ----

  lemma AfterOneMore(base: Client, sent: seq<Out>, f: Out)
    ensures After(base, sent + [f]) == Receive(After(base, sent), f)
  {
    assert (sent + [f])[..|sent|] == sent;
  }

  lemma AllOneMore(f: Feed, base: Client, sent: seq<Out>, since: nat, out: Out)
    requires AllOk(f, base, sent, since) && ClientOk(f, Receive(After(base, sent), out))
    ensures AllOk(f, base, sent + [out], since)
  {
    hide ClientOk;
    AfterOneMore(base, sent, out);
    assert (sent + [out])[..|sent|] == sent;
  }

  /** A delta at most one past the client's cursor, new or replayed. */
  lemma DeltaKeeps(f: Feed, c: Client, s: nat)
    requires ClientOk(f, c) && c.cursor.Some? && c.cursor.value.epoch == f.epoch
    requires 1 <= s <= |f.changes| && s <= c.cursor.value.deltaSeq + 1
    ensures ClientOk(f, Receive(c, DeltaFrame(f.changes[s - 1], Cursor(f.epoch, s))))
  {
    hide V.ApplyChange;
    var d := c.cursor.value.deltaSeq;
    Redo(f.start, c.table, f.changes, s - 1, if s - 1 <= d then d else s - 1);
  }

  /** 1..n. */
  function Range(n: nat): set<nat> { if n == 0 then {} else Range(n - 1) + {n} }

  lemma {:induction false} RangeSize(n: nat)
    ensures |Range(n)| == n && forall k | k in Range(n) :: 1 <= k <= n
  {
    if n > 0 { RangeSize(n - 1); }
  }

  /** Not in the middle of chunks of the current epoch. */
  predicate Unengaged(f: Feed, c: Client) { c.got.None? || c.got.value.cursor.epoch != f.epoch }

  /** The client has the chunks before `next` of this SNAP, and of no other of this epoch. */
  predicate MidSnap(f: Feed, c: Client, j: SnapJob)
  {
    if j.next <= 1 then Unengaged(f, c) else c.got == Some(Got(j.cursor, j.total, Range(j.next - 1)))
  }

  ghost predicate JobOk(f: Feed, j: SnapJob)
  {
    j.cursor.epoch == f.epoch && 1 <= j.next <= j.total && CatchesUp(f, j.table, j.cursor.deltaSeq)
  }

  function FrameOf(j: SnapJob): Out { SnapFrame(j.next, j.total, j.table, j.cursor) }

  /** What the chunks so far plus the next one make. */
  lemma ChunkCollected(f: Feed, c: Client, j: SnapJob)
    requires JobOk(f, j) && MidSnap(f, c, j)
    ensures Receive(c, FrameOf(j)) ==
            if j.next < j.total then c.(got := Some(Got(j.cursor, j.total, Range(j.next)))) else Client(j.table, Some(j.cursor), None)
  {
    hide CatchesUp;
    RangeSize(j.next);
    assert Range(j.next) == Range(j.next - 1) + {j.next};
    if j.next == 1 { assert Range(0) == {}; }
    hide Range;
  }

  /** The next chunk: one more collected, or the SNAP is complete and the client, whatever it had, stands at its cursor in order. */
  lemma ChunkKeeps(f: Feed, c: Client, j: SnapJob)
    requires Epochs(f, c) && JobOk(f, j) && MidSnap(f, c, j)
    ensures var c' := Receive(c, FrameOf(j));
            && Epochs(f, c') && (ClientOk(f, c) ==> ClientOk(f, c'))
            && (j.next < j.total ==> MidSnap(f, c', j.(next := j.next + 1)))
            && (j.next == j.total ==> ClientOk(f, c') && c'.cursor == Some(j.cursor) && Unengaged(f, c'))
  {
    ChunkCollected(f, c, j);
    hide CatchesUp, Range, Receive;
  }

  // ---- one subscriber ----

  /** Neither waiting for a SNAP nor in the middle of one. */
  predicate Idle(s: Serve) { !s.pending && s.snap.None? }

  /** A subscriber that is owed a SNAP, or is in the middle of one, has a timer armed. */
  predicate Armed(s: Serve) { Idle(s) || s.timer }

  /** The table a client was left with by a failed read, and the change number it was left at. */
  datatype Gap = Gap(table: V.Table, from: nat)

  /**
    What is known of a subscriber: what its client had when it subscribed, after how many frames it was last
    brought in order, and, once reading the rows has failed for it, what it was left with.
  */
  datatype Note = Note(client: Client, since: nat, gap: Option<Gap>)

  type Notes = map<nat, Note>

  /** The client after everything sent to it. */
  function ClientOf(n: Note, s: Serve): Client { After(n.client, s.sent) }

  /** A SNAP in flight is of the current epoch and the client has exactly its earlier chunks; otherwise it is in the middle of none. */
  ghost predicate Engaged(f: Feed, s: Serve, c: Client)
  {
    && Epochs(f, c) && (s.pending ==> s.snap.None?)
    && match s.snap
       case Some(j) => JobOk(f, j) && MidSnap(f, c, j)
       case None => Unengaged(f, c)
  }

  /** The changes after number `at` turn the client's table into what the gap's table becomes. */
  ghost predicate GapOk(f: Feed, c: Client, g: Gap, at: nat)
  {
    g.from <= at && ApplyFrom(c.table, f.changes, at) == ApplyFrom(g.table, f.changes, g.from)
  }

  /**
    Everything sent keeps the client in order, and an idle subscriber's client stands at change number `at`;
    one whose rows could not be read has, while idle, every change since but not the table it missed.
  */
  ghost predicate ServeOk(f: Feed, s: Serve, n: Note, at: nat)
  {
    && at <= |f.changes| && Engaged(f, s, ClientOf(n, s))
    && match n.gap
       case None => n.since <= |s.sent| && AllOk(f, n.client, s.sent, n.since) && (Idle(s) ==> ClientOf(n, s).cursor == Some(Cursor(f.epoch, at)))
       case Some(g) => Idle(s) ==> GapOk(f, ClientOf(n, s), g, at)
  }

  lemma NowOk(f: Feed, s: Serve, n: Note, at: nat)
    requires ServeOk(f, s, n, at) && n.gap.None?
    ensures ClientOk(f, ClientOf(n, s))
  {
    PrefixOk(f, n.client, s.sent, n.since, |s.sent|);
    assert s.sent[..|s.sent|] == s.sent;
  }

  /** What being idle means: the frames sent, applied in order, give exactly the current table. */
  lemma IdleHasTable(f: Feed, s: Serve, n: Note)
    requires ServeOk(f, s, n, |f.changes|) && Idle(s) && n.gap.None?
    ensures ClientOf(n, s).table == Now(f)
  {
    NowOk(f, s, n, |f.changes|);
  }

  /**
    Exactly when the changes since make up for a table missed at change number g.from: when each key on which the
    client's table differed from the table then is touched by a later change.
  */
  lemma GapClosesIff(f: Feed, g: Gap)
    requires g.from <= |f.changes|
    ensures ApplyFrom(g.table, f.changes, g.from) == Now(f) <==> Closed(f, g)
  {
    hide ApplyFrom, TouchedFrom, Value;
    var due := Prefixed(f.start, f.changes, g.from);
    PrefixedThen(f.start, f.changes, g.from);
    forall k
      ensures Value(ApplyFrom(g.table, f.changes, g.from), k) == Value(Now(f), k) <==>
              (Value(g.table, k) != Value(due, k) ==> TouchedFrom(f.changes, g.from, k))
    {
      ValueAfter(g.table, due, f.changes, g.from, k);
      ValueAfter(due, g.table, f.changes, g.from, k);
    }
    if Closed(f, g) { SameTable(ApplyFrom(g.table, f.changes, g.from), Now(f)); }
  }

  ghost predicate Closed(f: Feed, g: Gap)
    requires g.from <= |f.changes|
  {
    forall k | Value(g.table, k) != Value(Prefixed(f.start, f.changes, g.from), k) :: TouchedFrom(f.changes, g.from, k)
  }

  /** A change at most one further, new or replayed, moves such a client one change on. */
  lemma GapDelta(f: Feed, c: Client, g: Gap, at: nat, k: nat)
    requires GapOk(f, c, g, at) && at <= |f.changes| && g.from < k <= at + 1 && k <= |f.changes|
    ensures GapOk(f, Receive(c, DeltaFrame(f.changes[k - 1], Cursor(f.epoch, k))), g, k)
  {
    hide V.ApplyChange;
    GapBack(f, c.table, g, at, k - 1, g.from);
  }

  /** Replaying from an earlier change number on: what it touches ends as in the gap's table brought on from there. */
  lemma GapBack(f: Feed, t: V.Table, g: Gap, at: nat, d: nat, from: nat)
    requires d <= at <= |f.changes| && g.from <= at && ApplyFrom(t, f.changes, at) == ApplyFrom(g.table, f.changes, g.from)
    requires from == Min(g.from, d)
    ensures ApplyFrom(t, f.changes, d) == ApplyFrom(g.table, f.changes, from)
  {
    hide ApplyFrom, TouchedFrom, Value;
    forall k
      ensures Value(ApplyFrom(t, f.changes, d), k) == Value(ApplyFrom(g.table, f.changes, from), k)
    {
      BackAt(f, t, g, at, d, from, k);
    }
    SameTable(ApplyFrom(t, f.changes, d), ApplyFrom(g.table, f.changes, from));
  }

  lemma BackAt(f: Feed, t: V.Table, g: Gap, at: nat, d: nat, from: nat, k: string)
    requires d <= at <= |f.changes| && g.from <= at && ApplyFrom(t, f.changes, at) == ApplyFrom(g.table, f.changes, g.from)
    requires from == Min(g.from, d)
    ensures Value(ApplyFrom(t, f.changes, d), k) == Value(ApplyFrom(g.table, f.changes, from), k)
  {
    hide ApplyFrom, TouchedFrom, Value;
    if TouchedFrom(f.changes, d, k) {
      TouchedEarlier(f.changes, from, d, k);
      ApplyTail(g.table, f.changes, from, d);
      ValueAfter(t, ApplyRange(g.table, f.changes, from, d), f.changes, d, k);
    } else {
      LaterUntouched(f.changes, d, at, k);
      ValueAfter(t, t, f.changes, d, k);
      ValueAfter(t, t, f.changes, at, k);
      if d < g.from {
        LaterUntouched(f.changes, d, g.from, k);
        ValueAfter(g.table, g.table, f.changes, g.from, k);
        ValueAfter(g.table, g.table, f.changes, d, k);
      }
    }
  }

  lemma TouchedEarlier(changes: seq<V.Change>, s: nat, d: nat, k: string)
    requires s <= d && TouchedFrom(changes, d, k)
    ensures TouchedFrom(changes, s, k)
  {
    var i :| d <= i < |changes| && Touches(changes[i], k);
    assert s <= i;
  }

  /** Apply the changes from number s up to number d. */
  function ApplyRange(t: V.Table, changes: seq<V.Change>, s: nat, d: nat): V.Table
    requires s <= d <= |changes|
    decreases d - s
  {
    if s == d then t else ApplyRange(V.ApplyChange(t, changes[s]), changes, s + 1, d)
  }

  lemma {:induction false} ApplyTail(t: V.Table, changes: seq<V.Change>, s: nat, d: nat)
    requires s <= d <= |changes|
    ensures ApplyFrom(t, changes, s) == ApplyFrom(ApplyRange(t, changes, s, d), changes, d)
    decreases d - s
  {
    hide V.ApplyChange;
    if s < d { ApplyTail(V.ApplyChange(t, changes[s]), changes, s + 1, d); }
  }

  /** deliverDelta: a delta is sent, or dropped for a resync; a subscriber owed a SNAP already gets it with that. */
  predicate Delivered(s: Serve, change: V.Change, cursor: Cursor, dropped: bool, s': Serve)
  {
    s' == if !Idle(s) then s
          else if dropped then s.(pending := true, timer := true)
          else s.(sent := s.sent + [DeltaFrame(change, cursor)])
  }

  /** The deltas after change number d. */
  function Deltas(f: Feed, d: nat): seq<Out>
    decreases |f.changes| - d
  {
    if d >= |f.changes| then [] else [DeltaFrame(f.changes[d], Cursor(f.epoch, d + 1))] + Deltas(f, d + 1)
  }

  /** The chunks a SNAP still has to send. */
  function Frames(j: SnapJob): seq<Out>
    decreases j.total - j.next
  {
    if j.next > j.total then [] else [FrameOf(j)] + Frames(j.(next := j.next + 1))
  }

  /** One delta fewer to go. */
  lemma DeltasStep(f: Feed, sent: seq<Out>, d: nat)
    requires d < |f.changes|
    ensures sent + Deltas(f, d) == sent + [DeltaFrame(f.changes[d], Cursor(f.epoch, d + 1))] + Deltas(f, d + 1)
  {
  }

  lemma NoDeltas(f: Feed, d: nat)
    requires d >= |f.changes|
    ensures Deltas(f, d) == []
  {
  }

  lemma NoFrames(j: SnapJob)
    requires j.next > j.total
    ensures Frames(j) == []
  {
  }

  /** One chunk fewer to go. */
  lemma FramesStep(sent: seq<Out>, j: SnapJob)
    requires j.next <= j.total
    ensures sent + Frames(j) == sent + [FrameOf(j)] + Frames(j.(next := j.next + 1))
  {
  }

  lemma DeliveredKeeps(f: Feed, s: Serve, n: Note, at: nat, k: nat, dropped: bool, s': Serve)
    requires ServeOk(f, s, n, at) && 1 <= k <= at + 1 && k <= |f.changes| && (n.gap.Some? && Idle(s) ==> n.gap.value.from < k)
    requires Delivered(s, f.changes[k - 1], Cursor(f.epoch, k), dropped, s')
    ensures ServeOk(f, s', n, k)
  {
    hide ClientOk, JobOk, MidSnap, V.ApplyChange, GapOk;
    if Idle(s) && s'.sent != s.sent {
      var out := DeltaFrame(f.changes[k - 1], Cursor(f.epoch, k));
      assert s'.sent == s.sent + [out];
      AfterOneMore(n.client, s.sent, out);
      if n.gap.None? {
        NowOk(f, s, n, at);
        DeltaStep(f, ClientOf(n, s), k);
        AllOneMore(f, n.client, s.sent, n.since, out);
      } else {
        GapDelta(f, ClientOf(n, s), n.gap.value, at, k);
      }
    }
  }

  lemma DeltaStep(f: Feed, c: Client, k: nat)
    requires ClientOk(f, c) && c.cursor.Some? && c.cursor.value.epoch == f.epoch && Unengaged(f, c)
    requires 1 <= k <= |f.changes| && k <= c.cursor.value.deltaSeq + 1
    ensures var c' := Receive(c, DeltaFrame(f.changes[k - 1], Cursor(f.epoch, k)));
            ClientOk(f, c') && Unengaged(f, c') && c'.cursor == Some(Cursor(f.epoch, k))
  {
    DeltaKeeps(f, c, k);
    hide ClientOk;
  }

  /** A completed SNAP brings any client in order, also one that had missed the table. */
  function Healed(n: Note, frames: nat): Note { if n.gap.None? then n else n.(gap := None, since := frames) }

  /** A chunk is taken by the lane. */
  lemma ChunkSent(f: Feed, s: Serve, n: Note, at: nat)
    requires ServeOk(f, s, n, at) && s.snap.Some?
    ensures var j := s.snap.value;
            var more := s.sent + [FrameOf(j)];
            if j.next < j.total then ServeOk(f, s.(snap := Some(j.(next := j.next + 1)), sent := more), n, at)
            else ServeOk(f, s.(pending := false, snap := None, backoffMs := 0, sent := more), Healed(n, |more|), j.cursor.deltaSeq)
  {
    hide ClientOk, MidSnap, Unengaged, CatchesUp, Epochs;
    var j := s.snap.value;
    var more := s.sent + [FrameOf(j)];
    AfterOneMore(n.client, s.sent, FrameOf(j));
    ChunkKeeps(f, ClientOf(n, s), j);
    JobSeq(f, j);
    if n.gap.None? {
      NowOk(f, s, n, at);
      AllOneMore(f, n.client, s.sent, n.since, FrameOf(j));
    } else {
      assert more[..|more| - 1] == s.sent;
      TooFew(f, n.client, s.sent, |more|);
    }
  }

  lemma JobSeq(f: Feed, j: SnapJob)
    requires JobOk(f, j)
    ensures j.cursor.epoch == f.epoch && j.cursor.deltaSeq <= |f.changes|
  {
  }

  /** A SNAP of the current table begins. */
  lemma SnapBegins(f: Feed, s: Serve, n: Note, at: nat, total: nat)
    requires ServeOk(f, s, n, at) && s.pending && total >= 1
    ensures ServeOk(f, s.(pending := false, snap := Some(SnapJob(Now(f), total, 1, Cursor(f.epoch, |f.changes|)))), n, at)
  {
    hide AllOk;
  }

  lemma PublishedServe(f: Feed, c: V.Change, s: Serve, n: Note, at: nat)
    requires ServeOk(f, s, n, at)
    ensures ServeOk(Published(f, c), s, n, at)
  {
    hide AllOk, ClientOk, CatchesUp, ApplyFrom;
    if n.gap.None? { PublishedAll(f, c, n.client, s.sent, n.since); }
    else if Idle(s) {
      ApplyOneMore(ClientOf(n, s).table, f.changes, c, at);
      ApplyOneMore(n.gap.value.table, f.changes, c, n.gap.value.from);
    }
    if s.snap.Some? { PublishedCatchesUp(f, c, s.snap.value.table, s.snap.value.cursor.deltaSeq); }
  }

  /** An epoch reset abandons a SNAP in flight and owes a new one. */
  lemma RestartedServe(f: Feed, epoch: string, table: V.Table, s: Serve, n: Note, at: nat)
    requires ServeOk(f, s, n, at) && epoch !in f.past + {f.epoch}
    ensures ServeOk(Restarted(f, epoch, table), s.(pending := true, snap := None), n, 0)
  {
    if n.gap.None? { RestartedAll(f, epoch, table, n.client, s.sent, n.since); }
    hide AllOk, CatchesUp, Range;
  }

  // ---- all subscribers ----

  type Serves = map<nat, Serve>

  /** No other subscriber is touched. */
  predicate Only(a: Serves, id: nat, b: Serves) { id in b && b == a[id := b[id]] }

  predicate OnlyNote(a: Notes, id: nat, b: Notes) { id in b && b == a[id := b[id]] }

  /** Every subscriber is in order and armed; those in `todo` have not got change `at` yet. */
  ghost predicate AllGood(f: Feed, serves: Serves, notes: Notes, todo: set<nat>, before: nat, at: nat)
  {
    forall id | id in serves :: id in notes && Armed(serves[id]) && ServeOk(f, serves[id], notes[id], if id in todo then before else at)
  }

  lemma GoodPut(f: Feed, serves: Serves, notes: Notes, todo: set<nat>, before: nat, at: nat, id: nat, s: Serve, n: Note)
    requires AllGood(f, serves, notes, todo, before, at)
    requires Armed(s) && ServeOk(f, s, n, at)
    ensures AllGood(f, serves[id := s], notes[id := n], todo - {id}, before, at)
  {
    hide ServeOk, Armed;
  }

  lemma GoodPublished(f: Feed, c: V.Change, serves: Serves, notes: Notes)
    requires AllGood(f, serves, notes, {}, 0, |f.changes|)
    ensures AllGood(Published(f, c), serves, notes, serves.Keys, |f.changes|, |f.changes| + 1)
  {
    hide ServeOk, Armed, Published;
    forall id | id in serves
      ensures Armed(serves[id]) && ServeOk(Published(f, c), serves[id], notes[id], |f.changes|)
    {
      PublishedServe(f, c, serves[id], notes[id], |f.changes|);
    }
  }

  // ---- the journal ----

  /** The newest changes, consecutively numbered up to the last. */
  ghost predicate JournalOk(journal: seq<JournalEntry>, changes: seq<V.Change>)
  {
    && |journal| <= |changes|
    && forall i | 0 <= i < |journal| ::
         journal[i].deltaSeq == |changes| - |journal| + i + 1 && journal[i].change == changes[journal[i].deltaSeq - 1]
  }

  /** push, and shift when over the bound. */
  function Journaled(journal: seq<JournalEntry>, e: JournalEntry, retain: nat): seq<JournalEntry>
  {
    var j := journal + [e];
    if |j| > retain then j[1..] else j
  }

  lemma JournaledOk(journal: seq<JournalEntry>, changes: seq<V.Change>, c: V.Change, bytes: nat, retain: nat)
    requires JournalOk(journal, changes) && |journal| == Min(|changes|, retain)
    ensures |Journaled(journal, JournalEntry(|changes| + 1, c, bytes), retain)| == Min(|changes| + 1, retain)
    ensures JournalOk(Journaled(journal, JournalEntry(|changes| + 1, c, bytes), retain), changes + [c])
  {
    var j := journal + [JournalEntry(|changes| + 1, c, bytes)];
    OneMoreJournaled(journal, changes, c, bytes);
    hide JournalOk;
    if |j| > retain { OldestGone(j, changes + [c]); }
  }

  lemma OneMoreJournaled(journal: seq<JournalEntry>, changes: seq<V.Change>, c: V.Change, bytes: nat)
    requires JournalOk(journal, changes)
    ensures JournalOk(journal + [JournalEntry(|changes| + 1, c, bytes)], changes + [c])
  {
    var j := journal + [JournalEntry(|changes| + 1, c, bytes)];
    forall i | 0 <= i < |journal|
      ensures j[i].deltaSeq == |changes| - |journal| + i + 1 && j[i].change == (changes + [c])[j[i].deltaSeq - 1]
    {
      assert j[i] == journal[i];
    }
  }

  lemma OldestGone(journal: seq<JournalEntry>, changes: seq<V.Change>)
    requires JournalOk(journal, changes) && journal != []
    ensures JournalOk(journal[1..], changes)
  {
    forall i | 0 <= i < |journal| - 1
      ensures journal[1..][i].deltaSeq == |changes| - (|journal| - 1) + i + 1 && journal[1..][i].change == changes[journal[1..][i].deltaSeq - 1]
    {
      assert journal[1..][i] == journal[i + 1];
    }
  }

  datatype SubReply = Accepted | UnknownView | AclDenied | FutureCursor

  datatype Limits = Limits(retain: nat, maxFrameBytes: nat, controlRetryMs: nat, chunkBudget: nat)

  /** 50 ms, doubling up to CONTROL_RETRY_MS. */
  function NextBackoff(ms: nat, controlRetryMs: nat): nat { Min(Max(50, 2 * ms), Max(50, controlRetryMs)) }

  /** A stalled subscriber waits twice as long each time, within 50 ms and the retry period. */
  lemma BackoffDoubles(ms: nat, controlRetryMs: nat)
    ensures var next := NextBackoff(ms, controlRetryMs);
            && next >= 50 && (next > 50 ==> next <= controlRetryMs)
            && (50 <= 2 * ms <= controlRetryMs ==> next == 2 * ms) && (50 <= controlRetryMs < 2 * ms ==> next == controlRetryMs)
  {
  }

  /** One serving group of a view, and everyone subscribed to it. */
  class SubGroup {
    const limits: Limits
    /** Whatever the world answers when asked: has the lane room, did it take the frame, could the rows be read. */
    const world: nat -> bool
    const bodyBytes: V.Table -> nat
    const cursorBytes: Cursor -> nat

    /** The view's table, as rowsProvider reads it. */
    var table: V.Table
    var epoch: string
    var deltaSeq: nat
    var journal: seq<JournalEntry>
    var snapCache: Option<SnapCache>
    var serves: Serves
    var asked: nat

    ghost var start: V.Table
    ghost var changes: seq<V.Change>
    ghost var past: set<string>
    ghost var notes: Notes

    ghost function F(): Feed
      reads this`epoch, this`start, this`changes, this`past
    {
      Feed(epoch, start, changes, past)
    }

    /** The group itself: counters, journal and cache agree with what has been published. */
    ghost predicate GroupOk()
      reads this`table, this`epoch, this`deltaSeq, this`journal, this`snapCache, this`start, this`changes, this`past
    {
      && limits.chunkBudget > 0 && epoch !in past
      && deltaSeq == |changes| && table == Now(F()) && JournalOk(journal, changes) && |journal| == Min(|changes|, limits.retain)
      && (snapCache.Some? && snapCache.value.epoch == epoch && snapCache.value.deltaSeq == deltaSeq ==> snapCache.value.table == table)
    }

    ghost predicate ServesOk()
      reads this`serves, this`epoch, this`start, this`changes, this`past, this`notes
    {
      AllGood(F(), serves, notes, {}, 0, |changes|)
    }

    /** Between events: the group agrees with itself, and every subscriber is in order and armed. */
    ghost predicate Valid()
      reads this
    {
      GroupOk() && ServesOk()
    }

    ghost predicate Good(id: nat, at: nat)
      requires id in serves
      reads this`serves, this`epoch, this`start, this`changes, this`past, this`notes
    {
      id in notes && ServeOk(F(), serves[id], notes[id], at)
    }

    /** The table the subscriber was left with by a failed read, if it has not had a whole SNAP since. */
    ghost function Missed(id: nat): Option<Gap>
      reads this`notes
    {
      if id in notes then notes[id].gap else None
    }

    ghost function ClientNow(id: nat): Client
      requires id in serves && id in notes
      reads this`serves, this`notes
    {
      ClientOf(notes[id], serves[id])
    }

    /** From its n-th answer on the world says yes: lanes have room and take frames, rows can be read. */
    ghost predicate Willing(n: nat) { forall k: nat | k >= n :: world(k) }

    /** Every journaled change past number d fits a DELTA frame. */
    ghost predicate JournalFits(d: nat)
      reads this`epoch, this`journal
    {
      forall i | 0 <= i < |journal| && journal[i].deltaSeq > d :: !Oversized(journal[i])
    }

    /** The SNAP that would begin now. */
    function SnapNow(): SnapJob
      requires limits.chunkBudget > 0
      reads this`table, this`epoch, this`deltaSeq
    {
      SnapJob(table, Snap.ChunkCount(bodyBytes(table), limits.chunkBudget), 1, Cursor(epoch, deltaSeq))
    }

    /** `known` are the epochs clients may still hold from before. */
    constructor (limits: Limits, world: nat -> bool, bodyBytes: V.Table -> nat, cursorBytes: Cursor -> nat, epoch: string, table: V.Table,
                 ghost known: set<string>)
      requires limits.chunkBudget > 0 && epoch !in known
      ensures Valid() && serves == map[] && this.table == table && this.epoch == epoch && this.limits == limits && this.world == world
      ensures this.bodyBytes == bodyBytes && this.cursorBytes == cursorBytes && asked == deltaSeq == 0 && snapCache == None && changes == []
    {
      this.limits, this.world, this.bodyBytes, this.cursorBytes := limits, world, bodyBytes, cursorBytes;
      this.table, this.epoch, deltaSeq, journal, snapCache, serves, asked := table, epoch, 0, [], None, map[], 0;
      start, changes, past, notes := table, [], known, map[];
    }

    method Ask() returns (yes: bool)
      modifies this`asked
      ensures yes == world(old(asked)) && asked == old(asked) + 1
    {
      yes := world(asked);
      asked := asked + 1;
    }

    method Schedule(id: nat)
      requires id in serves
      modifies this`serves
      ensures serves == old(serves)[id := old(serves)[id].(timer := true)]
    {
      if !serves[id].timer {
        serves := serves[id := serves[id].(timer := true)];
      } else {
        assert serves == serves[id := serves[id].(timer := true)];
      }
    }

    method Backoff(id: nat)
      requires id in serves
      modifies this`serves
      ensures serves == old(serves)[id := old(serves)[id].(timer := true, backoffMs := NextBackoff(old(serves)[id].backoffMs, limits.controlRetryMs))]
    {
      serves := serves[id := serves[id].(backoffMs := NextBackoff(serves[id].backoffMs, limits.controlRetryMs))];
      Schedule(id);
    }

    method EnterResync(id: nat)
      requires id in serves
      modifies this`serves
      ensures serves == old(serves)[id := if Idle(old(serves)[id]) then old(serves)[id].(pending := true, timer := true) else old(serves)[id]]
    {
      if !Idle(serves[id]) {
        assert serves == serves[id := serves[id]];
        return;
      }
      serves := serves[id := serves[id].(pending := true)];
      Schedule(id);
    }

    /** A worst-case envelope around the changes of a DELTA frame. */
    predicate Oversized(j: JournalEntry)
      reads this`epoch
    {
      j.bytes + cursorBytes(Cursor(epoch, j.deltaSeq)) + 96 > limits.maxFrameBytes
    }

    method DeliverDelta(id: nat, j: JournalEntry)
      requires id in serves
      modifies this`serves, this`asked
      ensures Only(old(serves), id, serves) && asked >= old(asked)
      ensures Delivered(old(serves)[id], j.change, Cursor(epoch, j.deltaSeq), Oversized(j) || !world(old(asked)), serves[id])
    {
      var s := serves[id];
      if !Idle(s) {
        assert serves == serves[id := serves[id]];
        return;
      }
      if Oversized(j) {
        EnterResync(id);
        return;
      }
      var ok := Ask();
      if !ok {
        EnterResync(id);
        return;
      }
      serves := serves[id := s.(sent := s.sent + [DeltaFrame(j.change, Cursor(epoch, j.deltaSeq))])];
    }

    /** A good subscriber at `at` stays good when a change at most one further is delivered. */
    method DeliverGood(id: nat, j: JournalEntry, ghost at: nat)
      requires id in serves && Good(id, at) && Armed(serves[id]) && (Missed(id).Some? && Idle(serves[id]) ==> Missed(id).value.from < j.deltaSeq)
      requires 1 <= j.deltaSeq <= |changes| && j.deltaSeq <= at + 1 && j.change == changes[j.deltaSeq - 1]
      modifies this`serves, this`asked
      ensures Only(old(serves), id, serves) && Good(id, j.deltaSeq) && Armed(serves[id]) && asked >= old(asked)
      ensures Delivered(old(serves)[id], j.change, Cursor(epoch, j.deltaSeq), Oversized(j) || !world(old(asked)), serves[id])
    {
      hide ServeOk;
      DeliverDelta(id, j);
      DeliveredKeeps(F(), old(serves)[id], notes[id], at, j.deltaSeq, Oversized(j) || !world(old(asked)), serves[id]);
    }

    /** Replay the journal past change number d, until the subscriber falls into resync. */
    method ReplayJournal(id: nat, d: nat, ghost at: nat)
      requires GroupOk() && id in serves && Good(id, at) && Idle(serves[id]) && (Missed(id).Some? ==> Missed(id).value.from <= d)
      requires d <= at <= deltaSeq && |changes| - |journal| <= d
      modifies this`serves, this`asked
      ensures Only(old(serves), id, serves) && Good(id, deltaSeq) && Armed(serves[id]) && asked >= old(asked) && serves[id].snap.None?
      ensures Willing(old(asked)) && JournalFits(d) ==> serves[id] == old(serves)[id].(sent := old(serves)[id].sent + Deltas(F(), d))
    {
      hide ServeOk, GroupOk, Deltas;
      GroupFacts();
      ghost var lo := |changes| - |journal|;
      ghost var was := serves[id];
      ghost var smooth := Willing(asked) && JournalFits(d);
      var i := 0;
      assert serves == serves[id := serves[id]];
      while i < |journal|
        invariant 0 <= i <= |journal| && Only(old(serves), id, serves) && Idle(serves[id]) && asked >= old(asked)
        invariant Good(id, if lo + i <= d then at else lo + i)
        invariant Rest(was, serves[id], if lo + i <= d then d else lo + i, d)
      {
        var j := journal[i];
        if j.deltaSeq > d {
          DeltasStep(F(), serves[id].sent, lo + i);
          DeliverGood(id, j, if lo + i <= d then at else lo + i);
          if !Idle(serves[id]) {
            assert !smooth;
            NotIdleAnywhere(F(), serves[id], notes[id], j.deltaSeq, deltaSeq);
            return;
          }
        }
        i := i + 1;
      }
      NoDeltas(F(), |changes|);
    }

    /** With the deltas after change k, what was sent makes what was to be sent from change d on. */
    ghost predicate Rest(was: Serve, s: Serve, k: nat, d: nat)
      reads this`epoch, this`start, this`changes, this`past
    {
      s == was.(sent := s.sent) && s.sent + Deltas(F(), k) == was.sent + Deltas(F(), d)
    }

    lemma GroupFacts()
      requires GroupOk()
      ensures deltaSeq == |changes| && JournalOk(journal, changes) && |journal| <= |changes| && limits.chunkBudget > 0
    {
    }

    /** The journal has every change since this cursor. */
    ghost predicate Keeps(c: Cursor)
      reads this`epoch, this`journal, this`changes
    {
      c.epoch == epoch && |changes| - |journal| <= c.deltaSeq <= |changes|
    }

    /** It does exactly for a cursor of this epoch at most as many changes behind as the journal is to retain. */
    lemma KeepsRecent(c: Cursor)
      requires Valid()
      ensures Keeps(c) <==> c.epoch == epoch && c.deltaSeq <= deltaSeq <= c.deltaSeq + limits.retain
    {
    }

    /** The journal has every change since this cursor, and each fits a DELTA frame. */
    ghost predicate Reaches(c: Cursor)
      reads this`epoch, this`journal, this`changes
    {
      Keeps(c) && JournalFits(c.deltaSeq)
    }

    lemma ReachesNow()
      requires GroupOk()
      ensures Reaches(Cursor(epoch, deltaSeq)) && Deltas(F(), deltaSeq) == []
    {
    }

    /** After a SNAP: deltas published while it was paced are replayed; a journal that no longer reaches back is another resync. */
    method CatchUp(id: nat, c: Cursor)
      requires GroupOk() && id in serves && Idle(serves[id]) && c.deltaSeq <= deltaSeq && Good(id, c.deltaSeq) && Missed(id).None?
      modifies this`serves, this`asked
      ensures Only(old(serves), id, serves) && Good(id, deltaSeq) && Armed(serves[id]) && asked >= old(asked) && serves[id].snap.None?
      ensures Willing(old(asked)) && Reaches(c) ==> serves[id] == old(serves)[id].(sent := old(serves)[id].sent + Deltas(F(), c.deltaSeq))
    {
      hide ServeOk, GroupOk;
      GroupFacts();
      assert serves == serves[id := serves[id]];
      if epoch != c.epoch {
        serves := serves[id := serves[id].(pending := true)];
        PendingGood(F(), old(serves)[id], notes[id], c.deltaSeq, deltaSeq);
        Schedule(id);
        TimerGood(F(), old(serves)[id].(pending := true), notes[id], deltaSeq, serves[id]);
        return;
      }
      if deltaSeq == c.deltaSeq { return; }
      var oldest := if journal != [] then journal[0].deltaSeq else deltaSeq + 1;
      if c.deltaSeq + 1 < oldest {
        EnterResync(id);
        PendingGood(F(), old(serves)[id], notes[id], c.deltaSeq, deltaSeq);
        TimerGood(F(), old(serves)[id].(pending := true), notes[id], deltaSeq, serves[id]);
        return;
      }
      ReplayJournal(id, c.deltaSeq, c.deltaSeq);
    }

    /** A subscriber once the rest of a SNAP, and the deltas since, are sent. */
    ghost function Served(s: Serve, j: SnapJob): Serve
      reads this`epoch, this`start, this`changes, this`past
    {
      s.(pending := false, snap := None, backoffMs := 0, sent := s.sent + Frames(j) + Deltas(F(), j.cursor.deltaSeq))
    }

    /** Enqueue this SNAP's next chunks while the lane has room; answers how far it got. */
    method SendChunks(id: nat) returns (job: SnapJob)
      requires GroupOk() && id in serves && serves[id].snap.Some? && Good(id, deltaSeq)
      modifies this`serves, this`asked
      ensures Only(old(serves), id, serves) && asked >= old(asked) && !serves[id].pending
      ensures 1 <= job.next <= job.total + 1 && job.cursor.deltaSeq <= deltaSeq && job.cursor == old(serves)[id].snap.value.cursor
      ensures serves[id] == old(serves)[id].(snap := Some(job), sent := serves[id].sent)
      ensures serves[id].sent + Frames(job) == old(serves)[id].sent + Frames(old(serves)[id].snap.value)
      ensures if job.next <= job.total then Good(id, deltaSeq)
              else ServeOk(F(), serves[id].(pending := false, snap := None, backoffMs := 0), Healed(notes[id], |serves[id].sent|), job.cursor.deltaSeq)
      ensures Willing(old(asked)) ==> job.next > job.total
    {
      hide ServeOk, GroupOk, Frames, JournalOk, FrameOf;
      GroupFacts();
      JobShape(F(), serves[id], notes[id], deltaSeq);
      job := serves[id].snap.value;
      assert Only(serves, id, serves);
      while job.next <= job.total
        invariant Only(old(serves), id, serves) && serves[id].snap == Some(job) && !serves[id].pending
        invariant 1 <= job.next <= job.total + 1 && job.cursor.deltaSeq <= deltaSeq && asked >= old(asked)
        invariant job.cursor == old(serves)[id].snap.value.cursor && serves[id] == old(serves)[id].(snap := Some(job), sent := serves[id].sent)
        invariant serves[id].sent + Frames(job) == old(serves)[id].sent + Frames(old(serves)[id].snap.value)
        invariant if job.next <= job.total then Good(id, deltaSeq)
                  else ServeOk(F(), serves[id].(pending := false, snap := None, backoffMs := 0), Healed(notes[id], |serves[id].sent|), job.cursor.deltaSeq)
        decreases job.total - job.next
      {
        var room := Ask();
        if !room { break; }
        var ok := Ask();
        if !ok { break; }
        ChunkSent(F(), serves[id], notes[id], deltaSeq);
        FramesStep(serves[id].sent, job);
        var more := serves[id].sent + [FrameOf(job)];
        job := job.(next := job.next + 1);
        serves := serves[id := serves[id].(snap := Some(job), sent := more)];
      }
    }

    /** Enqueue what the lane takes of a SNAP; a stall backs off, the last chunk is followed by the catch-up. */
    method PumpSnap(id: nat)
      requires GroupOk() && id in serves && serves[id].snap.Some? && Good(id, deltaSeq)
      modifies this`serves, this`asked, this`notes
      ensures Only(old(serves), id, serves) && OnlyNote(old(notes), id, notes) && Good(id, deltaSeq) && Armed(serves[id]) && asked >= old(asked)
      ensures notes[id].client == old(notes)[id].client
      ensures Willing(old(asked)) ==> serves[id].snap.None? && Missed(id).None?
      ensures Willing(old(asked)) && Reaches(old(serves)[id].snap.value.cursor) ==> serves[id] == Served(old(serves)[id], old(serves)[id].snap.value)
    {
      hide ServeOk, GroupOk, Reaches, Deltas, Frames, JournalOk, After;
      assert OnlyNote(notes, id, notes);
      var job := SendChunks(id);
      if job.next <= job.total {
        ghost var s := serves[id];
        Backoff(id);
        TimerGood(F(), s, notes[id], deltaSeq, serves[id]);
        return;
      }
      NoFrames(job);
      notes := notes[id := Healed(notes[id], |serves[id].sent|)];
      serves := serves[id := serves[id].(pending := false, snap := None, backoffMs := 0)];
      CatchUp(id, job.cursor);
    }

    lemma BodyBudget()
      requires GroupOk()
      ensures limits.chunkBudget > 0 && deltaSeq == |changes| && table == Now(F())
    {
    }

    /** The body of this moment is at hand. */
    predicate Cached()
      reads this`snapCache, this`epoch, this`deltaSeq
    {
      snapCache.Some? && snapCache.value.epoch == epoch && snapCache.value.deltaSeq == deltaSeq
    }

    /** The shared body of this moment, from the cache or freshly read; None when reading fails. */
    method SnapBody() returns (rows: Option<V.Table>)
      requires GroupOk()
      modifies this`asked, this`snapCache
      ensures GroupOk() && asked >= old(asked) && (rows.Some? ==> rows.value == table) && (Willing(old(asked)) ==> rows.Some?)
      ensures !old(Cached()) ==> asked == old(asked) + 1 && (rows.Some? <==> world(old(asked)))
    {
      hide JournalOk, Now;
      if Cached() {
        return Some(snapCache.value.table);
      }
      var readable := Ask();
      if !readable { return None; }
      snapCache := Some(SnapCache(epoch, deltaSeq, table));
      rows := Some(table);
    }

    /** A whole SNAP of the current table was sent, and nothing is owed any more. */
    ghost predicate SnapServed(s: Serve, s': Serve)
      reads this`table, this`epoch, this`deltaSeq
    {
      limits.chunkBudget > 0 && Idle(s') && s'.sent == s.sent + Frames(SnapNow())
    }

    /** The subscriber was answered SUB_ERR: idle, with the table its client had at this change. */
    ghost predicate RefusedNow(s: Serve, n: Note, s': Serve, n': Note)
      reads this`deltaSeq
    {
      s' == s.(pending := false, timer := false) && n' == n.(gap := Some(Gap(ClientOf(n, s).table, deltaSeq)))
    }

    /** No room: try again later. */
    method Stall(id: nat)
      requires id in serves && Good(id, deltaSeq)
      modifies this`serves
      ensures Only(old(serves), id, serves) && Good(id, deltaSeq) && serves[id].timer
    {
      hide ServeOk;
      ghost var s := serves[id];
      Backoff(id);
      TimerGood(F(), s, notes[id], deltaSeq, serves[id]);
    }

    /** The timer of a subscriber about to be served is disarmed. */
    method Disarm(id: nat)
      requires id in serves && Good(id, deltaSeq)
      modifies this`serves
      ensures Only(old(serves), id, serves) && Good(id, deltaSeq) && serves[id] == old(serves)[id].(timer := false)
    {
      hide ServeOk;
      ghost var s := serves[id];
      serves := serves[id := serves[id].(timer := false)];
      TimerGood(F(), s, notes[id], deltaSeq, serves[id]);
    }

    /** Answered SUB_ERR: registered still, but no longer owed a SNAP. */
    method Refuse(id: nat)
      requires id in serves && serves[id].pending && Good(id, deltaSeq) && deltaSeq == |changes|
      modifies this`serves, this`notes
      ensures Only(old(serves), id, serves) && OnlyNote(old(notes), id, notes) && Good(id, deltaSeq) && Idle(serves[id])
      ensures RefusedNow(old(serves)[id].(timer := serves[id].timer), old(notes)[id], serves[id].(timer := false), notes[id])
      ensures serves[id].timer == old(serves)[id].timer && notes[id].client == old(notes)[id].client
    {
      hide ServeOk, After;
      PendingNoSnap(F(), serves[id], notes[id], deltaSeq);
      RefusedGood(F(), serves[id], notes[id]);
      notes := notes[id := notes[id].(gap := Some(Gap(ClientOf(notes[id], serves[id]).table, deltaSeq)))];
      serves := serves[id := serves[id].(pending := false)];
    }

    /** The lane has room when asked next, and the rows then cannot be read. */
    predicate ReadFails(n: nat) { world(n) && !world(n + 1) }

    /** Begin the one SNAP a pending subscriber is owed, if its lane has room; answer SUB_ERR if the rows cannot be read. */
    method TryStartSnap(id: nat)
      requires GroupOk() && id in serves && serves[id].pending && Good(id, deltaSeq)
      modifies this`serves, this`asked, this`snapCache, this`notes
      ensures GroupOk() && Only(old(serves), id, serves) && OnlyNote(old(notes), id, notes) && Good(id, deltaSeq) && Armed(serves[id])
      ensures asked >= old(asked) && notes[id].client == old(notes)[id].client
      ensures Willing(old(asked)) ==> SnapServed(old(serves)[id], serves[id]) && Missed(id).None?
      ensures !old(Cached()) && ReadFails(old(asked)) ==>
                RefusedNow(old(serves)[id], old(notes)[id], serves[id], notes[id]) && asked == old(asked) + 2
    {
      hide ServeOk, GroupOk, Now, After, SnapServed, Frames, JournalOk, ClientOf, Cached;
      assert Only(serves, id, serves) && OnlyNote(notes, id, notes);
      GroupFacts();
      var room := Ask();
      if !room {
        Stall(id);
        return;
      }
      ghost var s := serves[id];
      Disarm(id);
      ghost var t := serves[id];
      var body := SnapBody();
      if body.None? {
        SameClient(notes[id], s, t);
        Refuse(id);
        return;
      }
      BeginSnap(id, body.value);
      if SnapServed(t, serves[id]) { SameStart(t, s, serves[id]); }
    }

    lemma SameClient(n: Note, s: Serve, t: Serve)
      requires s.sent == t.sent
      ensures ClientOf(n, s) == ClientOf(n, t)
    {
    }

    /** The body is at hand: the SNAP in flight replaces the SNAP owed. */
    method BeginSnap(id: nat, rows: V.Table)
      requires GroupOk() && id in serves && serves[id].pending && Good(id, deltaSeq) && rows == table
      modifies this`serves, this`asked, this`notes
      ensures Only(old(serves), id, serves) && OnlyNote(old(notes), id, notes) && Good(id, deltaSeq) && Armed(serves[id]) && asked >= old(asked)
      ensures notes[id].client == old(notes)[id].client
      ensures Willing(old(asked)) ==> SnapServed(old(serves)[id], serves[id]) && Missed(id).None?
    {
      hide ServeOk, GroupOk, Now, Reaches, Frames, Willing;
      BodyBudget();
      var job := SnapJob(rows, Snap.ChunkCount(bodyBytes(rows), limits.chunkBudget), 1, Cursor(epoch, deltaSeq));
      SnapBegins(F(), serves[id], notes[id], deltaSeq, job.total);
      serves := serves[id := serves[id].(pending := false, snap := Some(job))];
      ReachesNow();
      PumpSnap(id);
    }

    // ---- events ----

    /** Store a subscriber's new state back among the others. */
    lemma StillValid(was: Serves, wasNotes: Notes, id: nat)
      requires GroupOk() && AllGood(F(), was, wasNotes, {}, 0, |changes|) && Only(was, id, serves) && OnlyNote(wasNotes, id, notes)
      requires Good(id, deltaSeq) && Armed(serves[id])
      ensures Valid()
    {
      hide ServeOk, Armed;
      GroupFacts();
      GoodPut(F(), was, wasNotes, {}, 0, deltaSeq, id, serves[id], notes[id]);
      assert {} - {id} == {};
    }

    lemma GoodOf(id: nat)
      requires Valid() && id in serves
      ensures Good(id, deltaSeq) && Armed(serves[id]) && GroupOk()
    {
      hide ServeOk, Armed;
    }

    /** A backoff or resync timer goes off. */
    method TimerFires(id: nat)
      requires Valid() && id in serves && serves[id].timer
      modifies this`serves, this`asked, this`snapCache, this`notes
      ensures Valid() && Only(old(serves), id, serves) && OnlyNote(old(notes), id, notes) && asked >= old(asked)
      ensures Willing(old(asked)) ==> Advanced(old(serves)[id], serves[id]) && (!Idle(old(serves)[id]) ==> Missed(id).None?)
    {
      hide ServeOk, GroupOk, AllGood, Armed, SnapServed;
      GoodOf(id);
      ghost var was, wasNotes := serves, notes;
      serves := serves[id := serves[id].(timer := false)];
      TimerGood(F(), was[id], notes[id], deltaSeq, serves[id]);
      ghost var s := serves[id];
      Progress(id);
      if Advanced(s, serves[id]) { SameStart(s, was[id], serves[id]); }
      StillValid(was, wasNotes, id);
    }

    /** The lane has drained. */
    method HandleCapacity(id: nat)
      requires Valid() && id in serves
      modifies this`serves, this`asked, this`snapCache, this`notes
      ensures Valid() && Only(old(serves), id, serves) && OnlyNote(old(notes), id, notes) && asked >= old(asked)
      ensures Idle(old(serves)[id]) ==> notes == old(notes)
      ensures Willing(old(asked)) ==> Advanced(old(serves)[id], serves[id]) && (!Idle(old(serves)[id]) ==> Missed(id).None?)
    {
      hide ServeOk, GroupOk, AllGood, Armed, SnapServed;
      GoodOf(id);
      ghost var was, wasNotes := serves, notes;
      Progress(id);
      StillValid(was, wasNotes, id);
    }

    /** A SNAP in flight is through, and one owed was sent whole. */
    ghost predicate Advanced(s: Serve, s': Serve)
      reads this`table, this`epoch, this`deltaSeq
    {
      s'.snap.None? && (s.snap.None? && s.pending ==> SnapServed(s, s')) && (Idle(s) ==> Idle(s'))
    }

    /** What was sent counts, not timers and backoff. */
    lemma SameStart(s: Serve, t: Serve, s': Serve)
      requires s.sent == t.sent
      ensures SnapServed(s, s') ==> SnapServed(t, s') && Idle(s')
      ensures s.pending == t.pending && s.snap == t.snap && Advanced(s, s') ==> Advanced(t, s')
    {
    }

    /** Continue the SNAP in flight, or begin the one owed. */
    method Progress(id: nat)
      requires GroupOk() && id in serves && Good(id, deltaSeq)
      modifies this`serves, this`asked, this`snapCache, this`notes
      ensures GroupOk() && Only(old(serves), id, serves) && OnlyNote(old(notes), id, notes) && Good(id, deltaSeq) && Armed(serves[id])
      ensures asked >= old(asked) && (Idle(old(serves)[id]) ==> serves == old(serves) && notes == old(notes))
      ensures Willing(old(asked)) ==> Advanced(old(serves)[id], serves[id]) && (!Idle(old(serves)[id]) ==> Missed(id).None?)
    {
      hide ServeOk, GroupOk;
      if serves[id].snap.Some? { PumpSnap(id); }
      else if serves[id].pending { TryStartSnap(id); }
      else { assert Only(serves, id, serves) && OnlyNote(notes, id, notes); }
    }

    /** Every subscriber not in `todo` has had the change delivered; in a willing world it is dropped only when oversized. */
    ghost predicate Told(was: Serves, now: Serves, todo: set<nat>, j: JournalEntry, willing: bool)
      reads this`epoch
    {
      forall id | id in was && id in now ::
        if id in todo then now[id] == was[id]
        else Delivered(was[id], j.change, Cursor(epoch, j.deltaSeq), Oversized(j), now[id])
             || (!willing && Delivered(was[id], j.change, Cursor(epoch, j.deltaSeq), true, now[id]))
    }

    /** A change of the view: journaled, and delivered to everyone who can take it. */
    method Publish(upserts: V.Table, deletes: set<string>, bytes: nat)
      requires Valid()
      modifies this`table, this`deltaSeq, this`journal, this`snapCache, this`serves, this`asked, this`changes
      ensures Valid() && changes == old(changes) + [V.Diff(upserts, deletes)] && epoch == old(epoch)
      ensures table == V.ApplyChange(old(table), V.Diff(upserts, deletes)) && deltaSeq == old(deltaSeq) + 1 && serves.Keys == old(serves).Keys
      ensures Told(old(serves), serves, {}, JournalEntry(deltaSeq, V.Diff(upserts, deletes), bytes), Willing(old(asked)))
    {
      hide ServeOk, AllGood, V.ApplyChange, GroupOk, Published, Delivered;
      var change := V.Diff(upserts, deletes);
      GoodPublished(F(), change, serves, notes);
      GroupFacts();
      var j := RecordChange(change, bytes);
      var todo := serves.Keys;
      while todo != {}
        modifies this`serves, this`asked
        invariant todo <= serves.Keys == old(serves).Keys
        invariant AllGood(F(), serves, notes, todo, deltaSeq - 1, deltaSeq) && asked >= old(asked)
        invariant Told(old(serves), serves, todo, j, Willing(old(asked)))
      {
        var id :| id in todo;
        Tell(id, j, todo);
        todo := todo - {id};
      }
      NoneLeft(F(), serves, notes, deltaSeq - 1, deltaSeq);
    }

    /** The next subscriber gets the change. */
    method Tell(id: nat, j: JournalEntry, ghost todo: set<nat>)
      requires deltaSeq == |changes| > 0 && j.deltaSeq == deltaSeq && j.change == changes[deltaSeq - 1] && id in todo && id in serves
      requires AllGood(F(), serves, notes, todo, deltaSeq - 1, deltaSeq)
      modifies this`serves, this`asked
      ensures Only(old(serves), id, serves) && asked >= old(asked)
      ensures AllGood(F(), serves, notes, todo - {id}, deltaSeq - 1, deltaSeq)
      ensures Delivered(old(serves)[id], j.change, Cursor(epoch, j.deltaSeq), Oversized(j) || !world(old(asked)), serves[id])
    {
      hide ServeOk, AllGood, Delivered, Armed;
      GoodBefore(F(), serves, notes, todo, deltaSeq - 1, deltaSeq, id);
      DeliverGood(id, j, deltaSeq - 1);
      GoodPut(F(), old(serves), notes, todo, deltaSeq - 1, deltaSeq, id, serves[id], notes[id]);
      assert notes[id := notes[id]] == notes;
    }

    /** The change enters the group: next number, cache dropped, journal extended. */
    method RecordChange(change: V.Change, bytes: nat) returns (j: JournalEntry)
      requires GroupOk()
      modifies this`table, this`deltaSeq, this`journal, this`snapCache, this`changes
      ensures GroupOk() && F() == Published(old(F()), change) && deltaSeq == old(deltaSeq) + 1 == |changes|
      ensures changes == old(changes) + [change] && table == V.ApplyChange(old(table), change)
      ensures j == JournalEntry(deltaSeq, change, bytes)
    {
      hide V.ApplyChange, JournalOk, Now, Journaled;
      j := JournalEntry(deltaSeq + 1, change, bytes);
      NowPublished(F(), change);
      JournaledOk(journal, changes, change, bytes, limits.retain);
      table := V.ApplyChange(table, change);
      deltaSeq := deltaSeq + 1;
      snapCache := None;
      journal := Journaled(journal, j, limits.retain);
      changes := changes + [change];
    }

    /** Every subscriber not in `todo` was sent a whole SNAP of the current table. */
    ghost predicate Resent(was: Serves, now: Serves, todo: set<nat>)
      reads this`table, this`epoch, this`deltaSeq, this`notes
    {
      forall id | id in was && id in now :: if id in todo then now[id] == was[id] else SnapServed(was[id], now[id]) && Missed(id).None?
    }

    /** A new revision of the view: new epoch, journal gone, a SNAP for everyone. */
    method ResetGroup(newEpoch: string, newTable: V.Table)
      requires Valid() && newEpoch !in past + {epoch}
      modifies this`table, this`epoch, this`deltaSeq, this`journal, this`snapCache, this`serves, this`asked,
        this`start, this`changes, this`past, this`notes
      ensures Valid() && epoch == newEpoch && past == old(past) + {old(epoch)} && table == newTable && changes == [] && serves.Keys == old(serves).Keys
      ensures Willing(old(asked)) ==> Resent(old(serves), serves, {})
    {
      hide ServeOk, AllGood, GroupOk, Restarted, SnapServed, JournalOk, Armed, Frames, AllOwed;
      GoodRestarted(F(), newEpoch, newTable, serves, notes);
      Restart(newEpoch, newTable);
      var todo := serves.Keys;
      while todo != {}
        modifies this`serves, this`asked, this`snapCache, this`notes
        invariant todo <= serves.Keys == old(serves).Keys && GroupOk()
        invariant AllOwed(F(), serves, notes, todo, deltaSeq) && asked >= old(asked) && epoch == newEpoch && table == newTable
        invariant Willing(old(asked)) ==> Resent(old(serves), serves, todo)
      {
        var id :| id in todo;
        Reopen(id, todo);
        todo := todo - {id};
      }
      NoneOwed(F(), serves, notes, deltaSeq);
      GroupFacts();
    }

    /** The next subscriber loses a SNAP in flight and is owed a new one. */
    method Reopen(id: nat, ghost todo: set<nat>)
      requires GroupOk() && id in todo && id in serves && AllOwed(F(), serves, notes, todo, deltaSeq)
      modifies this`serves, this`asked, this`snapCache, this`notes
      ensures GroupOk() && Only(old(serves), id, serves) && OnlyNote(old(notes), id, notes) && asked >= old(asked)
      ensures AllOwed(F(), serves, notes, todo - {id}, deltaSeq)
      ensures Willing(old(asked)) ==> SnapServed(old(serves)[id], serves[id]) && Missed(id).None?
    {
      hide ServeOk, GroupOk, AllOwed, Armed;
      OwedAt(F(), serves, notes, todo, deltaSeq, id);
      serves := serves[id := serves[id].(snap := None, pending := true)];
      TryStartSnap(id);
      OwedPut(F(), old(serves), old(notes), todo, deltaSeq, id, serves[id], notes[id]);
      assert serves == old(serves)[id := serves[id]];
    }

    method Restart(newEpoch: string, newTable: V.Table)
      requires GroupOk() && newEpoch !in past + {epoch}
      modifies this`table, this`epoch, this`deltaSeq, this`journal, this`snapCache, this`start, this`changes, this`past
      ensures GroupOk() && F() == Restarted(old(F()), newEpoch, newTable) && deltaSeq == 0 && epoch == newEpoch && table == newTable && changes == []
      ensures past == old(past) + {old(epoch)}
    {
      past := past + {epoch};
      table, epoch, deltaSeq, journal, snapCache := newTable, newEpoch, 0, [], None;
      start, changes := newTable, [];
    }

    /** The subscribers once this one is registered: a new one starts idle. */
    ghost function Joined(s: Serves, id: nat): Serves { if id in s then s else s[id := Serve(false, None, false, 0, [])] }

    /** Exactly the deltas after change number d were sent. */
    ghost predicate Replayed(s: Serve, d: nat, s': Serve)
      reads this`epoch, this`start, this`changes, this`past
    {
      s' == s.(sent := s.sent + Deltas(F(), d))
    }

    /** addSubscriber: a new subscriber starts idle; one of this group is kept as it is. */
    method Add(id: nat, ghost base: Client)
      modifies this`serves, this`notes
      ensures serves == Joined(old(serves), id)
      ensures notes == if id in old(serves) then old(notes) else old(notes)[id := Note(base, 0, None)]
    {
      if id in serves { return; }
      serves := serves[id := Serve(false, None, false, 0, [])];
      notes := notes[id := Note(base, 0, None)];
    }

    /** A subscriber that may join, or join again: a new one's client holds what its cursor says. */
    ghost predicate MayJoin(id: nat, from: Option<Cursor>, base: Client)
      reads this`serves, this`epoch, this`start, this`changes, this`past
    {
      if id in serves then Idle(serves[id]) else ClientOk(F(), base) && base.got == None && base.cursor == from
    }

    /** Register and replay what the journal still has past change number d. */
    method Resume(id: nat, d: nat, ghost base: Client)
      requires Valid() && MayJoin(id, Some(Cursor(epoch, d)), base) && |changes| - |journal| <= d <= deltaSeq
      modifies this`serves, this`asked, this`notes
      ensures Valid() && Only(Joined(old(serves), id), id, serves) && serves[id].snap.None? && asked >= old(asked)
      ensures id in notes && (id !in old(serves) ==> notes[id].client == base)
      ensures Willing(old(asked)) && JournalFits(d) ==> Replayed(Joined(old(serves), id)[id], d, serves[id])
    {
      hide ServeOk, GroupOk, AllGood, JournalOk, ClientOk, Deltas, SnapServed;
      ghost var was, wasNotes, isNew := serves, notes, id !in serves;
      if !isNew { GoodOf(id); }
      GroupFacts();
      Add(id, base);
      if isNew { ResumeGood(F(), base, d); }
      else if Missed(id).Some? {
        GapRewound(F(), serves[id], notes[id], deltaSeq, d);
        notes := notes[id := Rewound(notes[id], d)];
      }
      ReplayJournal(id, d, if isNew || Missed(id).Some? then d else deltaSeq);
      JoinedValid(was, wasNotes, id);
    }

    /** Register and owe a SNAP. */
    method Fresh(id: nat, ghost from: Option<Cursor>, ghost base: Client)
      requires Valid() && MayJoin(id, from, base)
      modifies this`serves, this`asked, this`snapCache, this`notes
      ensures Valid() && Only(Joined(old(serves), id), id, serves) && asked >= old(asked)
      ensures id in notes && (id !in old(serves) ==> notes[id].client == base)
      ensures Willing(old(asked)) ==> SnapServed(Joined(old(serves), id)[id], serves[id]) && Missed(id).None?
      ensures !old(Cached()) && ReadFails(old(asked)) ==>
                && asked == old(asked) + 2 && serves[id] == Joined(old(serves), id)[id].(pending := false, timer := false)
                && Missed(id) == Some(Gap(ClientNow(id).table, deltaSeq))
    {
      hide ServeOk, GroupOk, AllGood, JournalOk, ClientOk, Deltas, SnapServed, Armed, Willing, After, Cached, Frames;
      ghost var was, wasNotes, isNew := serves, notes, id !in serves;
      if !isNew { GoodOf(id); }
      GroupFacts();
      Add(id, base);
      ghost var s := serves[id];
      serves := serves[id := serves[id].(pending := true)];
      if isNew { FreshGood(F(), base, deltaSeq); } else { PendingGood(F(), s, notes[id], deltaSeq, deltaSeq); }
      TryStartSnap(id);
      if SnapServed(s.(pending := true), serves[id]) { SameStart(s.(pending := true), s, serves[id]); }
      JoinedValid(was, wasNotes, id);
    }

    /** A subscriber new or known, stored back among the others. */
    lemma JoinedValid(was: Serves, wasNotes: Notes, id: nat)
      requires GroupOk() && AllGood(F(), was, wasNotes, {}, 0, |changes|) && id in serves && serves == was[id := serves[id]]
      requires id in notes && notes == wasNotes[id := notes[id]] && Good(id, deltaSeq) && Armed(serves[id])
      ensures Valid()
    {
      hide ServeOk, Armed, GroupOk, AllGood;
      StillValid(was, wasNotes, id);
    }

    /**
      A SUB, fresh or resuming from a cursor, first or repeated. An unknown view, a topic the peer may not
      subscribe to and a cursor from the future are answered by an error; a SNAP still queued or being paced
      answers a repeated SUB.
    */
    method HandleSub(id: nat, from: Option<Cursor>, ghost base: Client, known: bool, allowed: bool) returns (reply: SubReply)
      requires Valid() && (id !in serves ==> MayJoin(id, from, base))
      modifies this`serves, this`asked, this`snapCache, this`notes
      ensures Valid() && (reply == UnknownView <==> !known) && (reply == AclDenied <==> known && !allowed)
      ensures reply == FutureCursor <==> known && allowed && (id in old(serves) ==> Idle(old(serves)[id])) && from.Some?
                                         && from.value.epoch == epoch && from.value.deltaSeq > deltaSeq
      ensures reply != Accepted ==> serves == old(serves) && notes == old(notes)
      ensures reply == Accepted ==> Only(Joined(old(serves), id), id, serves) && id in notes
      ensures reply == Accepted && id !in old(serves) ==> notes[id].client == base
      ensures id in old(serves) && !Idle(old(serves)[id]) ==> serves == old(serves)
      ensures reply == Accepted && Willing(old(asked)) && Idle(Joined(old(serves), id)[id]) && from.Some? && Reaches(from.value) ==>
                Replayed(Joined(old(serves), id)[id], from.value.deltaSeq, serves[id])
      ensures reply == Accepted && Willing(old(asked)) && Idle(Joined(old(serves), id)[id]) && (from.None? || !Keeps(from.value)) ==>
                SnapServed(Joined(old(serves), id)[id], serves[id]) && Missed(id).None?
      ensures reply == Accepted && Idle(Joined(old(serves), id)[id]) && (from.None? || !Keeps(from.value)) && !old(Cached()) && ReadFails(old(asked)) ==>
                && asked == old(asked) + 2 && serves[id] == Joined(old(serves), id)[id].(pending := false, timer := false)
                && Missed(id) == Some(Gap(ClientNow(id).table, deltaSeq))
    {
      hide ServeOk, GroupOk, JournalOk, ClientOk, Deltas, SnapServed, Willing, After, Cached, JournalFits, Armed;
      GroupFacts();
      if !known { return UnknownView; }
      if !allowed { return AclDenied; }
      if id in serves && !Idle(serves[id]) { return Accepted; }
      hide AllGood;
      if from.Some? && from.value.epoch == epoch {
        var d := from.value.deltaSeq;
        if d > deltaSeq { return FutureCursor; }
        var oldest := OldestKept();
        if d + 1 >= oldest {
          Resume(id, d, base);
          return Accepted;
        }
      }
      Fresh(id, from, base);
      reply := Accepted;
    }

    method OldestKept() returns (oldest: nat)
      requires GroupOk()
      ensures oldest == |changes| - |journal| + 1
    {
      oldest := if journal != [] then journal[0].deltaSeq else deltaSeq + 1;
    }

    /** A subscriber leaves. */
    method Remove(id: nat)
      requires Valid()
      modifies this`serves
      ensures Valid() && serves == old(serves) - {id}
    {
      hide ServeOk, Armed;
      serves := serves - {id};
    }

    /** onViewChange: a reset begins a new epoch, a difference is published. */
    method OnViewChange(c: V.Change, newEpoch: string, bytes: nat)
      requires Valid() && newEpoch !in past + {epoch}
      modifies this
      ensures Valid() && table == V.ApplyChange(old(table), c) && serves.Keys == old(serves).Keys
      ensures past + {epoch} <= old(past) + {old(epoch), newEpoch}
    {
      hide ServeOk, AllGood, GroupOk, Valid;
      match c
      case Reset(t) => ResetGroup(newEpoch, t);
      case Diff(upserts, deletes) => Publish(upserts, deletes, bytes);
    }

    /** The group follows everything a view tells of its table, however the view came by it. */
    method Follow(view: V.View, ghost seen: nat, changes: seq<V.Change>, epochs: seq<string>, sizes: seq<nat>)
      requires Valid() && seen <= |view.feed| && changes == view.feed[seen..] && table == V.Replay(view.feed[..seen])
      requires V.Replay(view.feed) == view.table
      requires |epochs| == |sizes| == |changes| && forall i | 0 <= i < |epochs| :: epochs[i] !in past + {epoch}
      requires forall i, j | 0 <= i < j < |epochs| :: epochs[i] != epochs[j]
      modifies this
      ensures Valid() && table == view.table && serves.Keys == old(serves).Keys
    {
      hide Valid, V.ApplyChange;
      ghost var feed := view.feed;
      var i := 0;
      while i < |changes|
        invariant 0 <= i <= |changes| && Valid() && serves.Keys == old(serves).Keys
        invariant table == V.Replay(feed[..seen + i])
        invariant past + {epoch} <= old(past) + {old(epoch)} + set e | e in epochs[..i]
      {
        assert epochs[i] !in past + {epoch};
        OnViewChange(changes[i], epochs[i], sizes[i]);
        assert feed[..seen + i + 1][..seen + i] == feed[..seen + i];
        assert feed[..seen + i + 1] == feed[..seen + i] + [changes[i]];
        assert epochs[..i + 1] == epochs[..i] + [epochs[i]];
        i := i + 1;
      }
      assert feed[..seen + i] == feed;
    }

    /**
      Nobody stays behind: once the lane has room, takes frames and the rows can be read, a drained lane and at
      most one timer bring any subscriber that is owed something to the current table, also one whose rows could
      not be read before.
    */
    method Settle(id: nat)
      requires Valid() && id in serves && Willing(asked)
      modifies this`serves, this`asked, this`snapCache, this`notes
      ensures Valid() && Only(old(serves), id, serves) && Idle(serves[id])
      ensures (if Idle(old(serves)[id]) then notes == old(notes) else Missed(id).None?)
      ensures Missed(id).None? ==> id in notes && ClientNow(id).table == table
    {
      hide Valid, ServeOk, SnapServed;
      HandleCapacity(id);
      if serves[id].pending {
        WaitingHasTimer(id);
        ghost var s := serves[id];
        TimerFires(id);
        SameStart(s, s, serves[id]);
      }
      if Missed(id).None? { IdleSubscriberHasTable(id); }
    }

    /** At every moment between events: an idle subscriber has been sent exactly the current table, unless its rows could not be read and no SNAP has gone through since. */
    lemma IdleSubscriberHasTable(id: nat)
      requires Valid() && id in serves && Missed(id).None? && Idle(serves[id])
      ensures id in notes && ClientNow(id).table == table && ClientNow(id).cursor == Some(Cursor(epoch, deltaSeq))
    {
      GoodOf(id);
      hide AllOk;
      IdleHasTable(F(), serves[id], notes[id]);
    }

    /**
      And then: it has been sent every change since, and has the current table if and only if each key on which its
      table differed from the view's when the read failed is touched by a later change.
    */
    lemma MissedHasTableIff(id: nat)
      requires Valid() && id in serves && Missed(id).Some? && Idle(serves[id])
      ensures var g := Missed(id).value;
              && g.from <= |changes| && ClientNow(id).table == ApplyFrom(g.table, changes, g.from)
              && (ClientNow(id).table == table <==> Closed(F(), g))
    {
      GoodOf(id);
      GapClosesIff(F(), Missed(id).value);
      hide ApplyFrom, Closed;
      NothingMore(ClientNow(id).table, changes);
    }

    /** At every moment between events: whoever is owed a SNAP, or is in the middle of one, has a timer armed. */
    lemma WaitingHasTimer(id: nat)
      requires Valid() && id in serves && (serves[id].pending || serves[id].snap.Some?)
      ensures serves[id].timer
    {
      GoodOf(id);
    }

    /** However much of what was sent has arrived when a session ends, the client may resume from its cursor. */
    lemma ReconnectsInOrder(id: nat, p: nat)
      requires Valid() && id in serves && id in notes && Missed(id).None? && notes[id].since <= p <= |serves[id].sent|
      ensures ClientOk(F(), After(notes[id].client, serves[id].sent[..p]).(got := None))
    {
      GoodOf(id);
      PrefixOk(F(), notes[id].client, serves[id].sent, notes[id].since, p);
      hide AllOk, CatchesUp;
    }
  }

  lemma NothingMore(t: V.Table, changes: seq<V.Change>)
    ensures ApplyFrom(t, changes, |changes|) == t
  {
  }

  /**
    The failing case, from a group's first subscriber on: the rows cannot be read for its SNAP, the next change reaches
    it all the same, and leaves its client at the current change number without the table.
  */
  method MissedRow(limits: Limits, bodyBytes: V.Table -> nat, cursorBytes: Cursor -> nat, epoch: string, k: string, v: string, other: string, w: string, bytes: nat)
    returns (g: SubGroup)
    requires limits.chunkBudget > 0 && k != other && bytes + cursorBytes(Cursor(epoch, 1)) + 96 <= limits.maxFrameBytes
    ensures fresh(g) && g.Valid() && 1 in g.serves && 1 in g.notes && Idle(g.serves[1])
    ensures g.ClientNow(1).cursor == Some(Cursor(g.epoch, g.deltaSeq)) && g.ClientNow(1).table != g.table
  {
    hide AllGood, ServeOk, V.Replay, After;
    g := new SubGroup(limits, n => n != 1, bodyBytes, cursorBytes, epoch, map[k := v], {});
    JoinUnread(g);
    MissOne(g, other, w, bytes);
    var out := DeltaFrame(V.Diff(map[other := w], {}), Cursor(g.epoch, 1));
    OneReceived(Client(map[], None, None), out);
    assert k in g.table && k !in g.ClientNow(1).table;
  }

  /** The first subscriber of a group joins, and its rows cannot be read. */
  method JoinUnread(g: SubGroup)
    requires g.Valid() && g.serves == map[] && g.asked == g.deltaSeq == 0 && g.snapCache == None && g.world == (n => n != 1)
    modifies g
    ensures g.Valid() && g.serves == map[1 := Serve(false, None, false, 0, [])] && 1 in g.notes && g.notes[1].client == Client(map[], None, None)
    ensures g.asked == 2 && g.table == old(g.table) && g.epoch == old(g.epoch) && g.deltaSeq == 0
  {
    hide AllGood, ServeOk, V.Replay, After;
    var reply := g.HandleSub(1, None, Client(map[], None, None), true, true);
  }

  /** The next change reaches it. */
  method MissOne(g: SubGroup, other: string, w: string, bytes: nat)
    requires g.Valid() && g.serves == map[1 := Serve(false, None, false, 0, [])] && 1 in g.notes && g.notes[1].client == Client(map[], None, None)
    requires g.asked == 2 && g.deltaSeq == 0 && g.world == (n => n != 1) && bytes + g.cursorBytes(Cursor(g.epoch, 1)) + 96 <= g.limits.maxFrameBytes
    modifies g
    ensures g.Valid() && 1 in g.serves && 1 in g.notes && Idle(g.serves[1]) && g.notes[1].client == Client(map[], None, None)
    ensures g.serves[1].sent == [DeltaFrame(V.Diff(map[other := w], {}), Cursor(g.epoch, 1))]
    ensures g.table == V.ApplyChange(old(g.table), V.Diff(map[other := w], {})) && g.epoch == old(g.epoch) && g.deltaSeq == 1
  {
    hide AllGood, ServeOk, V.Replay, After;
    assert g.Willing(g.asked);
    g.Publish(map[other := w], {}, bytes);
    var out := DeltaFrame(V.Diff(map[other := w], {}), Cursor(g.epoch, 1));
    assert g.serves[1].sent == [] + [out] == [out];
  }

  lemma OneReceived(c: Client, out: Out)
    ensures After(c, [out]) == Receive(c, out)
  {
    assert [out][..0] == [];
  }

  /** A resuming client stands where its cursor says. */
  lemma ResumeGood(f: Feed, base: Client, d: nat)
    requires ClientOk(f, base) && base.got == None && base.cursor == Some(Cursor(f.epoch, d)) && d <= |f.changes|
    ensures ServeOk(f, Serve(false, None, false, 0, []), Note(base, 0, None), d)
  {
    hide CatchesUp;
  }

  /** A fresh client is owed a SNAP. */
  lemma FreshGood(f: Feed, base: Client, at: nat)
    requires ClientOk(f, base) && base.got == None && at <= |f.changes|
    ensures ServeOk(f, Serve(true, None, false, 0, []), Note(base, 0, None), at)
  {
    hide CatchesUp;
  }

  /** A replay from before the failed read makes up for what it touches. */
  function Rewound(n: Note, d: nat): Note
    requires n.gap.Some?
  {
    n.(gap := Some(Gap(n.gap.value.table, Min(n.gap.value.from, d))))
  }

  lemma GapRewound(f: Feed, s: Serve, n: Note, at: nat, d: nat)
    requires ServeOk(f, s, n, at) && Idle(s) && n.gap.Some? && d <= at
    ensures ServeOk(f, s, Rewound(n, d), d)
  {
    hide ApplyFrom;
    GapBack(f, ClientOf(n, s).table, n.gap.value, at, d, Min(n.gap.value.from, d));
  }

  lemma NowPublished(f: Feed, c: V.Change)
    ensures Now(Published(f, c)) == V.ApplyChange(Now(f), c)
  {
    ApplyOneMore(f.start, f.changes, c, 0);
  }

  lemma GoodBefore(f: Feed, serves: Serves, notes: Notes, todo: set<nat>, before: nat, at: nat, id: nat)
    requires AllGood(f, serves, notes, todo, before, at) && id in todo && id in serves
    ensures id in notes && Armed(serves[id]) && ServeOk(f, serves[id], notes[id], before)
    ensures notes[id].gap.Some? && Idle(serves[id]) ==> notes[id].gap.value.from <= before
  {
    hide Armed, AllOk, Engaged, ApplyFrom;
  }

  lemma NoneLeft(f: Feed, serves: Serves, notes: Notes, before: nat, at: nat)
    requires AllGood(f, serves, notes, {}, before, at)
    ensures AllGood(f, serves, notes, {}, 0, at)
  {
    hide ServeOk, Armed;
  }

  /** In a new epoch: those in `todo` will be good once they are owed a SNAP; the others are good. */
  ghost predicate AllOwed(f: Feed, serves: Serves, notes: Notes, todo: set<nat>, at: nat)
  {
    forall id | id in serves ::
      && id in notes
      && if id in todo then ServeOk(f, serves[id].(snap := None, pending := true), notes[id], at)
         else Armed(serves[id]) && ServeOk(f, serves[id], notes[id], at)
  }

  lemma GoodRestarted(f: Feed, epoch: string, table: V.Table, serves: Serves, notes: Notes)
    requires AllGood(f, serves, notes, {}, 0, |f.changes|) && epoch !in f.past + {f.epoch}
    ensures AllOwed(Restarted(f, epoch, table), serves, notes, serves.Keys, 0)
  {
    hide ServeOk, Armed, Restarted;
    forall id | id in serves
      ensures ServeOk(Restarted(f, epoch, table), serves[id].(snap := None, pending := true), notes[id], 0)
    {
      RestartedServe(f, epoch, table, serves[id], notes[id], |f.changes|);
    }
  }

  lemma OwedAt(f: Feed, serves: Serves, notes: Notes, todo: set<nat>, at: nat, id: nat)
    requires AllOwed(f, serves, notes, todo, at) && id in todo && id in serves
    ensures id in notes && ServeOk(f, serves[id].(snap := None, pending := true), notes[id], at)
  {
    hide ServeOk, Armed;
  }

  lemma OwedPut(f: Feed, serves: Serves, notes: Notes, todo: set<nat>, at: nat, id: nat, s: Serve, n: Note)
    requires AllOwed(f, serves, notes, todo, at) && Armed(s) && ServeOk(f, s, n, at)
    ensures AllOwed(f, serves[id := s], notes[id := n], todo - {id}, at)
  {
    hide ServeOk, Armed;
  }

  lemma NoneOwed(f: Feed, serves: Serves, notes: Notes, at: nat)
    requires AllOwed(f, serves, notes, {}, at)
    ensures AllGood(f, serves, notes, {}, 0, at)
  {
    hide ServeOk, Armed;
  }

  lemma JobShape(f: Feed, s: Serve, n: Note, at: nat)
    requires ServeOk(f, s, n, at) && s.snap.Some?
    ensures !s.pending && 1 <= s.snap.value.next <= s.snap.value.total && s.snap.value.cursor.deltaSeq <= |f.changes|
  {
  }

  lemma PendingNoSnap(f: Feed, s: Serve, n: Note, at: nat)
    requires ServeOk(f, s, n, at) && s.pending
    ensures s.snap.None?
  {
  }

  /** A failed read leaves the client as it is; it is neither owed a SNAP nor in the middle of one. */
  lemma RefusedGood(f: Feed, s: Serve, n: Note)
    requires ServeOk(f, s, n, |f.changes|) && s.pending
    ensures ServeOk(f, s.(pending := false), n.(gap := Some(Gap(ClientOf(n, s).table, |f.changes|))), |f.changes|)
  {
    hide AllOk;
  }

  /** A subscriber that is not idle makes no claim about where its client stands. */
  lemma NotIdleAnywhere(f: Feed, s: Serve, n: Note, at: nat, upto: nat)
    requires ServeOk(f, s, n, at) && !Idle(s) && upto <= |f.changes|
    ensures ServeOk(f, s, n, upto)
  {
    hide AllOk, JobOk, MidSnap, Unengaged;
  }

  /** Marking an idle subscriber for resync. */
  lemma PendingGood(f: Feed, s: Serve, n: Note, at: nat, upto: nat)
    requires ServeOk(f, s, n, at) && Idle(s) && upto <= |f.changes|
    ensures ServeOk(f, s.(pending := true), n, upto)
  {
    hide AllOk, JobOk, MidSnap, Unengaged;
  }

  /** Timers and backoff say nothing about the frames. */
  lemma TimerGood(f: Feed, s: Serve, n: Note, at: nat, s': Serve)
    requires ServeOk(f, s, n, at) && s' == s.(timer := s'.timer, backoffMs := s'.backoffMs)
    ensures ServeOk(f, s', n, at)
  {
    hide AllOk, JobOk, MidSnap, Unengaged;
  }
}
