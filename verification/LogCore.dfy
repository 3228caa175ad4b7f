/**
  The commit queue (src/log.ts): one batch of items is applied inside one store transaction, over
  in-memory caches and side state that must follow the transaction when it aborts.
*/
module CommitQueue {
  import opened HlcClock
  import opened Entries
  import opened Streams

  datatype Retention = Full | Ring(size: nat) | KeepNone

  /** `valid` is validateEntry; `ackRefused` is ackedRetentionRefusal. */
  datatype Config = Config(
    pendingCap: nat, epsilonMs: nat, retention: string -> Retention, valid: Entry -> bool, ackRefused: string -> bool)

  /** The table rows about one stream; no head row yet means the default head. */
  datatype Stored = Stored(
    head: Option<Head>, rows: Rows, pending: Rows, quarantine: Rows, directives: map<nat, Directive>, floor: Option<Mark>)

  /** The database: the tables by stream, sq_finality, and the saved clock of sq_meta. */
  datatype Disk = Disk(streams: map<StreamId, Stored>, finality: map<string, Cert>, hlc: Hlc)

  type Rings = map<string, seq<Entry>>
  type Tails = map<string, (string, nat)>

  /** What a node knows between two items: the database and the memory beside it. */
  datatype Core = Core(disk: Disk, recoveries: map<StreamId, Target>, hlc: Hlc, rings: Rings, tails: Tails, applied: seq<Entry>)

  /** Where the causal pointer of an append comes from: the caller, or the register's causal scope. */
  datatype Causal = Given(causal: Option<(string, nat)>) | FromScope(scope: string, materialized: Option<(string, nat)>)

  datatype Item =
    | AppendItem(topic: string, kind: string, key: Option<string>, causal: Causal, ref: Option<EntryId>, payload: Json)
    | ExternalItem(entry: Entry)
    | SealStreamItem(stream: StreamId)
    | CertItem(cert: Cert)
    | DirectiveItem(directive: Directive)
    | FloorItem(stream: StreamId, floor: Mark)

  datatype Reply =
    | Appended(id: EntryId) | WriterSealed | Invalid
    | ExternalReply(result: ApplyResult) | Done | DirectiveReply(dir: DirectiveResult) | FloorReply(fl: FloorResult)

  function Stored0(): Stored { Stored(None, map[], map[], map[], map[], None) }

  function Record(disk: Disk, id: StreamId): Stored { if id in disk.streams then disk.streams[id] else Stored0() }

  function HeadAt(disk: Disk, id: StreamId): Head
  {
    var h := Record(disk, id).head;
    if h.Some? then h.value else DefaultHead(id)
  }

  function CertAt(disk: Disk, topic: string): Option<Cert> { if topic in disk.finality then Some(disk.finality[topic]) else None }

  function FloorAt(disk: Disk, id: StreamId): Option<Mark> { Record(disk, id).floor }

  /** One stream of a node, put together from its tables and its recovery target. */
  function Assemble(disk: Disk, recoveries: map<StreamId, Target>, id: StreamId): Stream
  {
    var r := Record(disk, id);
    Stream(HeadAt(disk, id), r.rows, r.pending, r.quarantine, r.directives, r.floor,
           if id in recoveries then Some(recoveries[id]) else None)
  }

  function StreamAt(c: Core, id: StreamId): Stream { Assemble(c.disk, c.recoveries, id) }

  predicate IsFull(cfg: Config, topic: string) { cfg.retention(topic) == Full }

  // ---- ring tails, clock, scope tails ----

  /** Keep the newest `size` of a ring. */
  function Push(ring: seq<Entry>, e: Entry, size: nat): seq<Entry>
  {
    var r := ring + [e];
    if |r| > size then r[|r| - size..] else r
  }

  function RingOf(rings: Rings, topic: string): seq<Entry> { if topic in rings then rings[topic] else [] }

  function AfterPersist(cfg: Config, rings: Rings, e: Entry): Rings
  {
    match cfg.retention(e.topic)
    case Ring(size) => rings[e.topic := Push(RingOf(rings, e.topic), e, size)]
    case _ => rings
  }

  function AfterAll(cfg: Config, rings: Rings, es: seq<Entry>): Rings
    decreases |es|
  {
    if es == [] then rings else AfterAll(cfg, AfterPersist(cfg, rings, es[0]), es[1..])
  }

  /** mergeClock: an entry too far ahead of the wall clock does not move the clock. */
  function MergeClock(cfg: Config, hlc: Hlc, e: Entry, pt: nat): Hlc
  {
    if IsOverEpsilon(e.body.hlc, pt, cfg.epsilonMs) then hlc else Merge(hlc, e.body.hlc, pt)
  }

  function CausalOf(own: string, tails: Tails, c: Causal): Option<(string, nat)>
  {
    match c
    case Given(causal) => causal
    case FromScope(scope, materialized) => if scope in tails then Some(tails[scope]) else materialized
  }

  function TailsAfter(own: string, tails: Tails, c: Causal, seqNo: nat): Tails
  {
    if c.FromScope? then tails[c.scope := (own, seqNo)] else tails
  }

  /** Ends the topic, and the key, in the name of a causal scope. */
  const NUL: char := '\0'

  /** A causal scope of the topic: its name, a NUL, and the key. */
  predicate InTopic(scope: string, topic: string) { topic + [NUL] <= scope }

  /** The live fold of a register row: once an own row is folded, every own tail of its topic at or below it is gone. */
  function TailsLeft(own: string, tails: Tails, e: Entry): Tails
  {
    if e.writer != own then tails
    else map scope | scope in tails && !(InTopic(scope, e.topic) && tails[scope].0 == own && tails[scope].1 <= e.body.seqNo) :: tails[scope]
  }

  /** The entry an append writes after head `h`. */
  function NewEntry(own: string, item: Item, h: Head, hlc: Hlc, causal: Option<(string, nat)>): Entry
    requires item.AppendItem?
  {
    var id := StreamId(item.topic, own);
    var body := Body(h.contigSeq + 1, hlc, item.kind, item.key, causal, item.ref, item.payload);
    Entry(item.topic, own, body, Link(PrevChain(id, h), body))
  }

  // ---- what one item does ----

  /** Only this stream changes, to `s`. */
  ghost predicate Changed(c: Core, id: StreamId, s: Stream, c': Core)
  {
    && StreamAt(c', id) == s
    && OthersKept(c, id, c')
    && c'.disk.finality == c.disk.finality && c'.disk.hlc == c.disk.hlc
  }

  ghost predicate OthersKept(c: Core, id: StreamId, c': Core)
  {
    forall o | o != id :: StreamAt(c', o) == StreamAt(c, o)
  }

  ghost predicate AppendStep(cfg: Config, own: string, c: Core, item: Item, pt: nat, c': Core, reply: Reply)
    requires item.AppendItem?
  {
    var id := StreamId(item.topic, own);
    var s := StreamAt(c, id);
    if s.head.seal != Open then c' == c && reply == WriterSealed
    else
      match Stamp(c.hlc, pt)
      case None => c' == c && reply == Invalid
      case Some(hlc) =>
        var e := NewEntry(own, item, s.head, hlc, CausalOf(own, c.tails, item.causal));
        var tails := TailsAfter(own, c.tails, item.causal, e.body.seqNo);
        if !cfg.valid(e) then c' == c.(hlc := hlc, tails := tails) && reply == Invalid
        else
          && Changed(c, id, Advance(IsFull(cfg, item.topic), s, e), c')
          && c'.hlc == hlc && c'.tails == tails && c'.recoveries == c.recoveries
          && c'.rings == AfterPersist(cfg, c.rings, e) && c'.applied == c.applied + [e]
          && reply == Appended(IdOf(e))
  }

  ghost predicate ExternalStep(cfg: Config, c: Core, e: Entry, pt: nat, c': Core, reply: Reply)
    requires e.body.seqNo > 0
  {
    var id := StreamOf(e);
    var o := External(IsFull(cfg, e.topic), cfg.pendingCap, CertAt(c.disk, e.topic), id, StreamAt(c, id), e);
    && Changed(c, id, o.stream, c')
    && c'.hlc == (if o.merges then MergeClock(cfg, c.hlc, e, pt) else c.hlc)
    && c'.tails == c.tails && c'.rings == AfterAll(cfg, c.rings, o.applied) && c'.applied == c.applied + o.applied
    && reply == ExternalReply(o.result)
  }

  ghost predicate Aside(c: Core, c': Core)
  {
    c'.hlc == c.hlc && c'.tails == c.tails && c'.rings == c.rings && c'.applied == c.applied
  }

  ghost predicate CertStep(c: Core, cert: Cert, c': Core)
  {
    && (forall id :: StreamAt(c', id) ==
          if id.topic == cert.topic && Record(c.disk, id).head.Some? then ApplyCert(id, StreamAt(c, id), cert) else StreamAt(c, id))
    && c'.disk.finality == c.disk.finality[cert.topic := cert] && c'.disk.hlc == c.disk.hlc && Aside(c, c')
  }

  ghost predicate FloorStep(cfg: Config, c: Core, id: StreamId, floor: Mark, c': Core, reply: Reply)
  {
    if cfg.ackRefused(id.topic) then c' == c && reply == FloorReply(FloorRefused)
    else
      var (s, r, drained) := AdoptFloor(IsFull(cfg, id.topic), id, StreamAt(c, id), floor);
      && Changed(c, id, s, c') && c'.hlc == c.hlc && c'.tails == c.tails
      && c'.rings == AfterAll(cfg, c.rings, drained) && c'.applied == c.applied + drained && reply == FloorReply(r)
  }

  predicate ItemOk(item: Item) { item.ExternalItem? ==> item.entry.body.seqNo > 0 }

  /** The whole effect of one queue item. */
  ghost predicate ItemStep(cfg: Config, own: string, c: Core, item: Item, pt: nat, c': Core, reply: Reply)
    requires ItemOk(item)
  {
    match item
    case AppendItem(_, _, _, _, _, _) => AppendStep(cfg, own, c, item, pt, c', reply)
    case ExternalItem(e) => ExternalStep(cfg, c, e, pt, c', reply)
    case SealStreamItem(id) => Changed(c, id, SealItem(StreamAt(c, id)), c') && Aside(c, c') && reply == Done
    case CertItem(cert) => CertStep(c, cert, c') && reply == Done
    case DirectiveItem(d) =>
      var (s, r) := ApplyDirective(d.stream, StreamAt(c, d.stream), d);
      Changed(c, d.stream, s, c') && Aside(c, c') && reply == DirectiveReply(r)
    case FloorItem(id, floor) => FloorStep(cfg, c, id, floor, c', reply)
  }

  /** A ring or nothing, before the batch touched it. */
  function RingBefore(rings: Rings, topic: string): Option<seq<Entry>> { if topic in rings then Some(rings[topic]) else None }

  /** The undo journal knows the old content of every ring that differs from before. */
  ghost predicate Journaled(before: Rings, rings: Rings, undo: map<string, Option<seq<Entry>>>)
  {
    forall t :: RingBefore(before, t) == if t in undo then undo[t] else RingBefore(rings, t)
  }

  /** Applying entries only ever writes the ring of their own topic. */
  lemma JournalPersist(before: Rings, rings: Rings, undo: map<string, Option<seq<Entry>>>, topic: string, ring: seq<Entry>)
    requires Journaled(before, rings, undo)
    ensures Journaled(before, rings[topic := ring], if topic in undo then undo else undo[topic := RingBefore(rings, topic)])
  {
  }

  ghost predicate HeadsFit(disk: Disk, heads: map<StreamId, Head>) { forall id | id in heads :: heads[id] == HeadAt(disk, id) }

  ghost predicate CertsFit(disk: Disk, certs: map<string, Option<Cert>>) { forall t | t in certs :: certs[t] == CertAt(disk, t) }

  ghost predicate FloorsFit(disk: Disk, floors: map<StreamId, Option<Mark>>) { forall id | id in floors :: floors[id] == FloorAt(disk, id) }

  lemma HeadsStillFit(d: Disk, id: StreamId, d': Disk, heads: map<StreamId, Head>)
    requires HeadsFit(d, heads) && OnlyAt(d, id, d') && (id in heads ==> HeadAt(d', id) == HeadAt(d, id))
    ensures HeadsFit(d', heads)
  {
  }

  lemma FloorsStillFit(d: Disk, id: StreamId, d': Disk, floors: map<StreamId, Option<Mark>>)
    requires FloorsFit(d, floors) && OnlyAt(d, id, d') && (id in floors ==> FloorAt(d', id) == FloorAt(d, id))
    ensures FloorsFit(d', floors)
  {
  }

  lemma OnlyAtCerts(d: Disk, id: StreamId, d': Disk, certs: map<string, Option<Cert>>)
    requires CertsFit(d, certs) && OnlyAt(d, id, d')
    ensures CertsFit(d', certs)
  {
  }

  lemma SavedHeadsFit(d: Disk, id: StreamId, d': Disk, heads: map<StreamId, Head>, h: Head)
    requires HeadsFit(d, heads) && OnlyAt(d, id, d') && HeadAt(d', id) == h
    ensures HeadsFit(d', heads[id := h])
  {
  }

  /** Replace the record of one stream. */
  function Put(d: Disk, id: StreamId, r: Stored): (d': Disk)
    ensures Record(d', id) == r && OnlyAt(d, id, d')
  {
    d.(streams := d.streams[id := r])
  }

  class LogCore {
    const cfg: Config
    const own: string

    /** The database. */
    var disk: Disk

    // caches over the database, filled on first read
    var heads: map<StreamId, Head>
    var certs: map<string, Option<Cert>>
    var floors: map<StreamId, Option<Mark>>

    // state with no durable copy
    var hlcState: Hlc
    var recoveries: map<StreamId, Target>
    var rings: Rings
    var scopeTails: Tails

    // one flush
    var ringUndo: map<string, Option<seq<Entry>>>
    var applied: seq<Entry>
    ghost var ringsBefore: Rings

    function View(): Core
      reads this`disk, this`recoveries, this`hlcState, this`rings, this`scopeTails, this`applied
    {
      Core(disk, recoveries, hlcState, rings, scopeTails, applied)
    }

    /** Every cached value is what the database holds (or the default). */
    ghost predicate CachesOk()
      reads this`disk, this`heads, this`certs, this`floors
    {
      HeadsFit(disk, heads) && CertsFit(disk, certs) && FloorsFit(disk, floors)
    }

    ghost predicate JournalOk()
      reads this`rings, this`ringUndo, this`ringsBefore
    {
      Journaled(ringsBefore, rings, ringUndo)
    }

    constructor (cfg: Config, own: string, disk: Disk)
      ensures CachesOk() && View() == Core(disk, map[], disk.hlc, map[], map[], []) && this.own == own && this.cfg == cfg
    {
      this.cfg, this.own, this.disk := cfg, own, disk;
      heads, certs, floors, hlcState, recoveries, rings, scopeTails := map[], map[], map[], disk.hlc, map[], map[], map[];
      ringUndo, applied, ringsBefore := map[], [], map[];
    }

    method GetStream(id: StreamId) returns (head: Head)
      requires CachesOk()
      modifies this`heads
      ensures CachesOk() && head == HeadAt(disk, id)
    {
      if id in heads { return heads[id]; }
      head := HeadAt(disk, id);
      heads := heads[id := head];
    }

    method GetCert(topic: string) returns (cert: Option<Cert>)
      requires CachesOk()
      modifies this`certs
      ensures CachesOk() && cert == CertAt(disk, topic)
    {
      if topic in certs { return certs[topic]; }
      cert := CertAt(disk, topic);
      certs := certs[topic := cert];
    }

    method FloorOf(id: StreamId) returns (floor: Option<Mark>)
      requires CachesOk()
      modifies this`floors
      ensures CachesOk() && floor == FloorAt(disk, id)
    {
      if id in floors { return floors[id]; }
      floor := FloorAt(disk, id);
      floors := floors[id := floor];
    }

    /** upsertWriter, and the cache with it. */
    method SaveHead(id: StreamId, head: Head)
      requires CachesOk()
      modifies this`disk, this`heads
      ensures CachesOk() && OnlyAt(old(disk), id, disk) && Record(disk, id) == Record(old(disk), id).(head := Some(head))
    {
      hide OnlyAt, Put, HeadsFit, CertsFit, FloorsFit;
      disk := Put(disk, id, Record(disk, id).(head := Some(head)));
      assert HeadsFit(disk, heads[id := head]) by { hide *; SavedHeadsFit(old(disk), id, disk, heads, head); }
      heads := heads[id := head];
      OnlyAtCerts(old(disk), id, disk, certs);
      FloorsStillFit(old(disk), id, disk, floors);
    }

    /** Any write to a stream's tables other than its head and floor. */
    method Write(id: StreamId, r: Stored)
      requires CachesOk() && r.head == Record(disk, id).head && r.floor == Record(disk, id).floor
      modifies this`disk
      ensures CachesOk() && OnlyAt(old(disk), id, disk) && Record(disk, id) == r
    {
      hide OnlyAt, Put, HeadsFit, CertsFit, FloorsFit;
      disk := Put(disk, id, r);
      HeadsStillFit(old(disk), id, disk, heads);
      OnlyAtCerts(old(disk), id, disk, certs);
      FloorsStillFit(old(disk), id, disk, floors);
    }

    /** floorSet, and the cache is dropped. */
    method SetFloor(id: StreamId, floor: Mark)
      requires CachesOk()
      modifies this`disk, this`floors
      ensures CachesOk() && OnlyAt(old(disk), id, disk)
      ensures Record(disk, id) == Record(old(disk), id).(floor := RaiseFloor(Record(old(disk), id).floor, floor))
    {
      hide OnlyAt, Put, HeadsFit, CertsFit, RaiseFloor;
      var r := Record(disk, id);
      disk := Put(disk, id, r.(floor := RaiseFloor(r.floor, floor)));
      HeadsStillFit(old(disk), id, disk, heads);
      OnlyAtCerts(old(disk), id, disk, certs);
      floors := floors - {id};
      FloorsStillFit(old(disk), id, disk, floors);
    }

    ghost function S(id: StreamId): Stream
      reads this`disk, this`recoveries
    {
      Assemble(disk, recoveries, id)
    }

    /** Journal the tail a ring had before the batch, once, then push. */
    method PersistRing(e: Entry, size: nat)
      requires JournalOk()
      modifies this`rings, this`ringUndo
      ensures JournalOk() && rings == old(rings)[e.topic := Push(RingOf(old(rings), e.topic), e, size)]
    {
      hide Push;
      var ring := Push(RingOf(rings, e.topic), e, size);
      JournalPersist(ringsBefore, rings, ringUndo, e.topic, ring);
      if e.topic !in ringUndo { ringUndo := ringUndo[e.topic := RingBefore(rings, e.topic)]; }
      rings := rings[e.topic := ring];
    }

    method Persist(id: StreamId, e: Entry)
      requires CachesOk() && JournalOk() && StreamOf(e) == id
      modifies this`disk, this`rings, this`ringUndo
      ensures CachesOk() && JournalOk() && rings == AfterPersist(cfg, old(rings), e)
      ensures OnlyAt(old(disk), id, disk)
      ensures Record(disk, id) ==
              if IsFull(cfg, id.topic) then Record(old(disk), id).(rows := Record(old(disk), id).rows[e.body.seqNo := e])
              else Record(old(disk), id)
    {
      match cfg.retention(e.topic)
      case Full => Write(id, Record(disk, id).(rows := Record(disk, id).rows[e.body.seqNo := e]));
      case Ring(size) => PersistRing(e, size);
      case KeepNone =>
    }

    /** Persist an entry, move the head to it and tell the hooks. */
    method Apply(id: StreamId, head: Head, e: Entry) returns (h: Head)
      requires CachesOk() && JournalOk() && StreamOf(e) == id && head == HeadAt(disk, id)
      modifies this`disk, this`heads, this`rings, this`ringUndo, this`applied
      ensures CachesOk() && JournalOk() && OnlyAt(old(disk), id, disk)
      ensures S(id) == Advance(IsFull(cfg, id.topic), old(S(id)), e) && h == HeadAt(disk, id)
      ensures rings == AfterPersist(cfg, old(rings), e) && applied == old(applied) + [e]
    {
      hide CachesOk, JournalOk, AfterPersist;
      Persist(id, e);
      h := head.(contigSeq := e.body.seqNo, contigChain := e.chain);
      SaveHead(id, h);
      applied := applied + [e];
    }

    method Seal(id: StreamId, head: Head) returns (h: Head)
      requires CachesOk() && head == HeadAt(disk, id)
      modifies this`disk, this`heads
      ensures CachesOk() && OnlyAt(old(disk), id, disk) && S(id) == SealFork(old(S(id))) && h == HeadAt(disk, id)
    {
      hide CachesOk;
      h := head.(seal := Fork);
      SaveHead(id, h);
    }

    method VerifyAndApply(id: StreamId, head: Head, e: Entry) returns (h: Head, ok: bool)
      requires CachesOk() && JournalOk() && StreamOf(e) == id && head == HeadAt(disk, id)
      modifies this`disk, this`heads, this`rings, this`ringUndo, this`applied
      ensures CachesOk() && JournalOk() && OnlyAt(old(disk), id, disk) && h == HeadAt(disk, id)
      ensures ok == Verifies(id, old(S(id)), e)
      ensures S(id) == if ok then Advance(IsFull(cfg, id.topic), old(S(id)), e) else SealFork(old(S(id)))
      ensures rings == (if ok then AfterPersist(cfg, old(rings), e) else old(rings))
      ensures applied == if ok then old(applied) + [e] else old(applied)
    {
      hide CachesOk, JournalOk, AfterPersist, Advance, OnlyAt, SealFork;
      var prevChain := if head.contigSeq == 0 then SeedOf(id) else head.contigChain;
      if ChainOf(prevChain, e) != e.chain {
        h := Seal(id, head);
        return h, false;
      }
      if head.contigSeq > 0 {
        var rows := Record(disk, id).rows;
        if head.contigSeq in rows && HlcCompare(rows[head.contigSeq].body.hlc, e.body.hlc) > 0 {
          h := Seal(id, head);
          return h, false;
        }
      }
      h := Apply(id, head, e);
      ok := true;
    }

    method DrainPending(id: StreamId, head: Head)
      requires CachesOk() && JournalOk() && PendingOk(id, S(id)) && head == HeadAt(disk, id)
      modifies this`disk, this`heads, this`rings, this`ringUndo, this`applied
      ensures CachesOk() && JournalOk() && OnlyAt(old(disk), id, disk)
      ensures S(id) == Drain(IsFull(cfg, id.topic), id, old(S(id)))
      ensures applied == old(applied) + Drained(IsFull(cfg, id.topic), id, old(S(id)))
      ensures rings == AfterAll(cfg, old(rings), Drained(IsFull(cfg, id.topic), id, old(S(id))))
    {
      hide CachesOk, JournalOk, AfterPersist, Verifies, OnlyAt, Advance, SealFork, Drain, Drained, AfterAll, PendingOk, IsFull;
      var h := head;
      ghost var full := IsFull(cfg, id.topic);
      ghost var start := Draining(old(S(id)), old(rings), old(applied));
      ghost var cur := start;
      OnlyAtSame(disk, id);
      while true
        invariant CachesOk() && JournalOk() && h == HeadAt(disk, id) && cur == Draining(S(id), rings, applied)
        invariant PendingOk(id, cur.s) && OnlyAt(old(disk), id, disk)
        invariant DrainsAlike(cfg, full, id, start, cur)
        decreases |cur.s.pending|
      {
        var r := Record(disk, id);
        if h.contigSeq + 1 !in r.pending {
          DrainEnds(cfg, full, id, start, cur);
          return;
        }
        var e := r.pending[h.contigSeq + 1];
        PendingAt(id, cur.s, h.contigSeq + 1);
        ghost var d := disk;
        Write(id, r.(pending := r.pending - {h.contigSeq + 1}));
        OnlyAtTrans(old(disk), id, d, disk);
        d := disk;
        var ok;
        h, ok := VerifyAndApply(id, h, e);
        OnlyAtTrans(old(disk), id, d, disk);
        DrainStep(cfg, full, id, start, cur);
        if !ok { return; }
        cur := Draining(S(id), rings, applied);
      }
    }

    /** Copy the rows from `from` to `to` into quarantine, one by one, then drop every row from `from` on. */
    method DisplaceRows(id: StreamId, from: nat, upto: nat)
      requires CachesOk()
      modifies this`disk
      ensures CachesOk() && OnlyAt(old(disk), id, disk)
      ensures var r := Record(old(disk), id);
              Record(disk, id) == r.(quarantine := r.quarantine + RowsFrom(r.rows, from, upto), rows := RowsBelow(r.rows, from))
    {
      hide CachesOk, OnlyAt, RowsFrom, RowsBelow;
      ghost var was := Record(disk, id);
      OnlyAtSame(disk, id);
      NoRows(was.rows, was.quarantine, from);
      var n := from;
      while n <= upto
        invariant CachesOk() && OnlyAt(old(disk), id, disk) && (n == from || n <= upto + 1)
        invariant Record(disk, id) == was.(quarantine := was.quarantine + RowsFrom(was.rows, from, n - 1))
        decreases upto + 1 - n
      {
        ghost var d := disk;
        var r := Record(disk, id);
        if n in r.rows {
          Write(id, r.(quarantine := r.quarantine[n := r.rows[n]]));
          OnlyAtTrans(old(disk), id, d, disk);
        }
        OneMoreRow(was.rows, was.quarantine, from, n);
        n := n + 1;
      }
      NoMoreRows(was.rows, from, n - 1, upto);
      ghost var d := disk;
      Write(id, Record(disk, id).(rows := RowsBelow(Record(disk, id).rows, from)));
      OnlyAtTrans(old(disk), id, d, disk);
    }

    /** Quarantine the divergent suffix from `n` on and step back to just below it. */
    method RewindTo(id: StreamId, head: Head, n: nat) returns (h: Head)
      requires CachesOk() && n > 0 && head == HeadAt(disk, id)
      modifies this`disk, this`heads
      ensures CachesOk() && OnlyAt(old(disk), id, disk) && h == HeadAt(disk, id)
      ensures S(id) == Rewind(id, old(S(id)), n)
    {
      hide CachesOk, OnlyAt, RowsFrom, RowsBelow;
      var rows := Record(disk, id).rows;
      DisplaceRows(id, n, head.contigSeq);
      ghost var d := disk;
      h := head.(contigSeq := n - 1);
      if n == 1 { h := h.(contigChain := SeedOf(id)); }
      else if n - 1 in rows { h := h.(contigChain := rows[n - 1].chain); }
      SaveHead(id, h);
      OnlyAtTrans(old(disk), id, d, disk);
    }

    /** Take the next canonical entry, and retire the stream if it is the last. */
    method TakeCanonical(id: StreamId, head: Head, e: Entry, t: Target)
      requires CachesOk() && JournalOk() && StreamOf(e) == id
      requires head == HeadAt(disk, id) && id in recoveries && recoveries[id] == t
      modifies this`disk, this`heads, this`rings, this`ringUndo, this`applied, this`recoveries
      ensures CachesOk() && JournalOk() && OnlyAt(old(disk), id, disk) && TargetsOnlyAt(old(recoveries), id, recoveries)
      ensures rings == AfterPersist(cfg, old(rings), e) && applied == old(applied) + [e]
      ensures var a := Advance(IsFull(cfg, id.topic), old(S(id)), e);
              S(id) == if e.body.seqNo == t.final.seqNo && e.chain == t.final.chain
                       then a.(head := RetireAt(a.head, t), target := None) else a
    {
      hide CachesOk, JournalOk, AfterPersist, OnlyAt, IsFull;
      var h := Apply(id, head, e);
      if h.contigSeq == t.final.seqNo && h.contigChain == t.final.chain {
        ghost var d := disk;
        SaveHead(id, RetireAt(h, t));
        OnlyAtTrans(old(disk), id, d, disk);
        recoveries := recoveries - {id};
      }
    }

    method RecoveryIngest(id: StreamId, head: Head, e: Entry, t: Target) returns (r: ApplyResult)
      requires CachesOk() && JournalOk() && StreamOf(e) == id && e.body.seqNo > 0
      requires head == HeadAt(disk, id) && id in recoveries && recoveries[id] == t
      modifies this`disk, this`heads, this`rings, this`ringUndo, this`applied, this`recoveries
      ensures CachesOk() && JournalOk() && OnlyAt(old(disk), id, disk) && TargetsOnlyAt(old(recoveries), id, recoveries)
      ensures var o := Streams.RecoveryIngest(IsFull(cfg, id.topic), id, old(S(id)), e, t);
              && S(id) == o.stream && r == o.result && applied == old(applied) + o.applied
              && rings == AfterAll(cfg, old(rings), o.applied)
    {
      hide CachesOk, JournalOk, AfterPersist, OnlyAt, IsFull, Rewind, RetireAt, Advance;
      var h := head;
      var n := e.body.seqNo;
      OnlyAtSame(disk, id);
      if n <= head.contigSeq {
        var rows := Record(disk, id).rows;
        if n in rows && rows[n].chain == e.chain { return Duplicate; }
        h := RewindTo(id, head, n);
      }
      if n != h.contigSeq + 1 { return Pended; }
      var prevChain := if h.contigSeq == 0 then SeedOf(id) else h.contigChain;
      if ChainOf(prevChain, e) != e.chain { return Streams.Forked; }
      ghost var d := disk;
      TakeCanonical(id, h, e, t);
      OnlyAtTrans(old(disk), id, d, disk);
      AfterOne(cfg, old(rings), e);
      r := Streams.Applied;
    }

    /** Next in line: verify, apply, move the clock, drain what was waiting for it. */
    method IngestNext(id: StreamId, head: Head, e: Entry, pt: nat) returns (ok: bool)
      requires CachesOk() && JournalOk() && StreamOf(e) == id && PendingOk(id, S(id)) && head == HeadAt(disk, id)
      modifies this`disk, this`heads, this`rings, this`ringUndo, this`applied, this`hlcState
      ensures CachesOk() && JournalOk() && OnlyAt(old(disk), id, disk) && ok == Verifies(id, old(S(id)), e)
      ensures hlcState == if ok then MergeClock(cfg, old(hlcState), e, pt) else old(hlcState)
      ensures var full := IsFull(cfg, id.topic);
              var next := Advance(full, old(S(id)), e);
              && S(id) == (if ok then Drain(full, id, next) else SealFork(old(S(id))))
              && applied == (if ok then old(applied) + ([e] + Drained(full, id, next)) else old(applied))
              && rings == (if ok then AfterAll(cfg, old(rings), [e] + Drained(full, id, next)) else old(rings))
    {
      hide CachesOk, JournalOk, AfterPersist, OnlyAt, IsFull, Verifies, Drain, Drained, Advance, SealFork, PendingOk, MergeClock;
      var h;
      h, ok := VerifyAndApply(id, head, e);
      if ok {
        ghost var next := S(id);
        hlcState := MergeClock(cfg, hlcState, e, pt);
        AdvancePending(IsFull(cfg, id.topic), old(S(id)), e);
        SamePending(id, old(S(id)), next);
        ghost var d := disk;
        DrainPending(id, h);
        OnlyAtTrans(old(disk), id, d, disk);
        FirstThenRest(cfg, old(rings), e, Drained(IsFull(cfg, id.topic), id, next));
      }
    }

    /** processExternal past the seal: finality, duplicates and forks, the next entry, or the pending table. */
    method IngestOpen(id: StreamId, head: Head, e: Entry, pt: nat) returns (r: ApplyResult)
      requires CachesOk() && JournalOk() && StreamOf(e) == id && e.body.seqNo > 0 && PendingOk(id, S(id))
      requires head == HeadAt(disk, id) && head.seal == Open
      modifies this`disk, this`heads, this`certs, this`rings, this`ringUndo, this`applied, this`hlcState
      ensures CachesOk() && JournalOk() && OnlyAt(old(disk), id, disk)
      ensures var o := External(IsFull(cfg, id.topic), cfg.pendingCap, CertAt(old(disk), id.topic), id, old(S(id)), e);
              && S(id) == o.stream && r == o.result && applied == old(applied) + o.applied
              && rings == AfterAll(cfg, old(rings), o.applied)
              && hlcState == if o.merges then MergeClock(cfg, old(hlcState), e, pt) else old(hlcState)
    {
      hide CachesOk, JournalOk, AfterPersist, OnlyAt, IsFull, Verifies, Drain, Drained, Advance, PendingOk, MergeClock, PreFinality;
      OnlyAtSame(disk, id);
      var n := e.body.seqNo;
      var cert := GetCert(id.topic);
      if PreFinality(cert, e) { return RejectedFinality; }
      var stored := Record(disk, id);
      if n <= head.contigSeq {
        if n in stored.rows && stored.rows[n].chain != e.chain {
          var _ := Seal(id, head);
          return Streams.Forked;
        }
        return Duplicate;
      }
      if n == head.contigSeq + 1 {
        var ok := IngestNext(id, head, e, pt);
        return if ok then Streams.Applied else Streams.Forked;
      }
      if n in stored.pending {
        if stored.pending[n].chain == e.chain { return Duplicate; }
        var _ := Seal(id, head);
        return Streams.Forked;
      }
      if |stored.pending| >= cfg.pendingCap { return DroppedOverflow; }
      Write(id, stored.(pending := stored.pending[n := e]));
      hlcState := MergeClock(cfg, hlcState, e, pt);
      r := Pended;
    }

    method ProcessExternal(e: Entry, pt: nat) returns (reply: Reply)
      requires CachesOk() && JournalOk() && e.body.seqNo > 0 && PendingOk(StreamOf(e), S(StreamOf(e)))
      modifies this`disk, this`heads, this`certs, this`rings, this`ringUndo, this`applied, this`hlcState, this`recoveries
      ensures CachesOk() && JournalOk() && ExternalStep(cfg, old(View()), e, pt, View(), reply)
    {
      hide CachesOk, JournalOk, AfterPersist, OnlyAt, IsFull, Verifies, Drain, Drained, Advance, PendingOk, MergeClock, PreFinality,
        Streams.RecoveryIngest, Changed, TargetsOnlyAt;
      var id := StreamOf(e);
      TargetsSame(recoveries, id);
      OnlyAtSame(disk, id);
      var head := GetStream(id);
      var r;
      if head.seal == Open {
        r := IngestOpen(id, head, e, pt);
      } else if id in recoveries && e.body.seqNo <= recoveries[id].final.seqNo {
        r := RecoveryIngest(id, head, e, recoveries[id]);
      } else {
        r := Streams.Sealed;
      }
      reply := ExternalReply(r);
      ToChanged(old(View()), id, View());
    }

    method ProcessSeal(id: StreamId)
      requires CachesOk()
      modifies this`disk, this`heads
      ensures CachesOk() && Changed(old(View()), id, SealItem(old(S(id))), View())
    {
      hide CachesOk, OnlyAt, Changed;
      TargetsSame(recoveries, id);
      OnlyAtSame(disk, id);
      var head := GetStream(id);
      if head.seal == Open { var _ := Seal(id, head); }
      ToChanged(old(View()), id, View());
    }

    /** One stream under a new certificate. */
    method CertifyStream(id: StreamId, cert: Cert)
      requires CachesOk() && id.topic == cert.topic
      modifies this`disk, this`heads
      ensures CachesOk() && OnlyAt(old(disk), id, disk) && S(id) == ApplyCert(id, old(S(id)), cert)
    {
      hide CachesOk, OnlyAt, RowsFrom, RowsBelow, LastCovered;
      OnlyAtSame(disk, id);
      var head := GetStream(id);
      var rows := Record(disk, id).rows;
      var cut := Cover(cert, id.writer);
      if LastCovered(rows, cert.order) > cut {
        var chain :=
          if cut == 0 then SeedOf(id)
          else if cut in rows then rows[cut].chain
          else if id.writer in cert.cut then cert.cut[id.writer].chain
          else Foreign("");
        DisplaceRows(id, cut + 1, head.contigSeq);
        ghost var d := disk;
        SaveHead(id, head.(contigSeq := cut, contigChain := chain, seal := if head.seal == Open then Fork else head.seal));
        OnlyAtTrans(old(disk), id, d, disk);
        return;
      }
      if cut > 0 && head.contigSeq >= cut && cut in rows && rows[cut].chain != cert.cut[id.writer].chain && head.seal == Open {
        var _ := Seal(id, head);
      }
    }

    method ProcessCert(cert: Cert)
      requires CachesOk()
      modifies this`disk, this`heads, this`certs
      ensures CachesOk() && CertStep(old(View()), cert, View())
    {
      hide HeadsFit, FloorsFit, ApplyCert, Assemble, OnlyAt;
      ghost var before := disk;
      disk := disk.(finality := disk.finality[cert.topic := cert]);
      certs := certs[cert.topic := Some(cert)];
      FinalityElsewhere(before, disk, heads, floors);
      ghost var start := disk;
      var todo := set id | id in disk.streams && id.topic == cert.topic && disk.streams[id].head.Some?;
      ghost var listed, done := todo, {};
      NoneCertified(start, recoveries, cert);
      hide CertsFit;
      while todo != {}
        invariant CachesOk() && listed == todo + done && done !! todo && forall id | id in todo :: id.topic == cert.topic
        invariant Certified(start, recoveries, cert, done, disk)
      {
        var id :| id in todo;
        todo := todo - {id};
        ghost var d := disk;
        CertifyStream(id, cert);
        OneMoreCertified(start, recoveries, cert, done, d, disk, id);
        done := done + {id};
      }
      assert done == listed;
      CertifiedAll(before, start, recoveries, cert, done, disk);
    }

    /** A retiring directive past the checks on its rgen. */
    method Retire(id: StreamId, head: Head, final: Mark, rgen: nat) returns (r: DirectiveResult)
      requires CachesOk() && head == HeadAt(disk, id)
      modifies this`disk, this`heads, this`recoveries
      ensures CachesOk() && OnlyAt(old(disk), id, disk) && TargetsOnlyAt(old(recoveries), id, recoveries)
      ensures (S(id), r) == TakeUp(id, old(S(id)), final, rgen)
    {
      hide CachesOk, OnlyAt, RowsFrom, RowsBelow, ChainAt, TargetsOnlyAt;
      var rows := Record(disk, id).rows;
      OnlyAtSame(disk, id);
      TargetsSame(recoveries, id);
      if head.contigSeq >= final.seqNo && ChainAt(id, head, rows, final.seqNo) == Some(final.chain) {
        DisplaceRows(id, final.seqNo + 1, head.contigSeq);
        ghost var d := disk;
        SaveHead(id, Head(final.seqNo, final.chain, Retired, rgen, Some(final)));
        OnlyAtTrans(old(disk), id, d, disk);
        recoveries := recoveries - {id};
        DroppedTarget(old(recoveries), id);
        r := DirectiveApplied;
      } else {
        if head.seal == Open { var _ := Seal(id, head); }
        recoveries := recoveries[id := Target(final, rgen)];
        AddedTarget(old(recoveries), id, Target(final, rgen));
        r := Recovering;
      }
    }

    method ProcessDirective(d: Directive) returns (r: DirectiveResult)
      requires CachesOk()
      modifies this`disk, this`heads, this`recoveries
      ensures CachesOk()
      ensures var (s, answer) := ApplyDirective(d.stream, old(S(d.stream)), d);
              Changed(old(View()), d.stream, s, View()) && r == answer
    {
      hide CachesOk, OnlyAt, Changed, TakeUp, TargetsOnlyAt;
      var id := d.stream;
      OnlyAtSame(disk, id);
      TargetsSame(recoveries, id);
      var head := GetStream(id);
      var stored := Record(disk, id);
      if d.rgen in stored.directives && stored.directives[d.rgen] != d {
        r := Refused;
      } else {
        Write(id, stored.(directives := stored.directives[d.rgen := d]));
        ghost var e := disk;
        if d.rgen <= head.rgen && head.seal != Fork {
          r := Stale;
        } else if !d.live {
          r := Retire(id, head, FinalOf(d), d.rgen);
          OnlyAtTrans(old(disk), id, e, disk);
        } else if head.seal == Fork {
          r := Refused;
        } else {
          SaveHead(id, head.(seal := Open, rgen := d.rgen, final := None));
          OnlyAtTrans(old(disk), id, e, disk);
          recoveries := recoveries - {id};
          DroppedTarget(old(recoveries), id);
          r := DirectiveApplied;
        }
      }
      ToChanged(old(View()), id, View());
    }

    /** The head moves to an adopted floor. */
    method Jump(id: StreamId, head: Head, floor: Mark) returns (h: Head)
      requires CachesOk() && head == HeadAt(disk, id)
      modifies this`disk, this`heads, this`floors, this`recoveries
      ensures CachesOk() && OnlyAt(old(disk), id, disk) && TargetsOnlyAt(old(recoveries), id, recoveries)
      ensures S(id) == JumpToFloor(old(S(id)), floor) && h == HeadAt(disk, id)
    {
      hide CachesOk, OnlyAt, RaiseFloor, RetireAt;
      h := head.(contigSeq := floor.seqNo, contigChain := floor.chain);
      if id in recoveries && floor.seqNo == recoveries[id].final.seqNo {
        h := RetireAt(h, recoveries[id]);
        recoveries := recoveries - {id};
      }
      SaveHead(id, h);
      ghost var d := disk;
      SetFloor(id, floor);
      OnlyAtTrans(old(disk), id, d, disk);
      d := disk;
      var stored := Record(disk, id);
      Write(id, stored.(pending := map n | n in stored.pending && n > floor.seqNo :: stored.pending[n]));
      OnlyAtTrans(old(disk), id, d, disk);
    }

    method ProcessAdoptFloor(id: StreamId, floor: Mark) returns (r: FloorResult)
      requires CachesOk() && JournalOk() && PendingOk(id, S(id))
      modifies this`disk, this`heads, this`floors, this`rings, this`ringUndo, this`applied, this`recoveries
      ensures CachesOk() && JournalOk() && FloorStep(cfg, old(View()), id, floor, View(), FloorReply(r))
    {
      hide CachesOk, JournalOk, OnlyAt, Changed, AfterPersist, Drain, Drained, IsFull, PendingOk, JumpToFloor, TargetsOnlyAt;
      OnlyAtSame(disk, id);
      TargetsSame(recoveries, id);
      if cfg.ackRefused(id.topic) { return FloorRefused; }
      var head := GetStream(id);
      if head.contigSeq >= floor.seqNo {
        r := Noop;
      } else {
        var target := if id in recoveries then Some(recoveries[id]) else None;
        if FloorBarred(head, target, floor) {
          r := FloorRefused;
        } else {
          var h := Jump(id, head, floor);
          if h.seal == Open {
            ghost var d := disk;
            JumpPending(id, old(S(id)), floor);
            DrainPending(id, h);
            OnlyAtTrans(old(disk), id, d, disk);
          }
          r := Adopted;
        }
      }
      ToChanged(old(View()), id, View());
    }

    method ProcessAppend(item: Item, pt: nat) returns (reply: Reply)
      requires CachesOk() && JournalOk() && item.AppendItem?
      modifies this`disk, this`heads, this`rings, this`ringUndo, this`applied, this`hlcState, this`scopeTails
      ensures CachesOk() && JournalOk() && AppendStep(cfg, own, old(View()), item, pt, View(), reply)
    {
      hide CachesOk, JournalOk, OnlyAt, Changed, AfterPersist, IsFull;
      var id := StreamId(item.topic, own);
      var head := GetStream(id);
      if head.seal != Open { return WriterSealed; }
      var stamped := Stamp(hlcState, pt);
      if stamped.None? { return Invalid; }
      hlcState := stamped.value;
      // the register's provider sees, and replaces, the author's own uncommitted tail
      var causal := CausalOf(own, scopeTails, item.causal);
      scopeTails := TailsAfter(own, scopeTails, item.causal, head.contigSeq + 1);
      var entry := NewEntry(own, item, head, stamped.value, causal);
      if !cfg.valid(entry) { return Invalid; }
      var _ := Apply(id, head, entry);
      reply := Appended(IdOf(entry));
      TargetsSame(recoveries, id);
      ToChanged(old(View()), id, View());
    }

    method Process(item: Item, pt: nat) returns (reply: Reply)
      requires CachesOk() && JournalOk() && ItemOk(item) && Keyed(View())
      modifies this`disk, this`heads, this`certs, this`floors, this`rings, this`ringUndo, this`applied, this`hlcState,
        this`recoveries, this`scopeTails
      ensures CachesOk() && JournalOk() && Keyed(View())
      ensures ItemStep(cfg, own, old(View()), item, pt, View(), reply)
    {
      hide CachesOk, JournalOk, Changed, AppendStep, ExternalStep, CertStep, FloorStep, PendingOk, ApplyDirective, SealItem;
      match item {
        case AppendItem(_, _, _, _, _, _) => reply := ProcessAppend(item, pt);
        case ExternalItem(e) => KeyedAt(View(), StreamOf(e)); reply := ProcessExternal(e, pt);
        case SealStreamItem(id) => ProcessSeal(id); reply := Done;
        case CertItem(cert) => ProcessCert(cert); reply := Done;
        case DirectiveItem(d) => var r := ProcessDirective(d); reply := DirectiveReply(r);
        case FloorItem(id, floor) => KeyedAt(View(), id); var r := ProcessAdoptFloor(id, floor); reply := FloorReply(r);
      }
      ItemStepKeyed(cfg, own, old(View()), item, pt, View(), reply);
    }

    /** Between flushes nothing is in flight. */
    predicate Idle()
      reads this`applied, this`ringUndo
    {
      applied == [] && ringUndo == map[]
    }

    /** Put the journaled rings back. */
    method RestoreRings()
      requires JournalOk()
      modifies this`rings
      ensures rings == ringsBefore
    {
      var todo := ringUndo.Keys;
      ghost var mid := rings;
      while todo != {}
        invariant todo <= ringUndo.Keys
        invariant forall t :: RingBefore(rings, t) == if t in ringUndo && t !in todo then ringUndo[t] else RingBefore(mid, t)
      {
        var t :| t in todo;
        todo := todo - {t};
        match ringUndo[t]
        case None => rings := rings - {t};
        case Some(ring) => rings := rings[t := ring];
      }
      SameRings(ringsBefore, rings);
    }

    /** The failed transaction rolls back; caches are dropped and side state restored. */
    method Abort(diskBefore: Disk, hlcBefore: Hlc, recoveriesBefore: map<StreamId, Target>, tailsBefore: Tails)
      requires JournalOk()
      modifies this`disk, this`heads, this`certs, this`floors, this`rings, this`ringUndo, this`applied, this`hlcState,
        this`recoveries, this`scopeTails
      ensures View() == Core(diskBefore, recoveriesBefore, hlcBefore, ringsBefore, tailsBefore, [])
      ensures heads == map[] && certs == map[] && floors == map[] && Idle()
    {
      hide JournalOk;
      RestoreRings();
      disk := diskBefore;
      heads, certs, floors := map[], map[], map[];
      hlcState := hlcBefore;
      recoveries := recoveriesBefore;
      ringUndo := map[];
      scopeTails := tailsBefore;
      applied := [];
    }

    /** Whatever an item had done by the time it threw. */
    method CrashInside(c: Crash)
      requires JournalOk()
      modifies this`disk, this`heads, this`certs, this`floors, this`rings, this`ringUndo, this`applied, this`hlcState,
        this`recoveries, this`scopeTails
      ensures JournalOk()
    {
      disk, heads, certs, floors := c.disk, c.heads, c.certs, c.floors;
      hlcState, recoveries, scopeTails, applied := c.hlc, c.recoveries, c.tails, c.applied;
      var i := 0;
      while i < |c.ringWrites|
        invariant JournalOk()
      {
        PersistRing(c.ringWrites[i].0, c.ringWrites[i].1);
        i := i + 1;
      }
    }

    /** The first `n` items of a batch, in order. */
    method RunBatch(batch: seq<Item>, pts: seq<nat>, n: nat) returns (replies: seq<Reply>, ghost trace: seq<Core>)
      requires |pts| == |batch| && n <= |batch| && (forall item | item in batch :: ItemOk(item))
      requires CachesOk() && JournalOk() && Keyed(View())
      modifies this`disk, this`heads, this`certs, this`floors, this`rings, this`ringUndo, this`applied, this`hlcState,
        this`recoveries, this`scopeTails
      ensures CachesOk() && JournalOk() && Keyed(View())
      ensures Trace(cfg, own, old(View()), batch[..n], pts[..n], replies, trace) && trace[n] == View()
    {
      hide CachesOk, JournalOk, Keyed, ItemStep;
      replies, trace := [], [View()];
      var i := 0;
      while i < n
        invariant 0 <= i <= n && CachesOk() && JournalOk() && Keyed(View())
        invariant Trace(cfg, own, old(View()), batch[..i], pts[..i], replies, trace) && trace[i] == View()
      {
        assert batch[i] in batch;
        var reply := Process(batch[i], pts[i]);
        TraceGrows(cfg, own, old(View()), batch, pts, i, replies, trace, View(), reply);
        replies, trace := replies + [reply], trace + [View()];
        i := i + 1;
      }
    }

    /**
      One group commit. It either applies every item in order, or - if anything throws, at any point of
      any item or at the commit itself - leaves everything a caller can read as it was before: tables,
      heads, certificates, floors, clock, recovery targets, rings and scope tails.
    */
    method Flush(batch: seq<Item>, pts: seq<nat>, crash: Option<Crash>)
      returns (committed: bool, replies: seq<Reply>, delivered: seq<Entry>, ghost trace: seq<Core>)
      requires |pts| == |batch| && (forall item | item in batch :: ItemOk(item))
      requires CachesOk() && Idle() && Keyed(View())
      modifies this
      ensures CachesOk() && Idle() && Keyed(View()) && committed == crash.None?
      ensures !committed ==> View() == old(View()) && delivered == []
      ensures !committed ==> SameReads(old(disk), old(heads), old(certs), old(floors), disk, heads, certs, floors)
      ensures committed ==> Trace(cfg, own, old(View()), batch, pts, replies, trace)
      ensures committed ==> var last := trace[|batch|];
                            View() == last.(applied := [], disk := last.disk.(hlc := last.hlc)) && delivered == last.applied
    {
      hide Keyed, HeadsFit, CertsFit, FloorsFit, Journaled, Trace, SameReads;
      var diskBefore, hlcBefore, recoveriesBefore, tailsBefore := disk, hlcState, recoveries, scopeTails;
      ringsBefore := rings;
      NothingJournaled(rings);
      delivered, committed := [], crash.None?;
      replies, trace := RunBatch(batch, pts, if crash.Some? && crash.value.at < |batch| then crash.value.at else |batch|);
      if crash.Some? {
        CrashInside(crash.value);
        Abort(diskBefore, hlcBefore, recoveriesBefore, tailsBefore);
        EmptyCachesRead(disk, old(heads), old(certs), old(floors));
      } else {
        assert batch[..|batch|] == batch && pts[..|batch|] == pts;
        KeyedBut(View(), disk.(hlc := hlcState));
        SavedClockFits(disk, disk.(hlc := hlcState), heads, certs, floors);
        disk := disk.(hlc := hlcState);
        delivered := applied;
        applied, ringUndo := [], map[];
      }
    }
  }

  /** What a caller reads: the cached value, or the one it would be loaded from. */
  ghost function ReadHead(d: Disk, heads: map<StreamId, Head>, id: StreamId): Head
  {
    if id in heads then heads[id] else HeadAt(d, id)
  }

  ghost function ReadCert(d: Disk, certs: map<string, Option<Cert>>, topic: string): Option<Cert>
  {
    if topic in certs then certs[topic] else CertAt(d, topic)
  }

  ghost function ReadFloor(d: Disk, floors: map<StreamId, Option<Mark>>, id: StreamId): Option<Mark>
  {
    if id in floors then floors[id] else FloorAt(d, id)
  }

  /** Every head, certificate and floor reads the same in both states. */
  ghost predicate SameReads(d: Disk, heads: map<StreamId, Head>, certs: map<string, Option<Cert>>, floors: map<StreamId, Option<Mark>>,
                            d': Disk, heads': map<StreamId, Head>, certs': map<string, Option<Cert>>, floors': map<StreamId, Option<Mark>>)
  {
    && (forall id :: ReadHead(d', heads', id) == ReadHead(d, heads, id))
    && (forall t :: ReadCert(d', certs', t) == ReadCert(d, certs, t))
    && (forall id :: ReadFloor(d', floors', id) == ReadFloor(d, floors, id))
  }

  /** With caches that fit, dropping them changes nothing that is read. */
  lemma EmptyCachesRead(d: Disk, heads: map<StreamId, Head>, certs: map<string, Option<Cert>>, floors: map<StreamId, Option<Mark>>)
    requires HeadsFit(d, heads) && CertsFit(d, certs) && FloorsFit(d, floors)
    ensures SameReads(d, heads, certs, floors, d, map[], map[], map[])
    ensures HeadsFit(d, map[]) && CertsFit(d, map[]) && FloorsFit(d, map[])
  {
  }

  /** A throw inside item `at` (or at the commit, past the last item), and everything half done by then. */
  datatype Crash = Crash(
    at: nat, disk: Disk, heads: map<StreamId, Head>, certs: map<string, Option<Cert>>, floors: map<StreamId, Option<Mark>>,
    hlc: Hlc, recoveries: map<StreamId, Target>, tails: Tails, applied: seq<Entry>, ringWrites: seq<(Entry, nat)>)

  /** Every pending row sits at its own seq of its own stream. */
  ghost predicate Keyed(c: Core) { forall id :: PendingOk(id, StreamAt(c, id)) }

  lemma KeyedAt(c: Core, id: StreamId)
    requires Keyed(c)
    ensures PendingOk(id, StreamAt(c, id))
  {
  }

  /** The items of a batch, applied one after another. */
  ghost predicate Trace(cfg: Config, own: string, start: Core, batch: seq<Item>, pts: seq<nat>, replies: seq<Reply>, trace: seq<Core>)
  {
    && |pts| == |batch| == |replies| && |trace| == |batch| + 1 && trace[0] == start
    && forall i | 0 <= i < |batch| ::
         ItemOk(batch[i]) && ItemStep(cfg, own, trace[i], batch[i], pts[i], trace[i + 1], replies[i])
  }

  lemma TraceGrows(cfg: Config, own: string, start: Core, batch: seq<Item>, pts: seq<nat>, i: nat, replies: seq<Reply>,
                   trace: seq<Core>, next: Core, reply: Reply)
    requires i < |batch| && |pts| == |batch| && ItemOk(batch[i])
    requires Trace(cfg, own, start, batch[..i], pts[..i], replies, trace)
    requires ItemStep(cfg, own, trace[i], batch[i], pts[i], next, reply)
    ensures Trace(cfg, own, start, batch[..i + 1], pts[..i + 1], replies + [reply], trace + [next])
  {
    hide ItemStep;
  }

  lemma NothingJournaled(rings: Rings)
    ensures Journaled(rings, rings, map[])
  {
  }

  lemma SameRings(a: Rings, b: Rings)
    requires forall t :: RingBefore(a, t) == RingBefore(b, t)
    ensures a == b
  {
    assert forall t :: t in a <==> t in b by {
      forall t ensures t in a <==> t in b { assert RingBefore(a, t) == RingBefore(b, t); }
    }
    assert forall t | t in a :: a[t] == b[t] by {
      forall t | t in a ensures a[t] == b[t] { assert RingBefore(a, t) == RingBefore(b, t); }
    }
  }

  lemma SavedClockFits(d: Disk, d': Disk, heads: map<StreamId, Head>, certs: map<string, Option<Cert>>, floors: map<StreamId, Option<Mark>>)
    requires HeadsFit(d, heads) && CertsFit(d, certs) && FloorsFit(d, floors)
    requires d'.streams == d.streams && d'.finality == d.finality
    ensures HeadsFit(d', heads) && CertsFit(d', certs) && FloorsFit(d', floors)
  {
  }

  lemma KeyedBut(c: Core, d: Disk)
    requires Keyed(c) && d.streams == c.disk.streams
    ensures forall applied :: Keyed(c.(disk := d, applied := applied))
  {
    forall applied, id
      ensures PendingOk(id, StreamAt(c.(disk := d, applied := applied), id))
    {
      assert PendingOk(id, StreamAt(c, id));
    }
  }

  lemma ChangedKeyed(c: Core, id: StreamId, s: Stream, c': Core)
    requires Keyed(c) && Changed(c, id, s, c') && PendingOk(id, s)
    ensures Keyed(c')
  {
    forall o
      ensures PendingOk(o, StreamAt(c', o))
    {
      assert PendingOk(o, StreamAt(c, o));
    }
  }

  /** No item files a pending row under the wrong stream or seq. */
  lemma ItemStepKeyed(cfg: Config, own: string, c: Core, item: Item, pt: nat, c': Core, reply: Reply)
    requires Keyed(c) && ItemOk(item) && ItemStep(cfg, own, c, item, pt, c', reply)
    ensures Keyed(c')
  {
    hide Changed, Drain, Drained, External, ApplyCert, PendingOk, StreamAt, IsFull, MergeClock, AfterAll, AfterPersist;
    match item {
      case AppendItem(_, _, _, _, _, _) =>
        AppendKeyed(cfg, own, c, item, pt, c', reply);
      case ExternalItem(e) =>
        var id := StreamOf(e);
        assert PendingOk(id, StreamAt(c, id));
        var o := External(IsFull(cfg, e.topic), cfg.pendingCap, CertAt(c.disk, e.topic), id, StreamAt(c, id), e);
        ExternalPendingOk(IsFull(cfg, e.topic), cfg.pendingCap, CertAt(c.disk, e.topic), id, StreamAt(c, id), e);
        ChangedKeyed(c, id, o.stream, c');
      case SealStreamItem(id) =>
        assert PendingOk(id, StreamAt(c, id));
        SamePending(id, StreamAt(c, id), SealItem(StreamAt(c, id)));
        ChangedKeyed(c, id, SealItem(StreamAt(c, id)), c');
      case CertItem(cert) =>
        forall id
          ensures PendingOk(id, StreamAt(c', id))
        {
          assert PendingOk(id, StreamAt(c, id));
          CertPending(id, StreamAt(c, id), cert);
        }
      case DirectiveItem(d) =>
        var id := d.stream;
        assert PendingOk(id, StreamAt(c, id));
        var (s, r) := ApplyDirective(id, StreamAt(c, id), d);
        DirectivePending(id, StreamAt(c, id), d);
        ChangedKeyed(c, id, s, c');
      case FloorItem(id, floor) =>
        assert PendingOk(id, StreamAt(c, id));
        FloorKeyed(cfg, c, id, floor, c', reply);
    }
  }

  lemma AppendKeyed(cfg: Config, own: string, c: Core, item: Item, pt: nat, c': Core, reply: Reply)
    requires Keyed(c) && item.AppendItem? && AppendStep(cfg, own, c, item, pt, c', reply)
    ensures Keyed(c')
  {
    hide Changed, PendingOk, StreamAt, IsFull, AfterPersist;
    var id := StreamId(item.topic, own);
    var s := StreamAt(c, id);
    assert PendingOk(id, s);
    if s.head.seal == Open && Stamp(c.hlc, pt).Some? {
      var hlc := Stamp(c.hlc, pt).value;
      var e := NewEntry(own, item, s.head, hlc, CausalOf(own, c.tails, item.causal));
      if cfg.valid(e) {
        SamePending(id, s, Advance(IsFull(cfg, item.topic), s, e));
        ChangedKeyed(c, id, Advance(IsFull(cfg, item.topic), s, e), c');
      } else {
        SameStreamsKeyed(c, c');
      }
    }
  }

  lemma SameStreamsKeyed(c: Core, c': Core)
    requires Keyed(c) && c'.disk == c.disk && c'.recoveries == c.recoveries
    ensures Keyed(c')
  {
    forall id
      ensures PendingOk(id, StreamAt(c', id))
    {
      assert PendingOk(id, StreamAt(c, id));
    }
  }

  lemma CertPending(id: StreamId, s: Stream, cert: Cert)
    requires PendingOk(id, s)
    ensures PendingOk(id, ApplyCert(id, s, cert))
  {
    hide PendingOk, RowsFrom, RowsBelow, LastCovered;
    SamePending(id, s, ApplyCert(id, s, cert));
  }

  lemma DirectivePending(id: StreamId, s: Stream, d: Directive)
    requires PendingOk(id, s)
    ensures PendingOk(id, ApplyDirective(id, s, d).0)
  {
    hide PendingOk, RowsFrom, RowsBelow;
    SamePending(id, s, ApplyDirective(id, s, d).0);
  }

  lemma FloorKeyed(cfg: Config, c: Core, id: StreamId, floor: Mark, c': Core, reply: Reply)
    requires Keyed(c) && FloorStep(cfg, c, id, floor, c', reply)
    ensures Keyed(c')
  {
    hide Changed, PendingOk, StreamAt, IsFull, Drain, Drained, JumpToFloor, AfterAll;
    var s := StreamAt(c, id);
    assert PendingOk(id, s);
    JumpPending(id, s, floor);
    DrainPendingOk(IsFull(cfg, id.topic), id, JumpToFloor(s, floor));
    if !cfg.ackRefused(id.topic) {
      ChangedKeyed(c, id, AdoptFloor(IsFull(cfg, id.topic), id, s, floor).0, c');
    }
  }

  /** The certificate has been applied to exactly these streams. */
  ghost predicate Certified(d: Disk, recoveries: map<StreamId, Target>, cert: Cert, done: set<StreamId>, d': Disk)
  {
    && d'.finality == d.finality && d'.hlc == d.hlc
    && forall id :: Assemble(d', recoveries, id) ==
          if id in done then ApplyCert(id, Assemble(d, recoveries, id), cert) else Assemble(d, recoveries, id)
  }

  lemma FinalityElsewhere(d: Disk, d': Disk, heads: map<StreamId, Head>, floors: map<StreamId, Option<Mark>>)
    requires HeadsFit(d, heads) && FloorsFit(d, floors) && d'.streams == d.streams
    ensures HeadsFit(d', heads) && FloorsFit(d', floors)
  {
  }

  lemma NoneCertified(d: Disk, recoveries: map<StreamId, Target>, cert: Cert)
    ensures Certified(d, recoveries, cert, {}, d)
  {
  }

  lemma OneMoreCertified(start: Disk, recoveries: map<StreamId, Target>, cert: Cert, done: set<StreamId>, d: Disk, d': Disk, id: StreamId)
    requires Certified(start, recoveries, cert, done, d) && id !in done && OnlyAt(d, id, d')
    requires Assemble(d', recoveries, id) == ApplyCert(id, Assemble(d, recoveries, id), cert)
    ensures Certified(start, recoveries, cert, done + {id}, d')
  {
    hide ApplyCert;
    forall o
      ensures Assemble(d', recoveries, o) ==
              if o in done + {id} then ApplyCert(o, Assemble(start, recoveries, o), cert) else Assemble(start, recoveries, o)
    {
      assert Assemble(d, recoveries, o) ==
             if o in done then ApplyCert(o, Assemble(start, recoveries, o), cert) else Assemble(start, recoveries, o);
      if o != id { assert Record(d', o) == Record(d, o); }
    }
  }

  lemma CertifiedAll(before: Disk, start: Disk, recoveries: map<StreamId, Target>, cert: Cert, listed: set<StreamId>, d': Disk)
    requires start == before.(finality := before.finality[cert.topic := cert])
    requires Certified(start, recoveries, cert, listed, d')
    requires listed == set id | id in start.streams && id.topic == cert.topic && start.streams[id].head.Some?
    ensures forall id :: Assemble(d', recoveries, id) ==
              if id.topic == cert.topic && Record(before, id).head.Some? then ApplyCert(id, Assemble(before, recoveries, id), cert)
              else Assemble(before, recoveries, id)
    ensures d'.finality == start.finality && d'.hlc == start.hlc
  {
    hide ApplyCert;
    forall id
      ensures Assemble(d', recoveries, id) ==
              if id.topic == cert.topic && Record(before, id).head.Some? then ApplyCert(id, Assemble(before, recoveries, id), cert)
              else Assemble(before, recoveries, id)
    {
      assert Assemble(start, recoveries, id) == Assemble(before, recoveries, id);
      assert id in listed <==> id.topic == cert.topic && Record(before, id).head.Some?;
    }
  }

  lemma FirstThenRest(cfg: Config, rings: Rings, e: Entry, rest: seq<Entry>)
    ensures AfterAll(cfg, rings, [e] + rest) == AfterAll(cfg, AfterPersist(cfg, rings, e), rest)
  {
    assert ([e] + rest)[1..] == rest;
  }

  lemma AdvancePending(full: bool, s: Stream, e: Entry)
    ensures Advance(full, s, e).pending == s.pending
  {
  }

  lemma TargetsSame(r: map<StreamId, Target>, id: StreamId)
    ensures TargetsOnlyAt(r, id, r)
  {
  }

  lemma AddedTarget(r: map<StreamId, Target>, id: StreamId, t: Target)
    ensures TargetsOnlyAt(r, id, r[id := t])
  {
  }

  lemma DroppedTarget(r: map<StreamId, Target>, id: StreamId)
    ensures TargetsOnlyAt(r, id, r - {id})
  {
  }

  lemma JumpPending(id: StreamId, s: Stream, floor: Mark)
    requires PendingOk(id, s)
    ensures PendingOk(id, JumpToFloor(s, floor))
  {
  }

  lemma ToChanged(c: Core, id: StreamId, c': Core)
    requires OnlyAt(c.disk, id, c'.disk) && TargetsOnlyAt(c.recoveries, id, c'.recoveries)
    ensures Changed(c, id, StreamAt(c', id), c')
  {
    forall o | o != id
      ensures StreamAt(c', o) == StreamAt(c, o)
    {
      assert Record(c'.disk, o) == Record(c.disk, o);
    }
  }

  lemma NoRows(rows: Rows, q: Rows, from: nat)
    ensures q + RowsFrom(rows, from, from - 1) == q
  {
    assert RowsFrom(rows, from, from - 1) == map[];
  }

  lemma OneMoreRow(rows: Rows, q: Rows, from: nat, n: nat)
    requires from <= n
    ensures q + RowsFrom(rows, from, n)
            == if n in rows then (q + RowsFrom(rows, from, n - 1))[n := rows[n]] else q + RowsFrom(rows, from, n - 1)
  {
  }

  /** Past the last wanted seq there is nothing more to copy. */
  lemma NoMoreRows(rows: Rows, from: nat, reached: int, to: nat)
    requires reached == Max(from - 1, to)
    ensures RowsFrom(rows, from, reached) == RowsFrom(rows, from, to)
  {
  }

  lemma AfterOne(cfg: Config, rings: Rings, e: Entry)
    ensures AfterAll(cfg, rings, [e]) == AfterPersist(cfg, rings, e)
  {
  }

  ghost predicate TargetsOnlyAt(r: map<StreamId, Target>, id: StreamId, r': map<StreamId, Target>)
  {
    forall o | o != id :: (o in r' <==> o in r) && (o in r ==> r'[o] == r[o])
  }

  /** A drain in progress: the stream, the rings, what has been applied. */
  datatype Draining = Draining(s: Stream, rings: Rings, applied: seq<Entry>)

  /** Draining from either state comes to the same. */
  ghost predicate DrainsAlike(cfg: Config, full: bool, id: StreamId, a: Draining, b: Draining)
  {
    && Drain(full, id, a.s) == Drain(full, id, b.s)
    && a.applied + Drained(full, id, a.s) == b.applied + Drained(full, id, b.s)
    && AfterAll(cfg, a.rings, Drained(full, id, a.s)) == AfterAll(cfg, b.rings, Drained(full, id, b.s))
  }

  lemma DrainEnds(cfg: Config, full: bool, id: StreamId, start: Draining, cur: Draining)
    requires DrainsAlike(cfg, full, id, start, cur) && cur.s.head.contigSeq + 1 !in cur.s.pending
    ensures cur.s == Drain(full, id, start.s) && cur.applied == start.applied + Drained(full, id, start.s)
    ensures cur.rings == AfterAll(cfg, start.rings, Drained(full, id, start.s))
  {
  }

  /** Taking the next pending row off: applied, or a fork that ends the drain. */
  lemma DrainStep(cfg: Config, full: bool, id: StreamId, start: Draining, cur: Draining)
    requires DrainsAlike(cfg, full, id, start, cur) && cur.s.head.contigSeq + 1 in cur.s.pending
    ensures var n := cur.s.head.contigSeq + 1;
            var e, s := cur.s.pending[n], cur.s.(pending := cur.s.pending - {n});
            var next := Draining(Advance(full, s, e), AfterPersist(cfg, cur.rings, e), cur.applied + [e]);
            if Verifies(id, s, e) then
              && DrainsAlike(cfg, full, id, start, next) && |next.s.pending| < |cur.s.pending|
              && (PendingOk(id, cur.s) ==> PendingOk(id, next.s))
            else
              && SealFork(s) == Drain(full, id, start.s) && cur.applied == start.applied + Drained(full, id, start.s)
              && cur.rings == AfterAll(cfg, start.rings, Drained(full, id, start.s))
  {
    hide AfterPersist, Verifies, PendingOk;
    var n := cur.s.head.contigSeq + 1;
    var e, s := cur.s.pending[n], cur.s.(pending := cur.s.pending - {n});
    var next := Advance(full, s, e);
    if Verifies(id, s, e) {
      var rest := Drained(full, id, next);
      assert Drained(full, id, cur.s) == [e] + rest;
      assert ([e] + rest)[1..] == rest;
      assert cur.applied + ([e] + rest) == (cur.applied + [e]) + rest;
      if PendingOk(id, cur.s) { FewerPending(id, cur.s, next); }
    }
  }

  lemma FewerPending(id: StreamId, s: Stream, t: Stream)
    requires PendingOk(id, s) && forall n | n in t.pending :: n in s.pending && t.pending[n] == s.pending[n]
    ensures PendingOk(id, t)
  {
  }

  lemma PendingAt(id: StreamId, s: Stream, n: nat)
    requires PendingOk(id, s) && n in s.pending
    ensures StreamOf(s.pending[n]) == id && s.pending[n].body.seqNo == n
  {
  }

  /** Only the tables of this stream differ. */
  ghost predicate OnlyAt(d: Disk, id: StreamId, d': Disk)
  {
    d'.finality == d.finality && d'.hlc == d.hlc && forall o | o != id :: Record(d', o) == Record(d, o)
  }

  lemma OnlyAtSame(d: Disk, id: StreamId)
    ensures OnlyAt(d, id, d)
  {
  }

  lemma OnlyAtTrans(d: Disk, id: StreamId, e: Disk, f: Disk)
    requires OnlyAt(d, id, e) && OnlyAt(e, id, f)
    ensures OnlyAt(d, id, f)
  {
  }
}
