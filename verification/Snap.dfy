/**
  SNAP transfer (src/subs.ts:819-858, 941-992): a body is cut into base64 chunks that are paced onto a
  lane whenever it has room, and put together again on the other side.
*/
module Snap {
  import opened HlcClock
  import Base64
  import Encoding

  type Byte = Encoding.Byte

  datatype Frame = Frame(chunk: nat, total: nat, data: string, cursor: string)

  /** rawChunkBudget: three quarters of half a frame. */
  function RawChunkBudget(maxFrameBytes: nat): nat { maxFrameBytes * 3 / 8 }

  function ChunkCount(len: nat, budget: nat): (n: nat)
    requires budget > 0
    ensures n >= 1
  {
    if len == 0 then 1 else (len - 1) / budget + 1
  }

  /** Where the k-th cut of a body falls. */
  function Cut(len: nat, budget: nat, k: nat): (c: nat)
    ensures c <= len
  {
    if k * budget < len then k * budget else len
  }

  /** subarray((k - 1) * budget, k * budget). */
  function Chunk(body: seq<Byte>, budget: nat, k: nat): seq<Byte>
    requires k >= 1
  {
    CutsIncrease(|body|, budget, k);
    body[Cut(|body|, budget, k - 1)..Cut(|body|, budget, k)]
  }

  lemma CutsIncrease(len: nat, budget: nat, k: nat)
    requires k >= 1
    ensures Cut(len, budget, k - 1) <= Cut(len, budget, k)
  {
    assert (k - 1) * budget + budget == k * budget;
  }

  function FrameAt(body: seq<Byte>, budget: nat, cursor: string, k: nat): Frame
    requires budget > 0 && k >= 1
  {
    Frame(k, ChunkCount(|body|, budget), Base64.Encode(Chunk(body, budget, k)), cursor)
  }

  /** Frames from..upto, in order. */
  function Frames(body: seq<Byte>, budget: nat, cursor: string, from: nat, upto: nat): seq<Frame>
    requires budget > 0 && from >= 1
    decreases upto
  {
    if upto < from then [] else Frames(body, budget, cursor, from, upto - 1) + [FrameAt(body, budget, cursor, upto)]
  }

  lemma LastCut(len: nat, budget: nat)
    requires budget > 0
    ensures Cut(len, budget, ChunkCount(len, budget)) == len
  {
    var n := ChunkCount(len, budget);
    if len > 0 {
      var q := (len - 1) / budget;
      assert q * budget + (len - 1) % budget == len - 1;
      assert n * budget == q * budget + budget;
    }
  }

  /** Every chunk but the last is full, and none is longer. */
  lemma ChunkLength(body: seq<Byte>, budget: nat, k: nat)
    requires budget > 0 && 1 <= k <= ChunkCount(|body|, budget)
    ensures |Chunk(body, budget, k)| <= budget && (k < ChunkCount(|body|, budget) ==> |Chunk(body, budget, k)| == budget)
  {
    var len := |body|;
    assert (k - 1) * budget + budget == k * budget;
    CutsIncrease(len, budget, k);
    if k < ChunkCount(len, budget) { WholeChunks(len, budget, k); }
  }

  lemma WholeChunks(len: nat, budget: nat, k: nat)
    requires budget > 0 && 1 <= k < ChunkCount(len, budget)
    ensures k * budget < len
  {
    var q := (len - 1) / budget;
    Multiples(len - 1, budget);
    TimesMonotone(k, q, budget);
  }

  lemma Multiples(n: nat, d: nat)
    requires d > 0
    ensures n / d * d <= n
  {
  }

  lemma {:induction false} TimesMonotone(a: nat, b: nat, c: nat)
    requires a <= b
    ensures a * c <= b * c
    decreases b
  {
    if a < b {
      TimesMonotone(a, b - 1, c);
      assert (b - 1) * c + c == b * c;
    }
  }

  /** The base64 of a chunk takes half a frame, up to rounding: the rest is for the envelope. */
  lemma ChunkFits(body: seq<Byte>, maxFrameBytes: nat, k: nat)
    requires RawChunkBudget(maxFrameBytes) > 0 && 1 <= k <= ChunkCount(|body|, RawChunkBudget(maxFrameBytes))
    ensures 2 * |Base64.Encode(Chunk(body, RawChunkBudget(maxFrameBytes), k))| <= maxFrameBytes + 5
  {
    hide Base64.Encode, Chunk, ChunkCount;
    var budget := RawChunkBudget(maxFrameBytes);
    ChunkLength(body, budget, k);
    Base64.EncodedLength(Chunk(body, budget, k));
    HalfFrame(|Chunk(body, budget, k)|, maxFrameBytes);
  }

  lemma HalfFrame(n: nat, maxFrameBytes: nat)
    requires n <= maxFrameBytes * 3 / 8
    ensures 2 * ((n + 2) / 3 * 4) <= maxFrameBytes + 5
  {
  }

  lemma {:induction false} FramesJoin(body: seq<Byte>, budget: nat, cursor: string, from: nat, mid: nat, upto: nat)
    requires budget > 0 && 1 <= from <= mid + 1 && mid <= upto
    ensures Frames(body, budget, cursor, from, mid) + Frames(body, budget, cursor, mid + 1, upto)
            == Frames(body, budget, cursor, from, upto)
    decreases upto
  {
    hide FrameAt;
    if upto > mid {
      FramesJoin(body, budget, cursor, from, mid, upto - 1);
    }
  }

  /** A SNAP being paced out. */
  class SnapOut {
    const body: seq<Byte>
    const budget: nat
    const cursor: string
    var next: nat

    ghost predicate Valid()
      reads this`next
    {
      budget > 0 && 1 <= next <= ChunkCount(|body|, budget) + 1
    }

    constructor (body: seq<Byte>, budget: nat, cursor: string)
      requires budget > 0
      ensures Valid() && next == 1 && this.body == body && this.budget == budget && this.cursor == cursor
    {
      this.body, this.budget, this.cursor, next := body, budget, cursor, 1;
    }

    /** Enqueue chunks while the lane takes them: `room` more before it stalls. */
    method Pump(room: nat) returns (frames: seq<Frame>, complete: bool)
      requires Valid()
      modifies this`next
      ensures Valid() && next >= old(next) && frames == Frames(body, budget, cursor, old(next), next - 1)
      ensures complete <==> next == ChunkCount(|body|, budget) + 1
      ensures complete || |frames| == room
    {
      hide FrameAt, ChunkCount;
      frames := [];
      var left := room;
      while next <= ChunkCount(|body|, budget) && left > 0
        invariant Valid() && next >= old(next) && frames == Frames(body, budget, cursor, old(next), next - 1)
        invariant |frames| + left == room
      {
        frames := frames + [FrameAt(body, budget, cursor, next)];
        next, left := next + 1, left - 1;
      }
      complete := next > ChunkCount(|body|, budget);
    }

    /** Resumed across any number of stalls, the frames are those of one uninterrupted send. */
    method PumpAll(rooms: seq<nat>) returns (frames: seq<Frame>, complete: bool)
      requires Valid() && next == 1
      modifies this`next
      ensures Valid() && frames == Frames(body, budget, cursor, 1, next - 1)
      ensures complete <==> next == ChunkCount(|body|, budget) + 1
      ensures complete ==> frames == Frames(body, budget, cursor, 1, ChunkCount(|body|, budget))
      ensures complete || |frames| == Total(rooms)
    {
      hide FrameAt, ChunkCount, Frames;
      EmptyFrames(body, budget, cursor);
      frames := [];
      complete := false;
      var i := 0;
      while i < |rooms| && !complete
        invariant 0 <= i <= |rooms| && Valid() && frames == Frames(body, budget, cursor, 1, next - 1)
        invariant complete <==> next == ChunkCount(|body|, budget) + 1
        invariant complete || |frames| == Total(rooms[..i])
      {
        ghost var was := next;
        var more;
        more, complete := Pump(rooms[i]);
        FramesJoin(body, budget, cursor, 1, was - 1, next - 1);
        OneMoreTotal(rooms, i);
        frames := frames + more;
        i := i + 1;
      }
      assert i == |rooms| ==> rooms[..i] == rooms;
    }
  }

  lemma EmptyFrames(body: seq<Byte>, budget: nat, cursor: string)
    requires budget > 0
    ensures Frames(body, budget, cursor, 1, 0) == []
  {
  }

  lemma OneMoreTotal(ns: seq<nat>, i: nat)
    requires i < |ns|
    ensures Total(ns[..i + 1]) == Total(ns[..i]) + ns[i]
  {
    assert ns[..i + 1][..i] == ns[..i];
  }

  function Total(ns: seq<nat>): nat { if ns == [] then 0 else Total(ns[..|ns| - 1]) + ns[|ns| - 1] }

  // ---- reassembly ----

  datatype Received = Waiting | Complete(body: seq<Byte>) | NotRows | Overflow

  /** Chunks collected so far, for one total and cursor. */
  datatype Partial = Partial(chunks: map<nat, string>, total: nat, cursor: string)

  function Bytes(chunks: map<nat, string>, n: nat): nat
  {
    if n == 0 then 0 else Bytes(chunks, n - 1) + if n in chunks then |chunks[n]| else 0
  }

  /** The decoded chunks 1..n, one after the other. */
  function Join(chunks: map<nat, string>, n: nat): seq<Byte>
  {
    if n == 0 then [] else Join(chunks, n - 1) + Base64.Decode(if n in chunks then chunks[n] else "")
  }

  /** What a frame does to the collection, within `max` bytes of base64. */
  function Take(p: Partial, m: Frame, max: nat): (Partial, Received)
  {
    var held := if m.total != p.total || m.cursor != p.cursor then map[] else p.chunks;
    var chunks := held[m.chunk := m.data];
    if Bytes(chunks, m.total) > max then (Partial(map[], 0, m.cursor), Overflow)
    else if |chunks| < m.total then (Partial(chunks, m.total, m.cursor), Waiting)
    else (Partial(map[], 0, m.cursor), Complete(Join(chunks, m.total)))
  }

  lemma {:induction false} BytesPut(chunks: map<nat, string>, k: nat, data: string, n: nat)
    requires 1 <= k
    ensures Bytes(chunks[k := data], n)
            == Bytes(chunks, n) + if k <= n then |data| - (if k in chunks then |chunks[k]| else 0) else 0
  {
    if n > 0 { BytesPut(chunks, k, data, n - 1); }
  }

  lemma {:induction false} NoBytes(n: nat)
    ensures Bytes(map[], n) == 0
  {
    if n > 0 { NoBytes(n - 1); }
  }

  /** A body that is not the text of a row array is dropped. */
  function Judged(isRows: seq<Byte> -> bool, r: Received): Received { if r.Complete? && !isRows(r.body) then NotRows else r }

  /** One subscription on the client. */
  class ClientSub {
    /** What JSON.parse and Array.isArray say of a body. */
    const isRows: seq<Byte> -> bool
    var chunks: map<nat, string>
    var chunksOf: nat
    var chunkBytes: int
    var chunkCursor: string
    var cursor: Option<string>

    ghost predicate Valid()
      reads this
    {
      chunkBytes == Bytes(chunks, chunksOf)
    }

    function View(): Partial
      reads this
    {
      Partial(chunks, chunksOf, chunkCursor)
    }

    constructor (cursor: Option<string>, isRows: seq<Byte> -> bool)
      ensures Valid() && View() == Partial(map[], 0, "") && this.cursor == cursor && this.isRows == isRows
    {
      this.isRows := isRows;
      chunks, chunksOf, chunkBytes, chunkCursor := map[], 0, 0, "";
      this.cursor := cursor;
    }

    /** The decoded parts 1..n, one after the other. */
    method JoinChunks(n: nat) returns (body: seq<Byte>)
      ensures body == Join(chunks, n)
    {
      hide Base64.Decode;
      body := [];
      var i := 1;
      while i <= n
        invariant 1 <= i <= n + 1 && body == Join(chunks, i - 1)
      {
        body := body + Base64.Decode(if i in chunks then chunks[i] else "");
        i := i + 1;
      }
    }

    /** handleSnap: the running byte count stays exact under repeated chunks, and a finished body of rows moves the cursor. */
    method HandleSnap(m: Frame, max: nat) returns (r: Received)
      requires Valid() && 1 <= m.chunk <= m.total
      modifies this
      ensures Valid() && View() == Take(old(View()), m, max).0 && r == Judged(isRows, Take(old(View()), m, max).1)
      ensures cursor == if r.Complete? then Some(m.cursor) else old(cursor)
    {
      hide Bytes, Base64.Decode, Join;
      NoBytes(0);
      if m.total != chunksOf || m.cursor != chunkCursor {
        NoBytes(m.total);
        chunks, chunkBytes := map[], 0;
        chunksOf, chunkCursor := m.total, m.cursor;
      }
      BytesPut(chunks, m.chunk, m.data, m.total);
      chunkBytes := chunkBytes + |m.data| - (if m.chunk in chunks then |chunks[m.chunk]| else 0);
      if chunkBytes > max {
        chunks, chunksOf, chunkBytes := map[], 0, 0;
        return Overflow;
      }
      chunks := chunks[m.chunk := m.data];
      if |chunks| < m.total { return Waiting; }
      var total := JoinChunks(m.total);
      chunks, chunksOf, chunkBytes := map[], 0, 0;
      if !isRows(total) { return NotRows; }
      cursor := Some(m.cursor);
      r := Complete(total);
    }
  }

  // ---- the transfer as a whole ----

  /** The base64 size of the first n chunks. */
  function EncodedSize(body: seq<Byte>, budget: nat, n: nat): nat
    requires budget > 0
  {
    if n == 0 then 0 else EncodedSize(body, budget, n - 1) + |Base64.Encode(Chunk(body, budget, n))|
  }

  /** The receiver after the first n frames; once it has overflowed the session is gone. */
  function After(p: Partial, body: seq<Byte>, budget: nat, cursor: string, max: nat, n: nat): (Partial, Received)
    requires budget > 0
  {
    if n == 0 then (p, Waiting)
    else
      var (q, r) := After(p, body, budget, cursor, max, n - 1);
      if r == Overflow then (q, r) else Take(q, FrameAt(body, budget, cursor, n), max)
  }

  /** The chunks 1..n and nothing else. */
  ghost predicate Holds(chunks: map<nat, string>, body: seq<Byte>, budget: nat, n: nat)
    requires budget > 0
  {
    && (forall k :: k in chunks <==> 1 <= k <= n)
    && forall k | 1 <= k <= n :: chunks[k] == Base64.Encode(Chunk(body, budget, k))
  }

  lemma {:induction false} SizeOf(chunks: map<nat, string>, n: nat)
    requires forall k :: k in chunks <==> 1 <= k <= n
    ensures |chunks| == n
  {
    if n == 0 {
      assert chunks == map[];
    } else {
      SizeOf(chunks - {n}, n - 1);
      assert chunks.Keys == (chunks - {n}).Keys + {n};
    }
  }

  lemma {:induction false} HoldsBytes(chunks: map<nat, string>, body: seq<Byte>, budget: nat, n: nat, m: nat, upto: nat)
    requires budget > 0 && Holds(chunks, body, budget, n) && m == if upto < n then upto else n
    ensures Bytes(chunks, upto) == EncodedSize(body, budget, m)
  {
    hide Chunk, Base64.Encode;
    if upto > 0 {
      HoldsBytes(chunks, body, budget, n, if upto - 1 < n then upto - 1 else n, upto - 1);
    }
  }

  lemma {:induction false} HoldsJoin(chunks: map<nat, string>, body: seq<Byte>, budget: nat, n: nat, m: nat)
    requires budget > 0 && Holds(chunks, body, budget, n) && m <= n
    ensures Join(chunks, m) == body[..Cut(|body|, budget, m)]
  {
    hide Base64.Encode, Base64.Decode, Cut, Chunk;
    if m > 0 {
      ChunkCut(body, budget, m);
      HoldsJoin(chunks, body, budget, n, m - 1);
      Base64.RoundTrip(Chunk(body, budget, m));
      CutsIncrease(|body|, budget, m);
      var a, b := Cut(|body|, budget, m - 1), Cut(|body|, budget, m);
      assert body[..b] == body[..a] + body[a..b];
    } else {
      NoCut(|body|, budget);
    }
  }

  lemma ChunkCut(body: seq<Byte>, budget: nat, k: nat)
    requires k >= 1
    ensures Cut(|body|, budget, k - 1) <= Cut(|body|, budget, k)
    ensures Chunk(body, budget, k) == body[Cut(|body|, budget, k - 1)..Cut(|body|, budget, k)]
  {
    CutsIncrease(|body|, budget, k);
  }

  lemma NoCut(len: nat, budget: nat)
    ensures Cut(len, budget, 0) == 0
  {
  }

  lemma {:induction false} SizeGrows(body: seq<Byte>, budget: nat, m: nat, n: nat)
    requires budget > 0 && m <= n
    ensures EncodedSize(body, budget, m) <= EncodedSize(body, budget, n)
  {
    hide Base64.Encode, Chunk;
    if m < n { SizeGrows(body, budget, m, n - 1); }
  }

  /** The receiver is not in the middle of other chunks under this very cursor. */
  predicate Ready(p: Partial, cursor: string) { p.cursor != cursor || p.chunks == map[] }

  /** Where reassembly stands after n frames. */
  ghost predicate Progress(body: seq<Byte>, budget: nat, cursor: string, max: nat, n: nat, q: Partial, r: Received)
    requires budget > 0
  {
    var total := ChunkCount(|body|, budget);
    if EncodedSize(body, budget, n) > max then r == Overflow
    else if n < total then r == Waiting && (n > 0 ==> q.total == total && q.cursor == cursor && Holds(q.chunks, body, budget, n))
    else r == Complete(body)
  }

  lemma NextFrame(body: seq<Byte>, budget: nat, cursor: string, max: nat, n: nat, q: Partial)
    requires budget > 0 && n < ChunkCount(|body|, budget)
    requires if n == 0 then Ready(q, cursor)
             else q.total == ChunkCount(|body|, budget) && q.cursor == cursor && Holds(q.chunks, body, budget, n)
    ensures var (q', r) := Take(q, FrameAt(body, budget, cursor, n + 1), max);
            Progress(body, budget, cursor, max, n + 1, q', r)
  {
    hide Chunk, EncodedSize, Cut, Base64.Encode, ChunkCount, Join, Bytes;
    var m := FrameAt(body, budget, cursor, n + 1);
    var total := ChunkCount(|body|, budget);
    var held := if m.total != q.total || m.cursor != q.cursor then map[] else q.chunks;
    var chunks := held[m.chunk := m.data];
    assert Holds(chunks, body, budget, n + 1);
    HoldsBytes(chunks, body, budget, n + 1, n + 1, total);
    SizeOf(chunks, n + 1);
    if n + 1 == total {
      HoldsJoin(chunks, body, budget, total, total);
      LastCut(|body|, budget);
    }
  }

  lemma NothingYet(body: seq<Byte>, budget: nat, cursor: string, max: nat, p: Partial)
    requires budget > 0
    ensures Progress(body, budget, cursor, max, 0, p, Waiting)
  {
    hide ChunkCount;
  }

  /**
    Every body, budget and limit: the frames of one SNAP, in order, reassemble to exactly the body if
    their base64 fits the limit; if it does not, reassembly overflows and nothing is delivered.
  */
  lemma {:induction false} SnapReassembles(p: Partial, body: seq<Byte>, budget: nat, cursor: string, max: nat, n: nat)
    requires budget > 0 && Ready(p, cursor) && n <= ChunkCount(|body|, budget)
    ensures var (q, r) := After(p, body, budget, cursor, max, n); Progress(body, budget, cursor, max, n, q, r)
  {
    hide Chunk, Take, FrameAt, ChunkCount, Base64.Encode, Holds, EncodedSize;
    if n > 0 {
      SnapReassembles(p, body, budget, cursor, max, n - 1);
      SizeGrows(body, budget, n - 1, n);
      var (q, r) := After(p, body, budget, cursor, max, n - 1);
      if r != Overflow { NextFrame(body, budget, cursor, max, n - 1, q); }
    } else {
      NothingYet(body, budget, cursor, max, p);
    }
  }

  /** The whole transfer succeeds exactly when its base64 fits. */
  lemma SnapDeliversIff(p: Partial, body: seq<Byte>, budget: nat, cursor: string, max: nat)
    requires budget > 0 && Ready(p, cursor)
    ensures var total := ChunkCount(|body|, budget);
            After(p, body, budget, cursor, max, total).1 == Complete(body) <==> EncodedSize(body, budget, total) <= max
  {
    SnapReassembles(p, body, budget, cursor, max, ChunkCount(|body|, budget));
  }
}
