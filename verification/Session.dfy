/**
  The data lane of a peer session (src/session.ts): consecutive mids, cumulative ACKs, a credit window,
  a reorder buffer and retransmission, over a channel that may lose, duplicate and reorder frames.

  `Endpoint` (a sending half and a receiving half) and the functions over it are the specification;
  class `Session` is the code, method by method; `Link` puts two endpoints on one channel.
*/
module DataLane {
  import opened HlcClock

  datatype SessionState = Attached | Ready | Closed

  datatype LaneConstants = LaneConstants(
    inflightCredits: nat, sendQueueCap: nat, controlRetryMs: nat, channelStallMs: nat)

  /** A data-lane message; only its identity matters here. */
  datatype Msg = Msg(json: string)

  datatype Frame = Frame(mid: nat, msg: Msg)

  datatype InFlight = InFlight(mid: nat, at: nat, msg: Msg, sentAt: nat)

  /** The sending half. Histories: `frames`, every data frame handed to the channel; `accepted`, every message sendData took. */
  datatype Tx = Tx(
    nextMid: nat, unacked: seq<InFlight>, outQueue: seq<Msg>, retryArmed: bool, lastAckProgressAt: nat,
    frames: seq<Frame>, accepted: seq<Msg>)

  /** The receiving half. Histories: `acks`, every ACK handed to the channel; `delivered`, every message handed to onData. */
  datatype Rx = Rx(
    recvContigMid: nat, recvBuffer: map<nat, Msg>, violated: bool,
    acks: seq<nat>, delivered: seq<Msg>)

  datatype Endpoint = Endpoint(state: SessionState, tx: Tx, rx: Rx)

  const FreshEndpoint: Endpoint :=
    Endpoint(Attached, Tx(1, [], [], false, 0, [], []), Rx(0, map[], false, [], []))

  // ---- the specification of the sending half ----

  /** One queued message takes the next mid and goes onto the channel. */
  function Transmit(tx: Tx, now: nat): Tx
    requires |tx.outQueue| > 0
  {
    var m := tx.outQueue[0];
    tx.(outQueue := tx.outQueue[1..], nextMid := tx.nextMid + 1,
        unacked := tx.unacked + [InFlight(tx.nextMid, now, m, now)],
        frames := tx.frames + [Frame(tx.nextMid, m)])
  }

  /** Transmit while credits last, then arm the retry timer if anything is unacknowledged. */
  function Pump(k: LaneConstants, tx: Tx, now: nat): Tx
    decreases |tx.outQueue|
  {
    if |tx.outQueue| > 0 && |tx.unacked| < k.inflightCredits then Pump(k, Transmit(tx, now), now)
    else tx.(retryArmed := tx.retryArmed || |tx.unacked| > 0)
  }

  function Accept(tx: Tx, m: Msg): Tx
  {
    tx.(outQueue := tx.outQueue + [m], accepted := tx.accepted + [m])
  }

  /** sendData: refused when closed or when the queue is full; a refused message never takes a mid. */
  function Send(k: LaneConstants, e: Endpoint, now: nat, m: Msg): (Endpoint, bool)
  {
    if e.state == Closed || |e.tx.outQueue| >= k.sendQueueCap then (e, false)
    else (e.(tx := Pump(k, Accept(e.tx, m), now)), true)
  }

  predicate Due(k: LaneConstants, u: InFlight, now: nat) { now - u.sentAt >= k.controlRetryMs }

  function Restamped(k: LaneConstants, u: InFlight, now: nat): InFlight
  {
    if Due(k, u, now) then u.(sentAt := now) else u
  }

  function Restamp(k: LaneConstants, us: seq<InFlight>, now: nat): (r: seq<InFlight>)
    ensures |r| == |us| && forall i | 0 <= i < |us| :: r[i] == Restamped(k, us[i], now)
  {
    seq(|us|, i requires 0 <= i < |us| => Restamped(k, us[i], now))
  }

  /** The frames resent for the first n unacknowledged messages. */
  function DueFrames(k: LaneConstants, us: seq<InFlight>, n: nat, now: nat): seq<Frame>
    requires n <= |us|
  {
    if n == 0 then []
    else DueFrames(k, us, n - 1, now)
         + (if Due(k, us[n - 1], now) then [Frame(us[n - 1].mid, us[n - 1].msg)] else [])
  }

  /** The retry timer fires: resend every frame unacknowledged for a retry period, same mid. */
  function Retry(k: LaneConstants, e: Endpoint, now: nat): Endpoint
  {
    if e.state == Closed then e.(tx := e.tx.(retryArmed := false))
    else e.(tx := e.tx.(unacked := Restamp(k, e.tx.unacked, now),
                        frames := e.tx.frames + DueFrames(k, e.tx.unacked, |e.tx.unacked|, now),
                        retryArmed := |e.tx.unacked| > 0))
  }

  /** How many in-flight messages a cumulative ACK retires. */
  function Acked(us: seq<InFlight>, upTo: nat): (n: nat)
    ensures n <= |us|
  {
    if us != [] && us[0].mid <= upTo then 1 + Acked(us[1..], upTo) else 0
  }

  function Retire(tx: Tx, now: nat, upTo: nat): Tx
  {
    var i := Acked(tx.unacked, upTo);
    tx.(unacked := tx.unacked[i..], lastAckProgressAt := if i > 0 then now else tx.lastAckProgressAt)
  }

  function OnAck(k: LaneConstants, tx: Tx, now: nat, upTo: nat): Tx { Pump(k, Retire(tx, now, upTo), now) }

  // ---- the specification of the receiving half ----

  /** Of the messages handed over in one go, the one whose handler throws, if any. */
  type Throw = Option<nat>

  /** Hand every contiguous buffered message to onData, until it throws; answers whether it did. */
  function DrainBuffer(rx: Rx, throw: Throw): (Rx, bool)
    decreases |rx.recvBuffer|
  {
    var next := rx.recvContigMid + 1;
    if next in rx.recvBuffer then
      DropKeySize(rx.recvBuffer, next);
      if throw == Some(0) then (Deliver(rx), true)
      else DrainBuffer(Deliver(rx), if throw.Some? then Some(throw.value - 1) else None)
    else (rx, false)
  }

  function Deliver(rx: Rx): Rx
    requires rx.recvContigMid + 1 in rx.recvBuffer
  {
    var next := rx.recvContigMid + 1;
    rx.(recvBuffer := rx.recvBuffer - {next}, recvContigMid := next,
        delivered := rx.delivered + [rx.recvBuffer[next]])
  }

  lemma DropKeySize(m: map<nat, Msg>, k: nat)
    requires k in m
    ensures |m - {k}| == |m| - 1
  {
    assert (m - {k}).Keys == m.Keys - {k};
    assert |m| == |m.Keys| && |m - {k}| == |(m - {k}).Keys|;
  }

  /** drainData: deliver, and acknowledge once if anything was delivered and nothing threw. */
  function Drain(rx: Rx, throw: Throw): Rx
  {
    var (d, threw) := DrainBuffer(rx, throw);
    if !threw && d.recvContigMid != rx.recvContigMid then d.(acks := d.acks + [d.recvContigMid]) else d
  }

  function Shut(e: Endpoint): Endpoint
  {
    if e.state == Closed then e else e.(state := Closed, tx := e.tx.(retryArmed := false))
  }

  /** A data frame: re-ACK a duplicate, close on a mid outside the credit window, else buffer and drain. */
  function OnData(k: LaneConstants, e: Endpoint, f: Frame, throw: Throw): Endpoint
  {
    if f.mid <= e.rx.recvContigMid then e.(rx := e.rx.(acks := e.rx.acks + [e.rx.recvContigMid]))
    else if f.mid > e.rx.recvContigMid + k.inflightCredits then Shut(e.(rx := e.rx.(violated := true)))
    else
      var rx := e.rx.(recvBuffer := e.rx.recvBuffer[f.mid := f.msg]);
      e.(rx := if e.state == Ready then Drain(rx, throw) else rx)
  }

  function ReceiveData(k: LaneConstants, e: Endpoint, f: Frame, throw: Throw): Endpoint
  {
    if e.state == Closed then e else OnData(k, e, f, throw)
  }

  function ReceiveAck(k: LaneConstants, e: Endpoint, now: nat, upTo: nat): Endpoint
  {
    if e.state == Closed then e else e.(tx := OnAck(k, e.tx, now, upTo))
  }

  /** HELLO completes: the lane opens and everything buffered meanwhile is drained. */
  function BecomeReady(e: Endpoint, throw: Throw): Endpoint
  {
    if e.state == Attached then Endpoint(Ready, e.tx, Drain(e.rx, throw)) else e
  }

  /** A stall is unacknowledged data with no ACK progress for channelStallMs. */
  function StallCheck(k: LaneConstants, e: Endpoint, now: nat): Endpoint
  {
    if e.state != Closed && e.tx.unacked != []
       && now - Max(e.tx.unacked[0].at, e.tx.lastAckProgressAt) > k.channelStallMs
    then Shut(e) else e
  }

  // ---- the code ----

  class Session {
    const k: LaneConstants

    var state: SessionState
    var nextMid: nat
    var unacked: seq<InFlight>
    var outQueue: seq<Msg>
    var retryArmed: bool
    var lastAckProgressAt: nat
    var recvContigMid: nat
    var recvBuffer: map<nat, Msg>
    var violated: bool

    ghost var frames: seq<Frame>
    ghost var accepted: seq<Msg>
    ghost var acks: seq<nat>
    ghost var delivered: seq<Msg>

    ghost function TxView(): Tx
      reads this
    {
      Tx(nextMid, unacked, outQueue, retryArmed, lastAckProgressAt, frames, accepted)
    }

    ghost function RxView(): Rx
      reads this
    {
      Rx(recvContigMid, recvBuffer, violated, acks, delivered)
    }

    ghost function View(): Endpoint
      reads this
    {
      Endpoint(state, TxView(), RxView())
    }

    constructor (k: LaneConstants)
      ensures this.k == k && View() == FreshEndpoint
    {
      this.k := k;
      state, nextMid, unacked, outQueue, retryArmed, lastAckProgressAt := Attached, 1, [], [], false, 0;
      recvContigMid, recvBuffer, violated := 0, map[], false;
      frames, accepted, acks, delivered := [], [], [], [];
    }

    method SendData(m: Msg, now: nat) returns (ok: bool)
      modifies this
      ensures (View(), ok) == Send(k, old(View()), now, m)
    {
      if state == Closed { return false; }
      if |outQueue| >= k.sendQueueCap { return false; }
      outQueue := outQueue + [m];
      accepted := accepted + [m];
      PumpData(now);
      return true;
    }

    method PumpData(now: nat)
      requires state != Closed
      modifies this
      ensures TxView() == Pump(k, old(TxView()), now)
      ensures RxView() == old(RxView()) && state == old(state)
    {
      ghost var cur := TxView();
      while state != Closed && |outQueue| > 0 && |unacked| < k.inflightCredits
        invariant cur == TxView() && Pump(k, cur, now) == Pump(k, old(TxView()), now)
        invariant RxView() == old(RxView()) && state == old(state)
        decreases |outQueue|
      {
        cur := Transmit(cur, now);
        var m := outQueue[0];
        outQueue := outQueue[1..];
        var mid := nextMid;
        nextMid := nextMid + 1;
        unacked := unacked + [InFlight(mid, now, m, now)];
        frames := frames + [Frame(mid, m)];
      }
      if |unacked| > 0 && !retryArmed {
        retryArmed := true;
      }
    }

    method RetryUnacked(now: nat)
      modifies this
      ensures View() == Retry(k, old(View()), now)
    {
      retryArmed := false;
      if state == Closed { return; }
      ghost var before := unacked;
      var i := 0;
      while i < |unacked|
        invariant 0 <= i <= |unacked| == |before|
        invariant forall j | 0 <= j < i :: unacked[j] == Restamped(k, before[j], now)
        invariant forall j | i <= j < |before| :: unacked[j] == before[j]
        invariant frames == old(frames) + DueFrames(k, before, i, now)
        invariant TxView() == old(TxView()).(unacked := unacked, frames := frames, retryArmed := false)
        invariant RxView() == old(RxView()) && state == old(state)
      {
        var u := unacked[i];
        if now - u.sentAt >= k.controlRetryMs {
          unacked := unacked[i := u.(sentAt := now)];
          frames := frames + [Frame(u.mid, u.msg)];
        }
        i := i + 1;
      }
      assert unacked == Restamp(k, before, now);
      if |unacked| > 0 {
        retryArmed := true;
      }
    }

    method DispatchAck(upTo: nat, now: nat)
      modifies this
      ensures View() == ReceiveAck(k, old(View()), now, upTo)
    {
      if state == Closed { return; }
      var i := 0;
      while i < |unacked| && unacked[i].mid <= upTo
        invariant i <= |unacked|
        invariant i + Acked(unacked[i..], upTo) == Acked(unacked, upTo)
      {
        assert unacked[i..][1..] == unacked[i + 1..];
        i := i + 1;
      }
      unacked := unacked[i..];
      if i > 0 { lastAckProgressAt := now; }
      PumpData(now);
    }

    /** A handler that throws leaves the frame dropped with an ERR: the retries recover what it kept from being drained. */
    method OnDataMsg(mid: nat, m: Msg, throw: Throw)
      modifies this
      ensures View() == ReceiveData(k, old(View()), Frame(mid, m), throw)
    {
      if state == Closed { return; }
      if mid <= recvContigMid {
        acks := acks + [recvContigMid];
        return;
      }
      if mid > recvContigMid + k.inflightCredits {
        violated := true;
        Close();
        return;
      }
      recvBuffer := recvBuffer[mid := m];
      if state == Ready { DrainData(throw); }
    }

    method DrainData(throw: Throw)
      modifies this`recvContigMid, this`recvBuffer, this`acks, this`delivered
      ensures RxView() == Drain(old(RxView()), throw)
    {
      var advanced, left := false, throw;
      ghost var start := RxView();
      ghost var cur := start;
      while recvContigMid + 1 in recvBuffer
        invariant cur == RxView() && DrainBuffer(cur, left) == DrainBuffer(start, throw)
        invariant recvContigMid >= start.recvContigMid
        invariant advanced <==> recvContigMid != start.recvContigMid
        decreases |recvBuffer|
      {
        var next := recvContigMid + 1;
        var m := recvBuffer[next];
        DropKeySize(recvBuffer, next);
        cur := Deliver(cur);
        recvBuffer := recvBuffer - {next};
        recvContigMid := next;
        advanced := true;
        delivered := delivered + [m];
        if left == Some(0) { return; }
        left := if left.Some? then Some(left.value - 1) else None;
      }
      if advanced {
        acks := acks + [recvContigMid];
      }
    }

    method Close()
      modifies this`state, this`retryArmed
      ensures View() == Shut(old(View()))
    {
      if state == Closed { return; }
      state := Closed;
      retryArmed := false;
    }

    method OnHello(throw: Throw)
      modifies this
      ensures View() == BecomeReady(old(View()), throw)
    {
      if state != Attached { return; }
      state := Ready;
      DrainData(throw);
    }

    method CheckStall(now: nat)
      modifies this
      ensures View() == StallCheck(k, old(View()), now)
    {
      if state == Closed { return; }
      if |unacked| > 0 && now - Max(unacked[0].at, lastAckProgressAt) > k.channelStallMs {
        Close();
      }
    }
  }

  // ---- two endpoints and the channel between them ----

  /** A frame, once handed to the channel, may arrive at any later time, any number of times, or never. */
  datatype Link = Link(a: Endpoint, b: Endpoint)

  datatype Side = SideA | SideB

  datatype LinkEvent =
    | SendMsg(at: Side, now: nat, m: Msg)
    | ArriveData(at: Side, f: Frame, throw: Throw)
    | ArriveAck(at: Side, now: nat, upTo: nat)
    | RetryTimer(at: Side, now: nat)
    | StallTimer(at: Side, now: nat)
    | HelloDone(at: Side, throw: Throw)
    | CloseNow(at: Side)

  /** An arrival must be of something the peer once sent. */
  predicate Sent(peer: Endpoint, ev: LinkEvent)
  {
    && (ev.ArriveData? ==> ev.f in peer.tx.frames)
    && (ev.ArriveAck? ==> ev.upTo in peer.rx.acks)
  }

  predicate Enabled(l: Link, ev: LinkEvent) { Sent(if ev.at == SideA then l.b else l.a, ev) }

  function StepEndpoint(k: LaneConstants, e: Endpoint, ev: LinkEvent): Endpoint
  {
    match ev
    case SendMsg(_, now, m) => Send(k, e, now, m).0
    case ArriveData(_, f, throw) => ReceiveData(k, e, f, throw)
    case ArriveAck(_, now, upTo) => ReceiveAck(k, e, now, upTo)
    case RetryTimer(_, now) => Retry(k, e, now)
    case StallTimer(_, now) => StallCheck(k, e, now)
    case HelloDone(_, throw) => BecomeReady(e, throw)
    case CloseNow(_) => Shut(e)
  }

  function Step(k: LaneConstants, l: Link, ev: LinkEvent): Link
  {
    if ev.at == SideA then l.(a := StepEndpoint(k, l.a, ev)) else l.(b := StepEndpoint(k, l.b, ev))
  }

  /** `l'` is where the events lead from `l`, each enabled where it happens. */
  ghost predicate Run(k: LaneConstants, l: Link, evs: seq<LinkEvent>, l': Link)
    decreases |evs|
  {
    if evs == [] then l == l' else Enabled(l, evs[0]) && Run(k, Step(k, l, evs[0]), evs[1..], l')
  }

  // ---- the invariant of one direction ----

  /** A data frame carries the accepted message its mid names, and the mid has been handed out. */
  ghost predicate TrueFrame(f: Frame, nextMid: nat, accepted: seq<Msg>)
  {
    1 <= f.mid < nextMid && f.mid <= |accepted| && f.msg == accepted[f.mid - 1]
  }

  ghost predicate TrueInFlight(us: seq<InFlight>, nextMid: nat, accepted: seq<Msg>)
  {
    && |us| < nextMid
    && forall i | 0 <= i < |us| ::
         us[i].mid == nextMid - |us| + i && TrueFrame(Frame(us[i].mid, us[i].msg), nextMid, accepted)
  }

  /** What the sending half's fields say about each other. */
  ghost predicate TxOk(k: LaneConstants, tx: Tx)
  {
    && 1 <= tx.nextMid <= |tx.accepted| + 1
    && tx.accepted[tx.nextMid - 1..] == tx.outQueue
    && |tx.unacked| <= k.inflightCredits
    && TrueInFlight(tx.unacked, tx.nextMid, tx.accepted)
    && (forall f | f in tx.frames :: TrueFrame(f, tx.nextMid, tx.accepted))
  }

  /** What the receiving half holds, in terms of what the sender accepted. */
  ghost predicate RxOk(rx: Rx, nextMid: nat, accepted: seq<Msg>)
  {
    && rx.recvContigMid < nextMid <= |accepted| + 1
    && rx.delivered == accepted[..rx.recvContigMid]
    && (forall mid | mid in rx.recvBuffer ::
          rx.recvContigMid < mid && TrueFrame(Frame(mid, rx.recvBuffer[mid]), nextMid, accepted))
    && (forall a | a in rx.acks :: a <= rx.recvContigMid)
    && !rx.violated
  }

  ghost predicate Drained(rx: Rx) { rx.recvContigMid + 1 !in rx.recvBuffer }

  /** Both halves of one direction; everything the sender has retired, the receiver has delivered. */
  ghost predicate DirectionOk(k: LaneConstants, tx: Tx, rx: Rx)
  {
    TxOk(k, tx) && RxOk(rx, tx.nextMid, tx.accepted) && tx.nextMid - 1 - |tx.unacked| <= rx.recvContigMid
  }

  ghost predicate EndpointOk(e: Endpoint) { e.state != Closed && e.tx.unacked != [] ==> e.tx.retryArmed }

  ghost predicate LinkOk(k: LaneConstants, l: Link)
  {
    && DirectionOk(k, l.a.tx, l.b.rx) && DirectionOk(k, l.b.tx, l.a.rx)
    && EndpointOk(l.a) && EndpointOk(l.b)
  }

  // ---- each handler keeps it ----

  lemma TransmitKeeps(k: LaneConstants, tx: Tx, rx: Rx, now: nat)
    requires DirectionOk(k, tx, rx) && |tx.outQueue| > 0 && |tx.unacked| < k.inflightCredits
    ensures DirectionOk(k, Transmit(tx, now), rx)
  {
    assert tx.outQueue[0] == tx.accepted[tx.nextMid - 1];
  }

  lemma {:induction false} PumpKeeps(k: LaneConstants, tx: Tx, rx: Rx, now: nat)
    requires DirectionOk(k, tx, rx)
    ensures DirectionOk(k, Pump(k, tx, now), rx)
    ensures Pump(k, tx, now).unacked != [] ==> Pump(k, tx, now).retryArmed
    decreases |tx.outQueue|
  {
    if |tx.outQueue| > 0 && |tx.unacked| < k.inflightCredits {
      TransmitKeeps(k, tx, rx, now);
      PumpKeeps(k, Transmit(tx, now), rx, now);
    }
  }

  lemma AcceptKeeps(k: LaneConstants, tx: Tx, rx: Rx, m: Msg)
    requires DirectionOk(k, tx, rx)
    ensures DirectionOk(k, Accept(tx, m), rx)
  {
    var tx' := Accept(tx, m);
    assert tx'.accepted[tx.nextMid - 1..] == tx'.outQueue;
    forall f: Frame | TrueFrame(f, tx.nextMid, tx.accepted)
      ensures TrueFrame(f, tx'.nextMid, tx'.accepted)
    {
    }
    assert tx'.accepted[..rx.recvContigMid] == tx.accepted[..rx.recvContigMid];
  }

  lemma {:induction false} DueFramesFrom(k: LaneConstants, us: seq<InFlight>, n: nat, now: nat)
    requires n <= |us|
    ensures forall f | f in DueFrames(k, us, n, now) ::
              exists i :: 0 <= i < n && f == Frame(us[i].mid, us[i].msg)
    ensures forall i | 0 <= i < n && Due(k, us[i], now) :: Frame(us[i].mid, us[i].msg) in DueFrames(k, us, n, now)
  {
    if n > 0 {
      DueFramesFrom(k, us, n - 1, now);
    }
  }

  lemma RetryKeeps(k: LaneConstants, e: Endpoint, rx: Rx, now: nat)
    requires DirectionOk(k, e.tx, rx)
    ensures DirectionOk(k, Retry(k, e, now).tx, rx)
  {
    DueFramesFrom(k, e.tx.unacked, |e.tx.unacked|, now);
  }

  lemma {:induction false} AckedSpan(us: seq<InFlight>, first: nat, upTo: nat)
    requires forall i | 0 <= i < |us| :: us[i].mid == first + i
    ensures Acked(us, upTo) == if upTo < first then 0 else Min(|us|, upTo - first + 1)
  {
    if us != [] {
      AckedSpan(us[1..], first + 1, upTo);
    }
  }

  /** An ACK the receiver really sent retires only delivered messages. */
  lemma OnAckKeeps(k: LaneConstants, tx: Tx, rx: Rx, now: nat, upTo: nat)
    requires DirectionOk(k, tx, rx) && upTo <= rx.recvContigMid
    ensures DirectionOk(k, OnAck(k, tx, now, upTo), rx)
    ensures OnAck(k, tx, now, upTo).unacked != [] ==> OnAck(k, tx, now, upTo).retryArmed
  {
    AckedSpan(tx.unacked, tx.nextMid - |tx.unacked|, upTo);
    assert DirectionOk(k, Retire(tx, now, upTo), rx);
    PumpKeeps(k, Retire(tx, now, upTo), rx, now);
  }

  /** The receiver has this mid, delivered or buffered. */
  predicate Holds(rx: Rx, mid: nat) { mid <= rx.recvContigMid || mid in rx.recvBuffer }

  /** Its newest contiguous mid has been acknowledged. */
  predicate HasAcked(rx: Rx) { rx.recvContigMid in rx.acks }

  /** Nothing received is lost; an up-to-date acknowledgement stays up to date, and an advance makes it so. */
  ghost predicate Progress(rx: Rx, rx': Rx)
  {
    && rx.recvContigMid <= rx'.recvContigMid
    && (forall o | Holds(rx, o) :: Holds(rx', o))
    && (HasAcked(rx) || rx'.recvContigMid != rx.recvContigMid ==> HasAcked(rx'))
  }

  lemma {:induction false} DrainBufferKeeps(rx: Rx, throw: Throw, nextMid: nat, accepted: seq<Msg>)
    requires RxOk(rx, nextMid, accepted)
    ensures var (d, threw) := DrainBuffer(rx, throw);
            && RxOk(d, nextMid, accepted) && (threw || Drained(d)) && (threw ==> throw.Some?) && d.acks == rx.acks
            && rx.recvContigMid <= d.recvContigMid && (forall o | Holds(rx, o) :: Holds(d, o))
    decreases |rx.recvBuffer|
  {
    var next := rx.recvContigMid + 1;
    if next in rx.recvBuffer {
      DropKeySize(rx.recvBuffer, next);
      assert TrueFrame(Frame(next, rx.recvBuffer[next]), nextMid, accepted);
      if throw != Some(0) {
        DrainBufferKeeps(Deliver(rx), if throw.Some? then Some(throw.value - 1) else None, nextMid, accepted);
      }
    }
  }

  lemma DrainKeeps(rx: Rx, throw: Throw, nextMid: nat, accepted: seq<Msg>)
    requires RxOk(rx, nextMid, accepted)
    ensures RxOk(Drain(rx, throw), nextMid, accepted) && (forall o | Holds(rx, o) :: Holds(Drain(rx, throw), o))
    ensures throw.None? ==> Drained(Drain(rx, throw)) && Progress(rx, Drain(rx, throw))
    ensures rx.recvContigMid <= Drain(rx, throw).recvContigMid
  {
    DrainBufferKeeps(rx, throw, nextMid, accepted);
  }

  /**
    A data frame the sender really sent is inside the credit window, and is kept; unless a handler throws, it is
    acknowledged once contiguous, and what lay buffered before is handed over with it.
  */
  lemma OnDataKeeps(k: LaneConstants, tx: Tx, e: Endpoint, f: Frame, throw: Throw)
    requires DirectionOk(k, tx, e.rx) && f in tx.frames
    ensures var e' := OnData(k, e, f, throw);
            && e'.state == e.state && e'.tx == e.tx && DirectionOk(k, tx, e'.rx)
            && (forall o | Holds(e.rx, o) :: Holds(e'.rx, o)) && Holds(e'.rx, f.mid)
    ensures throw.None? ==>
              var e' := OnData(k, e, f, throw);
              && Progress(e.rx, e'.rx)
              && (e.state == Ready && (Drained(e.rx) || f.mid > e.rx.recvContigMid) ==> Drained(e'.rx))
              && (e.state == Ready && f.mid <= e'.rx.recvContigMid ==> HasAcked(e'.rx))
  {
    assert TrueFrame(f, tx.nextMid, tx.accepted);
    if e.rx.recvContigMid < f.mid {
      var rx := e.rx.(recvBuffer := e.rx.recvBuffer[f.mid := f.msg]);
      assert RxOk(rx, tx.nextMid, tx.accepted);
      assert Holds(rx, f.mid) && forall o | Holds(e.rx, o) :: Holds(rx, o);
      if e.state == Ready {
        DrainKeeps(rx, throw, tx.nextMid, tx.accepted);
      }
    }
  }

  /** One endpoint steps, its peer stands still: both directions survive. */
  lemma EndpointStepKeeps(k: LaneConstants, e: Endpoint, peer: Endpoint, ev: LinkEvent)
    requires DirectionOk(k, e.tx, peer.rx) && DirectionOk(k, peer.tx, e.rx) && EndpointOk(e) && Sent(peer, ev)
    ensures var e' := StepEndpoint(k, e, ev);
            DirectionOk(k, e'.tx, peer.rx) && DirectionOk(k, peer.tx, e'.rx) && EndpointOk(e')
  {
    match ev
    case SendMsg(_, now, m) =>
      AcceptKeeps(k, e.tx, peer.rx, m);
      PumpKeeps(k, Accept(e.tx, m), peer.rx, now);
    case ArriveData(_, f, throw) =>
      OnDataKeeps(k, peer.tx, e, f, throw);
    case ArriveAck(_, now, upTo) =>
      OnAckKeeps(k, e.tx, peer.rx, now, upTo);
    case RetryTimer(_, now) =>
      RetryKeeps(k, e, peer.rx, now);
    case StallTimer(_, _) =>
    case HelloDone(_, throw) =>
      DrainKeeps(e.rx, throw, peer.tx.nextMid, peer.tx.accepted);
    case CloseNow(_) =>
  }

  lemma StepKeeps(k: LaneConstants, l: Link, ev: LinkEvent)
    requires LinkOk(k, l) && Enabled(l, ev)
    ensures LinkOk(k, Step(k, l, ev))
  {
    if ev.at == SideA {
      EndpointStepKeeps(k, l.a, l.b, ev);
    } else {
      EndpointStepKeeps(k, l.b, l.a, ev);
    }
  }

  lemma {:induction false} RunKeeps(k: LaneConstants, l: Link, evs: seq<LinkEvent>, l': Link)
    requires LinkOk(k, l) && Run(k, l, evs, l')
    ensures LinkOk(k, l')
    decreases |evs|
  {
    if evs != [] {
      StepKeeps(k, l, evs[0]);
      RunKeeps(k, Step(k, l, evs[0]), evs[1..], l');
    }
  }

  // ---- main results ----

  /**
    From two fresh endpoints, after any run: in both directions what onData was given is a prefix of
    what sendData accepted (in order, once each); unacknowledged mids are the consecutive last ones
    handed out and never exceed the credits; no data frame ever sent can trip the credit window, so no
    session closed over it; and the retry timer is armed whenever something is unacknowledged.
  */
  lemma LaneSafety(k: LaneConstants, evs: seq<LinkEvent>, l: Link)
    requires Run(k, Link(FreshEndpoint, FreshEndpoint), evs, l)
    ensures l.b.rx.delivered <= l.a.tx.accepted && l.a.rx.delivered <= l.b.tx.accepted
    ensures forall e | e == l.a || e == l.b ::
              && |e.tx.unacked| <= k.inflightCredits
              && (forall i | 0 <= i < |e.tx.unacked| :: e.tx.unacked[i].mid == e.tx.nextMid - |e.tx.unacked| + i)
              && !e.rx.violated
              && (e.state != Closed && e.tx.unacked != [] ==> e.tx.retryArmed)
    ensures forall f | f in l.a.tx.frames :: f.mid <= l.b.rx.recvContigMid + k.inflightCredits
    ensures forall f | f in l.b.tx.frames :: f.mid <= l.a.rx.recvContigMid + k.inflightCredits
  {
    RunKeeps(k, Link(FreshEndpoint, FreshEndpoint), evs, l);
  }

  /** Frames arrive at side B one after another, and no handler throws. */
  function ArriveAll(k: LaneConstants, l: Link, fs: seq<Frame>): Link
    decreases |fs|
  {
    if fs == [] then l else ArriveAll(k, Step(k, l, ArriveData(SideB, fs[0], None)), fs[1..])
  }

  /**
    Whatever has arrived is held; once any of it is contiguous, the newest contiguous mid is acknowledged; and if an
    earlier throw still leaves something undrained, all of it was contiguous already.
  */
  ghost predicate Collected(rx: Rx, fs: seq<Frame>)
  {
    forall f | f in fs :: Holds(rx, f.mid) && (f.mid <= rx.recvContigMid ==> HasAcked(rx)) && (Drained(rx) || f.mid <= rx.recvContigMid)
  }

  lemma CollectedStep(rx: Rx, rx': Rx, seen: seq<Frame>, f: Frame)
    requires Collected(rx, seen) && Progress(rx, rx') && (Drained(rx) ==> Drained(rx'))
    requires Holds(rx', f.mid) && (f.mid <= rx'.recvContigMid ==> HasAcked(rx')) && (Drained(rx') || f.mid <= rx'.recvContigMid)
    ensures Collected(rx', seen + [f])
  {
    forall g | g in seen + [f]
      ensures Holds(rx', g.mid) && (g.mid <= rx'.recvContigMid ==> HasAcked(rx')) && (Drained(rx') || g.mid <= rx'.recvContigMid)
    {
      assert g in seen ==> Holds(rx, g.mid);
    }
  }

  lemma ArriveCollects(k: LaneConstants, l: Link, seen: seq<Frame>, f: Frame)
    requires LinkOk(k, l) && l.b.state == Ready && Collected(l.b.rx, seen) && f in l.a.tx.frames
    ensures var l' := Step(k, l, ArriveData(SideB, f, None));
            LinkOk(k, l') && l'.b.state == Ready && l'.a == l.a && Collected(l'.b.rx, seen + [f])
  {
    var l' := Step(k, l, ArriveData(SideB, f, None));
    StepKeeps(k, l, ArriveData(SideB, f, None));
    OnDataKeeps(k, l.a.tx, l.b, f, None);
    CollectedStep(l.b.rx, l'.b.rx, seen, f);
  }

  lemma {:induction false} ArriveAllCollects(k: LaneConstants, l: Link, seen: seq<Frame>, fs: seq<Frame>)
    requires LinkOk(k, l) && l.b.state == Ready && Collected(l.b.rx, seen)
    requires forall f | f in fs :: f in l.a.tx.frames
    ensures var l' := ArriveAll(k, l, fs);
            LinkOk(k, l') && l'.b.state == Ready && l'.a == l.a && Collected(l'.b.rx, seen + fs)
    decreases |fs|
  {
    if fs != [] {
      var l1 := Step(k, l, ArriveData(SideB, fs[0], None));
      ArriveCollects(k, l, seen, fs[0]);
      ArriveAllCollects(k, l1, seen + [fs[0]], fs[1..]);
      assert (seen + [fs[0]]) + fs[1..] == seen + fs;
    } else {
      assert seen + fs == seen;
    }
  }

  /** Every in-flight message has its frame among `fs`. */
  ghost predicate AllAmong(us: seq<InFlight>, fs: seq<Frame>)
  {
    forall i | 0 <= i < |us| :: Frame(us[i].mid, us[i].msg) in fs
  }

  ghost predicate AllDue(k: LaneConstants, us: seq<InFlight>, now: nat)
  {
    forall i | 0 <= i < |us| :: Due(k, us[i], now)
  }

  lemma RetryResendsAll(k: LaneConstants, e: Endpoint, now: nat)
    requires e.state != Closed && AllDue(k, e.tx.unacked, now)
    ensures var tx' := Retry(k, e, now).tx;
            && tx' == e.tx.(unacked := tx'.unacked, frames := tx'.frames, retryArmed := |e.tx.unacked| > 0)
            && e.tx.frames <= tx'.frames && AllAmong(e.tx.unacked, tx'.frames[|e.tx.frames|..])
            && |tx'.unacked| == |e.tx.unacked|
    ensures forall fs | AllAmong(e.tx.unacked, fs) :: AllAmong(Retry(k, e, now).tx.unacked, fs)
  {
    DueFramesFrom(k, e.tx.unacked, |e.tx.unacked|, now);
    var tx' := Retry(k, e, now).tx;
    assert tx'.frames[|e.tx.frames|..] == DueFrames(k, e.tx.unacked, |e.tx.unacked|, now);
    forall fs | AllAmong(e.tx.unacked, fs)
      ensures AllAmong(tx'.unacked, fs)
    {
      forall i | 0 <= i < |tx'.unacked|
        ensures Frame(tx'.unacked[i].mid, tx'.unacked[i].msg) in fs
      {
        assert Frame(e.tx.unacked[i].mid, e.tx.unacked[i].msg) in fs;
      }
    }
  }

  /**
    Recovery from any reachable state: the retry timer fires with everything unacknowledged due, the
    channel loses none of the resent frames (it may still reorder them, repeat them and slip in older
    ones), and the resulting ACK arrives. Then every message that was in flight has been delivered and
    retired, and the unacknowledged list is empty if nothing waited in the queue.
  */
  lemma LossFreeRetryRound(k: LaneConstants, l: Link, now: nat, fs: seq<Frame>, later: nat)
    requires LinkOk(k, l) && l.a.state != Closed && l.b.state == Ready && l.a.tx.unacked != []
    requires AllDue(k, l.a.tx.unacked, now)
    requires forall f | f in fs :: f in Retry(k, l.a, now).tx.frames
    requires AllAmong(l.a.tx.unacked, fs)
    ensures var l1 := Step(k, l, RetryTimer(SideA, now));
            var l2 := ArriveAll(k, l1, fs);
            var top := l.a.tx.nextMid - 1;
            var l3 := Step(k, l2, ArriveAck(SideA, later, top));
            && AllAmong(l.a.tx.unacked, l1.a.tx.frames[|l.a.tx.frames|..])
            && l2.b.rx.delivered == l.a.tx.accepted[..top]
            && top in l2.b.rx.acks
            && (forall u | u in l3.a.tx.unacked :: u.mid > top)
            && (l.a.tx.outQueue == [] ==> l3.a.tx.unacked == [])
  {
    hide LinkOk, AllDue, AllAmong, ArriveAll;
    StepKeeps(k, l, RetryTimer(SideA, now));
    RetryResendsAll(k, l.a, now);
    RoundCompletes(k, Step(k, l, RetryTimer(SideA, now)), fs, later);
  }

  lemma RoundCompletes(k: LaneConstants, l: Link, fs: seq<Frame>, later: nat)
    requires LinkOk(k, l) && l.b.state == Ready && l.a.tx.unacked != []
    requires forall f | f in fs :: f in l.a.tx.frames
    requires AllAmong(l.a.tx.unacked, fs)
    ensures var l' := ArriveAll(k, l, fs);
            && l'.a == l.a && l'.b.rx.delivered == l.a.tx.accepted[..l.a.tx.nextMid - 1]
            && l.a.tx.nextMid - 1 in l'.b.rx.acks
    ensures var tx' := OnAck(k, l.a.tx, later, l.a.tx.nextMid - 1);
            && (forall u | u in tx'.unacked :: u.mid >= l.a.tx.nextMid)
            && (l.a.tx.outQueue == [] ==> tx'.unacked == [])
  {
    assert Collected(l.b.rx, []);
    ArriveAllCollects(k, l, [], fs);
    assert [] + fs == fs;
    RoundDelivers(k, ArriveAll(k, l, fs), fs);
    RoundRetires(k, l.a.tx, later);
  }

  /** With every in-flight frame arrived, nothing is missing and the newest mid is acknowledged. */
  lemma RoundDelivers(k: LaneConstants, l: Link, fs: seq<Frame>)
    requires LinkOk(k, l) && l.b.state == Ready && l.a.tx.unacked != [] && Collected(l.b.rx, fs)
    requires AllAmong(l.a.tx.unacked, fs)
    ensures l.b.rx.recvContigMid == l.a.tx.nextMid - 1 && HasAcked(l.b.rx)
  {
    var us := l.a.tx.unacked;
    var first := l.a.tx.nextMid - |us|;
    forall mid | first <= mid < l.a.tx.nextMid
      ensures Holds(l.b.rx, mid)
    {
      assert Frame(us[mid - first].mid, us[mid - first].msg) in fs;
    }
    var last := us[|us| - 1];
    assert Frame(last.mid, last.msg) in fs && last.mid == l.a.tx.nextMid - 1;
    if Drained(l.b.rx) { assert !Holds(l.b.rx, l.b.rx.recvContigMid + 1); }
    assert Frame(us[0].mid, us[0].msg) in fs;
  }

  lemma RoundRetires(k: LaneConstants, tx: Tx, now: nat)
    requires TxOk(k, tx)
    ensures var tx' := OnAck(k, tx, now, tx.nextMid - 1);
            (forall u | u in tx'.unacked :: u.mid >= tx.nextMid) && (tx.outQueue == [] ==> tx'.unacked == [])
  {
    AckedSpan(tx.unacked, tx.nextMid - |tx.unacked|, tx.nextMid - 1);
    assert Retire(tx, now, tx.nextMid - 1).unacked == [];
    PumpTakesNew(k, Retire(tx, now, tx.nextMid - 1), now, tx.nextMid - 1);
  }

  lemma {:induction false} PumpTakesNew(k: LaneConstants, tx: Tx, now: nat, top: nat)
    requires tx.nextMid > top && forall u | u in tx.unacked :: u.mid > top
    ensures forall u | u in Pump(k, tx, now).unacked :: u.mid > top
    ensures tx.outQueue == [] ==> Pump(k, tx, now).unacked == tx.unacked
    decreases |tx.outQueue|
  {
    if |tx.outQueue| > 0 && |tx.unacked| < k.inflightCredits {
      PumpTakesNew(k, Transmit(tx, now), now, top);
    }
  }
}
