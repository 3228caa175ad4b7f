/** What each event of the data lane does, told by mids, messages and times (src/session.ts:275-353, 440-465, 533-580). */
module LaneAnswers {
  import opened HlcClock
  import opened DataLane

  // ---- sending ----

  /** The first n queued messages have gone out under the next mids. */
  ghost predicate WentOut(tx: Tx, now: nat, n: nat, tx': Tx)
  {
    && n <= |tx.outQueue| && tx'.outQueue == tx.outQueue[n..] && tx'.nextMid == tx.nextMid + n && tx'.accepted == tx.accepted
    && |tx'.frames| == |tx.frames| + n && |tx'.unacked| == |tx.unacked| + n && tx.frames <= tx'.frames && tx.unacked <= tx'.unacked
    && (forall i | 0 <= i < n :: tx'.frames[|tx.frames| + i] == Frame(tx.nextMid + i, tx.outQueue[i]))
    && (forall i | 0 <= i < n :: tx'.unacked[|tx.unacked| + i] == InFlight(tx.nextMid + i, now, tx.outQueue[i], now))
    && tx'.lastAckProgressAt == tx.lastAckProgressAt
  }

  /** As many as the credits allow, no more, and with anything in flight the retry timer is armed. */
  ghost predicate Pumped(k: LaneConstants, tx: Tx, now: nat, tx': Tx)
  {
    exists n: nat :: WentOut(tx, now, n, tx') && (tx'.outQueue == [] || |tx'.unacked| >= k.inflightCredits)
                     && (n > 0 ==> |tx'.unacked| <= k.inflightCredits) && (tx'.retryArmed <==> tx.retryArmed || tx'.unacked != [])
  }

  lemma {:induction false} PumpSays(k: LaneConstants, tx: Tx, now: nat)
    ensures Pumped(k, tx, now, Pump(k, tx, now))
    decreases |tx.outQueue|
  {
    if |tx.outQueue| > 0 && |tx.unacked| < k.inflightCredits {
      var tx1 := Transmit(tx, now);
      PumpSays(k, tx1, now);
      var tx' := Pump(k, tx, now);
      var n: nat :| WentOut(tx1, now, n, tx') && (tx'.outQueue == [] || |tx'.unacked| >= k.inflightCredits)
                    && (n > 0 ==> |tx'.unacked| <= k.inflightCredits) && (tx'.retryArmed <==> tx1.retryArmed || tx'.unacked != []);
      OneMoreOut(tx, now, n, tx');
    } else {
      assert WentOut(tx, now, 0, Pump(k, tx, now));
    }
  }

  lemma OneMoreOut(tx: Tx, now: nat, n: nat, tx': Tx)
    requires tx.outQueue != [] && WentOut(Transmit(tx, now), now, n, tx')
    ensures WentOut(tx, now, n + 1, tx')
  {
    var tx1 := Transmit(tx, now);
    assert tx1.frames[|tx.frames|] == Frame(tx.nextMid, tx.outQueue[0]) && tx1.unacked[|tx.unacked|] == InFlight(tx.nextMid, now, tx.outQueue[0], now);
    forall i | 0 <= i < n + 1
      ensures tx'.frames[|tx.frames| + i] == Frame(tx.nextMid + i, tx.outQueue[i])
      ensures tx'.unacked[|tx.unacked| + i] == InFlight(tx.nextMid + i, now, tx.outQueue[i], now)
    {
      if i == 0 {
        assert tx'.frames[|tx.frames|] == tx1.frames[|tx.frames|] && tx'.unacked[|tx.unacked|] == tx1.unacked[|tx.unacked|];
      } else {
        assert tx'.frames[|tx1.frames| + (i - 1)] == Frame(tx1.nextMid + (i - 1), tx1.outQueue[i - 1]);
        assert tx'.unacked[|tx1.unacked| + (i - 1)] == InFlight(tx1.nextMid + (i - 1), now, tx1.outQueue[i - 1], now);
      }
    }
  }

  /** A message is taken exactly when the session is open and the queue not full; else nothing changes. */
  lemma SendSays(k: LaneConstants, e: Endpoint, now: nat, m: Msg)
    ensures var (e', ok) := Send(k, e, now, m);
            && (ok <==> e.state != Closed && |e.tx.outQueue| < k.sendQueueCap) && (!ok ==> e' == e)
            && (ok ==> e'.state == e.state && e'.rx == e.rx
                       && Pumped(k, e.tx.(outQueue := e.tx.outQueue + [m], accepted := e.tx.accepted + [m]), now, e'.tx))
  {
    hide Pump, Pumped;
    PumpSays(k, e.tx.(outQueue := e.tx.outQueue + [m], accepted := e.tx.accepted + [m]), now);
  }

  /** An ACK retires the messages in flight up to its mid; the stall clock starts over if and only if there were any; then the credits are used. */
  lemma AckSays(k: LaneConstants, e: Endpoint, now: nat, upTo: nat)
    requires forall i, j | 0 <= i < j < |e.tx.unacked| :: e.tx.unacked[i].mid < e.tx.unacked[j].mid
    ensures var e' := ReceiveAck(k, e, now, upTo);
            if e.state == Closed then e' == e
            else e'.state == e.state && e'.rx == e.rx && exists n: nat :: UpToFirst(e.tx.unacked, upTo, n) && Pumped(k, AckedTo(e.tx, now, n), now, e'.tx)
  {
    hide Pump, Pumped;
    AckedIff(e.tx.unacked, upTo);
    assert UpToFirst(e.tx.unacked, upTo, Acked(e.tx.unacked, upTo));
    PumpSays(k, Retire(e.tx, now, upTo), now);
  }

  /** The first n are those at or below the mid. */
  ghost predicate UpToFirst(us: seq<InFlight>, upTo: nat, n: nat) { n <= |us| && forall i | 0 <= i < |us| :: us[i].mid <= upTo <==> i < n }

  function AckedTo(tx: Tx, now: nat, n: nat): Tx
  {
    tx.(unacked := if n <= |tx.unacked| then tx.unacked[n..] else [], lastAckProgressAt := if n > 0 then now else tx.lastAckProgressAt)
  }

  lemma {:induction false} AckedIff(us: seq<InFlight>, upTo: nat)
    requires forall i, j | 0 <= i < j < |us| :: us[i].mid < us[j].mid
    ensures forall i | 0 <= i < |us| :: us[i].mid <= upTo <==> i < Acked(us, upTo)
  {
    if us != [] {
      AckedIff(us[1..], upTo);
      forall i | 0 < i < |us|
        ensures us[i].mid <= upTo <==> us[0].mid <= upTo && i - 1 < Acked(us[1..], upTo)
      {
        assert us[1..][i - 1] == us[i];
      }
    }
  }

  /** The retry timer resends exactly the frames unacknowledged for a retry period, in order and each once, and starts their period over. */
  lemma RetrySays(k: LaneConstants, e: Endpoint, now: nat)
    requires e.state != Closed
    ensures var e' := Retry(k, e, now);
            && e'.state == e.state && e'.rx == e.rx && e'.tx == e.tx.(unacked := e'.tx.unacked, frames := e'.tx.frames, retryArmed := e.tx.unacked != [])
            && |e'.tx.unacked| == |e.tx.unacked|
            && (forall i | 0 <= i < |e.tx.unacked| ::
                  var u := e.tx.unacked[i]; e'.tx.unacked[i] == if now - u.sentAt >= k.controlRetryMs then u.(sentAt := now) else u)
            && exists at: seq<nat> :: Picks(e.tx.unacked, i => 0 <= i < |e.tx.unacked| && now - e.tx.unacked[i].sentAt >= k.controlRetryMs, at)
                                      && e'.tx.frames == e.tx.frames + FramesOf(e.tx.unacked, at)
  {
    var us := e.tx.unacked;
    var at := DueAt(k, us, |us|, now);
    var due := i => 0 <= i < |us| && now - us[i].sentAt >= k.controlRetryMs;
    assert Picks(us, due, at);
  }

  /** Exactly these places, in order. */
  ghost predicate Picks(us: seq<InFlight>, p: int -> bool, at: seq<nat>)
  {
    && (forall i, j | 0 <= i < j < |at| :: at[i] < at[j])
    && (forall i | 0 <= i < |us| :: i in at <==> p(i)) && forall i | 0 <= i < |at| :: at[i] < |us|
  }

  function FramesOf(us: seq<InFlight>, at: seq<nat>): seq<Frame>
    requires forall i | 0 <= i < |at| :: at[i] < |us|
  {
    seq(|at|, i requires 0 <= i < |at| => Frame(us[at[i]].mid, us[at[i]].msg))
  }

  lemma {:induction false} DueAt(k: LaneConstants, us: seq<InFlight>, n: nat, now: nat) returns (at: seq<nat>)
    requires n <= |us|
    ensures forall i, j | 0 <= i < j < |at| :: at[i] < at[j]
    ensures forall i :: i in at <==> 0 <= i < n && now - us[i].sentAt >= k.controlRetryMs
    ensures forall i | 0 <= i < |at| :: at[i] < |us|
    ensures DueFrames(k, us, n, now) == FramesOf(us, at)
  {
    if n == 0 {
      at := [];
    } else {
      at := DueAt(k, us, n - 1, now);
      if now - us[n - 1].sentAt >= k.controlRetryMs {
        assert forall i | 0 <= i < |at| :: at[i] in at && at[i] < n - 1;
        var all := at + [n - 1];
        assert FramesOf(us, all) == FramesOf(us, at) + [Frame(us[n - 1].mid, us[n - 1].msg)];
        at := all;
      }
    }
  }

  /** A session closes on a stall exactly when the oldest message in flight and the last advancing ACK both lie more than the limit back. */
  lemma StallIff(k: LaneConstants, e: Endpoint, now: nat)
    requires e.state != Closed
    ensures var e' := StallCheck(k, e, now);
            && (e'.state == Closed <==> e.tx.unacked != [] && now - e.tx.unacked[0].at > k.channelStallMs && now - e.tx.lastAckProgressAt > k.channelStallMs)
            && (e'.state != Closed ==> e' == e) && (e'.state == Closed ==> e' == e.(state := Closed, tx := e.tx.(retryArmed := false)))
  {
  }

  // ---- receiving ----

  /** How far the buffer was handed over: in mid order, as far as it is contiguous or until the handler threw. */
  ghost predicate Handed(rx: Rx, throw: Throw, rx': Rx, n: nat)
  {
    && rx'.recvContigMid == rx.recvContigMid + n && rx.delivered <= rx'.delivered && |rx'.delivered| == |rx.delivered| + n
    && (forall mid | rx.recvContigMid < mid <= rx.recvContigMid + n ::
          mid in rx.recvBuffer && rx'.delivered[|rx.delivered| + mid - rx.recvContigMid - 1] == rx.recvBuffer[mid])
    && rx'.recvBuffer == (map mid | mid in rx.recvBuffer && !(rx.recvContigMid < mid <= rx.recvContigMid + n) :: rx.recvBuffer[mid])
    && rx'.violated == rx.violated
    && (if throw.Some? && n > throw.value then n == throw.value + 1 else rx.recvContigMid + n + 1 !in rx.recvBuffer)
  }

  lemma {:induction false} DrainBufferSays(rx: Rx, throw: Throw)
    ensures var (d, threw) := DrainBuffer(rx, throw);
            d.recvContigMid >= rx.recvContigMid && d.acks == rx.acks && Handed(rx, throw, d, d.recvContigMid - rx.recvContigMid)
            && (threw <==> throw.Some? && d.recvContigMid - rx.recvContigMid > throw.value)
    decreases |rx.recvBuffer|
  {
    hide Handed;
    var next := rx.recvContigMid + 1;
    if next in rx.recvBuffer {
      DropKeySize(rx.recvBuffer, next);
      var rx1, left := Deliver(rx), if throw.Some? && throw.value > 0 then Some(throw.value - 1) else None;
      if throw != Some(0) {
        DrainBufferSays(rx1, left);
        OneMoreHanded(rx, throw, DrainBuffer(rx1, left).0, DrainBuffer(rx1, left).0.recvContigMid - rx1.recvContigMid);
      } else {
        OneHanded(rx);
      }
    } else {
      NoneHanded(rx, throw);
    }
  }

  lemma NoneHanded(rx: Rx, throw: Throw)
    requires rx.recvContigMid + 1 !in rx.recvBuffer
    ensures Handed(rx, throw, rx, 0)
  {
  }

  lemma OneHanded(rx: Rx)
    requires rx.recvContigMid + 1 in rx.recvBuffer
    ensures Handed(rx, Some(0), Deliver(rx), 1)
  {
  }

  lemma OneMoreHanded(rx: Rx, throw: Throw, rx': Rx, n: nat)
    requires rx.recvContigMid + 1 in rx.recvBuffer && throw != Some(0)
    requires Handed(Deliver(rx), if throw.Some? then Some(throw.value - 1) else None, rx', n)
    ensures Handed(rx, throw, rx', n + 1)
  {
    var rx1 := Deliver(rx);
    assert rx1.delivered[|rx.delivered|] == rx.recvBuffer[rx.recvContigMid + 1] && rx'.delivered[|rx.delivered|] == rx1.delivered[|rx.delivered|];
    forall mid | rx1.recvContigMid < mid <= rx1.recvContigMid + n
      ensures mid in rx.recvBuffer && rx'.delivered[|rx.delivered| + mid - rx.recvContigMid - 1] == rx.recvBuffer[mid]
    {
      assert mid in rx1.recvBuffer;
    }
  }

  lemma DrainSays(rx: Rx, throw: Throw)
    ensures DrainedTo(rx, throw, Drain(rx, throw))
  {
    hide DrainBuffer;
    DrainBufferSays(rx, throw);
  }

  /**
    Any data frame: one at or below what was handed over is acknowledged again and nothing else; one past the credit window
    closes the session; any other is kept, and on a ready session what is contiguous is handed over and acknowledged,
    once, unless the handler threw.
  */
  lemma DataSays(k: LaneConstants, e: Endpoint, f: Frame, throw: Throw)
    requires e.state != Closed
    ensures var e', top := ReceiveData(k, e, f, throw), e.rx.recvContigMid;
            var kept := e.rx.(recvBuffer := e.rx.recvBuffer[f.mid := f.msg]);
            && (f.mid <= top ==> e' == e.(rx := e.rx.(acks := e.rx.acks + [top])))
            && (f.mid > top + k.inflightCredits ==> e' == e.(state := Closed, tx := e.tx.(retryArmed := false), rx := e.rx.(violated := true)))
            && (top < f.mid <= top + k.inflightCredits && e.state == Attached ==> e' == e.(rx := kept))
            && (top < f.mid <= top + k.inflightCredits && e.state == Ready ==> e'.state == e.state && e'.tx == e.tx && DrainedTo(kept, throw, e'.rx))
  {
    hide Drain, DrainedTo;
    DrainSays(e.rx.(recvBuffer := e.rx.recvBuffer[f.mid := f.msg]), throw);
  }

  ghost predicate DrainedTo(rx: Rx, throw: Throw, rx': Rx)
  {
    rx'.recvContigMid >= rx.recvContigMid && var n := rx'.recvContigMid - rx.recvContigMid;
    Handed(rx, throw, rx', n) && rx'.acks == if n > 0 && !(throw.Some? && n > throw.value) then rx.acks + [rx'.recvContigMid] else rx.acks
  }

  /** A session that becomes ready hands over what came in early. */
  lemma HelloSays(e: Endpoint, throw: Throw)
    ensures var e' := BecomeReady(e, throw);
            if e.state == Attached then e'.state == Ready && e'.tx == e.tx && DrainedTo(e.rx, throw, e'.rx) else e' == e
  {
    hide Drain, DrainedTo;
    DrainSays(e.rx, throw);
  }

  // ---- no message waits for nothing ----

  ghost predicate Waiting(k: LaneConstants, e: Endpoint) { e.state != Closed && e.tx.outQueue != [] ==> |e.tx.unacked| >= k.inflightCredits }

  lemma PumpWaits(k: LaneConstants, e: Endpoint, tx: Tx, now: nat)
    ensures Waiting(k, e.(tx := Pump(k, tx, now)))
  {
    hide Pump, WentOut;
    PumpSays(k, tx, now);
  }

  lemma StillWaits(k: LaneConstants, e: Endpoint, e': Endpoint)
    requires Waiting(k, e) && e'.tx.outQueue == e.tx.outQueue && |e'.tx.unacked| == |e.tx.unacked| && (e.state == Closed ==> e'.state == Closed)
    ensures Waiting(k, e')
  {
  }

  lemma WaitingStep(k: LaneConstants, e: Endpoint, ev: LinkEvent)
    requires Waiting(k, e)
    ensures Waiting(k, StepEndpoint(k, e, ev))
  {
    hide Pump, DrainBuffer, Acked, Waiting, DueFrames;
    match ev
    case SendMsg(_, now, m) => PumpWaits(k, e, Accept(e.tx, m), now);
    case ArriveAck(_, now, upTo) => PumpWaits(k, e, Retire(e.tx, now, upTo), now);
    case _ => StillWaits(k, e, StepEndpoint(k, e, ev));
  }

  /** In every reachable link, a message is in the queue of an open session only while all its credits are in flight. */
  lemma {:induction false} QueueWaitsForCredits(k: LaneConstants, l: Link, evs: seq<LinkEvent>, l': Link)
    requires Waiting(k, l.a) && Waiting(k, l.b) && Run(k, l, evs, l')
    ensures Waiting(k, l'.a) && Waiting(k, l'.b)
    decreases |evs|
  {
    hide Waiting, StepEndpoint;
    if evs != [] {
      WaitingStep(k, l.a, evs[0]);
      WaitingStep(k, l.b, evs[0]);
      QueueWaitsForCredits(k, Step(k, l, evs[0]), evs[1..], l');
    }
  }
}
