/** What each atomic operation does to the sender, in terms of the stream and its sequence numbers. */
module SendingLaws {
  import opened Global
  import opened Segmentation
  import opened SenderCore
  import opened Atomic
  import opened RunInvariants
  import Congestion
  import I = Interleaved

  // ----- which bytes go out -----

  /** The sending thread sends iff it is not held back, the window has room and there are bytes it has not sent. */
  lemma SendsIff(w: World)
    requires Good(w)
    ensures Enabled(w, FirstSend) <==>
              !w.snd.ctl.isRetransing && Unacked(w.snd) < w.snd.cong.wnd && w.snd.nextseq - 1 < |w.stream|
  {
  }

  /** The bytes of the stream numbered from q up to q'. */
  function Numbered(stream: seq<byte>, q: nat, q': nat): seq<byte>
    requires 1 <= q <= q' <= |stream| + 1
  {
    stream[q - 1..q' - 1]
  }

  lemma SliceNumbered(w: World, lo: nat, hi: nat)
    requires Good(w) && lo <= hi <= |w.snd.buf|
    ensures var d := I.Dropped(w.snd);
            d + hi <= |w.stream| && w.snd.buf[lo..hi] == Numbered(w.stream, d + 1 + lo, d + 1 + hi)
  {
    I.SliceNamed(w, lo, hi);
  }

  /** How far a burst gets: to the end of the window or of the stream. */
  lemma BurstCounts(w: World)
    requires Good(w) && Enabled(w, FirstSend)
    ensures var v, end := Do(w, FirstSend).snd, SendingOf(w.snd, TakeSnap(w.snd)).end;
            && v.base == w.snd.base && Unacked(v) == Min(|w.stream| - (w.snd.base - 1), w.snd.cong.wnd)
            && w.snd.have < end <= |w.snd.buf| && v.nextseq == w.snd.nextseq + (end - w.snd.have)
            && v.nextseq <= |w.stream| + 1 && w.snd.nextseq == I.Dropped(w.snd) + 1 + w.snd.have
  {
    BurstFrame(w.snd, TakeSnap(w.snd));
    assert |w.snd.buf| == |w.stream| - I.Dropped(w.snd);
  }

  /** A slice of the buffer cut into segments carries its stream bytes. */
  lemma SegmentsNumbered(w: World, lo: nat, hi: nat, q: nat)
    requires Good(w) && lo <= hi <= |w.snd.buf| && q == I.Dropped(w.snd) + 1 + lo
    ensures var out := Segments(w.snd.buf[lo..hi], q);
            q + (hi - lo) <= |w.stream| + 1 && AllData(out) && Payloads(out) == Numbered(w.stream, q, q + (hi - lo))
  {
    SegmentsConcat(w.snd.buf[lo..hi], q);
    SliceNumbered(w, lo, hi);
  }

  /** Then it fills the window, or sends all there is: the packets carry exactly the next bytes of the stream. */
  lemma BurstFills(w: World)
    requires Good(w) && Enabled(w, FirstSend)
    ensures var v, out := Do(w, FirstSend), BurstPackets(w.snd, TakeSnap(w.snd));
            && v.snd.base == w.snd.base && Unacked(v.snd) == Min(|w.stream| - (w.snd.base - 1), w.snd.cong.wnd)
            && v.net == w.net + I.PacketSet(out) && AllData(out)
            && w.snd.nextseq < v.snd.nextseq <= |w.stream| + 1
            && Payloads(out) == Numbered(w.stream, w.snd.nextseq, v.snd.nextseq)
  {
    BurstCounts(w);
    SegmentsNumbered(w, w.snd.have, SendingOf(w.snd, TakeSnap(w.snd)).end, w.snd.nextseq);
  }

  /** A pass sends again exactly the bytes that have been sent and not acknowledged. */
  lemma PassResends(w: World)
    requires Good(w) && Enabled(w, Retrans) && BeginsPass(w.snd)
    ensures var v, out := Do(w, Retrans), WholePassPackets(w.snd);
            && v.net == w.net + I.PacketSet(out) && AllData(out) && SamePlace(w.snd, v.snd)
            && w.snd.nextseq <= |w.stream| + 1 && Payloads(out) == Numbered(w.stream, w.snd.base, w.snd.nextseq)
  {
    RetransFrame(w.snd, PassOf(w.snd));
    SegmentsNumbered(w, w.snd.ackCnt, w.snd.have, w.snd.base);
  }

  /** Outside a pass retrans_thread probes a closed window with an empty segment below base, and else sends nothing. */
  lemma IdleSends(w: World)
    requires Good(w) && Enabled(w, Retrans) && !BeginsPass(w.snd)
    ensures var v := Do(w, Retrans);
            SamePlace(w.snd, v.snd) && v.snd.cong == w.snd.cong
            && v.net == if w.snd.cong.wnd == 0 then w.net + {Data(w.snd.base - 1, [])} else w.net
  {
  }

  // ----- what happens to the flags -----

  /** A timer start leaves this running. */
  predicate Runs(rto: nat, armed: bool) { if rto > MAX_USEC then armed else rto > 0 }

  /** All four flags after a timer start. */
  function AfterStart(isRetransing: bool, rto: nat, armed: bool): Ctl {
    Ctl(isRetransing, false, false, Runs(rto, armed))
  }

  lemma BurstFlags(w: World)
    requires Good(w) && Enabled(w, FirstSend)
    ensures var c := w.snd.ctl;
            Do(w, FirstSend).snd.ctl == if Unacked(w.snd) == 0 then AfterStart(true, w.snd.rtt.rto, c.armed) else c
  {
  }

  lemma RetransFlags(w: World)
    requires Good(w) && Enabled(w, Retrans)
    ensures var s, c, d := w.snd, w.snd.ctl, Do(w, Retrans).snd.ctl;
            if s.cong.wnd == 0 then d == AfterStart(c.isRetransing, s.rtt.rto, c.armed)
            else if c.isRetransing then
              d == (if Unacked(s) > 0 then AfterStart(false, s.rtt.rto, c.armed)
                    else Ctl(false, false, c.timeoutFlag, c.armed))
            else d == Ctl(Unacked(s) > 0, Unacked(s) > 0, c.timeoutFlag, c.armed)
  {
  }

  /** An ACK of everything stops the timer, another new ACK restarts it, a third duplicate asks for a pass, and a window
      found closed afterwards starts the probe timer. */
  lemma AckFlags(w: World, ack: nat, adv: nat, sample: nat)
    requires Good(w) && Enabled(w, GotAck(ack, adv, sample))
    ensures var s, c, v := w.snd, w.snd.ctl, Do(w, GotAck(ack, adv, sample)).snd;
            var third := ack == s.base && s.cong.status != Congestion.FastRecovery && s.cong.dups == 2;
            var first := if ack < s.base then c
                         else if ack == s.base then (if third then Ctl(true, true, c.timeoutFlag, c.armed) else c)
                         else if ack == s.nextseq then Ctl(false, c.retrans, c.timeoutFlag, false)
                         else AfterStart(true, v.rtt.rto, c.armed);
            v.ctl == if v.cong.wnd == 0 then AfterStart(false, v.rtt.rto, first.armed) else first
  {
    assert I.PacketOk(w, Ack(ack, adv));
    if ack <= w.snd.base {
      OtherAckFrame(w.snd, ack, adv);
      OtherAckFlags(w.snd, ack, adv);
      ZeroWindowFrame(OtherAck(w.snd, ack, adv));
    } else {
      HandleAckFlags(w.snd, ack, adv, sample);
      NewAckFlags(w.snd, ack, adv, sample);
    }
  }

  /** Nothing else touches them but the expiry. */
  lemma OtherFlags(w: World, op: Op)
    requires Enabled(w, op) && (op.Send? || op.Fires? || op.GotData? || op.Recv?)
    ensures var c := w.snd.ctl;
            Do(w, op).snd.ctl == if op.Fires? then Ctl(c.isRetransing, true, true, false) else c
  {
  }

  // ----- over runs -----

  /** What lets the sending thread go on: a pass, an ACK of everything, or a closed window. */
  predicate Releases(w: World, op: Op)
    requires Enabled(w, op)
  {
    || (op.Retrans? && BeginsPass(w.snd))
    || (op.GotAck? && (w.snd.base < op.ack == w.snd.nextseq || Do(w, op).snd.cong.wnd == 0))
  }

  lemma HeldStep(w: World, op: Op)
    requires Good(w) && Enabled(w, op) && w.snd.ctl.isRetransing
    ensures !op.FirstSend? && (Do(w, op).snd.ctl.isRetransing <==> !Releases(w, op))
  {
    match op
    case Retrans => RetransFlags(w);
    case GotAck(ack, adv, sample) =>
      assert I.PacketOk(w, Ack(ack, adv));
      AckFlags(w, ack, adv, sample);
    case FirstSend =>
    case _ => OtherFlags(w, op);
  }

  predicate NoRelease(w: World, ops: seq<Op>)
    requires Legal(w, ops)
    decreases |ops|
  {
    |ops| == 0 || (!Releases(w, ops[0]) && NoRelease(Do(w, ops[0]), ops[1..]))
  }

  /** Once the first segment of a window is out, no other burst follows until something lets the thread go on. */
  lemma {:induction false} HeldBack(w: World, ops: seq<Op>)
    requires Good(w) && w.snd.ctl.isRetransing && Legal(w, ops) && NoRelease(w, ops)
    ensures FirstSend !in ops && Exec(w, ops).snd.ctl.isRetransing
    decreases |ops|
  {
    if |ops| > 0 {
      HeldStep(w, ops[0]);
      GoodStep(w, ops[0]);
      HeldBack(Do(w, ops[0]), ops[1..]);
      assert ops == [ops[0]] + ops[1..];
    }
  }

  lemma HeldBackInRuns(before: seq<Op>, ops: seq<Op>)
    requires Legal(I.INITIAL, before) && Legal(Exec(I.INITIAL, before), [FirstSend] + ops)
    requires Unacked(Exec(I.INITIAL, before).snd) == 0
    requires NoRelease(Do(Exec(I.INITIAL, before), FirstSend), ([FirstSend] + ops)[1..])
    ensures FirstSend !in ops
  {
    GoodInitially();
    GoodRun(I.INITIAL, before);
    var w := Exec(I.INITIAL, before);
    BurstFlags(w);
    GoodStep(w, FirstSend);
    assert ([FirstSend] + ops)[1..] == ops;
    HeldBack(Do(w, FirstSend), ops);
  }

  /** The operations that start the timer. */
  predicate StartsTimer(w: World, op: Op)
    requires Enabled(w, op)
  {
    match op
    case FirstSend => Unacked(w.snd) == 0
    case Retrans => if w.snd.cong.wnd == 0 then true else w.snd.ctl.isRetransing && Unacked(w.snd) > 0
    case GotAck(ack, adv, _) => w.snd.base < ack < w.snd.nextseq || Do(w, op).snd.cong.wnd == 0
    case _ => false
  }

  lemma TimeoutFlagStep(w: World, op: Op)
    requires Good(w) && Enabled(w, op)
    ensures Do(w, op).snd.ctl.timeoutFlag <==> op.Fires? || (w.snd.ctl.timeoutFlag && !StartsTimer(w, op))
  {
    match op
    case FirstSend => BurstFlags(w);
    case Retrans => RetransFlags(w);
    case GotAck(ack, adv, sample) =>
      assert I.PacketOk(w, Ack(ack, adv));
      AckFlags(w, ack, adv, sample);
    case _ => OtherFlags(w, op);
  }

  /** The timer has expired and has not been started since. */
  predicate ExpiredLast(w: World, ops: seq<Op>, was: bool)
    requires Legal(w, ops)
    decreases |ops|
  {
    if |ops| == 0 then was
    else ExpiredLast(Do(w, ops[0]), ops[1..], ops[0].Fires? || (was && !StartsTimer(w, ops[0])))
  }

  lemma {:induction false} TimeoutFlagRun(w: World, ops: seq<Op>)
    requires Good(w) && Legal(w, ops)
    ensures Exec(w, ops).snd.ctl.timeoutFlag <==> ExpiredLast(w, ops, w.snd.ctl.timeoutFlag)
    decreases |ops|
  {
    if |ops| > 0 {
      TimeoutFlagStep(w, ops[0]);
      GoodStep(w, ops[0]);
      TimeoutFlagRun(Do(w, ops[0]), ops[1..]);
    }
  }

  /** A pass cuts the window, to one segment with the threshold at half of what the window was, iff the timer has
      expired and not been started since; else it leaves the congestion state alone. */
  lemma PassCutsIffExpired(ops: seq<Op>)
    requires Legal(I.INITIAL, ops) && Enabled(Exec(I.INITIAL, ops), Retrans) && BeginsPass(Exec(I.INITIAL, ops).snd)
    ensures var c, d := Exec(I.INITIAL, ops).snd.cong, Do(Exec(I.INITIAL, ops), Retrans).snd.cong;
            if ExpiredLast(I.INITIAL, ops, false)
            then d == c.(status := Congestion.SlowStart, cwnd := MAX_DLEN, ssthresh := c.cwnd / 2,
                         wnd := Min(MAX_DLEN, c.rwnd))
            else d == c
  {
    GoodInitially();
    GoodRun(I.INITIAL, ops);
    TimeoutFlagRun(I.INITIAL, ops);
  }
}
