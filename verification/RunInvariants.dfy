/** What holds in every reachable state of the atomic system: flow control, congestion state, wake-up. */
module RunInvariants {
  import opened Global
  import opened Segmentation
  import opened SenderCore
  import opened Atomic
  import Reassembly
  import Congestion
  import H = CongestionHistory
  import RttEstimator
  import I = Interleaved

  // ----- flow control -----

  predicate EndsInWindow(w: World, p: Packet) {
    p.Data? && p.payload != [] ==> p.q + |p.payload| <= w.snd.base + MAX_RWINDOW_SIZE
  }

  predicate NetInWindow(w: World) { forall p <- w.net :: EndsInWindow(w, p) }

  predicate FlowOk(w: World) {
    && Unacked(w.snd) <= MAX_RWINDOW_SIZE
    && w.snd.cong.rwnd <= MAX_RWINDOW_SIZE
    && Congestion.Inv(w.snd.cong)
    && w.snd.ackCnt <= CLEAN_THRESHOLD
    && NetInWindow(w)
  }

  lemma WindowsStay(w: World, w': World)
    requires NetInWindow(w) && w.snd.base <= w'.snd.base
    ensures forall p <- w.net :: EndsInWindow(w', p)
  {
    forall p | p in w.net
      ensures EndsInWindow(w', p)
    {
      assert EndsInWindow(w, p);
    }
  }

  lemma SegmentsEnd(w': World, slice: seq<byte>, q: nat)
    requires q + |slice| <= w'.snd.base + MAX_RWINDOW_SIZE
    ensures forall p <- Segments(slice, q) :: EndsInWindow(w', p)
  {
    SegmentsConcat(slice, q);
  }

  lemma FlowFirstSend(w: World)
    requires I.Safe(w) && FlowOk(w) && Enabled(w, FirstSend)
    ensures FlowOk(Do(w, FirstSend))
  {
    var w' := Do(w, FirstSend);
    var snap := TakeSnap(w.snd);
    BurstFrame(w.snd, snap);
    WindowsStay(w, w');
    SegmentsEnd(w', w.snd.buf[w.snd.have..BurstEnd(w.snd, snap)], snap.nextseq);
  }

  lemma FlowRetrans(w: World)
    requires I.Safe(w) && FlowOk(w) && Enabled(w, Retrans)
    ensures FlowOk(Do(w, Retrans))
  {
    var w' := Do(w, Retrans);
    RetransFrame(w.snd, PassOf(w.snd));
    WindowsStay(w, w');
    Congestion.InvKept(w.snd.cong, Congestion.Timeout);
    if BeginsPass(w.snd) {
      assert w'.snd.cong == PassBegin(w.snd).cong;
      SegmentsEnd(w', w.snd.buf[w.snd.ackCnt..w.snd.have], w.snd.base);
    } else {
      assert w'.snd.cong == w.snd.cong;
    }
  }

  lemma AckCong(s: Snd, ack: nat, adv: nat, sample: nat)
    requires CanHandle(s, ack)
    ensures HandleAck(s, ack, adv, sample).cong == Congestion.Apply(s.cong, AckEvent(s, ack, adv))
  {
    if ack <= s.base {
      ZeroWindowFrame(OtherAck(s, ack, adv));
    } else {
      NewAckFrame(s, ack, adv, sample);
      var s1 := NewAckSlide(s, ack, adv, sample);
      ZeroWindowFrame(if NeedsCompaction(s1) then Compact(s1) else s1);
    }
  }

  lemma FlowAck(s: Snd, ack: nat, adv: nat, sample: nat)
    requires Coupled(s) && ack <= s.nextseq && adv <= MAX_RWINDOW_SIZE
    requires Unacked(s) <= MAX_RWINDOW_SIZE && Congestion.Inv(s.cong) && s.ackCnt <= CLEAN_THRESHOLD
    ensures var t := HandleAck(s, ack, adv, sample);
            && Unacked(t) <= MAX_RWINDOW_SIZE && Congestion.Inv(t.cong) && t.ackCnt <= CLEAN_THRESHOLD
            && t.cong.rwnd == adv && s.base <= t.base
  {
    HandleAckFrame(s, ack, adv, sample);
    AckCong(s, ack, adv, sample);
    Congestion.InvKept(s.cong, AckEvent(s, ack, adv));
  }

  lemma FlowGotAck(w: World, op: Op)
    requires I.Safe(w) && Quiet(w) && FlowOk(w) && Enabled(w, op) && op.GotAck?
    ensures FlowOk(Do(w, op))
  {
    assert I.PacketOk(w, Ack(op.ack, op.adv));
    FlowAck(w.snd, op.ack, op.adv, op.sample);
    WindowsStay(w, Do(w, op));
  }

  lemma FlowStep(w: World, op: Op)
    requires I.Safe(w) && Quiet(w) && FlowOk(w) && Enabled(w, op)
    ensures FlowOk(Do(w, op))
  {
    WindowsStay(w, w);
    match op
    case FirstSend => FlowFirstSend(w);
    case Retrans => FlowRetrans(w);
    case GotAck(_, _, _) => FlowGotAck(w, op);
    case Send(_) => WindowsStay(w, Do(w, op));
    case Fires => WindowsStay(w, Do(w, op));
    case GotData(_, _) => WindowsStay(w, Do(w, op));
    case Recv(_) => WindowsStay(w, Do(w, op));
  }

  predicate Good(w: World) { I.Safe(w) && Quiet(w) && FlowOk(w) }

  lemma GoodStep(w: World, op: Op)
    requires Good(w) && Enabled(w, op)
    ensures Good(Do(w, op))
  {
    SafeDo(w, op);
    FlowStep(w, op);
  }

  lemma {:induction false} GoodRun(w: World, ops: seq<Op>)
    requires Good(w) && Legal(w, ops)
    ensures Good(Exec(w, ops))
    decreases |ops|
  {
    if |ops| > 0 {
      GoodStep(w, ops[0]);
      GoodRun(Do(w, ops[0]), ops[1..]);
    }
  }

  lemma GoodInitially()
    ensures Good(I.INITIAL)
  {
  }

  /** In every run at most 44000 bytes are unacknowledged, the acknowledged prefix is at most four fifths of
      the buffer, the window is min(cwnd, rwnd), and every data segment in the network ends at or before
      expected + 44000; the receiver refuses one for lack of window exactly when it ends there. */
  lemma FlowControl(ops: seq<Op>, q: nat, payload: seq<byte>)
    requires Legal(I.INITIAL, ops)
    ensures var w := Exec(I.INITIAL, ops);
            && Unacked(w.snd) <= MAX_RWINDOW_SIZE && w.snd.ackCnt <= CLEAN_THRESHOLD
            && w.snd.cong.wnd == Min(w.snd.cong.cwnd, w.snd.cong.rwnd)
            && (Data(q, payload) in w.net && payload != [] ==>
                  && q + |payload| <= w.rcv.expected + MAX_RWINDOW_SIZE
                  && (!Reassembly.FitsWindow(w.rcv, q, |payload|) <==>
                      q + |payload| == w.rcv.expected + MAX_RWINDOW_SIZE))
  {
    GoodInitially();
    GoodRun(I.INITIAL, ops);
    var w := Exec(I.INITIAL, ops);
    if Data(q, payload) in w.net {
      assert EndsInWindow(w, Data(q, payload));
    }
  }

  // ----- the congestion machine of a run is a run of the congestion machine -----

  function OpEvents(w: World, op: Op): seq<Congestion.Event>
    requires Enabled(w, op)
  {
    match op
    case GotAck(ack, adv, _) => [AckEvent(w.snd, ack, adv)]
    case Retrans => if BeginsPass(w.snd) && w.snd.ctl.timeoutFlag then [Congestion.Timeout] else []
    case _ => []
  }

  function Events(w: World, ops: seq<Op>): seq<Congestion.Event>
    requires Legal(w, ops)
    decreases |ops|
  {
    if |ops| == 0 then [] else OpEvents(w, ops[0]) + Events(Do(w, ops[0]), ops[1..])
  }

  lemma OpCong(w: World, op: Op)
    requires Enabled(w, op)
    ensures Do(w, op).snd.cong == Congestion.Run(w.snd.cong, OpEvents(w, op))
  {
    match op
    case GotAck(ack, adv, sample) => AckCong(w.snd, ack, adv, sample);
    case FirstSend => BurstFrame(w.snd, TakeSnap(w.snd));
    case _ =>
  }

  /** So every law of module Congestion (slow start, one fast retransmit per advance, reopening) holds of every run. */
  lemma {:induction false} CongestionTrace(w: World, ops: seq<Op>)
    requires Legal(w, ops)
    ensures Exec(w, ops).snd.cong == Congestion.Run(w.snd.cong, Events(w, ops))
    decreases |ops|
  {
    if |ops| > 0 {
      OpCong(w, ops[0]);
      CongestionTrace(Do(w, ops[0]), ops[1..]);
      Congestion.RunAppend(w.snd.cong, OpEvents(w, ops[0]), Events(Do(w, ops[0]), ops[1..]));
    }
  }

  /** The whole congestion state of a run is the closed form of its ACKs, its timeouts and the windows just before
      losses. */
  lemma CongestionInRuns(ops: seq<Op>)
    requires Legal(I.INITIAL, ops)
    ensures var es := Events(I.INITIAL, ops);
            H.FormHolds(es) && Exec(I.INITIAL, ops).snd.cong == Congestion.Run(Congestion.INITIAL, es)
  {
    CongestionTrace(I.INITIAL, ops);
    H.ClosedForm(Events(I.INITIAL, ops));
  }

  /** In slow start the window is one segment doubled once per new ACK since the start or the last timeout taken. */
  lemma SlowStartInRuns(ops: seq<Op>)
    requires Legal(I.INITIAL, ops)
    ensures var c := Exec(I.INITIAL, ops).snd.cong; var k := Congestion.Fresh(Events(I.INITIAL, ops));
            c.status == Congestion.SlowStart ==> c.cwnd == MAX_DLEN * Pow2(k) && (k > 0 ==> c.cwnd < c.ssthresh)
  {
    CongestionTrace(I.INITIAL, ops);
    Congestion.SlowStartLaw(Events(I.INITIAL, ops));
  }

  /** After any run, any stretch of steps in which no ACK advances the window starts at most one fast retransmit. */
  lemma FastRetransmitOnceInRuns(before: seq<Op>, stretch: seq<Op>)
    requires Legal(I.INITIAL, before) && Legal(Exec(I.INITIAL, before), stretch)
    requires forall e <- Events(Exec(I.INITIAL, before), stretch) :: !e.NewAck?
    ensures var w := Exec(I.INITIAL, before); Congestion.Firings(w.snd.cong, Events(w, stretch)) <= 1
  {
    CongestionTrace(I.INITIAL, before);
    Congestion.FastRetransmitOnce(Events(I.INITIAL, before), Events(Exec(I.INITIAL, before), stretch));
  }

  /** ACKs equal to base, with these windows. */
  function Duplicates(base: nat, advs: seq<nat>): seq<Op>
    decreases |advs|
  {
    if |advs| == 0 then [] else [GotAck(base, advs[0], 0)] + Duplicates(base, advs[1..])
  }

  lemma {:induction false} DuplicatesRun(w: World, advs: seq<nat>)
    requires Legal(w, Duplicates(w.snd.base, advs))
    ensures Exec(w, Duplicates(w.snd.base, advs)).snd.cong == Congestion.Dups(w.snd.cong, advs)
    decreases |advs|
  {
    if |advs| > 0 {
      var d := Duplicates(w.snd.base, advs);
      assert d[1..] == Duplicates(w.snd.base, advs[1..]);
      AckCong(w.snd, w.snd.base, advs[0], 0);
      HandleAckFrame(w.snd, w.snd.base, advs[0], 0);
      DuplicatesRun(Do(w, d[0]), advs[1..]);
    }
  }

  /** In every reachable state a window closed with the peer's open reopens after exactly Needed, at most four,
      consecutive ACKs equal to base that carry a positive window. */
  lemma ClosedWindowReopens(ops: seq<Op>, advs: seq<nat>)
    requires Legal(I.INITIAL, ops)
    requires var w := Exec(I.INITIAL, ops);
             w.snd.cong.wnd == 0 && w.snd.cong.rwnd > 0 && Legal(w, Duplicates(w.snd.base, advs))
    requires |advs| <= 4 && forall i :: 0 <= i < |advs| ==> advs[i] > 0
    ensures var w := Exec(I.INITIAL, ops);
            && Congestion.Inv(w.snd.cong) && w.snd.cong.status != Congestion.SlowStart
            && 1 <= Congestion.Needed(w.snd.cong) <= 4
            && (|advs| == Congestion.Needed(w.snd.cong) ==> Exec(w, Duplicates(w.snd.base, advs)).snd.cong.wnd > 0)
            && (|advs| < Congestion.Needed(w.snd.cong) ==> Exec(w, Duplicates(w.snd.base, advs)).snd.cong.wnd == 0)
  {
    GoodInitially();
    GoodRun(I.INITIAL, ops);
    var w := Exec(I.INITIAL, ops);
    DuplicatesRun(w, advs);
    Congestion.Reopens(w.snd.cong, advs);
  }

  // ----- no lost wake-up -----

  predicate WakeOk(s: Snd) {
    && (Unacked(s) > 0 ==> s.ctl.armed || s.ctl.retrans)
    && (s.ctl.isRetransing ==> Unacked(s) > 0 || s.ctl.retrans)
    && (s.cong.wnd == 0 ==> !s.ctl.isRetransing && (s.ctl.armed || s.ctl.retrans))
  }

  /** Every setitimer call of the step that must leave the timer running does: each of these starts it, and
      where the ACK is of everything sent it has been stopped just before. */
  predicate Rearms(s: Snd, op: Op) {
    match op
    case FirstSend => s.base == s.nextseq ==> Starts(s)
    case Retrans => (if BeginsPass(s) then s.ackCnt < s.have else s.cong.wnd == 0) ==> Starts(s)
    case GotAck(ack, adv, sample) =>
      var t, closed := TakeSample(s, ack, sample), Congestion.Apply(s.cong, AckEvent(s, ack, adv)).wnd == 0;
      if ack <= s.base then closed ==> Starts(s)
      else if ack < s.nextseq then Starts(t)
      else closed ==> RttEstimator.Arms(t.rtt)
    case _ => true
  }

  lemma WakeOtherAck(s: Snd, ack: nat, adv: nat)
    requires ack <= s.base && WakeOk(s)
    ensures WakeOk(ZeroWindow(OtherAck(s, ack, adv))) <==> Rearms(s, GotAck(ack, adv, 0))
  {
    OtherAckFrame(s, ack, adv);
  }

  lemma WakeNewAck(s: Snd, ack: nat, adv: nat, sample: nat)
    requires Coupled(s) && s.base < ack <= s.nextseq && WakeOk(s)
    ensures WakeOk(HandleAck(s, ack, adv, sample)) <==> Rearms(s, GotAck(ack, adv, sample))
  {
    var t := HandleAck(s, ack, adv, sample);
    HandleAckFrame(s, ack, adv, sample);
    AckCong(s, ack, adv, sample);
    HandleAckFlags(s, ack, adv, sample);
    NewAckFlags(s, ack, adv, sample);
    assert Unacked(t) == s.nextseq - ack;
    assert WakeOk(t) <==> if ack < s.nextseq || t.cong.wnd == 0 then t.ctl.armed || t.ctl.retrans else true;
  }

  lemma WakeRetrans(s: Snd)
    requires Coupled(s) && WakeOk(s) && Congestion.Inv(s.cong)
    ensures WakeOk(if BeginsPass(s) then WholePass(s) else RetransIdle(s)) <==> Rearms(s, Retrans)
  {
  }

  lemma WakeGotAck(w: World, op: Op)
    requires Good(w) && Enabled(w, op) && op.GotAck? && WakeOk(w.snd)
    ensures WakeOk(Do(w, op).snd) <==> Rearms(w.snd, op)
  {
    assert I.PacketOk(w, Ack(op.ack, op.adv));
    if op.ack <= w.snd.base {
      WakeOtherAck(w.snd, op.ack, op.adv);
    } else {
      WakeNewAck(w.snd, op.ack, op.adv, op.sample);
    }
  }

  /** A step keeps it iff its timer starts succeed. */
  lemma WakeStep(w: World, op: Op)
    requires Good(w) && Enabled(w, op) && WakeOk(w.snd)
    ensures WakeOk(Do(w, op).snd) <==> Rearms(w.snd, op)
  {
    match op
    case GotAck(_, _, _) => WakeGotAck(w, op);
    case Retrans => WakeRetrans(w.snd);
    case FirstSend => BurstFrame(w.snd, TakeSnap(w.snd));
    case _ =>
  }

  predicate AlwaysWake(w: World, ops: seq<Op>)
    requires Legal(w, ops)
    decreases |ops|
  {
    WakeOk(w.snd) && (|ops| == 0 || AlwaysWake(Do(w, ops[0]), ops[1..]))
  }

  predicate AlwaysRearms(w: World, ops: seq<Op>)
    requires Legal(w, ops)
    decreases |ops|
  {
    |ops| == 0 || (Rearms(w.snd, ops[0]) && AlwaysRearms(Do(w, ops[0]), ops[1..]))
  }

  lemma {:induction false} WakeRun(w: World, ops: seq<Op>)
    requires Good(w) && WakeOk(w.snd) && Legal(w, ops)
    ensures AlwaysWake(w, ops) <==> AlwaysRearms(w, ops)
    ensures AlwaysRearms(w, ops) ==> WakeOk(Exec(w, ops).snd)
    decreases |ops|
  {
    if |ops| > 0 {
      GoodStep(w, ops[0]);
      WakeStep(w, ops[0]);
      if WakeOk(Do(w, ops[0]).snd) {
        WakeRun(Do(w, ops[0]), ops[1..]);
      }
    }
  }

  /** Unacknowledged bytes have a timer or a raised RETRANS behind them, is_retransing never blocks the sending thread
      for nothing, and a closed window is being probed: in every state of a run iff no timer start of the run meets
      a refused interval with the timer idle (or an interval of zero). */
  lemma NoLostWakeup(ops: seq<Op>)
    requires Legal(I.INITIAL, ops)
    ensures AlwaysWake(I.INITIAL, ops) <==> AlwaysRearms(I.INITIAL, ops)
  {
    GoodInitially();
    WakeRun(I.INITIAL, ops);
  }

  /** Every interval handed to setitimer during the run is one it accepts. */
  predicate AlwaysArms(w: World, ops: seq<Op>)
    requires Legal(w, ops)
    decreases |ops|
  {
    RttEstimator.Arms(w.snd.rtt) && (|ops| == 0 || AlwaysArms(Do(w, ops[0]), ops[1..]))
  }

  lemma ArmsRearms(w: World, op: Op)
    requires Enabled(w, op) && RttEstimator.Arms(w.snd.rtt) && RttEstimator.Arms(Do(w, op).snd.rtt)
    ensures Rearms(w.snd, op)
  {
    if op.GotAck? && op.ack > w.snd.base {
      var s1 := NewAckSlide(w.snd, op.ack, op.adv, op.sample);
      ZeroWindowFrame(if NeedsCompaction(s1) then Compact(s1) else s1);
      NewAckFlags(w.snd, op.ack, op.adv, op.sample);
    }
  }

  lemma {:induction false} ArmsRearmsRun(w: World, ops: seq<Op>)
    requires Legal(w, ops) && AlwaysArms(w, ops)
    ensures AlwaysRearms(w, ops)
    decreases |ops|
  {
    if |ops| > 0 {
      ArmsRearms(w, ops[0]);
      ArmsRearmsRun(Do(w, ops[0]), ops[1..]);
    }
  }

  // ----- which samples keep the timer armable -----

  predicate SamplesIn(ops: seq<Op>, lo: nat, hi: nat) {
    forall op <- ops :: op.GotAck? ==> lo <= op.sample <= hi
  }

  predicate RttIn(r: RttEstimator.Rtt, lo: nat, hi: nat) {
    RttEstimator.Within(r, lo, hi) && (r == RttEstimator.INITIAL || lo <= r.rto <= hi + 4 * (hi - lo))
  }

  lemma OpRtt(w: World, op: Op, lo: nat, hi: nat)
    requires Enabled(w, op) && RttIn(w.snd.rtt, lo, hi) && SamplesIn([op], lo, hi)
    ensures RttIn(Do(w, op).snd.rtt, lo, hi)
  {
    match op
    case FirstSend => BurstFrame(w.snd, TakeSnap(w.snd));
    case GotAck(ack, adv, sample) =>
      assert op in [op];
      RttEstimator.UpdateWithin(w.snd.rtt, sample, lo, hi);
      if ack <= w.snd.base {
        OtherAckFrame(w.snd, ack, adv);
        ZeroWindowFrame(OtherAck(w.snd, ack, adv));
      } else {
        var s1 := NewAckSlide(w.snd, ack, adv, sample);
        assert s1.rtt == w.snd.rtt || s1.rtt == RttEstimator.Update(w.snd.rtt, sample);
        ZeroWindowFrame(if NeedsCompaction(s1) then Compact(s1) else s1);
      }
    case _ =>
  }

  lemma {:induction false} SamplesArm(w: World, ops: seq<Op>, lo: nat, hi: nat)
    requires Legal(w, ops) && RttIn(w.snd.rtt, lo, hi) && SamplesIn(ops, lo, hi)
    requires 1 <= lo && hi + 4 * (hi - lo) <= MAX_USEC
    ensures AlwaysArms(w, ops)
    decreases |ops|
  {
    if |ops| > 0 {
      assert ops[0] in ops;
      OpRtt(w, ops[0], lo, hi);
      SamplesArm(Do(w, ops[0]), ops[1..], lo, hi);
    }
  }

  /** With round trips between lo and hi around 200 ms and hi + 4(hi - lo) below a second, no wake-up is ever lost. */
  lemma NoLostWakeupBounded(ops: seq<Op>, lo: nat, hi: nat)
    requires Legal(I.INITIAL, ops) && SamplesIn(ops, lo, hi)
    requires 1 <= lo <= TCP_RTO_MIN <= hi && hi + 4 * (hi - lo) <= MAX_USEC
    ensures AlwaysWake(I.INITIAL, ops)
  {
    SamplesArm(I.INITIAL, ops, lo, hi);
    ArmsRearmsRun(I.INITIAL, ops);
    NoLostWakeup(ops);
  }
}
