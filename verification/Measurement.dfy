/** Round-trip measurement over runs: what is waited for, and which samples reach the estimator. */
module Measurement {
  import opened Global
  import opened Segmentation
  import opened SenderCore
  import opened Atomic
  import opened RunInvariants
  import P = Progress
  import Arrival
  import Reassembly
  import RttEstimator
  import I = Interleaved

  /** p is a data segment that ends just before number n. */
  predicate Ends(p: Packet, n: nat) { p.Data? && p.payload != [] && p.q + |p.payload| == n }

  /** What is waited for is the end of a segment that has been sent and not yet acknowledged. */
  predicate MeasureOk(w: World) {
    w.snd.measuring ==> w.snd.base < w.snd.expectAck <= w.snd.nextseq && exists p <- w.net :: Ends(p, w.snd.expectAck)
  }

  lemma MeasureAck(s: Snd, ack: nat, adv: nat, sample: nat)
    requires CanHandle(s, ack)
    ensures var t := HandleAck(s, ack, adv, sample);
            if ack <= s.base then t.measuring == s.measuring && t.expectAck == s.expectAck else !t.measuring
  {
    if ack <= s.base {
      var o := OtherAck(s, ack, adv);
      assert o.measuring == s.measuring && o.expectAck == s.expectAck;
      ZeroWindowFrame(o);
    } else {
      assert !NewAckSlide(s, ack, adv, sample).measuring;
    }
  }

  /** The first segment of a burst is in the network, and ends where the measurement that begins with it looks. */
  lemma MeasureFirstSend(w: World)
    requires Coupled(w.snd) && Enabled(w, FirstSend) && MeasureOk(w)
    ensures var v := Do(w, FirstSend); var d := Min(v.snd.nextseq - w.snd.nextseq, MAX_DLEN);
            && MeasureOk(v) && v.snd.measuring && d >= 1
            && v.snd.expectAck == (if w.snd.measuring then w.snd.expectAck else w.snd.nextseq + d)
            && Data(w.snd.nextseq, w.snd.buf[w.snd.have..w.snd.have + d]) in v.net
  {
    var s, b := w.snd, SendingOf(w.snd, TakeSnap(w.snd));
    var v := Do(w, FirstSend);
    BurstFrame(s, TakeSnap(s));
    FirstSegment(s.buf, s.have, b.end, b.q);
    var p := Segments(s.buf[s.have..b.end], b.q)[0];
    assert p in v.net;
    if !s.measuring {
      assert Ends(p, v.snd.expectAck);
    } else {
      var q :| q in w.net && Ends(q, s.expectAck);
      assert q in v.net;
    }
  }

  lemma MeasureStep(w: World, op: Op)
    requires Good(w) && Enabled(w, op) && MeasureOk(w)
    ensures MeasureOk(Do(w, op))
  {
    if op.FirstSend? {
      MeasureFirstSend(w);
    } else {
      var v := Do(w, op);
      if op.GotAck? {
        MeasureAck(w.snd, op.ack, op.adv, op.sample);
        HandleAckFrame(w.snd, op.ack, op.adv, op.sample);
      }
      if v.snd.measuring {
        var p :| p in w.net && Ends(p, w.snd.expectAck);
        assert p in v.net;
      }
    }
  }

  lemma {:induction false} MeasureRun(w: World, ops: seq<Op>)
    requires Good(w) && MeasureOk(w) && Legal(w, ops)
    ensures Good(Exec(w, ops)) && MeasureOk(Exec(w, ops))
    decreases |ops|
  {
    if |ops| > 0 {
      GoodStep(w, ops[0]);
      MeasureStep(w, ops[0]);
      MeasureRun(Do(w, ops[0]), ops[1..]);
    }
  }

  /** In every run: while a round trip is measured, what is waited for is the end of a segment in the network, behind
      base and not beyond nextseq; the first ACK that advances the window ends the measurement. */
  lemma MeasurementPending(ops: seq<Op>)
    requires Legal(I.INITIAL, ops)
    ensures MeasureOk(Exec(I.INITIAL, ops))
  {
    GoodInitially();
    MeasureRun(I.INITIAL, ops);
  }

  // ----- which samples are used -----

  /** Round trips of the ACKs that acknowledge exactly up to the end of the segment measured. */
  function UsedSamples(w: World, ops: seq<Op>): seq<nat>
    requires Legal(w, ops)
    decreases |ops|
  {
    if |ops| == 0 then []
    else
      var op, s := ops[0], w.snd;
      (if op.GotAck? && op.ack > s.base && s.measuring && s.expectAck == op.ack then [op.sample] else [])
      + UsedSamples(Do(w, op), ops[1..])
  }

  lemma StepRtt(w: World, op: Op)
    requires Enabled(w, op)
    ensures Do(w, op).snd.rtt == RttEstimator.Updates(w.snd.rtt, UsedSamples(w, [op]))
  {
    assert [op][1..] == [];
    if op.GotAck? {
      if op.ack <= w.snd.base {
        OtherAckFrame(w.snd, op.ack, op.adv);
        ZeroWindowFrame(OtherAck(w.snd, op.ack, op.adv));
      } else {
        HandleAckFlags(w.snd, op.ack, op.adv, op.sample);
        NewAckFlags(w.snd, op.ack, op.adv, op.sample);
        Once(w.snd.rtt, op.sample);
      }
    } else {
      P.RttOnlyOnAck(w, op);
    }
  }

  lemma Once(r: RttEstimator.Rtt, sample: nat)
    ensures RttEstimator.Updates(r, [sample]) == RttEstimator.Update(r, sample)
  {
    assert [sample][1..] == [];
  }

  /** The estimator of a run has been fed exactly these. */
  lemma {:induction false} EstimatorTrace(w: World, ops: seq<Op>)
    requires Legal(w, ops)
    ensures Exec(w, ops).snd.rtt == RttEstimator.Updates(w.snd.rtt, UsedSamples(w, ops))
    decreases |ops|
  {
    if |ops| > 0 {
      var op := ops[0];
      StepRtt(w, op);
      assert [op][1..] == [];
      EstimatorTrace(Do(w, op), ops[1..]);
      RttEstimator.UpdatesAppend(w.snd.rtt, UsedSamples(w, [op]), UsedSamples(Do(w, op), ops[1..]));
      assert UsedSamples(w, ops) == UsedSamples(w, [op]) + UsedSamples(Do(w, op), ops[1..]);
    }
  }

  // ----- a whole round trip -----

  /** With nothing outstanding the receiver is waiting for just the next byte and holds nothing. */
  lemma NothingHeld(w: World)
    requires Good(w) && Unacked(w.snd) == 0
    ensures w.rcv.expected == w.snd.nextseq && w.rcv.pending == map[]
  {
    assert forall k <- w.rcv.pending :: false;
    assert w.rcv.pending.Keys == {};
  }

  /** The first segment is out and being measured. */
  predicate Measuring(w: World, p: seq<byte>) {
    && 1 <= |p| <= MAX_DLEN && Data(w.snd.base, p) in w.net
    && w.snd.measuring && w.snd.expectAck == w.snd.base + |p|
    && w.rcv.expected == w.snd.base && w.rcv.pending == map[] && |w.rcv.received| + |p| <= MAX_SOCK_BUF_SIZE
  }

  /** With nothing outstanding nothing is being measured. */
  lemma MeasureIdle(w: World)
    requires MeasureOk(w) && Unacked(w.snd) == 0
    ensures !w.snd.measuring
  {
  }

  /** op leads from w to v. */
  predicate Steps(w: World, op: Op, v: World) { Enabled(w, op) && Do(w, op) == v }

  /** A burst from an idle state starts a measurement on its first segment. */
  lemma BurstMeasures(w: World) returns (p: seq<byte>)
    requires Coupled(w.snd) && MeasureOk(w) && CanSend(w.snd) && Unacked(w.snd) == 0
    ensures var v := Do(w, FirstSend);
            && |p| == Min(v.snd.nextseq - w.snd.nextseq, MAX_DLEN) >= 1 && Data(v.snd.base, p) in v.net
            && v.snd.measuring && v.snd.expectAck == v.snd.base + |p| <= v.snd.nextseq && Coupled(v.snd)
            && v.snd.base == w.snd.nextseq && v.snd.rtt == w.snd.rtt && v.rcv == w.rcv
  {
    MeasureIdle(w);
    MeasureFirstSend(w);
    BurstFrame(w.snd, TakeSnap(w.snd));
    p := w.snd.buf[w.snd.have..w.snd.have + Min(Do(w, FirstSend).snd.nextseq - w.snd.nextseq, MAX_DLEN)];
  }

  /** The segment arrives. */
  lemma SegmentArrives(w: World, p: seq<byte>)
    requires Reassembly.Ok(w.rcv) && Measuring(w, p)
    ensures var d := GotData(w.snd.base, p);
            Enabled(w, d) && Do(w, d).snd == w.snd && Ack(w.snd.base + |p|, MAX_RWINDOW_SIZE) in Do(w, d).net
  {
    Arrival.NextArrives(w.rcv, p);
  }

  /** Its ACK comes back. */
  lemma AnswerArrives(w: World, ack: nat, sample: nat)
    requires Coupled(w.snd) && w.snd.base < ack <= w.snd.nextseq && w.snd.measuring && w.snd.expectAck == ack
    ensures var t := HandleAck(w.snd, ack, MAX_RWINDOW_SIZE, sample);
            t.rtt == RttEstimator.Update(w.snd.rtt, sample) && t.base == ack
  {
    HandleAckFrame(w.snd, ack, MAX_RWINDOW_SIZE, sample);
    HandleAckFlags(w.snd, ack, MAX_RWINDOW_SIZE, sample);
    NewAckFlags(w.snd, ack, MAX_RWINDOW_SIZE, sample);
  }

  /** The segment at base arrives, and then its ACK. */
  predicate Answered(w: World, p: seq<byte>, w2: World, w3: World, sample: nat) {
    && Steps(w, GotData(w.snd.base, p), w2)
    && Steps(w2, GotAck(w.snd.base + |p|, MAX_RWINDOW_SIZE, sample), w3)
  }

  lemma AnswerPair(w: World, p: seq<byte>, sample: nat) returns (w2: World, w3: World)
    requires Reassembly.Ok(w.rcv) && Coupled(w.snd) && Measuring(w, p) && w.snd.base + |p| <= w.snd.nextseq
    ensures Answered(w, p, w2, w3, sample)
    ensures w3.snd.rtt == RttEstimator.Update(w.snd.rtt, sample) && w3.snd.base == w.snd.base + |p|
  {
    SegmentArrives(w, p);
    w2 := Do(w, GotData(w.snd.base, p));
    AnswerArrives(w2, w.snd.base + |p|, sample);
    w3 := Do(w2, GotAck(w.snd.base + |p|, MAX_RWINDOW_SIZE, sample));
  }

  /** What is needed for a round trip to begin. */
  predicate Idle(w: World) {
    Unacked(w.snd) == 0 && CanSend(w.snd) && MAX_SOCK_BUF_SIZE - |w.rcv.received| >= MAX_DLEN
  }

  /** Burst, arrival of the first segment p, arrival of its ACK: the states in between. */
  predicate RoundTrip(w: World, p: seq<byte>, w1: World, w2: World, w3: World, sample: nat) {
    && Steps(w, FirstSend, w1) && w1.snd.base == w.snd.nextseq
    && Data(w1.snd.base, p) in w1.net && |p| == Min(w1.snd.nextseq - w.snd.nextseq, MAX_DLEN) >= 1
    && Answered(w1, p, w2, w3, sample)
  }

  lemma RoundTripFrom(w: World, sample: nat) returns (p: seq<byte>, w1: World, w2: World, w3: World)
    requires Coupled(w.snd) && MeasureOk(w) && Idle(w)
    requires Reassembly.Ok(w.rcv) && w.rcv.expected == w.snd.nextseq && w.rcv.pending == map[]
    ensures RoundTrip(w, p, w1, w2, w3, sample)
    ensures w3.snd.base == w.snd.nextseq + |p| && w3.snd.rtt == RttEstimator.Update(w.snd.rtt, sample)
  {
    w1 := Do(w, FirstSend);
    p := BurstMeasures(w);
    w2, w3 := AnswerPair(w1, p, sample);
  }

  /** From every reachable state with nothing outstanding, whatever is to be sent: the first segment, p, goes out, as
      long as a segment can be, arrives, and its ACK feeds the estimator with this round trip. */
  lemma RoundTripMeasured(ops: seq<Op>, w: World, sample: nat)
      returns (p: seq<byte>, w1: World, w2: World, w3: World)
    requires Legal(I.INITIAL, ops) && w == Exec(I.INITIAL, ops) && Idle(w)
    ensures RoundTrip(w, p, w1, w2, w3, sample)
    ensures w3.snd.base == w.snd.nextseq + |p| && w3.snd.rtt == RttEstimator.Update(w.snd.rtt, sample)
  {
    GoodInitially();
    MeasureRun(I.INITIAL, ops);
    NothingHeld(w);
    p, w1, w2, w3 := RoundTripFrom(w, sample);
  }
}
