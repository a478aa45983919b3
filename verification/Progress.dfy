/** From every reachable state the transfer can be brought forward, and in the end completed. */
module Progress {
  import opened Global
  import opened Segmentation
  import opened SenderCore
  import opened Atomic
  import opened RunInvariants
  import Reassembly
  import RttEstimator
  import I = Interleaved

  /** Everything known of a reachable state whose timer arms. */
  predicate Healthy(w: World) {
    Good(w) && w.snd.cong.rwnd >= 1 && WakeOk(w.snd)
    && RttEstimator.Arms(w.snd.rtt) && RttEstimator.Consistent(w.snd.rtt)
  }

  lemma AckRtt(s: Snd, ack: nat, adv: nat, sample: nat)
    requires CanHandle(s, ack)
    ensures HandleAck(s, ack, adv, sample).rtt in {s.rtt, RttEstimator.Update(s.rtt, sample)}
  {
    if ack <= s.base {
      OtherAckFrame(s, ack, adv);
      ZeroWindowFrame(OtherAck(s, ack, adv));
    } else {
      var s1 := NewAckSlide(s, ack, adv, sample);
      assert s1.rtt in {s.rtt, RttEstimator.Update(s.rtt, sample)};
      ZeroWindowFrame(if NeedsCompaction(s1) then Compact(s1) else s1);
    }
  }

  lemma RttOnlyOnAck(w: World, op: Op)
    requires Enabled(w, op) && !op.GotAck?
    ensures Do(w, op).snd.rtt == w.snd.rtt
  {
    match op
    case FirstSend => BurstFrame(w.snd, TakeSnap(w.snd));
    case _ =>
  }

  lemma PeerWindow(w: World, op: Op)
    requires Good(w) && Enabled(w, op) && w.snd.cong.rwnd >= 1
    ensures Do(w, op).snd.cong.rwnd >= 1
  {
    OpCong(w, op);
    match op
    case GotAck(ack, adv, sample) => assert I.PacketOk(w, Ack(ack, adv));
    case FirstSend => BurstFrame(w.snd, TakeSnap(w.snd));
    case _ =>
  }

  lemma HealthyStep(w: World, op: Op)
    requires Healthy(w) && Enabled(w, op) && RttEstimator.Arms(Do(w, op).snd.rtt)
    ensures Healthy(Do(w, op))
  {
    GoodStep(w, op);
    ArmsRearms(w, op);
    WakeStep(w, op);
    PeerWindow(w, op);
    if op.GotAck? {
      AckRtt(w.snd, op.ack, op.adv, op.sample);
    } else {
      RttOnlyOnAck(w, op);
    }
  }

  /** A step whose sample, if it takes one, keeps the interval armable. */
  predicate Gentle(w: World, op: Op) { op.GotAck? ==> op.sample == RttEstimator.SafeSample(w.snd.rtt) }

  lemma GentleStep(w: World, op: Op)
    requires Healthy(w) && Enabled(w, op) && Gentle(w, op)
    ensures Healthy(Do(w, op))
  {
    if op.GotAck? {
      AckRtt(w.snd, op.ack, op.adv, op.sample);
      RttEstimator.SafeSampleArms(w.snd.rtt);
    } else {
      RttOnlyOnAck(w, op);
    }
    HealthyStep(w, op);
  }

  lemma {:induction false} HealthyRun(w: World, ops: seq<Op>)
    requires Healthy(w) && Legal(w, ops) && AlwaysArms(w, ops)
    ensures Healthy(Exec(w, ops))
    decreases |ops|
  {
    if |ops| > 0 {
      HealthyStep(w, ops[0]);
      HealthyRun(Do(w, ops[0]), ops[1..]);
    }
  }

  lemma HealthyInitially()
    ensures Healthy(I.INITIAL)
  {
    GoodInitially();
  }

  lemma Cons(w: World, op: Op, rest: seq<Op>)
    requires Enabled(w, op) && Legal(Do(w, op), rest)
    ensures Legal(w, [op] + rest) && Exec(w, [op] + rest) == Exec(Do(w, op), rest)
  {
    assert ([op] + rest)[1..] == rest;
  }

  lemma {:induction false} Append(w: World, a: seq<Op>, b: seq<Op>)
    requires Legal(w, a) && Legal(Exec(w, a), b)
    ensures Legal(w, a + b) && Exec(w, a + b) == Exec(Exec(w, a), b)
    decreases |a|
  {
    if |a| == 0 {
      EmptyAppend(a, b);
    } else {
      Append(Do(w, a[0]), a[1..], b);
      HeadTail(a, b);
    }
  }

  // ----- one loss-free round -----

  /** A reachable state with nobody inside a critical section. */
  predicate Settled(w: World) { I.Safe(w) && Quiet(w) }

  /** The timer runs or RETRANS is up. */
  predicate Awake(s: Snd) { s.ctl.armed || s.ctl.retrans }

  /** Unacknowledged bytes, an open window, and room at the receiver for whatever it may deliver. */
  predicate Waiting(w: World) {
    Unacked(w.snd) > 0 && w.snd.cong.wnd > 0 && MAX_SOCK_BUF_SIZE - |w.rcv.received| >= MAX_RWINDOW_SIZE - 1
  }

  /** Bring retrans_thread to the point of starting a pass: expiry if the timer runs, recheck if the last pass is
      over. */
  function Kick(w: World): seq<Op> {
    (if w.snd.ctl.armed then [Fires] else []) + (if w.snd.ctl.isRetransing then [] else [Retrans])
  }

  predicate Poised(s: Snd) { s.ctl.retrans && BeginsPass(s) }

  /** Same stream, receiver, network and sender but for the control flags. */
  predicate SameButFlags(w: World, v: World) { v == w.(snd := w.snd.(ctl := v.snd.ctl)) }

  lemma FiresRuns(w: World)
    requires Settled(w) && Awake(w.snd)
    ensures var a: seq<Op> := if w.snd.ctl.armed then [Fires] else [];
            Legal(w, a)
            && var v := Exec(w, a);
               && Settled(v) && v.snd.ctl.retrans && SameButFlags(w, v)
               && v.snd.ctl.isRetransing == w.snd.ctl.isRetransing
               && (Healthy(w) ==> Healthy(v))
  {
    if w.snd.ctl.armed {
      SafeDo(w, Fires);
      Cons(w, Fires, []);
      assert [Fires] + [] == [Fires];
      if Healthy(w) {
        GentleStep(w, Fires);
      }
    }
  }

  lemma RecheckRuns(v: World)
    requires Settled(v) && Unacked(v.snd) > 0 && v.snd.cong.wnd > 0 && v.snd.ctl.retrans && !v.snd.ctl.isRetransing
    ensures Legal(v, [Retrans])
    ensures var u := Exec(v, [Retrans]);
            Settled(u) && Poised(u.snd) && SameButFlags(v, u) && (Healthy(v) ==> Healthy(u))
  {
    SafeDo(v, Retrans);
    Cons(v, Retrans, []);
    assert [Retrans] + [] == [Retrans];
    assert Do(v, Retrans).net == v.net;
    if Healthy(v) {
      GentleStep(v, Retrans);
    }
  }

  lemma KickWorks(w: World)
    requires Settled(w) && Unacked(w.snd) > 0 && w.snd.cong.wnd > 0 && Awake(w.snd)
    ensures Legal(w, Kick(w))
    ensures var v := Exec(w, Kick(w));
            Settled(v) && Poised(v.snd) && SameButFlags(w, v) && (Healthy(w) ==> Healthy(v))
  {
    var a: seq<Op> := if w.snd.ctl.armed then [Fires] else [];
    FiresRuns(w);
    if w.snd.ctl.isRetransing {
      assert Kick(w) == a;
    } else {
      RecheckRuns(Exec(w, a));
      Append(w, a, [Retrans]);
    }
  }

  function FirstResent(s: Snd): seq<byte>
    requires Coupled(s) && Unacked(s) > 0
  {
    s.buf[s.ackCnt..s.ackCnt + Min(s.have - s.ackCnt, MAX_DLEN)]
  }

  lemma FirstResentSent(s: Snd)
    requires Coupled(s) && Unacked(s) > 0
    ensures Data(s.base, FirstResent(s)) in WholePassPackets(s)
  {
    FirstSegment(s.buf, s.ackCnt, s.have, s.base);
  }

  /** Any segment that starts at base is answered with an ACK above base, whether it is new to the receiver or the
      earlier ACK was lost. */
  lemma ReplyAboveBase(r: Reassembly.Rcv, base: nat, payload: seq<byte>)
    requires Reassembly.Ok(r) && base <= r.expected && 1 <= |payload| <= MAX_DLEN
    requires MAX_SOCK_BUF_SIZE - |r.received| >= MAX_RWINDOW_SIZE - 1
    ensures Reassembly.HandleData(r, base, payload).expected > base
  {
    if base >= r.expected {
      Reassembly.StoredOk(r, base, payload);
      var s := Reassembly.Stored(r, base, payload);
      assert Reassembly.Named(payload, base, base) == payload[0];
      assert base in s.pending;
      Reassembly.RunLengthBound(s);
    }
  }

  function RoundTail(w: World, sample: nat): seq<Op>
    requires Settled(w) && Unacked(w.snd) > 0
  {
    var r := Reassembly.HandleData(w.rcv, w.snd.base, FirstResent(w.snd));
    [Retrans] + ([GotData(w.snd.base, FirstResent(w.snd))] + ([GotAck(r.expected, r.remain, sample)] + []))
  }

  /** Expiry, retransmission, arrival of the first resent segment, arrival of its ACK; the rest may be lost. */
  function Round(w: World, sample: nat): seq<Op>
    requires Settled(w) && Unacked(w.snd) > 0
  {
    Kick(w) + RoundTail(w, sample)
  }

  lemma DataOps(w: World, q: nat, payload: seq<byte>)
    requires Settled(w) && Enabled(w, GotData(q, payload))
    ensures var v := Do(w, GotData(q, payload));
            Settled(v) && v.snd == w.snd && v.stream == w.stream && v.rcv == Reassembly.HandleData(w.rcv, q, payload)
            && Ack(v.rcv.expected, v.rcv.remain) in v.net && v.rcv.expected <= v.snd.nextseq
  {
    SafeDo(w, GotData(q, payload));
  }

  /** The pass, and the arrival of its first segment. */
  lemma PassArrives(w: World)
    requires Settled(w) && Poised(w.snd) && Waiting(w)
    ensures Enabled(w, Retrans)
    ensures var w1, d := Do(w, Retrans), GotData(w.snd.base, FirstResent(w.snd));
            && Settled(w1) && Enabled(w1, d)
            && var w2 := Do(w1, d);
               && Settled(w2) && SamePlace(w.snd, w2.snd) && w2.snd.rtt == w.snd.rtt && w2.stream == w.stream
               && w2.rcv == Reassembly.HandleData(w.rcv, w.snd.base, FirstResent(w.snd))
               && Ack(w2.rcv.expected, w2.rcv.remain) in w2.net && w.snd.base < w2.rcv.expected <= w2.snd.nextseq
               && (Healthy(w) ==> Healthy(w2))
  {
    var w1, d := Do(w, Retrans), GotData(w.snd.base, FirstResent(w.snd));
    SafeDo(w, Retrans);
    RetransFrame(w.snd, PassOf(w.snd));
    RttOnlyOnAck(w, Retrans);
    FirstResentSent(w.snd);
    DataOps(w1, d.q, d.payload);
    ReplyAboveBase(w.rcv, w.snd.base, FirstResent(w.snd));
    if Healthy(w) {
      GentleStep(w, Retrans);
      GentleStep(w1, d);
    }
  }

  lemma RoundTailWorks(w: World, sample: nat)
    requires Settled(w) && Poised(w.snd) && Waiting(w)
    ensures Legal(w, RoundTail(w, sample))
    ensures var v := Exec(w, RoundTail(w, sample));
            && Settled(v) && v.stream == w.stream && v.snd.base > w.snd.base
            && (Healthy(w) && sample == RttEstimator.SafeSample(w.snd.rtt) ==> Healthy(v))
  {
    var w1, d := Do(w, Retrans), GotData(w.snd.base, FirstResent(w.snd));
    PassArrives(w);
    var w2 := Do(w1, d);
    var a := GotAck(w2.rcv.expected, w2.rcv.remain, sample);
    HandleAckFrame(w2.snd, a.ack, a.adv, sample);
    SafeDo(w2, a);
    if Healthy(w) && Gentle(w2, a) {
      GentleStep(w2, a);
    }
    Cons(w2, a, []);
    Cons(w1, d, [a] + []);
    Cons(w, Retrans, [d] + ([a] + []));
  }

  lemma RoundTailSame(w: World, v: World, sample: nat)
    requires Settled(w) && Settled(v) && Unacked(w.snd) > 0 && SameButFlags(w, v)
    ensures Unacked(v.snd) > 0 && RoundTail(v, sample) == RoundTail(w, sample)
  {
    assert FirstResent(v.snd) == FirstResent(w.snd);
  }

  /** With unacknowledged bytes, an open window and 43999 free bytes at the receiver, one loss-free round can take place
      iff the timer runs or RETRANS is up, whatever the interval, and then it moves base forward. */
  lemma RoundAdvances(w: World, sample: nat)
    requires Settled(w) && Waiting(w)
    ensures Legal(w, Round(w, sample)) <==> Awake(w.snd)
    ensures Awake(w.snd) ==>
              var v := Exec(w, Round(w, sample));
              && Settled(v) && v.stream == w.stream && v.snd.base > w.snd.base
              && (Healthy(w) && sample == RttEstimator.SafeSample(w.snd.rtt) ==> Healthy(v))
  {
    if Awake(w.snd) {
      KickWorks(w);
      var v := Exec(w, Kick(w));
      RoundTailSame(w, v, sample);
      RoundTailWorks(v, sample);
      Append(w, Kick(w), RoundTail(v, sample));
    } else {
      assert Round(w, sample)[0] == Retrans;
    }
  }

  lemma ProgressFromReachable(ops: seq<Op>, sample: nat)
    requires Legal(I.INITIAL, ops) && Waiting(Exec(I.INITIAL, ops))
    ensures var w := Exec(I.INITIAL, ops);
            && Settled(w)
            && (Legal(w, Round(w, sample)) <==> Awake(w.snd))
            && (Awake(w.snd) ==> Exec(w, Round(w, sample)).snd.base > w.snd.base)
  {
    GoodInitially();
    GoodRun(I.INITIAL, ops);
    RoundAdvances(Exec(I.INITIAL, ops), sample);
  }

  /** So wherever no timer start of the run has met a refused interval with the timer idle, the round takes place. */
  lemma ProgressRearming(ops: seq<Op>, sample: nat)
    requires Legal(I.INITIAL, ops) && AlwaysRearms(I.INITIAL, ops) && Waiting(Exec(I.INITIAL, ops))
    ensures var w := Exec(I.INITIAL, ops);
            Settled(w) && Legal(w, Round(w, sample)) && Exec(w, Round(w, sample)).snd.base > w.snd.base
  {
    GoodInitially();
    WakeRun(I.INITIAL, ops);
    ProgressFromReachable(ops, sample);
  }
}
