/** No reachable state with an armable timer is stuck: with every packet under way lost, some continuation still
    delivers and acknowledges every byte accepted so far. And which states are stuck for ever. */
module Completion {
  import opened Global
  import opened SenderCore
  import opened Atomic
  import opened RunInvariants
  import opened Progress
  import Congestion
  import RttEstimator
  import I = Interleaved

  predicate Drained(w: World) { w.rcv.received == [] }

  /** A continuation that keeps the stream and leaves everything healthy. */
  predicate Leads(w: World, ops: seq<Op>) {
    Legal(w, ops) && Healthy(Exec(w, ops)) && Exec(w, ops).stream == w.stream
  }

  lemma LeadsStep(w: World, op: Op)
    requires Healthy(w) && Enabled(w, op) && Gentle(w, op) && !op.Send?
    ensures Leads(w, [op]) && Exec(w, [op]) == Do(w, op)
  {
    GentleStep(w, op);
    Cons(w, op, []);
    assert [op] + [] == [op];
  }

  lemma LeadsAppend(w: World, a: seq<Op>, b: seq<Op>)
    requires Leads(w, a) && Leads(Exec(w, a), b)
    ensures Leads(w, a + b) && Exec(w, a + b) == Exec(Exec(w, a), b)
  {
    Append(w, a, b);
  }

  /** Every packet under way is lost. */
  function Lost(w: World): World { w.(net := {}) }

  lemma LostHealthy(w: World)
    requires Healthy(w)
    ensures Healthy(Lost(w))
  {
  }

  // ----- a closed window: probe, reply, duplicate ACK -----

  function ProbeSteps(w: World): seq<Op> { (if w.snd.ctl.armed then [Fires] else []) + [Retrans] }

  /** Expiry if the timer runs, the probe, its arrival, and the arrival of the reply. */
  function ProbeOps(w: World): seq<Op>
    requires w.snd.base >= 1
  {
    ProbeSteps(w) + ([GotData(w.snd.base - 1, [])]
                     + [GotAck(w.rcv.expected, w.rcv.remain, RttEstimator.SafeSample(w.snd.rtt))])
  }

  /** Where the probe leaves everything. */
  predicate Probed(w: World, v: World)
    requires w.snd.base >= 1
  {
    && Data(w.snd.base - 1, []) in v.net && v.rcv == w.rcv && SamePlace(w.snd, v.snd)
    && v.snd.cong == w.snd.cong && v.snd.rtt == w.snd.rtt
  }

  /** RETRANS is up; the probe goes out. */
  lemma ProbeGoesOut(v: World)
    requires Healthy(v) && v.snd.cong.wnd == 0 && v.snd.ctl.retrans
    ensures Leads(v, [Retrans]) && Probed(v, Exec(v, [Retrans]))
  {
    LeadsStep(v, Retrans);
    assert Data(v.snd.base - 1, []) in I.PacketSet(RetransIdlePackets(v.snd));
  }

  lemma ProbeExpires(w: World)
    requires Healthy(w) && w.snd.cong.wnd == 0 && w.snd.ctl.armed
    ensures Leads(w, [Fires] + [Retrans]) && Probed(w, Exec(w, [Fires] + [Retrans]))
  {
    var v := Do(w, Fires);
    LeadsStep(w, Fires);
    ExpiryKeeps(w);
    ProbeGoesOut(v);
    LeadsAppend(w, [Fires], [Retrans]);
    ProbedFrom(w, v, Exec(v, [Retrans]));
  }

  lemma ExpiryKeeps(w: World)
    requires Enabled(w, Fires)
    ensures var v := Do(w, Fires);
            && SamePlace(w.snd, v.snd) && v.snd.cong == w.snd.cong && v.snd.rtt == w.snd.rtt
            && v.rcv == w.rcv && v.snd.ctl.retrans
  {
  }

  lemma ProbedFrom(w: World, v: World, u: World)
    requires w.snd.base >= 1 && SamePlace(w.snd, v.snd) && v.snd.cong == w.snd.cong && v.snd.rtt == w.snd.rtt
    requires v.rcv == w.rcv && Probed(v, u)
    ensures Probed(w, u)
  {
  }

  lemma ProbeSent(w: World)
    requires Healthy(w) && w.snd.cong.wnd == 0
    ensures Leads(w, ProbeSteps(w)) && Probed(w, Exec(w, ProbeSteps(w)))
  {
    if w.snd.ctl.armed {
      ProbeExpires(w);
    } else {
      ProbeGoesOut(w);
      assert ProbeSteps(w) == [Retrans];
    }
  }

  lemma ProbeAnswered(w: World)
    requires Healthy(w) && Data(w.snd.base - 1, []) in w.net
    ensures var ops := [GotData(w.snd.base - 1, [])]
                       + [GotAck(w.rcv.expected, w.rcv.remain, RttEstimator.SafeSample(w.snd.rtt))];
            Leads(w, ops)
            && var v := Exec(w, ops);
               if w.rcv.expected > w.snd.base then v.snd.base > w.snd.base
               else v.snd.base == w.snd.base && v.rcv == w.rcv && v.snd.nextseq == w.snd.nextseq
                    && v.snd.cong == Congestion.OnDupAck(w.snd.cong, w.rcv.remain)
  {
    var d := GotData(w.snd.base - 1, []);
    LeadsStep(w, d);
    var w1 := Do(w, d);
    DataOps(w, d.q, d.payload);
    assert w1.rcv == w.rcv;
    var a := GotAck(w.rcv.expected, w.rcv.remain, RttEstimator.SafeSample(w.snd.rtt));
    LeadsStep(w1, a);
    HandleAckFrame(w1.snd, a.ack, a.adv, a.sample);
    AckCong(w1.snd, a.ack, a.adv, a.sample);
    LeadsAppend(w, [d], [a]);
  }

  lemma DuplicateCounts(c: Congestion.Cong, adv: nat)
    requires Congestion.Inv(c) && c.wnd == 0 && c.rwnd >= 1 && adv >= 1
    ensures var d := Congestion.OnDupAck(c, adv); d.wnd > 0 || Wait(d) < Wait(c)
  {
  }

  lemma ProbeCycleFrom(w: World)
    requires Healthy(w) && w.snd.cong.wnd == 0
    ensures Leads(w, ProbeOps(w))
    ensures var v := Exec(w, ProbeOps(w));
            v.snd.base > w.snd.base
            || (v.snd.base == w.snd.base && v.rcv == w.rcv
                && (v.snd.cong.wnd > 0 || Wait(v.snd.cong) < Wait(w.snd.cong)))
  {
    ProbeSent(w);
    ProbeAnswered(Exec(w, ProbeSteps(w)));
    DuplicateCounts(w.snd.cong, w.rcv.remain);
    LeadsAppend(w, ProbeSteps(w), ProbeOps(w)[|ProbeSteps(w)|..]);
    assert ProbeOps(w) == ProbeSteps(w) + ProbeOps(w)[|ProbeSteps(w)|..];
  }

  /** The probe of a closed window and its reply, with everything else lost, bring base forward or the window one
      duplicate closer to open. */
  lemma ProbeCycle(w: World)
    requires Healthy(w) && w.snd.cong.wnd == 0
    ensures Leads(Lost(w), ProbeOps(w))
    ensures var v := Exec(Lost(w), ProbeOps(w));
            v.snd.base > w.snd.base
            || (v.snd.base == w.snd.base && v.rcv == w.rcv
                && (v.snd.cong.wnd > 0 || Wait(v.snd.cong) < Wait(w.snd.cong)))
  {
    LostHealthy(w);
    ProbeCycleFrom(Lost(w));
    assert ProbeOps(Lost(w)) == ProbeOps(w);
  }

  /** Duplicates still needed before the window opens. */
  function Wait(c: Congestion.Cong): nat {
    if c.wnd > 0 then 0 else if c.status == Congestion.FastRecovery || c.dups > 3 then 1 else 4 - c.dups
  }

  // ----- nothing outstanding: get the next bytes out -----

  lemma GetSending(w: World) returns (ops: seq<Op>)
    requires Healthy(w) && w.snd.cong.wnd > 0 && Unacked(w.snd) == 0 && w.snd.base - 1 < |w.stream|
    ensures Leads(w, ops)
    ensures var v := Exec(w, ops);
            v.snd.base == w.snd.base && v.rcv == w.rcv && v.snd.cong.wnd > 0 && Unacked(v.snd) > 0
  {
    if w.snd.ctl.isRetransing {
      LeadsStep(w, Retrans);
      RetransFrame(w.snd, PassOf(w.snd));
      ops := [Retrans];
      assert Exec(w, ops).snd.cong.wnd > 0;
      assert !Exec(w, ops).snd.ctl.isRetransing;
    } else {
      ops := [];
    }
    var v := Exec(w, ops);
    LeadsStep(v, FirstSend);
    BurstFrame(v.snd, TakeSnap(v.snd));
    LeadsAppend(w, ops, [FirstSend]);
    ops := ops + [FirstSend];
  }

  // ----- putting it together -----

  function Phase(w: World): nat {
    if w.snd.cong.wnd == 0 then 2 + Wait(w.snd.cong) else if Unacked(w.snd) == 0 then 1 else 0
  }

  lemma {:induction false} AdvanceFrom(w: World) returns (ops: seq<Op>)
    requires Healthy(w) && Drained(w) && w.snd.base - 1 < |w.stream|
    ensures Leads(w, ops) && Exec(w, ops).snd.base > w.snd.base
    decreases Phase(w)
  {
    if w.snd.cong.wnd > 0 && Unacked(w.snd) > 0 {
      var s := RttEstimator.SafeSample(w.snd.rtt);
      RoundAdvances(w, s);
      ops := Round(w, s);
    } else {
      if w.snd.cong.wnd == 0 {
        ProbeCycleFrom(w);
        ops := ProbeOps(w);
      } else {
        ops := GetSending(w);
      }
      var v := Exec(w, ops);
      if v.snd.base == w.snd.base {
        var more := AdvanceFrom(v);
        LeadsAppend(w, ops, more);
        ops := ops + more;
      }
    }
  }

  /** As long as accepted bytes are unacknowledged base can be brought forward, by packets sent from now on. */
  lemma Advance(w: World) returns (ops: seq<Op>)
    requires Healthy(w) && Drained(w) && w.snd.base - 1 < |w.stream|
    ensures Leads(Lost(w), ops) && Exec(Lost(w), ops).snd.base > w.snd.base
  {
    LostHealthy(w);
    ops := AdvanceFrom(Lost(w));
  }

  lemma Drain(w: World) returns (ops: seq<Op>)
    requires Healthy(w)
    ensures Leads(w, ops) && Drained(Exec(w, ops)) && Exec(w, ops).snd == w.snd
  {
    if Drained(w) {
      ops := [];
    } else {
      ops := [Recv(|w.rcv.received|)];
      LeadsStep(w, Recv(|w.rcv.received|));
    }
  }

  /** Every byte put into the buffer so far has been acknowledged and read, in order. */
  predicate Complete(w: World) { w.snd.base - 1 == |w.stream| && w.read == w.stream }

  predicate Completes(w: World, ops: seq<Op>) {
    Legal(w, ops) && Exec(w, ops).stream == w.stream && Complete(Exec(w, ops))
  }

  lemma {:induction false} Finish(w: World) returns (ops: seq<Op>)
    requires Healthy(w)
    ensures Completes(w, ops)
    decreases |w.stream| + 1 - w.snd.base
  {
    var a := Drain(w);
    var v := Exec(w, a);
    if v.snd.base - 1 < |v.stream| {
      var b := AdvanceFrom(v);
      LeadsAppend(w, a, b);
      var c := Finish(Exec(w, a + b));
      Append(w, a + b, c);
      ops := a + b + c;
    } else {
      assert v.read + v.rcv.received == v.stream[..v.rcv.expected - 1];
      assert v.read == v.stream;
      ops := a;
    }
  }

  /** In every run in which the timer can always be armed: with every packet under way lost, the state reached has a
      continuation, adding nothing to the stream, after which all accepted bytes are acknowledged and tju_recv has
      returned exactly them. */
  lemma NeverStuck(ops: seq<Op>)
    requires Legal(I.INITIAL, ops) && AlwaysArms(I.INITIAL, ops)
    ensures exists more: seq<Op> :: Completes(Lost(Exec(I.INITIAL, ops)), more)
  {
    HealthyInitially();
    HealthyRun(I.INITIAL, ops);
    LostHealthy(Exec(I.INITIAL, ops));
    var more := Finish(Lost(Exec(I.INITIAL, ops)));
  }

  // ----- stuck for ever -----

  /** Unacknowledged bytes, nothing due to send them again, and no way to send others. */
  predicate Dead(s: Snd) {
    Unacked(s) > 0 && !Awake(s) && (s.ctl.isRetransing || s.cong.wnd == 0 || s.have >= s.ackCnt + s.cong.wnd)
  }

  /** With every packet under way lost nothing the application or the threads can do changes that. */
  lemma {:induction false} DeadForever(w: World, ops: seq<Op>)
    requires Dead(w.snd) && w.net == {} && Legal(w, ops)
    ensures var v := Exec(w, ops);
            Dead(v.snd) && v.net == {} && v.snd.base == w.snd.base && v.rcv.expected == w.rcv.expected
    decreases |ops|
  {
    if |ops| > 0 {
      DeadForever(Do(w, ops[0]), ops[1..]);
    }
  }

  /** So a reachable dead state cannot complete once the packets under way are lost. */
  lemma DeadNeverCompletes(ops: seq<Op>, more: seq<Op>)
    requires Legal(I.INITIAL, ops) && Dead(Exec(I.INITIAL, ops).snd)
    ensures !Completes(Lost(Exec(I.INITIAL, ops)), more)
  {
    var w := Exec(I.INITIAL, ops);
    GoodInitially();
    GoodRun(I.INITIAL, ops);
    if Legal(Lost(w), more) {
      DeadForever(Lost(w), more);
    }
  }
}
