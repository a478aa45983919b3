/** A sender blocked for ever: the recheck of a finished pass lowers RETRANS just after a third duplicate ACK raised it
    (src/timer.c:105-112 against src/tju_tcp.c:472-485). */
module RecheckRace {
  import opened Global
  import opened SenderCore
  import opened Interleaved
  import Congestion
  import A = Atomic
  import Races

  // ----- for ever -----

  /** Nothing outstanding, is_retransing up and nobody to lower it. */
  predicate Blocked(w: World) {
    && Safe(w) && Outstanding(w) == 0
    && w.snd.ctl.isRetransing && !w.snd.ctl.armed && !w.snd.ctl.retrans
    && w.snd.cong.status == Congestion.FastRecovery && w.snd.cong.cwnd > 0
    && w.pass.None? && w.snap.None? && w.burst.None? && w.head.AtTop? && !w.compacting
  }

  lemma BlockedAck(w: World, ack: nat, adv: nat, sample: nat)
    requires Blocked(w) && Enabled(w, AckArrives(ack, adv, sample))
    ensures Blocked(Apply(w, AckArrives(ack, adv, sample)))
    ensures Apply(w, AckArrives(ack, adv, sample)).snd.nextseq == w.snd.nextseq
  {
    assert PacketOk(w, Ack(ack, adv));
    SafeStep(w, AckArrives(ack, adv, sample));
    OtherAckFrame(w.snd, ack, adv);
    ZeroWindowFrame(OtherAck(w.snd, ack, adv));
  }

  lemma BlockedStep(w: World, st: Step)
    requires Blocked(w) && Enabled(w, st)
    ensures Blocked(Apply(w, st)) && Apply(w, st).snd.nextseq == w.snd.nextseq
  {
    match st
    case AckArrives(ack, adv, sample) => BlockedAck(w, ack, adv, sample);
    case _ => SafeStep(w, st);
  }

  /** Whatever the application sends and whatever arrives, nothing is ever sent again. */
  lemma {:induction false} BlockedForever(w: World, steps: seq<Step>)
    requires Blocked(w) && Legal(w, steps)
    ensures Blocked(Exec(w, steps)) && Exec(w, steps).snd.nextseq == w.snd.nextseq
    decreases |steps|
  {
    if |steps| > 0 {
      BlockedStep(w, steps[0]);
      BlockedForever(Apply(w, steps[0]), steps[1..]);
    }
  }

  // ----- a run that gets there -----

  /** The timer of the first byte expires while its ACK is on the way. */
  function LateAck(b: byte, sample: nat): seq<Step> {
    [Interleaved.TimerFires] + [DataArrives(1, [b])] + [AckArrives(2, MAX_RWINDOW_SIZE, sample)] + [Interleaved.Compact]
  }

  /** All acknowledged, RETRANS still up, n duplicates counted. */
  predicate AllAcked(w: World, head: Head, n: nat) {
    var s := w.snd;
    && s.buf == [] && s.have == 0 && s.ackCnt == 0 && s.base == 2 && s.nextseq == 2
    && !s.ctl.armed && s.ctl.retrans && !s.ctl.isRetransing
    && s.cong == Congestion.Cong(Congestion.SlowStart, 2 * MAX_DLEN, MAX_SWINDOW_SIZE / 2, n,
                                 MAX_RWINDOW_SIZE, 2 * MAX_DLEN)
    && Ack(2, MAX_RWINDOW_SIZE) in w.net
    && w.pass.None? && w.snap.None? && w.burst.None? && w.head == head && !w.compacting
  }

  /** The byte has arrived, its timer has expired. */
  predicate Expired(w: World, b: byte) {
    && w.snd == SenderCore.TimerFires(Races.Sent(b)) && Ack(2, MAX_RWINDOW_SIZE) in w.net
    && w.pass.None? && w.snap.None? && w.burst.None? && w.head.AtTop? && !w.compacting
  }

  lemma ExpiredRuns(b: byte)
    ensures var w, st := Races.FirstOut(b), [Interleaved.TimerFires] + [DataArrives(1, [b])];
            Legal(w, st) && Expired(Exec(w, st), b)
  {
    var w, d := Races.FirstOut(b), DataArrives(1, [b]);
    Races.OneByteDelivered(b, 1);
    A.Exec1(w, Interleaved.TimerFires);
    Races.ExecSnoc(w, [Interleaved.TimerFires], d);
  }

  lemma AckedRuns(w: World, b: byte, sample: nat)
    requires Expired(w, b)
    ensures var st := [AckArrives(2, MAX_RWINDOW_SIZE, sample)] + [Interleaved.Compact];
            Legal(w, st) && AllAcked(Exec(w, st), AtTop, 0)
  {
    var k := AckArrives(2, MAX_RWINDOW_SIZE, sample);
    AckArrivesFrame(w, 2, MAX_RWINDOW_SIZE, sample);
    NewAckFlags(w.snd, 2, MAX_RWINDOW_SIZE, sample);
    A.Exec1(w, k);
    assert Exec(w, [k]).snd.buf[1..] == [];
    Races.ExecSnoc(w, [k], Interleaved.Compact);
  }

  lemma LateAckRuns(b: byte, sample: nat)
    ensures var w := Races.FirstOut(b); Legal(w, LateAck(b, sample)) && AllAcked(Exec(w, LateAck(b, sample)), AtTop, 0)
  {
    var x := [Interleaved.TimerFires] + [DataArrives(1, [b])];
    var y := [AckArrives(2, MAX_RWINDOW_SIZE, sample)] + [Interleaved.Compact];
    ExpiredRuns(b);
    AckedRuns(Exec(Races.FirstOut(b), x), b, sample);
    A.ExecAppend(Races.FirstOut(b), x, y);
    assert LateAck(b, sample) == x + y;
  }

  function Duplicate(): Step { AckArrives(2, MAX_RWINDOW_SIZE, 0) }

  lemma DuplicateCounted(w: World, n: nat)
    requires AllAcked(w, Rechecking, n) && n < 2
    ensures Enabled(w, Duplicate()) && AllAcked(Apply(w, Duplicate()), Rechecking, n + 1)
  {
  }

  /** The third duplicate raises both flags. */
  predicate Raised(w: World) {
    var s := w.snd;
    && s.have == 0 && s.ackCnt == 0 && s.base == 2 && s.nextseq == 2
    && s.ctl.isRetransing && !s.ctl.armed
    && s.cong.status == Congestion.FastRecovery && s.cong.cwnd > 0
    && w.pass.None? && w.snap.None? && w.burst.None? && w.head.Rechecking? && !w.compacting
  }

  lemma ThirdDuplicateRaises(w: World)
    requires AllAcked(w, Rechecking, 2)
    ensures Enabled(w, Duplicate()) && Raised(Apply(w, Duplicate()))
  {
  }

  /** And the recheck lowers RETRANS. */
  lemma RecheckWipes(w: World)
    requires Safe(w) && Raised(w)
    ensures Enabled(w, RetransRecheck) && Blocked(Apply(w, RetransRecheck)) && Apply(w, RetransRecheck).snd.nextseq == 2
  {
    SafeStep(w, RetransRecheck);
    assert Apply(w, RetransRecheck).snd == Recheck(w.snd);
  }

  /** retrans_thread sees the window open and is_retransing down; three copies of the ACK arrive; it goes on. */
  function Wipe(): seq<Step> {
    [RetransTop] + ([RetransLook] + ([Duplicate()] + ([Duplicate()] + ([Duplicate()] + [RetransRecheck]))))
  }

  lemma SafeFive(w: World, a: Step, b: Step, c: Step)
    requires Safe(w) && Enabled(w, a) && Enabled(Apply(w, a), b) && Enabled(Apply(Apply(w, a), b), c)
    requires var v := Apply(Apply(Apply(w, a), b), c); Enabled(v, c) && Enabled(Apply(v, c), c)
    ensures Safe(Apply(Apply(Apply(Apply(Apply(w, a), b), c), c), c))
  {
    var w1 := Apply(w, a);
    var w2 := Apply(w1, b);
    var w3 := Apply(w2, c);
    SafeStep(w, a);
    SafeStep(w1, b);
    SafeStep(w2, c);
    SafeStep(w3, c);
    SafeStep(Apply(w3, c), c);
  }

  lemma WipeRuns(w: World)
    requires Safe(w) && AllAcked(w, AtTop, 0)
    ensures Legal(w, Wipe()) && Blocked(Exec(w, Wipe())) && Exec(w, Wipe()).snd.nextseq == 2
  {
    var w1 := Apply(w, RetransTop);
    var w2 := Apply(w1, RetransLook);
    DuplicateCounted(w2, 0);
    var w3 := Apply(w2, Duplicate());
    DuplicateCounted(w3, 1);
    var w4 := Apply(w3, Duplicate());
    ThirdDuplicateRaises(w4);
    var w5 := Apply(w4, Duplicate());
    SafeFive(w, RetransTop, RetransLook, Duplicate());
    RecheckWipes(w5);
    A.Exec1(w5, RetransRecheck);
    A.Exec2(w4, Duplicate(), [RetransRecheck]);
    A.Exec2(w3, Duplicate(), [Duplicate()] + [RetransRecheck]);
    A.Exec2(w2, Duplicate(), [Duplicate()] + ([Duplicate()] + [RetransRecheck]));
    A.Exec2(w1, RetransLook, [Duplicate()] + ([Duplicate()] + ([Duplicate()] + [RetransRecheck])));
    A.Exec2(w, RetransTop, [RetransLook] + ([Duplicate()] + ([Duplicate()] + ([Duplicate()] + [RetransRecheck]))));
  }

  function WipedRun(b: byte, sample: nat): seq<Step> { Races.FirstSteps(b) + LateAck(b, sample) + Wipe() }

  /** After one byte, sent and acknowledged, the connection never sends another, in any continuation. */
  lemma RecheckBlocksForever(b: byte, sample: nat, more: seq<Step>)
    ensures Legal(Interleaved.INITIAL, WipedRun(b, sample))
    ensures var w := Exec(Interleaved.INITIAL, WipedRun(b, sample));
            Legal(w, more) ==> Exec(w, more).snd.nextseq == 2 && Exec(w, more).snd.ctl.isRetransing
  {
    var a := Races.FirstSteps(b);
    Races.FirstOutRuns(b);
    LateAckRuns(b, sample);
    A.ExecAppend(Interleaved.INITIAL, a, LateAck(b, sample));
    var v := Exec(Interleaved.INITIAL, a + LateAck(b, sample));
    SafeInitially();
    SafeRun(Interleaved.INITIAL, a + LateAck(b, sample));
    WipeRuns(v);
    A.ExecAppend(Interleaved.INITIAL, a + LateAck(b, sample), Wipe());
    var w := Exec(Interleaved.INITIAL, WipedRun(b, sample));
    if Legal(w, more) {
      BlockedForever(w, more);
    }
  }
}
