/** Wake-up under interleaving: exactly which steps lose it. */
module InterleavedWakeup {
  import opened Global
  import opened SenderCore
  import opened Interleaved
  import Congestion
  import RttEstimator

  /** An ACK handler is waiting for send_lock and will start the timer when it finds the window closed. */
  predicate Closing(w: World) { w.compacting && w.snd.cong.wnd == 0 }

  /** Something is due that gets the sender going. */
  predicate Pending(w: World) { w.snd.ctl.armed || w.snd.ctl.retrans || Closing(w) }

  /** The pass has yet to resend the first unacknowledged segment, and will start the timer with it. */
  predicate FirstToCome(w: World) { w.pass.Some? && w.snd.ackCnt == w.pass.value.cur < w.pass.value.end }

  /** Outstanding bytes, a sending thread held back by is_retransing, a closed window: each has something due. At
      the end of a pass both flags fall, so inside one RETRANS does not count. */
  predicate WakeOk(w: World) {
    if w.pass.None? then Outstanding(w) > 0 || w.snd.ctl.isRetransing || w.snd.cong.wnd == 0 ==> Pending(w)
    else Outstanding(w) > 0 || w.snd.cong.wnd == 0 ==> w.snd.ctl.armed || Closing(w) || FirstToCome(w)
  }

  /** Can be told before the step: a timer start that succeeds, or does not matter; an expiry outside a pass, or
      early enough in it; an ACK that does not stop the timer of bytes not yet published in nextseq; a recheck that
      does not wipe out the only thing due; a pass with something to resend. */
  predicate Harmless(w: World, st: Step) {
    var s := w.snd;
    match st
    case BurstOne =>
      w.burst.Some? && if w.burst.value.base == w.burst.value.q then Starts(s) || Closing(w) else Pending(w)
    case RetransTop => s.cong.wnd == 0 ==> Starts(s) || w.compacting
    case RetransRecheck => s.ackCnt < s.have || (s.ctl.isRetransing || s.cong.wnd == 0 ==> s.ctl.armed || Closing(w))
    case RetransLock => s.ackCnt < s.have || PassBegin(s).cong.wnd > 0 || s.ctl.armed || w.compacting
    case ResendOne => w.pass.Some? && s.ackCnt == w.pass.value.cur ==> Starts(s) || Closing(w)
    case TimerFires =>
      w.pass.Some? && (Outstanding(w) > 0 || s.cong.wnd == 0) ==> Closing(w) || FirstToCome(w)
    case AckArrives(ack, adv, sample) => HarmlessAck(w, ack, adv, sample)
    case Compact => s.cong.wnd == 0 ==> Starts(s)
    case _ => true
  }

  predicate HarmlessAck(w: World, ack: nat, adv: nat, sample: nat) {
    var s := w.snd;
    var t, closed := TakeSample(s, ack, sample), Congestion.Apply(s.cong, AckEvent(s, ack, adv)).wnd == 0;
    if ack <= s.base then closed ==> Starts(s) || FirstToCome(w)
    else
      var waits := closed && NeedsCompaction(Slide(s, ack));
      if ack != s.nextseq then
        Starts(t) || waits || (w.pass.Some? && Slide(s, ack).ackCnt == w.pass.value.cur < w.pass.value.end)
      else if closed then waits || RttEstimator.Arms(t.rtt)
      else Frontier(w) == ack || s.ctl.retrans
  }

  predicate Known(w: World) { Safe(w) && Congestion.Inv(w.snd.cong) }

  lemma CongKept(w: World, st: Step)
    requires Congestion.Inv(w.snd.cong) && Enabled(w, st)
    ensures Congestion.Inv(Apply(w, st).snd.cong)
  {
    match st
    case AckArrives(ack, adv, sample) =>
      AckArrivesFrame(w, ack, adv, sample);
      Congestion.InvKept(w.snd.cong, AckEvent(w.snd, ack, adv));
    case Compact => ZeroWindowFrame(SenderCore.Compact(w.snd));
    case RetransLock => Congestion.InvKept(w.snd.cong, Congestion.Timeout);
    case _ =>
  }

  lemma KnownStep(w: World, st: Step)
    requires Known(w) && Enabled(w, st)
    ensures Known(Apply(w, st))
  {
    SafeStep(w, st);
    CongKept(w, st);
  }

  lemma {:induction false} KnownRun(w: World, steps: seq<Step>)
    requires Known(w) && Legal(w, steps)
    ensures Known(Exec(w, steps))
    decreases |steps|
  {
    if |steps| > 0 {
      KnownStep(w, steps[0]);
      KnownRun(Apply(w, steps[0]), steps[1..]);
    }
  }

  lemma WakeOtherAck(w: World, ack: nat, adv: nat, sample: nat)
    requires Known(w) && WakeOk(w) && Enabled(w, AckArrives(ack, adv, sample)) && ack <= w.snd.base
    ensures WakeOk(Apply(w, AckArrives(ack, adv, sample))) <==> HarmlessAck(w, ack, adv, sample)
  {
    AckArrivesFrame(w, ack, adv, sample);
    OtherAckFlags(w.snd, ack, adv);
  }

  lemma WakeNewAck(w: World, ack: nat, adv: nat, sample: nat)
    requires Known(w) && WakeOk(w) && Enabled(w, AckArrives(ack, adv, sample)) && ack > w.snd.base
    ensures WakeOk(Apply(w, AckArrives(ack, adv, sample))) <==> HarmlessAck(w, ack, adv, sample)
  {
    assert PacketOk(w, Ack(ack, adv));
    AckArrivesFrame(w, ack, adv, sample);
    NewAckFlags(w.snd, ack, adv, sample);
  }

  lemma WakePass(w: World, st: Step)
    requires Known(w) && WakeOk(w) && Enabled(w, st) && (st.RetransLock? || st.ResendOne? || st.ResendEnd?)
    ensures WakeOk(Apply(w, st)) <==> Harmless(w, st)
  {
  }

  lemma WakeHead(w: World, st: Step)
    requires Known(w) && WakeOk(w) && Enabled(w, st) && (st.RetransTop? || st.RetransLook? || st.RetransRecheck?)
    ensures WakeOk(Apply(w, st)) <==> Harmless(w, st)
  {
  }

  lemma WakeBurst(w: World, st: Step)
    requires Known(w) && WakeOk(w) && Enabled(w, st) && (st.BurstBegin? || st.BurstOne? || st.BurstEnd?)
    ensures WakeOk(Apply(w, st)) <==> Harmless(w, st)
  {
  }

  /** Each step keeps the wake-up iff it is harmless. */
  lemma WakeStep(w: World, st: Step)
    requires Known(w) && WakeOk(w) && Enabled(w, st)
    ensures WakeOk(Apply(w, st)) <==> Harmless(w, st)
  {
    match st
    case RetransTop => WakeHead(w, st);
    case RetransLook => WakeHead(w, st);
    case RetransRecheck => WakeHead(w, st);
    case RetransLock => WakePass(w, st);
    case BurstBegin => WakeBurst(w, st);
    case BurstOne => WakeBurst(w, st);
    case BurstEnd => WakeBurst(w, st);
    case ResendOne => WakePass(w, st);
    case ResendEnd => WakePass(w, st);
    case AckArrives(ack, adv, sample) =>
      if ack <= w.snd.base { WakeOtherAck(w, ack, adv, sample); } else { WakeNewAck(w, ack, adv, sample); }
    case Compact => ZeroWindowFrame(SenderCore.Compact(w.snd));
    case _ =>
  }

  predicate AlwaysWake(w: World, steps: seq<Step>)
    requires Legal(w, steps)
    decreases |steps|
  {
    WakeOk(w) && (|steps| == 0 || AlwaysWake(Apply(w, steps[0]), steps[1..]))
  }

  predicate AlwaysHarmless(w: World, steps: seq<Step>)
    requires Legal(w, steps)
    decreases |steps|
  {
    |steps| == 0 || (Harmless(w, steps[0]) && AlwaysHarmless(Apply(w, steps[0]), steps[1..]))
  }

  lemma {:induction false} WakeRun(w: World, steps: seq<Step>)
    requires Known(w) && WakeOk(w) && Legal(w, steps)
    ensures AlwaysWake(w, steps) <==> AlwaysHarmless(w, steps)
    decreases |steps|
  {
    if |steps| > 0 {
      KnownStep(w, steps[0]);
      WakeStep(w, steps[0]);
      if WakeOk(Apply(w, steps[0])) {
        WakeRun(Apply(w, steps[0]), steps[1..]);
      }
    }
  }

  /** In every interleaved run: no state lacks a wake-up iff every step is harmless. */
  lemma NoLostWakeupInterleaved(steps: seq<Step>)
    requires Legal(Interleaved.INITIAL, steps)
    ensures AlwaysWake(Interleaved.INITIAL, steps) <==> AlwaysHarmless(Interleaved.INITIAL, steps)
  {
    SafeInitially();
    WakeRun(Interleaved.INITIAL, steps);
  }

  // ----- with intervals setitimer accepts: four races, no more -----

  /** An expiry inside a pass, after the first unacknowledged segment is out again. */
  predicate ExpiryLost(w: World, st: Step) {
    && st.TimerFires? && w.pass.Some? && (Outstanding(w) > 0 || w.snd.cong.wnd == 0)
    && !Closing(w) && !FirstToCome(w)
  }

  /** A segment sent on a snapshot with bytes outstanding, all acknowledged since, with nothing else due. */
  predicate StaleSegment(w: World, st: Step) {
    st.BurstOne? && w.burst.Some? && w.burst.value.base != w.burst.value.q && Outstanding(w) == 0 && !Pending(w)
  }

  /** The ACK of everything published, with the bytes of a running burst behind it. */
  predicate UnpublishedAck(w: World, st: Step) {
    && st.AckArrives? && st.ack > w.snd.base && st.ack == w.snd.nextseq < Frontier(w) && !w.snd.ctl.retrans
    && Congestion.Apply(w.snd.cong, AckEvent(w.snd, st.ack, st.adv)).wnd > 0
  }

  /** Between the look at is_retransing and RETRANS=FALSE a third duplicate has raised both flags, or the window has
      closed and its timer expired, with nothing unacknowledged to raise RETRANS again. */
  predicate RecheckWipes(w: World, st: Step) {
    && st.RetransRecheck? && w.snd.ackCnt >= w.snd.have && (w.snd.ctl.isRetransing || w.snd.cong.wnd == 0)
    && !w.snd.ctl.armed && !Closing(w)
  }

  predicate Race(w: World, st: Step) {
    ExpiryLost(w, st) || StaleSegment(w, st) || UnpublishedAck(w, st) || RecheckWipes(w, st)
  }

  /** The peer's window is never zero, and a closed window has its timer, or its timer has expired. */
  predicate Timed(w: World) {
    && w.snd.cong.rwnd >= 1
    && (w.snd.cong.wnd == 0 && !w.compacting ==> w.snd.ctl.armed || w.snd.ctl.timeoutFlag)
  }

  lemma TimedAck(w: World, ack: nat, adv: nat, sample: nat)
    requires Known(w) && Enabled(w, AckArrives(ack, adv, sample))
    requires RttEstimator.Arms(w.snd.rtt) && RttEstimator.Arms(Apply(w, AckArrives(ack, adv, sample)).snd.rtt)
    ensures Timed(Apply(w, AckArrives(ack, adv, sample)))
  {
    assert PacketOk(w, Ack(ack, adv));
    AckArrivesFrame(w, ack, adv, sample);
    if ack > w.snd.base {
      NewAckFrame(w.snd, ack, adv, sample);
      NewAckFlags(w.snd, ack, adv, sample);
    }
  }

  lemma TimedThread(w: World, st: Step)
    requires Known(w) && Timed(w) && Enabled(w, st) && ThreadStep(st) && RttEstimator.Arms(w.snd.rtt)
    ensures Timed(Apply(w, st))
  {
  }

  lemma TimedStep(w: World, st: Step)
    requires Known(w) && Timed(w) && Enabled(w, st)
    requires RttEstimator.Arms(w.snd.rtt) && RttEstimator.Arms(Apply(w, st).snd.rtt)
    ensures Timed(Apply(w, st))
  {
    match st
    case AckArrives(ack, adv, sample) => TimedAck(w, ack, adv, sample);
    case Compact => ZeroWindowFrame(SenderCore.Compact(w.snd));
    case _ =>
      if ThreadStep(st) {
        TimedThread(w, st);
      }
  }

  lemma RacingAck(w: World, st: Step)
    requires Known(w) && WakeOk(w) && Enabled(w, st) && st.AckArrives?
    requires RttEstimator.Arms(w.snd.rtt) && RttEstimator.Arms(Apply(w, st).snd.rtt)
    ensures Harmless(w, st) <==> !UnpublishedAck(w, st)
  {
    assert PacketOk(w, Ack(st.ack, st.adv));
    AckArrivesFrame(w, st.ack, st.adv, st.sample);
  }

  lemma OnlyFourRaces(w: World, st: Step)
    requires Known(w) && WakeOk(w) && Timed(w) && Enabled(w, st)
    requires RttEstimator.Arms(w.snd.rtt) && RttEstimator.Arms(Apply(w, st).snd.rtt)
    ensures Harmless(w, st) <==> !Race(w, st)
  {
    if st.AckArrives? {
      RacingAck(w, st);
    }
  }

  predicate ArmsRun(w: World, steps: seq<Step>)
    requires Legal(w, steps)
    decreases |steps|
  {
    RttEstimator.Arms(w.snd.rtt) && (|steps| == 0 || ArmsRun(Apply(w, steps[0]), steps[1..]))
  }

  predicate RaceFree(w: World, steps: seq<Step>)
    requires Legal(w, steps)
    decreases |steps|
  {
    |steps| == 0 || (!Race(w, steps[0]) && RaceFree(Apply(w, steps[0]), steps[1..]))
  }

  lemma {:induction false} RaceRun(w: World, steps: seq<Step>)
    requires Known(w) && WakeOk(w) && Timed(w) && Legal(w, steps) && ArmsRun(w, steps)
    ensures AlwaysHarmless(w, steps) <==> RaceFree(w, steps)
    decreases |steps|
  {
    if |steps| > 0 {
      OnlyFourRaces(w, steps[0]);
      KnownStep(w, steps[0]);
      WakeStep(w, steps[0]);
      TimedStep(w, steps[0]);
      if WakeOk(Apply(w, steps[0])) {
        RaceRun(Apply(w, steps[0]), steps[1..]);
      }
    }
  }

  /** In every interleaved run with armable intervals: no state lacks a wake-up iff none of the four races occurs. */
  lemma NoLostWakeupArmable(steps: seq<Step>)
    requires Legal(Interleaved.INITIAL, steps) && ArmsRun(Interleaved.INITIAL, steps)
    ensures AlwaysWake(Interleaved.INITIAL, steps) <==> RaceFree(Interleaved.INITIAL, steps)
  {
    SafeInitially();
    RaceRun(Interleaved.INITIAL, steps);
    NoLostWakeupInterleaved(steps);
  }

  // ----- schedules that avoid them -----

  /** The timer does not expire inside a pass, no ACK advances the window between a snapshot and the end of its burst,
      and none arrives while retrans_thread is between its look at the window and its pass or recheck. */
  predicate Orderly(w: World, st: Step) {
    && (st.TimerFires? ==> w.pass.None?)
    && (st.AckArrives? ==> w.head.AtTop? && (st.ack > w.snd.base ==> w.snap.None? && w.burst.None?))
  }

  /** Then base is where snapshot and burst saw it, and window and flag are what retrans_thread saw. */
  predicate Kept(w: World) {
    && (w.snap.Some? ==> w.snap.value.base == w.snd.base)
    && (w.burst.Some? ==> w.burst.value.base == w.snd.base)
    && (!w.head.AtTop? ==> w.snd.cong.wnd > 0)
    && (w.head.Rechecking? && w.snd.ctl.isRetransing ==> Outstanding(w) > 0)
  }

  lemma OrderlyStep(w: World, st: Step)
    requires Known(w) && WakeOk(w) && Timed(w) && Kept(w) && Enabled(w, st) && Orderly(w, st)
    requires RttEstimator.Arms(w.snd.rtt) && RttEstimator.Arms(Apply(w, st).snd.rtt)
    ensures !Race(w, st) && Kept(Apply(w, st))
  {
    KeptStep(w, st);
  }

  lemma KeptStep(w: World, st: Step)
    requires Known(w) && Kept(w) && Enabled(w, st) && Orderly(w, st)
    ensures Kept(Apply(w, st))
  {
    match st
    case AckArrives(ack, adv, sample) => AckArrivesFrame(w, ack, adv, sample);
    case Compact => ZeroWindowFrame(SenderCore.Compact(w.snd));
    case _ =>
  }

  predicate OrderlyRun(w: World, steps: seq<Step>)
    requires Legal(w, steps)
    decreases |steps|
  {
    |steps| == 0 || (Orderly(w, steps[0]) && OrderlyRun(Apply(w, steps[0]), steps[1..]))
  }

  lemma {:induction false} OrderlyRaceFree(w: World, steps: seq<Step>)
    requires Known(w) && WakeOk(w) && Timed(w) && Kept(w)
    requires Legal(w, steps) && ArmsRun(w, steps) && OrderlyRun(w, steps)
    ensures RaceFree(w, steps)
    decreases |steps|
  {
    if |steps| > 0 {
      OrderlyStep(w, steps[0]);
      OnlyFourRaces(w, steps[0]);
      KnownStep(w, steps[0]);
      WakeStep(w, steps[0]);
      TimedStep(w, steps[0]);
      OrderlyRaceFree(Apply(w, steps[0]), steps[1..]);
    }
  }

  lemma OrderlyKeepsWakeup(steps: seq<Step>)
    requires Legal(Interleaved.INITIAL, steps) && ArmsRun(Interleaved.INITIAL, steps)
    requires OrderlyRun(Interleaved.INITIAL, steps)
    ensures AlwaysWake(Interleaved.INITIAL, steps)
  {
    SafeInitially();
    OrderlyRaceFree(Interleaved.INITIAL, steps);
    NoLostWakeupArmable(steps);
  }
}
