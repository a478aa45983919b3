/** Flow control under interleaving: exactly which segments break it. */
module InterleavedFlow {
  import opened Global
  import opened SenderCore
  import opened Interleaved
  import Congestion
  import Reassembly
  import A = Atomic
  import R = RunInvariants

  predicate Flow(w: World) {
    && Outstanding(w) <= MAX_RWINDOW_SIZE
    && w.snd.cong.rwnd <= MAX_RWINDOW_SIZE
    && Congestion.Inv(w.snd.cong)
    && R.NetInWindow(w)
  }

  // ----- segment by segment -----

  /** A first-sent segment ends no further than 44000 bytes behind ack_cnt as it is then. */
  predicate SegmentFits(w: World, st: Step)
    requires Enabled(w, st)
  {
    st.BurstOne? ==> w.snd.have + SendLen(w.snd, w.burst.value) <= w.snd.ackCnt + MAX_RWINDOW_SIZE
  }

  lemma FlowBurstOne(w: World)
    requires Safe(w) && Flow(w) && Enabled(w, BurstOne)
    ensures Flow(Apply(w, BurstOne)) <==> SegmentFits(w, BurstOne)
  {
    R.WindowsStay(w, Apply(w, BurstOne));
  }

  lemma FlowResendOne(w: World)
    requires Safe(w) && Flow(w) && Enabled(w, ResendOne)
    ensures Flow(Apply(w, ResendOne))
  {
    R.WindowsStay(w, Apply(w, ResendOne));
    ResendNamed(w);
  }

  lemma FlowPass(w: World, st: Step)
    requires Safe(w) && Flow(w) && Enabled(w, st)
    requires st.RetransTop? || st.RetransRecheck? || st.RetransLock? || st.ResendEnd?
    ensures Flow(Apply(w, st))
  {
    Congestion.InvKept(w.snd.cong, Congestion.Timeout);
    R.WindowsStay(w, Apply(w, st));
  }

  lemma FlowAckArrives(w: World, st: Step)
    requires Safe(w) && Flow(w) && Enabled(w, st) && st.AckArrives?
    ensures Flow(Apply(w, st))
  {
    assert PacketOk(w, Ack(st.ack, st.adv));
    Congestion.InvKept(w.snd.cong, AckEvent(w.snd, st.ack, st.adv));
    AckArrivesFrame(w, st.ack, st.adv, st.sample);
    R.WindowsStay(w, Apply(w, st));
  }

  /** Whatever the schedule, a step keeps flow control unless it is a first-sent segment that does not fit. */
  lemma FlowStep(w: World, st: Step)
    requires Safe(w) && Flow(w) && Enabled(w, st)
    ensures Flow(Apply(w, st)) <==> SegmentFits(w, st)
  {
    match st
    case BurstOne => FlowBurstOne(w);
    case RetransTop => FlowPass(w, st);
    case RetransRecheck => FlowPass(w, st);
    case RetransLock => FlowPass(w, st);
    case ResendOne => FlowResendOne(w);
    case ResendEnd => FlowPass(w, st);
    case AckArrives(_, _, _) => FlowAckArrives(w, st);
    case Compact =>
      ZeroWindowFrame(SenderCore.Compact(w.snd));
      R.WindowsStay(w, Apply(w, st));
    case _ => R.WindowsStay(w, Apply(w, st));
  }

  predicate AlwaysFlow(w: World, steps: seq<Step>)
    requires Legal(w, steps)
    decreases |steps|
  {
    Flow(w) && (|steps| == 0 || AlwaysFlow(Apply(w, steps[0]), steps[1..]))
  }

  predicate AlwaysFits(w: World, steps: seq<Step>)
    requires Legal(w, steps)
    decreases |steps|
  {
    |steps| == 0 || (SegmentFits(w, steps[0]) && AlwaysFits(Apply(w, steps[0]), steps[1..]))
  }

  lemma {:induction false} FlowRun(w: World, steps: seq<Step>)
    requires Safe(w) && Flow(w) && Legal(w, steps)
    ensures AlwaysFlow(w, steps) <==> AlwaysFits(w, steps)
    ensures AlwaysFlow(w, steps) ==> Safe(Exec(w, steps)) && Flow(Exec(w, steps))
    decreases |steps|
  {
    if |steps| > 0 {
      SafeStep(w, steps[0]);
      FlowStep(w, steps[0]);
      if Flow(Apply(w, steps[0])) {
        FlowRun(Apply(w, steps[0]), steps[1..]);
      }
    }
  }

  /** At most 44000 bytes are outstanding and every segment in the network ends by base + 44000, in every state
      of an interleaved run, iff every first-sent segment fits where it is sent. */
  lemma FlowControlInterleaved(steps: seq<Step>)
    requires Legal(Interleaved.INITIAL, steps)
    ensures AlwaysFlow(Interleaved.INITIAL, steps) <==> AlwaysFits(Interleaved.INITIAL, steps)
  {
    SafeInitially();
    FlowRun(Interleaved.INITIAL, steps);
  }

  // ----- decided when the lock is taken -----

  /** What the burst is about to send, seen when it takes send_lock: all of the buffer, or the window its snapshot saw
      laid on the ack_cnt its snapshot saw. */
  predicate TakenWithin(w: World, st: Step)
    requires Enabled(w, st)
  {
    st.BurstBegin? ==>
      || |w.snd.buf| <= w.snd.ackCnt + MAX_RWINDOW_SIZE
      || w.snap.value.ackCnt + w.snap.value.wnd <= w.snd.ackCnt + MAX_RWINDOW_SIZE
  }

  predicate BurstWithin(w: World) {
    w.burst.Some? ==> w.burst.value.end <= w.snd.ackCnt + MAX_RWINDOW_SIZE
  }

  lemma BurstWithinKept(w: World, st: Step)
    requires Safe(w) && BurstWithin(w) && Enabled(w, st) && TakenWithin(w, st)
    ensures SegmentFits(w, st) && BurstWithin(Apply(w, st))
  {
    match st
    case AckArrives(ack, adv, sample) => AckArrivesFrame(w, ack, adv, sample);
    case _ =>
  }

  predicate AlwaysTakenWithin(w: World, steps: seq<Step>)
    requires Legal(w, steps)
    decreases |steps|
  {
    |steps| == 0 || (TakenWithin(w, steps[0]) && AlwaysTakenWithin(Apply(w, steps[0]), steps[1..]))
  }

  lemma {:induction false} TakenFits(w: World, steps: seq<Step>)
    requires Safe(w) && BurstWithin(w) && Legal(w, steps) && AlwaysTakenWithin(w, steps)
    ensures AlwaysFits(w, steps)
    decreases |steps|
  {
    if |steps| > 0 {
      SafeStep(w, steps[0]);
      BurstWithinKept(w, steps[0]);
      TakenFits(Apply(w, steps[0]), steps[1..]);
    }
  }

  /** So a run keeps flow control if every burst is within the window when it takes the lock. */
  lemma FlowControlTaken(steps: seq<Step>)
    requires Legal(Interleaved.INITIAL, steps) && AlwaysTakenWithin(Interleaved.INITIAL, steps)
    ensures AlwaysFlow(Interleaved.INITIAL, steps)
  {
    SafeInitially();
    TakenFits(Interleaved.INITIAL, steps);
    FlowControlInterleaved(steps);
  }

  /** And one that is not, left to itself, breaks it: from any reachable state the undisturbed burst keeps flow control
      iff it is within the window when it takes the lock. */
  lemma UndisturbedBurst(w: World)
    requires Safe(w) && Flow(w) && Enabled(w, BurstBegin)
    ensures var st := [BurstBegin] + A.BurstSteps(w.snd, SendingOf(w.snd, w.snap.value));
            Legal(w, st) && (Flow(Exec(w, st)) <==> TakenWithin(w, BurstBegin))
  {
    var st := [BurstBegin] + A.BurstSteps(w.snd, SendingOf(w.snd, w.snap.value));
    A.SnapRuns(w);
    SafeRun(w, st);
    BurstFrame(w.snd, w.snap.value);
    var v := Exec(w, st);
    if TakenWithin(w, BurstBegin) {
      R.WindowsStay(w, v);
      if w.snd.have < SenderCore.BurstEnd(w.snd, w.snap.value) {
        R.SegmentsEnd(v, w.snd.buf[w.snd.have..SenderCore.BurstEnd(w.snd, w.snap.value)], w.snap.value.nextseq);
      }
    }
  }

  /** What may happen up to the end of the burst: anything but another taking of the lock for a burst. */
  predicate OneBurst(more: seq<Step>) { forall st <- more :: !st.BurstBegin? }

  ghost predicate AllContinuationsFlow(w: World)
    requires Enabled(w, BurstBegin)
  {
    forall more: seq<Step> ::
      OneBurst(more) && Legal(Apply(w, BurstBegin), more) ==> AlwaysFlow(Apply(w, BurstBegin), more)
  }

  lemma {:induction false} OneBurstTaken(w: World, more: seq<Step>)
    requires Legal(w, more) && OneBurst(more)
    ensures AlwaysTakenWithin(w, more)
    decreases |more|
  {
    if |more| > 0 {
      assert more[0] in more;
      OneBurstTaken(Apply(w, more[0]), more[1..]);
    }
  }

  lemma {:induction false} FlowAtEnd(w: World, steps: seq<Step>)
    requires Legal(w, steps) && AlwaysFlow(w, steps)
    ensures Flow(Exec(w, steps))
    decreases |steps|
  {
    if |steps| > 0 {
      FlowAtEnd(Apply(w, steps[0]), steps[1..]);
    }
  }

  /** From every state: the burst that takes the lock now keeps flow control, whatever else happens until it ends,
      iff it is within the window as it takes it. */
  lemma TakenIff(w: World)
    requires Safe(w) && Flow(w) && Enabled(w, BurstBegin)
    ensures AllContinuationsFlow(w) <==> TakenWithin(w, BurstBegin)
  {
    var v := Apply(w, BurstBegin);
    SafeStep(w, BurstBegin);
    FlowStep(w, BurstBegin);
    if TakenWithin(w, BurstBegin) {
      forall more: seq<Step> | OneBurst(more) && Legal(v, more)
        ensures AlwaysFlow(v, more)
      {
        OneBurstTaken(v, more);
        TakenFits(v, more);
        FlowRun(v, more);
      }
    } else {
      var st := A.BurstSteps(w.snd, SendingOf(w.snd, w.snap.value));
      UndisturbedBurst(w);
      assert ([BurstBegin] + st)[1..] == st;
      if AlwaysFlow(v, st) {
        FlowAtEnd(v, st);
      }
    }
  }

  // ----- compaction is the only way out -----

  /** Compaction renumbers the offsets: if it never falls between a snapshot and its burst, every burst is within. */
  predicate Unmoved(w: World, st: Step) { st.Compact? ==> w.snap.None? }

  /** A pending snapshot has a window within bounds and starts no later than the acknowledged prefix now ends. */
  predicate SnapWithin(w: World) {
    w.snap.Some? ==> w.snap.value.ackCnt <= w.snd.ackCnt && w.snap.value.wnd <= MAX_RWINDOW_SIZE
  }

  lemma SnapWithinKept(w: World, st: Step)
    requires Safe(w) && Flow(w) && SnapWithin(w) && Enabled(w, st) && Unmoved(w, st)
    ensures TakenWithin(w, st) && SnapWithin(Apply(w, st))
  {
    match st
    case AckArrives(ack, adv, sample) => AckArrivesFrame(w, ack, adv, sample);
    case _ =>
  }

  predicate UnmovedRun(w: World, steps: seq<Step>)
    requires Legal(w, steps)
    decreases |steps|
  {
    |steps| == 0 || (Unmoved(w, steps[0]) && UnmovedRun(Apply(w, steps[0]), steps[1..]))
  }

  lemma {:induction false} UnmovedFlow(w: World, steps: seq<Step>)
    requires Safe(w) && Flow(w) && BurstWithin(w) && SnapWithin(w) && Legal(w, steps) && UnmovedRun(w, steps)
    ensures AlwaysFlow(w, steps) && Safe(Exec(w, steps)) && Flow(Exec(w, steps))
    decreases |steps|
  {
    if |steps| > 0 {
      SafeStep(w, steps[0]);
      SnapWithinKept(w, steps[0]);
      BurstWithinKept(w, steps[0]);
      FlowStep(w, steps[0]);
      UnmovedFlow(Apply(w, steps[0]), steps[1..]);
    }
  }

  /** In particular in every run that never compacts under a pending snapshot, however many ACKs a snapshot is behind;
      the receiver then refuses a segment for lack of window exactly when it ends at expected + 44000. */
  lemma FlowControlUnmoved(steps: seq<Step>, q: nat, payload: seq<byte>)
    requires Legal(Interleaved.INITIAL, steps) && UnmovedRun(Interleaved.INITIAL, steps)
    ensures AlwaysFlow(Interleaved.INITIAL, steps)
    ensures var w := Exec(Interleaved.INITIAL, steps);
            Data(q, payload) in w.net && payload != [] ==>
              && q + |payload| <= w.rcv.expected + MAX_RWINDOW_SIZE
              && (!Reassembly.FitsWindow(w.rcv, q, |payload|) <==> q + |payload| == w.rcv.expected + MAX_RWINDOW_SIZE)
  {
    SafeInitially();
    UnmovedFlow(Interleaved.INITIAL, steps);
    var w := Exec(Interleaved.INITIAL, steps);
    if Data(q, payload) in w.net {
      assert R.EndsInWindow(w, Data(q, payload));
    }
  }
}
