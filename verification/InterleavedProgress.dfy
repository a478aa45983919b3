/** Progress from inside critical sections: whatever the threads are in the middle of, they can finish it and bring base
    forward, as long as a wake-up is due. */
module InterleavedProgress {
  import opened Global
  import opened SenderCore
  import opened Interleaved
  import A = Atomic
  import P = Progress
  import W = InterleavedWakeup

  /** A segment that starts at base is under way. */
  predicate BaseOut(w: World) { exists p <- w.net :: p.Data? && p.q == w.snd.base && 1 <= |p.payload| <= MAX_DLEN }

  /** Something will get base moving. */
  predicate Due(w: World) { P.Awake(w.snd) || BaseOut(w) }

  /** What finishing a critical section leaves alone. */
  predicate Same(w: World, v: World) {
    && v.stream == w.stream && v.rcv == w.rcv && v.snd.base == w.snd.base
    && (w.snd.cong.wnd > 0 ==> v.snd.cong.wnd > 0)
    && w.net <= v.net && Frontier(w) <= Frontier(v)
  }

  /** steps lead from w to where only what they finish has changed. */
  predicate Finishes(w: World, steps: seq<Step>) {
    Legal(w, steps) && W.Known(Exec(w, steps)) && Same(w, Exec(w, steps))
  }

  lemma FinishesStep(w: World, st: Step, rest: seq<Step>)
    requires Enabled(w, st) && Same(w, Apply(w, st)) && Finishes(Apply(w, st), rest)
    ensures Finishes(w, [st] + rest) && Exec(w, [st] + rest) == Exec(Apply(w, st), rest)
  {
    A.Exec2(w, st, rest);
  }

  lemma FinishesAppend(w: World, a: seq<Step>, b: seq<Step>)
    requires Finishes(w, a) && Finishes(Exec(w, a), b)
    ensures Finishes(w, a + b) && Exec(w, a + b) == Exec(Exec(w, a), b)
  {
    A.ExecAppend(w, a, b);
  }

  // ----- a pass -----

  lemma PassOne(w: World)
    requires W.Known(w) && Enabled(w, ResendOne)
    requires w.snd.ctl.armed || W.FirstToCome(w) || BaseOut(w)
    ensures var v := Apply(w, ResendOne);
            && W.Known(v) && Same(w, v) && v.snap == w.snap && v.compacting == w.compacting && v.pass.Some?
            && (v.snd.ctl.armed || BaseOut(v))
  {
    W.KnownStep(w, ResendOne);
    ResendNamed(w);
    var v, p := Apply(w, ResendOne), ResendPacket(w.snd, w.pass.value);
    assert p in v.net;
    RetransFrame(w.snd, w.pass.value);
  }

  /** The pass runs to its end, and leaves the timer running unless it has sent the segment at base. */
  lemma {:induction false} FinishPass(w: World) returns (steps: seq<Step>)
    requires W.Known(w) && w.pass.Some?
    requires w.snd.ctl.armed || W.FirstToCome(w) || BaseOut(w)
    ensures Finishes(w, steps)
    ensures var v := Exec(w, steps);
            && v.pass.None? && v.burst.None? && v.head.AtTop?
            && v.snap == w.snap && v.compacting == w.compacting && Due(v)
    decreases w.pass.value.end - w.pass.value.cur
  {
    if w.pass.value.cur < w.pass.value.end {
      PassOne(w);
      var rest := FinishPass(Apply(w, ResendOne));
      FinishesStep(w, ResendOne, rest);
      steps := [ResendOne] + rest;
    } else {
      W.KnownStep(w, ResendEnd);
      FinishesStep(w, ResendEnd, []);
      steps := [ResendEnd] + [];
    }
  }

  // ----- a burst -----

  /** With bytes outstanding a burst does not touch the timer. */
  lemma BurstOneKeeps(w: World)
    requires W.Known(w) && Enabled(w, BurstOne) && Outstanding(w) > 0 && Due(w)
    ensures var v := Apply(w, BurstOne);
            && W.Known(v) && Same(w, v) && v.compacting == w.compacting && v.head == w.head
            && v.burst.Some? && Outstanding(v) > 0 && Due(v)
  {
    W.KnownStep(w, BurstOne);
    var v := Apply(w, BurstOne);
    assert v.snd.ctl == w.snd.ctl;
    assert BaseOut(w) ==> BaseOut(v);
  }

  lemma {:induction false} FinishBurst(w: World) returns (steps: seq<Step>)
    requires W.Known(w) && w.burst.Some? && Outstanding(w) > 0 && Due(w)
    ensures Finishes(w, steps)
    ensures var v := Exec(w, steps);
            && v.pass.None? && v.burst.None? && v.snap.None?
            && v.head == w.head && v.compacting == w.compacting && Due(v)
    decreases w.burst.value.end - w.snd.have
  {
    if w.snd.have < w.burst.value.end {
      BurstOneKeeps(w);
      var rest := FinishBurst(Apply(w, BurstOne));
      FinishesStep(w, BurstOne, rest);
      steps := [BurstOne] + rest;
    } else {
      W.KnownStep(w, BurstEnd);
      FinishesStep(w, BurstEnd, []);
      steps := [BurstEnd] + [];
    }
  }

  /** The thread between its snapshot and the lock takes the lock and finishes. */
  lemma FinishSnap(w: World) returns (steps: seq<Step>)
    requires W.Known(w) && Lockfree(w) && Outstanding(w) > 0 && Due(w)
    ensures Finishes(w, steps)
    ensures var v := Exec(w, steps);
            && v.pass.None? && v.burst.None? && v.snap.None?
            && v.head == w.head && v.compacting == w.compacting && Due(v)
  {
    if w.snap.Some? {
      W.KnownStep(w, BurstBegin);
      var rest := FinishBurst(Apply(w, BurstBegin));
      FinishesStep(w, BurstBegin, rest);
      steps := [BurstBegin] + rest;
    } else {
      steps := [];
    }
  }

  // ----- a compaction -----

  lemma FinishCompact(w: World) returns (steps: seq<Step>)
    requires W.Known(w) && Lockfree(w) && w.snd.cong.wnd > 0 && Due(w)
    ensures Finishes(w, steps)
    ensures var v := Exec(w, steps);
            v.pass.None? && v.burst.None? && v.snap == w.snap && v.head == w.head && !v.compacting && Due(v)
  {
    if w.compacting {
      W.KnownStep(w, Compact);
      var v := Apply(w, Compact);
      assert v.snd == SenderCore.Compact(w.snd);
      FinishesStep(w, Compact, []);
      steps := [Compact] + [];
    } else {
      steps := [];
    }
  }

  // ----- retrans_thread before its lock -----

  /** It rechecks, or takes the lock and resends. With bytes outstanding the recheck leaves RETRANS up. */
  lemma FinishHead(w: World) returns (steps: seq<Step>)
    requires W.Known(w) && Lockfree(w) && Outstanding(w) > 0 && w.snd.cong.wnd > 0 && Due(w)
    ensures Finishes(w, steps)
    ensures var v := Exec(w, steps);
            && v.pass.None? && v.burst.None? && v.head.AtTop?
            && v.snap == w.snap && v.compacting == w.compacting && Due(v)
    decreases if w.head.SeenOpen? then 1 else 0
  {
    match w.head
    case AtTop => steps := [];
    case SeenOpen =>
      LookKeeps(w);
      var rest := FinishHead(Apply(w, RetransLook));
      FinishesStep(w, RetransLook, rest);
      steps := [RetransLook] + rest;
    case Rechecking =>
      RecheckKeeps(w);
      FinishesStep(w, RetransRecheck, []);
      steps := [RetransRecheck] + [];
    case Entering =>
      LockKeeps(w);
      var rest := FinishPass(Apply(w, RetransLock));
      FinishesStep(w, RetransLock, rest);
      steps := [RetransLock] + rest;
  }

  lemma LookKeeps(w: World)
    requires W.Known(w) && Enabled(w, RetransLook)
    ensures var v := Apply(w, RetransLook);
            && W.Known(v) && Same(w, v) && (v.head.Rechecking? || v.head.Entering?)
            && v == w.(head := v.head)
  {
    W.KnownStep(w, RetransLook);
  }

  lemma RecheckKeeps(w: World)
    requires W.Known(w) && Enabled(w, RetransRecheck) && Outstanding(w) > 0
    ensures var v := Apply(w, RetransRecheck);
            && W.Known(v) && Same(w, v) && v.snd.ctl.retrans && v.head.AtTop?
            && v.snap == w.snap && v.burst == w.burst && v.pass == w.pass && v.compacting == w.compacting
  {
    W.KnownStep(w, RetransRecheck);
  }

  /** A pass over an open window leaves it open, if only for one segment, and has the segment at base to send. */
  lemma LockKeeps(w: World)
    requires W.Known(w) && Enabled(w, RetransLock) && Outstanding(w) > 0 && w.snd.cong.wnd > 0
    ensures var v := Apply(w, RetransLock);
            && W.Known(v) && Same(w, v) && W.FirstToCome(v) && v.snap == w.snap && v.compacting == w.compacting
  {
    W.KnownStep(w, RetransLock);
  }

  // ----- together -----

  /** Everybody leaves the critical sections. */
  lemma Settle(w: World) returns (steps: seq<Step>)
    requires W.Known(w) && Outstanding(w) > 0 && w.snd.cong.wnd > 0 && W.WakeOk(w)
    ensures Finishes(w, steps) && P.Settled(Exec(w, steps)) && Due(Exec(w, steps))
  {
    var a: seq<Step> := [];
    if w.pass.Some? {
      a := FinishPass(w);
    } else if w.burst.Some? {
      a := FinishBurst(w);
    }
    var h := FinishHead(Exec(w, a));
    FinishesAppend(w, a, h);
    var b := FinishCompact(Exec(w, a + h));
    FinishesAppend(w, a + h, b);
    var c := FinishSnap(Exec(w, a + h + b));
    FinishesAppend(w, a + h + b, c);
    steps := a + h + b + c;
  }

  predicate Space(w: World) { MAX_SOCK_BUF_SIZE - |w.rcv.received| >= MAX_RWINDOW_SIZE - 1 }

  /** A segment at base arrives, and so does the ACK it is answered with. */
  lemma DeliverBase(w: World) returns (steps: seq<Step>)
    requires Safe(w) && !w.compacting && Space(w) && BaseOut(w)
    ensures Legal(w, steps) && Exec(w, steps).snd.base > w.snd.base
  {
    var p :| p in w.net && p.Data? && p.q == w.snd.base && 1 <= |p.payload| <= MAX_DLEN;
    var d := DataArrives(p.q, p.payload);
    P.ReplyAboveBase(w.rcv, w.snd.base, p.payload);
    var v := Apply(w, d);
    var k := AckArrives(v.rcv.expected, v.rcv.remain, 0);
    assert Enabled(v, k);
    AckArrivesFrame(v, k.ack, k.adv, 0);
    A.Exec1(v, k);
    A.Exec2(w, d, [k]);
    steps := [d] + [k];
  }

  lemma RoundOn(w: World) returns (steps: seq<Step>)
    requires P.Settled(w) && P.Waiting(w) && P.Awake(w.snd)
    ensures Legal(w, steps) && Exec(w, steps).snd.base > w.snd.base
  {
    P.RoundAdvances(w, 0);
    A.AtomicIsInterleaved(w, P.Round(w, 0));
    steps := A.ExpandAll(w, P.Round(w, 0));
  }

  lemma Onward(w: World) returns (steps: seq<Step>)
    requires W.Known(w) && Outstanding(w) > 0 && w.snd.cong.wnd > 0 && W.WakeOk(w) && Space(w)
    ensures Legal(w, steps) && Exec(w, steps).snd.base > w.snd.base
  {
    var a := Settle(w);
    var v := Exec(w, a);
    var b;
    if P.Awake(v.snd) {
      b := RoundOn(v);
    } else {
      b := DeliverBase(v);
    }
    A.ExecAppend(w, a, b);
    steps := a + b;
  }

  /** Every packet under way is lost. */
  function Lost(w: World): World { w.(net := {}) }

  /** From every state of every interleaved run with bytes outstanding, an open window, 43999 free bytes at the receiver
      and a wake-up due: with all packets under way lost, the threads can finish what they are in the middle of
      and a round takes place that brings base forward. */
  lemma ProgressInterleaved(steps: seq<Step>)
    requires Legal(Interleaved.INITIAL, steps)
    requires var w := Exec(Interleaved.INITIAL, steps);
             Outstanding(w) > 0 && w.snd.cong.wnd > 0 && W.WakeOk(w) && Space(w)
    ensures var w := Exec(Interleaved.INITIAL, steps);
            exists more: seq<Step> :: Legal(Lost(w), more) && Exec(Lost(w), more).snd.base > w.snd.base
  {
    SafeInitially();
    W.KnownRun(Interleaved.INITIAL, steps);
    var more := Onward(Lost(Exec(Interleaved.INITIAL, steps)));
  }
}
