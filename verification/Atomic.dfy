/** The same system with every handler, loop body and API call one step. */
module Atomic {
  import opened Global
  import opened Segmentation
  import opened SenderCore
  import Reassembly
  import I = Interleaved

  type World = I.World

  datatype Op =
    | Send(data: seq<byte>)
    | FirstSend
    | Retrans
    | Fires
    | GotAck(ack: nat, adv: nat, sample: nat)
    | GotData(q: nat, payload: seq<byte>)
    | Recv(len: nat)

  /** Nobody is inside a critical section. */
  predicate Quiet(w: World) { w.pass.None? && w.snap.None? && w.burst.None? && w.head.AtTop? && !w.compacting }

  predicate Enabled(w: World, op: Op) {
    match op
    case Send(data) => Room(w.snd) > 0
    case FirstSend => CanSend(w.snd)
    case Retrans => w.snd.ctl.retrans && Coupled(w.snd)
    case Fires => w.snd.ctl.armed
    case GotAck(ack, adv, _) => Ack(ack, adv) in w.net && CanHandle(w.snd, ack)
    case GotData(q, payload) => Data(q, payload) in w.net && Reassembly.Ok(w.rcv)
    case Recv(len) => |w.rcv.received| > 0
  }

  function Do(w: World, op: Op): World
    requires Enabled(w, op)
  {
    var s := w.snd;
    match op
    case Send(data) => w.(stream := w.stream + SendChunk(s, data), snd := AppSend(s, data))
    case FirstSend => w.(snd := Burst(s, TakeSnap(s)), net := w.net + I.PacketSet(BurstPackets(s, TakeSnap(s))))
    case Retrans =>
      if BeginsPass(s) then w.(snd := WholePass(s), net := w.net + I.PacketSet(WholePassPackets(s)))
      else w.(snd := RetransIdle(s), net := w.net + I.PacketSet(RetransIdlePackets(s)))
    case Fires => w.(snd := TimerFires(s))
    case GotAck(ack, adv, sample) => w.(snd := HandleAck(s, ack, adv, sample))
    case GotData(q, payload) =>
      var r := Reassembly.HandleData(w.rcv, q, payload);
      w.(rcv := r, net := w.net + {Reassembly.Reply(r)})
    case Recv(len) =>
      w.(rcv := Reassembly.Read(w.rcv, len), read := w.read + w.rcv.received[..Min(len, |w.rcv.received|)])
  }

  predicate Legal(w: World, ops: seq<Op>)
    decreases |ops|
  {
    |ops| == 0 || (Enabled(w, ops[0]) && Legal(Do(w, ops[0]), ops[1..]))
  }

  function Exec(w: World, ops: seq<Op>): World
    requires Legal(w, ops)
    decreases |ops|
  {
    if |ops| == 0 then w else Exec(Do(w, ops[0]), ops[1..])
  }

  // ----- every atomic run is an interleaved run -----

  function Repeat(st: I.Step, n: nat): seq<I.Step> { seq(n, i => st) }

  function PassSteps(p: Pass): seq<I.Step>
    requires p.cur <= p.end
  {
    Repeat(I.ResendOne, Ceil(p.end - p.cur, MAX_DLEN)) + [I.ResendEnd]
  }

  function BurstSteps(s: Snd, b: Sending): seq<I.Step> {
    (if s.have < b.end then Repeat(I.BurstOne, Ceil(b.end - s.have, MAX_DLEN)) else []) + [I.BurstEnd]
  }

  function Expand(w: World, op: Op): seq<I.Step>
    requires Enabled(w, op)
  {
    match op
    case Send(data) => [I.AppSend(data)]
    case FirstSend => [I.Snapshot, I.BurstBegin] + BurstSteps(w.snd, SendingOf(w.snd, TakeSnap(w.snd)))
    case Retrans =>
      if w.snd.cong.wnd == 0 then [I.RetransTop]
      else if BeginsPass(w.snd) then [I.RetransTop] + ([I.RetransLook] + ([I.RetransLock] + PassSteps(PassOf(w.snd))))
      else [I.RetransTop] + ([I.RetransLook] + [I.RetransRecheck])
    case Fires => [I.TimerFires]
    case GotAck(ack, adv, sample) =>
      if ack > w.snd.base && NeedsCompaction(NewAckSlide(w.snd, ack, adv, sample))
      then [I.AckArrives(ack, adv, sample), I.Compact]
      else [I.AckArrives(ack, adv, sample)]
    case GotData(q, payload) => [I.DataArrives(q, payload)]
    case Recv(len) => [I.AppRecv(len)]
  }

  lemma Exec1(w: World, st: I.Step)
    requires I.Enabled(w, st)
    ensures I.Legal(w, [st]) && I.Exec(w, [st]) == I.Apply(w, st)
  {
    assert [st][1..] == [];
  }

  lemma Exec2(w: World, st: I.Step, rest: seq<I.Step>)
    requires I.Enabled(w, st) && I.Legal(I.Apply(w, st), rest)
    ensures I.Legal(w, [st] + rest) && I.Exec(w, [st] + rest) == I.Exec(I.Apply(w, st), rest)
  {
    assert ([st] + rest)[1..] == rest;
  }

  lemma {:induction false} ExecAppend(w: World, a: seq<I.Step>, b: seq<I.Step>)
    requires I.Legal(w, a) && I.Legal(I.Exec(w, a), b)
    ensures I.Legal(w, a + b) && I.Exec(w, a + b) == I.Exec(I.Exec(w, a), b)
    decreases |a|
  {
    if |a| == 0 {
      EmptyAppend(a, b);
    } else {
      ExecAppend(I.Apply(w, a[0]), a[1..], b);
      HeadTail(a, b);
    }
  }

  /** State and packets when a pass at p runs to its end undisturbed. */
  function PassResult(w: World, p: Pass): World
    requires p.cur <= p.end <= |w.snd.buf|
  {
    w.(snd := ResendEnd(if p.cur < p.end then SenderCore.ResendOne(w.snd, p) else w.snd),
       net := w.net + I.PacketSet(Segments(w.snd.buf[p.cur..p.end], p.q)), pass := None)
  }

  lemma PassStepsUnfold(p: Pass)
    requires p.cur < p.end
    ensures PassSteps(p) == [I.ResendOne] + PassSteps(PassNext(p))
  {
    var n, m := Ceil(p.end - p.cur, MAX_DLEN), Ceil(p.end - PassNext(p).cur, MAX_DLEN);
    assert n == m + 1;
    assert Repeat(I.ResendOne, n) == [I.ResendOne] + Repeat(I.ResendOne, m);
  }

  /** Only the first segment of an undisturbed pass touches the flags. */
  lemma PassFlags(s: Snd, p: Pass)
    requires s.ackCnt <= p.cur < p.end
    ensures var s1 := SenderCore.ResendOne(s, p);
            PassNext(p).cur > s.ackCnt && SenderCore.ResendOne(s1, PassNext(p)) == s1
  {
  }

  lemma PassNet(w: World, p: Pass)
    requires p.cur < p.end <= |w.snd.buf|
    ensures w.net + {ResendPacket(w.snd, p)} + I.PacketSet(Segments(w.snd.buf[PassNext(p).cur..p.end], PassNext(p).q))
         == w.net + I.PacketSet(Segments(w.snd.buf[p.cur..p.end], p.q))
  {
    FirstSegment(w.snd.buf, p.cur, p.end, p.q);
    assert ResendPacket(w.snd, p) == Segments(w.snd.buf[p.cur..p.end], p.q)[0];
  }

  lemma PassResultUnfold(w: World)
    requires w.pass.Some?
    requires var p := w.pass.value; w.snd.ackCnt <= p.cur < p.end <= |w.snd.buf|
    ensures PassResult(I.Apply(w, I.ResendOne), PassNext(w.pass.value)) == PassResult(w, w.pass.value)
  {
    var p := w.pass.value;
    var w1 := I.Apply(w, I.ResendOne);
    PassNet(w, p);
    RetransFrame(w.snd, p);
    PassFlags(w.snd, p);
  }

  lemma {:induction false} PassRuns(w: World)
    requires w.pass.Some?
    requires var p := w.pass.value; w.snd.ackCnt <= p.cur <= p.end <= |w.snd.buf|
    ensures I.Legal(w, PassSteps(w.pass.value)) && I.Exec(w, PassSteps(w.pass.value)) == PassResult(w, w.pass.value)
    decreases w.pass.value.end - w.pass.value.cur
  {
    var p := w.pass.value;
    if p.cur == p.end {
      assert PassSteps(p) == [I.ResendEnd];
      Exec1(w, I.ResendEnd);
      assert Segments(w.snd.buf[p.cur..p.end], p.q) == [];
      assert I.Apply(w, I.ResendEnd).net == PassResult(w, p).net;
    } else {
      RetransFrame(w.snd, p);
      PassRuns(I.Apply(w, I.ResendOne));
      PassStepsUnfold(p);
      Exec2(w, I.ResendOne, PassSteps(PassNext(p)));
      PassResultUnfold(w);
    }
  }

  /** State and packets when a burst runs to its end undisturbed. */
  function BurstResult(w: World, b: Sending): World {
    w.(snd := SendRest(w.snd, b), net := w.net + I.PacketSet(RestPackets(w.snd, b)), burst := None)
  }

  lemma BurstStepsUnfold(s: Snd, b: Sending)
    requires s.have < b.end
    ensures BurstSteps(s, b) == [I.BurstOne] + BurstSteps(SendOne(s, b), SendNext(s, b))
  {
    var t := SendOne(s, b);
    var n, m := Ceil(b.end - s.have, MAX_DLEN), if t.have < b.end then Ceil(b.end - t.have, MAX_DLEN) else 0;
    assert n == m + 1;
    assert Repeat(I.BurstOne, n) == [I.BurstOne] + Repeat(I.BurstOne, m);
  }

  lemma BurstResultUnfold(w: World)
    requires w.burst.Some?
    requires var b := w.burst.value; w.snd.have < b.end <= |w.snd.buf| && b.base <= b.q
    ensures var w1 := I.Apply(w, I.BurstOne); BurstResult(w1, w1.burst.value) == BurstResult(w, w.burst.value)
  {
    var b := w.burst.value;
    var w1 := I.Apply(w, I.BurstOne);
    RestUnfold(w.snd, b);
    assert RestPackets(w.snd, b)[0] == SendPacket(w.snd, b);
    assert I.PacketSet(RestPackets(w.snd, b))
        == {SendPacket(w.snd, b)} + I.PacketSet(RestPackets(w1.snd, w1.burst.value));
  }

  lemma {:induction false} BurstRuns(w: World)
    requires w.burst.Some?
    requires var b := w.burst.value; b.end <= |w.snd.buf| && b.base <= b.q
    ensures var st := BurstSteps(w.snd, w.burst.value);
            I.Legal(w, st) && I.Exec(w, st) == BurstResult(w, w.burst.value)
    decreases w.burst.value.end - w.snd.have
  {
    var b := w.burst.value;
    if w.snd.have >= b.end {
      assert BurstSteps(w.snd, b) == [I.BurstEnd];
      Exec1(w, I.BurstEnd);
      assert I.Apply(w, I.BurstEnd).net == BurstResult(w, b).net;
    } else {
      var w1 := I.Apply(w, I.BurstOne);
      BurstRuns(w1);
      BurstStepsUnfold(w.snd, b);
      Exec2(w, I.BurstOne, BurstSteps(w1.snd, w1.burst.value));
      BurstResultUnfold(w);
    }
  }

  /** From taking the lock to giving it back, undisturbed: the closed form on the snapshot. */
  lemma SnapRuns(w: World)
    requires w.snap.Some? && I.Lockfree(w) && w.snap.value.base <= w.snap.value.nextseq
    ensures var st := [I.BurstBegin] + BurstSteps(w.snd, SendingOf(w.snd, w.snap.value));
            I.Legal(w, st)
            && I.Exec(w, st) == w.(snd := Burst(w.snd, w.snap.value), snap := None,
                                   net := w.net + I.PacketSet(BurstPackets(w.snd, w.snap.value)))
  {
    var w1 := I.Apply(w, I.BurstBegin);
    BurstRuns(w1);
    Exec2(w, I.BurstBegin, BurstSteps(w1.snd, w1.burst.value));
  }

  lemma ExpandFirstSend(w: World)
    requires Quiet(w) && Enabled(w, FirstSend) && Coupled(w.snd)
    ensures I.Legal(w, Expand(w, FirstSend)) && I.Exec(w, Expand(w, FirstSend)) == Do(w, FirstSend)
  {
    var w1 := I.Apply(w, I.Snapshot);
    SnapRuns(w1);
    var st := [I.BurstBegin] + BurstSteps(w.snd, SendingOf(w.snd, TakeSnap(w.snd)));
    Exec2(w, I.Snapshot, st);
    assert Expand(w, FirstSend) == [I.Snapshot] + st;
  }

  /** From the look at RETRANS to the end of the pass. */
  lemma ExpandPass(w: World)
    requires Quiet(w) && Enabled(w, Retrans) && BeginsPass(w.snd)
    ensures I.Legal(w, Expand(w, Retrans)) && I.Exec(w, Expand(w, Retrans)) == Do(w, Retrans)
  {
    var w1 := I.Apply(w, I.RetransTop);
    var w2 := I.Apply(w1, I.RetransLook);
    var w3 := I.Apply(w2, I.RetransLock);
    var st := PassSteps(PassOf(w.snd));
    RetransFrame(w.snd, PassOf(w.snd));
    PassRuns(w3);
    assert PassResult(w3, PassOf(w.snd)) == Do(w, Retrans);
    Exec2(w2, I.RetransLock, st);
    Exec2(w1, I.RetransLook, [I.RetransLock] + st);
    Exec2(w, I.RetransTop, [I.RetransLook] + ([I.RetransLock] + st));
  }

  lemma ExpandRetrans(w: World)
    requires Quiet(w) && Enabled(w, Retrans)
    ensures I.Legal(w, Expand(w, Retrans)) && I.Exec(w, Expand(w, Retrans)) == Do(w, Retrans)
  {
    if BeginsPass(w.snd) {
      ExpandPass(w);
    } else if w.snd.cong.wnd == 0 {
      Exec1(w, I.RetransTop);
    } else {
      var w1 := I.Apply(w, I.RetransTop);
      var w2 := I.Apply(w1, I.RetransLook);
      Exec1(w2, I.RetransRecheck);
      Exec2(w1, I.RetransLook, [I.RetransRecheck]);
      Exec2(w, I.RetransTop, [I.RetransLook] + [I.RetransRecheck]);
      assert I.Apply(w2, I.RetransRecheck).net == Do(w, Retrans).net;
    }
  }

  lemma ExpandAck(w: World, op: Op)
    requires Quiet(w) && Enabled(w, op) && op.GotAck?
    ensures I.Legal(w, Expand(w, op)) && I.Exec(w, Expand(w, op)) == Do(w, op)
  {
    var st := I.AckArrives(op.ack, op.adv, op.sample);
    var w1 := I.Apply(w, st);
    if op.ack > w.snd.base && NeedsCompaction(NewAckSlide(w.snd, op.ack, op.adv, op.sample)) {
      NewAckFrame(w.snd, op.ack, op.adv, op.sample);
      Exec1(w1, I.Compact);
      Exec2(w, st, [I.Compact]);
      assert [st] + [I.Compact] == [st, I.Compact];
    } else {
      Exec1(w, st);
    }
  }

  lemma ExpandStep(w: World, op: Op)
    requires Quiet(w) && Enabled(w, op) && Coupled(w.snd)
    ensures I.Legal(w, Expand(w, op)) && I.Exec(w, Expand(w, op)) == Do(w, op)
    ensures Quiet(Do(w, op))
  {
    match op
    case Send(data) => Exec1(w, I.AppSend(data));
    case FirstSend => ExpandFirstSend(w);
    case Retrans => ExpandRetrans(w);
    case Fires => Exec1(w, I.TimerFires);
    case GotAck(ack, adv, sample) => ExpandAck(w, op);
    case GotData(q, payload) => Exec1(w, I.DataArrives(q, payload));
    case Recv(len) => Exec1(w, I.AppRecv(len));
  }

  lemma SafeDo(w: World, op: Op)
    requires I.Safe(w) && Quiet(w) && Enabled(w, op)
    ensures I.Safe(Do(w, op)) && Quiet(Do(w, op))
  {
    ExpandStep(w, op);
    I.SafeRun(w, Expand(w, op));
  }

  function ExpandAll(w: World, ops: seq<Op>): seq<I.Step>
    requires Legal(w, ops)
    decreases |ops|
  {
    if |ops| == 0 then [] else Expand(w, ops[0]) + ExpandAll(Do(w, ops[0]), ops[1..])
  }

  /** Taking each body as one step adds no behaviour: the run is one of the interleaved system. */
  lemma {:induction false} AtomicIsInterleaved(w: World, ops: seq<Op>)
    requires I.Safe(w) && Quiet(w) && Legal(w, ops)
    ensures I.Legal(w, ExpandAll(w, ops)) && I.Exec(w, ExpandAll(w, ops)) == Exec(w, ops)
    ensures I.Safe(Exec(w, ops)) && Quiet(Exec(w, ops))
    decreases |ops|
  {
    if |ops| > 0 {
      ExpandStep(w, ops[0]);
      SafeDo(w, ops[0]);
      var w1 := Do(w, ops[0]);
      AtomicIsInterleaved(w1, ops[1..]);
      ExecAppend(w, Expand(w, ops[0]), ExpandAll(w1, ops[1..]));
    }
  }
}
