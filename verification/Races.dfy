/** Schedules in which a wake-up is lost: what the conditions of RunInvariants rule out. */
module Races {
  import opened Global
  import opened Segmentation
  import opened SenderCore
  import Reassembly
  import Congestion
  import RttEstimator
  import A = Atomic
  import R = RunInvariants
  import P = Progress
  import Completion
  import I = Interleaved

  /** Bytes are outstanding, and neither timer nor RETRANS will ever send them again. */
  predicate Stranded(s: Snd) { Unacked(s) > 0 && !s.ctl.armed && !s.ctl.retrans }

  lemma OneByte(b: byte, q: nat)
    ensures Segments([b], q) == [Data(q, [b])]
  {
    assert [b][..1] == [b] && [b][1..] == [];
  }

  lemma OneByteDelivered(b: byte, e: nat)
    requires e >= 1
    ensures Reassembly.HandleData(Reassembly.Rcv(e, map[], [], MAX_RWINDOW_SIZE), e, [b])
         == Reassembly.Rcv(e + 1, map[], [b], MAX_RWINDOW_SIZE)
  {
    var s := Reassembly.Stored(Reassembly.Rcv(e, map[], [], MAX_RWINDOW_SIZE), e, [b]);
    assert s.pending == map[e := b] by {
      assert Reassembly.Named([b], e, e) == b;
    }
    Reassembly.RunLengthUnique(s.pending, e, 1);
    assert Reassembly.From(s.pending, e + 1) == map[];
  }

  /** The sender once its first byte is out: timer running, is_retransing set, round trip being measured. */
  function Sent(b: byte): Snd {
    SenderCore.INITIAL.(buf := [b], have := 1, nextseq := 2, measuring := true, expectAck := 2,
                        ctl := Ctl(true, false, false, true))
  }

  lemma FirstByteSent(b: byte)
    ensures var s := AppSend(SenderCore.INITIAL, [b]);
            CanSend(s) && Burst(s, TakeSnap(s)) == Sent(b) && BurstPackets(s, TakeSnap(s)) == [Data(1, [b])]
  {
    var s := AppSend(SenderCore.INITIAL, [b]);
    assert s.buf == [b];
    assert s.buf[0..1] == [b];
    OneByte(b, 1);
  }

  // ----- a round trip of a second or more -----

  function Acked(sample: nat): Snd {
    var c := Congestion.OnNewAck(Congestion.INITIAL, MAX_RWINDOW_SIZE);
    SenderCore.INITIAL.(base := 2, nextseq := 2, expectAck := 2, cong := c,
                        rtt := RttEstimator.Update(RttEstimator.INITIAL, sample))
  }

  lemma FirstByteAcked(b: byte, sample: nat)
    ensures HandleAck(Sent(b), 2, MAX_RWINDOW_SIZE, sample) == Acked(sample)
  {
    var s1 := NewAckSlide(Sent(b), 2, MAX_RWINDOW_SIZE, sample);
    assert Compact(s1).buf == [];
  }

  function SlowRun(b: byte, sample: nat): seq<A.Op> {
    [A.Send([b]), A.FirstSend, A.GotData(1, [b]), A.GotAck(2, MAX_RWINDOW_SIZE, sample), A.Send([b]), A.FirstSend]
  }

  lemma SecondByteSent(b: byte, sample: nat)
    ensures var s := AppSend(Acked(sample), [b]);
            CanSend(s) && Unacked(Burst(s, TakeSnap(s))) == 1
            && Burst(s, TakeSnap(s)).ctl == Ctl(true, false, false, RttEstimator.Arms(Acked(sample).rtt))
  {
    var s := AppSend(Acked(sample), [b]);
    assert s.buf == [b];
  }

  /** The world once the first byte is out. */
  function FirstOut(b: byte): I.World {
    I.INITIAL.(stream := [b], snd := Sent(b), net := {Ack(1, 1), Data(1, [b])})
  }

  /** The world in which the first byte has been delivered and acknowledged. */
  function FirstAcked(b: byte, sample: nat): I.World {
    I.INITIAL.(stream := [b], snd := Acked(sample), rcv := Reassembly.Rcv(2, map[], [b], MAX_RWINDOW_SIZE),
               net := {Ack(1, 1), Data(1, [b]), Ack(2, MAX_RWINDOW_SIZE)})
  }

  lemma FirstByteGoesOut(b: byte)
    ensures var w := A.Do(I.INITIAL, A.Send([b])); A.Enabled(w, A.FirstSend) && A.Do(w, A.FirstSend) == FirstOut(b)
  {
    FirstByteSent(b);
    var w := A.Do(I.INITIAL, A.Send([b]));
    assert A.Do(w, A.FirstSend).net == FirstOut(b).net;
  }

  lemma FirstByteComesBack(b: byte, sample: nat)
    ensures var w := FirstOut(b); var d := A.GotData(1, [b]); var k := A.GotAck(2, MAX_RWINDOW_SIZE, sample);
            A.Enabled(w, d) && A.Enabled(A.Do(w, d), k) && A.Do(A.Do(w, d), k) == FirstAcked(b, sample)
  {
    OneByteDelivered(b, 1);
    FirstByteAcked(b, sample);
    var w := A.Do(FirstOut(b), A.GotData(1, [b]));
    assert w.net == FirstAcked(b, sample).net;
  }

  lemma OutHalf(b: byte)
    ensures var st := [A.Send([b])] + ([A.FirstSend] + []);
            A.Legal(I.INITIAL, st) && A.Exec(I.INITIAL, st) == FirstOut(b)
  {
    FirstByteGoesOut(b);
    P.Cons(A.Do(I.INITIAL, A.Send([b])), A.FirstSend, []);
    P.Cons(I.INITIAL, A.Send([b]), [A.FirstSend] + []);
  }

  lemma BackHalf(b: byte, sample: nat)
    ensures var d, k := A.GotData(1, [b]), A.GotAck(2, MAX_RWINDOW_SIZE, sample); var st := [d] + ([k] + []);
            A.Legal(FirstOut(b), st) && A.Exec(FirstOut(b), st) == FirstAcked(b, sample)
  {
    var d, k := A.GotData(1, [b]), A.GotAck(2, MAX_RWINDOW_SIZE, sample);
    FirstByteComesBack(b, sample);
    P.Cons(A.Do(FirstOut(b), d), k, []);
    P.Cons(FirstOut(b), d, [k] + []);
  }

  lemma FirstHalf(b: byte, sample: nat)
    ensures var st := SlowRun(b, sample)[..4]; A.Legal(I.INITIAL, st) && A.Exec(I.INITIAL, st) == FirstAcked(b, sample)
  {
    var x := [A.Send([b])] + ([A.FirstSend] + []);
    var y := [A.GotData(1, [b])] + ([A.GotAck(2, MAX_RWINDOW_SIZE, sample)] + []);
    OutHalf(b);
    BackHalf(b, sample);
    P.Append(I.INITIAL, x, y);
    assert SlowRun(b, sample)[..4] == x + y;
  }

  lemma SecondHalf(b: byte, sample: nat)
    ensures var w := FirstAcked(b, sample); var st := SlowRun(b, sample)[4..]; var s := AppSend(Acked(sample), [b]);
            A.Legal(w, st) && A.Exec(w, st).snd == Burst(s, TakeSnap(s))
  {
    var w := FirstAcked(b, sample);
    var ops := SlowRun(b, sample);
    SecondByteSent(b, sample);
    var w5 := A.Do(w, ops[4]);
    P.Cons(w5, ops[5], []);
    P.Cons(w, ops[4], [ops[5]] + []);
    assert ops[4..] == [ops[4]] + ([ops[5]] + []);
  }

  lemma SlowRunStates(b: byte, sample: nat)
    ensures A.Legal(I.INITIAL, SlowRun(b, sample))
    ensures var s := AppSend(Acked(sample), [b]); A.Exec(I.INITIAL, SlowRun(b, sample)).snd == Burst(s, TakeSnap(s))
  {
    var ops := SlowRun(b, sample);
    FirstHalf(b, sample);
    SecondHalf(b, sample);
    P.Append(I.INITIAL, ops[..4], ops[4..]);
    assert ops == ops[..4] + ops[4..];
  }

  /** Send a byte, measure its round trip, send another: the wake-up survives iff the round trip was under a second.
      From a million microseconds on setitimer refuses the interval and the second byte has no timer behind it. */
  lemma SlowRoundTrip(b: byte, sample: nat)
    ensures A.Legal(I.INITIAL, SlowRun(b, sample))
    ensures var s := A.Exec(I.INITIAL, SlowRun(b, sample)).snd;
            (R.WakeOk(s) <==> sample < 1_000_000) && (Stranded(s) <==> sample >= 1_000_000)
  {
    SlowRunStates(b, sample);
    SecondByteSent(b, sample);
    RttEstimator.FirstSampleArms(sample);
  }

  /** And then for good: once the packet under way is lost, no continuation delivers the byte. */
  lemma SlowRoundTripStuck(b: byte, sample: nat, more: seq<A.Op>)
    requires sample >= 1_000_000
    ensures A.Legal(I.INITIAL, SlowRun(b, sample))
    ensures !Completion.Completes(Completion.Lost(A.Exec(I.INITIAL, SlowRun(b, sample))), more)
  {
    SlowRoundTrip(b, sample);
    SlowRunStates(b, sample);
    SecondByteSent(b, sample);
    Completion.DeadNeverCompletes(SlowRun(b, sample), more);
  }

  // ----- three interleavings (module RecheckRace has a fourth) -----

  lemma ExecSnoc(w: I.World, a: seq<I.Step>, st: I.Step)
    requires I.Legal(w, a) && I.Enabled(I.Exec(w, a), st)
    ensures I.Legal(w, a + [st]) && I.Exec(w, a + [st]) == I.Apply(I.Exec(w, a), st)
  {
    A.Exec1(I.Exec(w, a), st);
    A.ExecAppend(w, a, [st]);
  }

  function FirstSteps(b: byte): seq<I.Step> {
    [I.AppSend([b])] + [I.Snapshot] + [I.BurstBegin] + [I.BurstOne] + [I.BurstEnd]
  }

  lemma FirstOutRuns(b: byte)
    ensures I.Legal(I.INITIAL, FirstSteps(b)) && I.Exec(I.INITIAL, FirstSteps(b)) == FirstOut(b)
  {
    var w0, w1 := I.INITIAL, I.Apply(I.INITIAL, I.AppSend([b]));
    FirstByteSent(b);
    A.Exec1(w0, I.AppSend([b]));
    A.ExpandFirstSend(w1);
    var st := [I.Snapshot] + [I.BurstBegin] + [I.BurstOne] + [I.BurstEnd];
    assert A.Repeat(I.BurstOne, 1) == [I.BurstOne];
    assert A.Expand(w1, A.FirstSend) == st;
    assert w0.net + I.PacketSet([Data(1, [b])]) == FirstOut(b).net;
    A.ExecAppend(w0, [I.AppSend([b])], st);
    assert FirstSteps(b) == [I.AppSend([b])] + st;
  }

  /** The world in the middle of the first pass: its only segment is out again, the timer restarted. */
  function MidPass(b: byte): I.World {
    var s := Sent(b).(cong := Congestion.OnTimeout(Congestion.INITIAL));
    FirstOut(b).(snd := s, pass := Some(Pass(1, 1, 2)))
  }

  function LockSteps(): seq<I.Step> { [I.TimerFires] + [I.RetransTop] + [I.RetransLook] + [I.RetransLock] }

  /** The pass has begun: timeout taken, lock held, nothing resent yet. */
  function Locked(b: byte): I.World {
    var s := Sent(b).(cong := Congestion.OnTimeout(Congestion.INITIAL), ctl := Ctl(true, true, true, false));
    FirstOut(b).(snd := s, pass := Some(Pass(0, 1, 1)))
  }

  lemma LockRuns(b: byte)
    ensures I.Legal(FirstOut(b), LockSteps()) && I.Exec(FirstOut(b), LockSteps()) == Locked(b)
  {
    var w := FirstOut(b);
    A.Exec1(w, I.TimerFires);
    ExecSnoc(w, [I.TimerFires], I.RetransTop);
    ExecSnoc(w, [I.TimerFires] + [I.RetransTop], I.RetransLook);
    ExecSnoc(w, [I.TimerFires] + [I.RetransTop] + [I.RetransLook], I.RetransLock);
  }

  function PassSteps(): seq<I.Step> { LockSteps() + [I.ResendOne] }

  lemma PassRuns(b: byte)
    ensures I.Legal(FirstOut(b), PassSteps()) && I.Exec(FirstOut(b), PassSteps()) == MidPass(b)
  {
    LockRuns(b);
    var w := Locked(b);
    assert w.snd.buf[0..1] == [b];
    ExecSnoc(FirstOut(b), LockSteps(), I.ResendOne);
    assert I.Apply(w, I.ResendOne).net == w.net;
  }

  /** Up to the first segment of the first retransmission pass. */
  function Prefix(b: byte): seq<I.Step> { FirstSteps(b) + PassSteps() }

  lemma PrefixRuns(b: byte)
    ensures I.Legal(I.INITIAL, Prefix(b)) && I.Exec(I.INITIAL, Prefix(b)) == MidPass(b)
  {
    FirstOutRuns(b);
    PassRuns(b);
    A.ExecAppend(I.INITIAL, FirstSteps(b), PassSteps());
  }

  function ExpiryInsidePass(b: byte): seq<I.Step> { Prefix(b) + [I.TimerFires] + [I.ResendEnd] }

  /** An expiry inside a pass is wiped out when the pass lowers RETRANS: the byte has no timer left. */
  lemma ExpiryInsidePassStrands(b: byte)
    ensures I.Legal(I.INITIAL, ExpiryInsidePass(b)) && Stranded(I.Exec(I.INITIAL, ExpiryInsidePass(b)).snd)
    ensures !CanSend(I.Exec(I.INITIAL, ExpiryInsidePass(b)).snd)
  {
    PrefixRuns(b);
    ExecSnoc(I.INITIAL, Prefix(b), I.TimerFires);
    ExecSnoc(I.INITIAL, Prefix(b) + [I.TimerFires], I.ResendEnd);
  }

  /** After the pass a second byte comes in and the sending thread, no longer held back, reads its window. */
  function SecondSnap(b: byte): seq<I.Step> { Prefix(b) + [I.ResendEnd] + [I.AppSend([b])] + [I.Snapshot] }

  /** One byte outstanding with its timer running, one to be sent, the snapshot taken. */
  predicate Snapped(w: I.World, b: byte) {
    var s := w.snd;
    && s.buf == [b, b] && s.have == 1 && s.ackCnt == 0 && s.base == 1 && s.nextseq == 2
    && s.cong == Congestion.OnTimeout(Congestion.INITIAL) && s.ctl == Ctl(false, false, false, true)
    && w.rcv == Reassembly.INITIAL && Data(1, [b]) in w.net
    && w.snap == Some(Snap(MAX_DLEN, 0, 1, 2)) && w.burst.None? && w.pass.None? && w.head.AtTop? && !w.compacting
  }

  lemma SecondSnapRuns(b: byte)
    ensures I.Legal(I.INITIAL, SecondSnap(b)) && Snapped(I.Exec(I.INITIAL, SecondSnap(b)), b)
  {
    var w0, a := I.INITIAL, Prefix(b);
    PrefixRuns(b);
    ExecSnoc(w0, a, I.ResendEnd);
    ExecSnoc(w0, a + [I.ResendEnd], I.AppSend([b]));
    assert I.Exec(w0, a + [I.ResendEnd] + [I.AppSend([b])]).snd.buf == [b, b];
    ExecSnoc(w0, a + [I.ResendEnd] + [I.AppSend([b])], I.Snapshot);
  }

  /** The first byte arrives, and the ACK for it covers everything published. */
  function Answer(b: byte, sample: nat): seq<I.Step> {
    [I.DataArrives(1, [b])] + [I.AckArrives(2, MAX_RWINDOW_SIZE, sample)]
  }

  /** The timer is stopped, whatever has been sent and not yet published; nothing else happens to the offsets. */
  lemma AnswerStops(w: I.World, b: byte, sample: nat)
    requires w.snd.buf == [b, b] && w.snd.ackCnt == 0 && w.snd.base == 1 && w.snd.nextseq == 2
    requires w.snd.ctl == Ctl(false, false, false, true) && w.snd.cong == Congestion.OnTimeout(Congestion.INITIAL)
    requires w.rcv == Reassembly.INITIAL && Data(1, [b]) in w.net && !w.compacting
    ensures I.Legal(w, Answer(b, sample))
    ensures var v := I.Exec(w, Answer(b, sample));
            && v.snap == w.snap && v.burst == w.burst && v.pass == w.pass
            && v.snd.buf == w.snd.buf && v.snd.have == w.snd.have
            && v.snd.ackCnt == 1 && v.snd.base == 2 && v.snd.nextseq == 2
            && v.snd.ctl == Ctl(false, false, false, false)
  {
    var d, k := I.DataArrives(1, [b]), I.AckArrives(2, MAX_RWINDOW_SIZE, sample);
    OneByteDelivered(b, 1);
    A.Exec1(w, d);
    var v := I.Exec(w, [d]);
    ExecSnoc(w, [d], k);
    I.AckArrivesFrame(v, 2, MAX_RWINDOW_SIZE, sample);
    NewAckFlags(v.snd, 2, MAX_RWINDOW_SIZE, sample);
  }

  function BurstOfOne(): seq<I.Step> { [I.BurstBegin] + [I.BurstOne] + [I.BurstEnd] }

  function StaleTail(b: byte, sample: nat): seq<I.Step> { Answer(b, sample) + BurstOfOne() }

  /** With the snapshot still saying that a byte is outstanding nobody starts the timer. */
  lemma StaleBurstRuns(w: I.World, b: byte)
    requires w.snd.buf == [b, b] && w.snd.have == 1 && w.snd.ackCnt == 1 && w.snd.base == 2
    requires w.snap == Some(Snap(MAX_DLEN, 0, 1, 2)) && I.Lockfree(w) && w.snd.ctl == Ctl(false, false, false, false)
    ensures I.Legal(w, BurstOfOne()) && Stranded(I.Exec(w, BurstOfOne()).snd) && !CanSend(I.Exec(w, BurstOfOne()).snd)
  {
    A.Exec1(w, I.BurstBegin);
    ExecSnoc(w, [I.BurstBegin], I.BurstOne);
    ExecSnoc(w, [I.BurstBegin] + [I.BurstOne], I.BurstEnd);
  }

  lemma StaleTailRuns(w: I.World, b: byte, sample: nat)
    requires Snapped(w, b)
    ensures var st := StaleTail(b, sample);
            I.Legal(w, st) && Stranded(I.Exec(w, st).snd) && !CanSend(I.Exec(w, st).snd)
  {
    AnswerStops(w, b, sample);
    StaleBurstRuns(I.Exec(w, Answer(b, sample)), b);
    A.ExecAppend(w, Answer(b, sample), BurstOfOne());
  }

  /** A snapshot taken with one byte outstanding, a burst after that byte was acknowledged and the timer stopped:
      base and nextseq differ in the snapshot, so nobody starts the timer for the new byte. */
  lemma StaleSnapshotStrands(b: byte, sample: nat)
    ensures var st := SecondSnap(b) + StaleTail(b, sample);
            I.Legal(I.INITIAL, st) && Stranded(I.Exec(I.INITIAL, st).snd) && !CanSend(I.Exec(I.INITIAL, st).snd)
  {
    SecondSnapRuns(b);
    StaleTailRuns(I.Exec(I.INITIAL, SecondSnap(b)), b, sample);
    A.ExecAppend(I.INITIAL, SecondSnap(b), StaleTail(b, sample));
  }

  function UnpublishedTail(b: byte, sample: nat): seq<I.Step> {
    [I.BurstBegin] + [I.BurstOne] + Answer(b, sample) + [I.BurstEnd]
  }

  lemma UnpublishedTailRuns(w: I.World, b: byte, sample: nat)
    requires Snapped(w, b)
    ensures var st := UnpublishedTail(b, sample);
            I.Legal(w, st) && Stranded(I.Exec(w, st).snd) && !CanSend(I.Exec(w, st).snd)
  {
    var a := [I.BurstBegin] + [I.BurstOne];
    A.Exec1(w, I.BurstBegin);
    ExecSnoc(w, [I.BurstBegin], I.BurstOne);
    var v := I.Exec(w, a);
    assert v.burst == Some(Sending(2, 3, 1)) && v.snd.have == 2;
    AnswerStops(v, b, sample);
    A.ExecAppend(w, a, Answer(b, sample));
    ExecSnoc(w, a + Answer(b, sample), I.BurstEnd);
  }

  /** The older byte is acknowledged while the loop of sending_thread has sent the next one but not yet published
      nextseq: base equals nextseq, the handler stops the timer, and the new byte has none. */
  lemma UnpublishedAckStrands(b: byte, sample: nat)
    ensures var st := SecondSnap(b) + UnpublishedTail(b, sample);
            I.Legal(I.INITIAL, st) && Stranded(I.Exec(I.INITIAL, st).snd) && !CanSend(I.Exec(I.INITIAL, st).snd)
  {
    SecondSnapRuns(b);
    UnpublishedTailRuns(I.Exec(I.INITIAL, SecondSnap(b)), b, sample);
    A.ExecAppend(I.INITIAL, SecondSnap(b), UnpublishedTail(b, sample));
  }
}
