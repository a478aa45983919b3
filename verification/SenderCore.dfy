/** The sender half of tju_tcp_t as values: one function per critical section of src/timer.c and src/tju_tcp.c. */
module SenderCore {
  import opened Global
  import opened Segmentation
  import Congestion
  import RttEstimator

  /** is_retransing, RETRANS, TIMEOUT_FLAG and whether the one-shot interval timer is running. */
  datatype Ctl = Ctl(isRetransing: bool, retrans: bool, timeoutFlag: bool, armed: bool)

  /** buf is sending_buf[..sending_len]; have and ackCnt are offsets into it, base and nextseq sequence numbers. */
  datatype Snd = Snd(buf: seq<byte>, have: nat, ackCnt: nat, base: nat, nextseq: nat,
                     cong: Congestion.Cong, rtt: RttEstimator.Rtt, measuring: bool, expectAck: nat, ctl: Ctl)

  const INITIAL :=
    Snd([], 0, 0, 1, 1, Congestion.INITIAL, RttEstimator.INITIAL, false, 0, Ctl(false, false, false, false))

  predicate Coupled(s: Snd) {
    && s.ackCnt <= s.have <= |s.buf| <= MAX_SOCK_BUF_SIZE
    && 1 <= s.base
    && s.nextseq - s.base == s.have - s.ackCnt
  }

  function Unacked(s: Snd): int { s.nextseq - s.base }

  // ----- timer -----

  /** Both flags fall; the timer runs from now if setitimer accepts the interval, stops if it is zero,
      and keeps its previous setting if the interval is refused. */
  function Started(c: Ctl, usec: nat): Ctl {
    Ctl(c.isRetransing, false, false, if usec > MAX_USEC then c.armed else usec > 0)
  }

  /** A timer started now runs: the interval is accepted, or it is refused and the timer was running already. */
  predicate Starts(s: Snd) { RttEstimator.Arms(s.rtt) || (s.rtt.rto > MAX_USEC && s.ctl.armed) }

  function StartTimer(s: Snd): Snd { s.(ctl := Started(s.ctl, s.rtt.rto)) }

  function StopTimer(s: Snd): Snd { s.(ctl := s.ctl.(armed := false)) }

  function TimerFires(s: Snd): Snd { s.(ctl := Ctl(s.ctl.isRetransing, true, true, false)) }

  function Mark(s: Snd, isRetransing: bool): Snd { s.(ctl := s.ctl.(isRetransing := isRetransing)) }

  function Raise(s: Snd): Snd { s.(ctl := s.ctl.(isRetransing := true, retrans := true)) }

  // ----- tju_send -----

  function Room(s: Snd): int { MAX_SOCK_BUF_SIZE - |s.buf| }

  predicate DataFits(s: Snd, data: seq<byte>) { |data| <= Room(s) }

  /** What one iteration of the loop in tju_send puts into the buffer. */
  function SendChunk(s: Snd, data: seq<byte>): seq<byte>
    requires Room(s) >= 0
  {
    if DataFits(s, data) then data else data[..Room(s)]
  }

  function AppSend(s: Snd, data: seq<byte>): Snd
    requires Room(s) >= 0
  {
    s.(buf := s.buf + SendChunk(s, data))
  }

  // ----- sending_thread -----

  predicate CanSend(s: Snd) {
    s.cong.wnd != 0 && s.have < |s.buf| && s.have < s.ackCnt + s.cong.wnd && !s.ctl.isRetransing
  }

  /** Window fields read before send_lock is taken. */
  datatype Snap = Snap(wnd: nat, ackCnt: nat, base: nat, nextseq: nat)

  function TakeSnap(s: Snd): Snap { Snap(s.cong.wnd, s.ackCnt, s.base, s.nextseq) }

  /** Locals of sending_thread under send_lock: the buffer offset at which the loop ends, the number of the next
      segment, and base as the snapshot saw it. */
  datatype Sending = Sending(end: nat, q: nat, base: nat)

  function SendingOf(s: Snd, snap: Snap): Sending {
    Sending(Min(|s.buf|, snap.ackCnt + snap.wnd), snap.nextseq, snap.base)
  }

  function SendLen(s: Snd, b: Sending): nat
    requires s.have < b.end
  {
    Min(b.end - s.have, MAX_DLEN)
  }

  /** One segment: the RTT measurement, the timer if the snapshot saw nothing outstanding, the new offset. */
  function SendOne(s: Snd, b: Sending): Snd
    requires s.have < b.end
  {
    var d := SendLen(s, b);
    var s1 := if s.measuring then s else s.(measuring := true, expectAck := b.q + d);
    var s2 := if b.base == b.q then Mark(StartTimer(s1), true) else s1;
    s2.(have := s.have + d)
  }

  function SendPacket(s: Snd, b: Sending): Packet
    requires s.have < b.end <= |s.buf|
  {
    Data(b.q, s.buf[s.have..s.have + SendLen(s, b)])
  }

  function SendNext(s: Snd, b: Sending): Sending
    requires s.have < b.end
  {
    b.(q := b.q + SendLen(s, b))
  }

  /** Only now is nextseq published. */
  function SendEnd(s: Snd, b: Sending): Snd { s.(nextseq := b.q) }

  /** The rest of the loop with nothing in between, and its end. */
  function SendRest(s: Snd, b: Sending): Snd {
    if s.have < b.end then SendOne(s, b).(have := b.end, nextseq := b.q + (b.end - s.have)) else SendEnd(s, b)
  }

  function RestPackets(s: Snd, b: Sending): seq<Packet> {
    if s.have < b.end <= |s.buf| then Segments(s.buf[s.have..b.end], b.q) else []
  }

  /** A whole burst with nothing in between. */
  function Burst(s: Snd, snap: Snap): Snd { SendRest(s, SendingOf(s, snap)) }

  function BurstPackets(s: Snd, snap: Snap): seq<Packet> { RestPackets(s, SendingOf(s, snap)) }

  /** Where a burst leaves have_send_len. */
  function BurstEnd(s: Snd, snap: Snap): nat {
    var end := SendingOf(s, snap).end;
    if s.have < end then end else s.have
  }

  lemma RestUnfold(s: Snd, b: Sending)
    requires s.have < b.end <= |s.buf| && b.base <= b.q
    ensures SendRest(SendOne(s, b), SendNext(s, b)) == SendRest(s, b)
    ensures [SendPacket(s, b)] + RestPackets(SendOne(s, b), SendNext(s, b)) == RestPackets(s, b)
  {
    PacketsUnfold(s, SendOne(s, b), b);
  }

  lemma PacketsUnfold(s: Snd, t: Snd, b: Sending)
    requires s.have < b.end <= |s.buf| && t.buf == s.buf && t.have == s.have + SendLen(s, b)
    ensures [SendPacket(s, b)] + RestPackets(t, SendNext(s, b)) == RestPackets(s, b)
  {
    FirstSegment(s.buf, s.have, b.end, b.q);
    if t.have == b.end {
      assert s.buf[t.have..b.end] == [];
    }
  }

  // ----- retrans_thread -----

  /** Locals of a retransmission pass: buffer offset, its end, and the sequence number of the offset. */
  datatype Pass = Pass(cur: nat, end: nat, q: nat)

  predicate BeginsPass(s: Snd) { s.cong.wnd != 0 && s.ctl.isRetransing }

  /** After a finished pass: RETRANS falls unless bytes are still unacknowledged. */
  function Recheck(s: Snd): Snd {
    if s.ackCnt < s.have then Raise(s) else s.(ctl := s.ctl.(retrans := false))
  }

  function Probe(s: Snd): Packet
    requires s.base >= 1
  {
    Data(s.base - 1, [])
  }

  /** The part of the loop body before the send_lock: zero-window probe, or the recheck of a finished pass. */
  function RetransIdle(s: Snd): Snd
    requires !BeginsPass(s)
  {
    if s.cong.wnd == 0 then StartTimer(s) else Recheck(s)
  }

  function RetransIdlePackets(s: Snd): seq<Packet>
    requires !BeginsPass(s) && s.base >= 1
  {
    if s.cong.wnd == 0 then [Probe(s)] else []
  }

  function PassBegin(s: Snd): Snd {
    if s.ctl.timeoutFlag then s.(cong := Congestion.OnTimeout(s.cong)) else s
  }

  function PassOf(s: Snd): Pass { Pass(s.ackCnt, s.have, s.base) }

  function PassLen(p: Pass): nat
    requires p.cur <= p.end
  {
    Min(p.end - p.cur, MAX_DLEN)
  }

  function ResendOne(s: Snd, p: Pass): Snd {
    if p.cur == s.ackCnt then Mark(StartTimer(s), true) else s
  }

  function ResendPacket(s: Snd, p: Pass): Packet
    requires p.cur <= p.end <= |s.buf|
  {
    Data(p.q, s.buf[p.cur..p.cur + PassLen(p)])
  }

  function PassNext(p: Pass): Pass
    requires p.cur <= p.end
  {
    Pass(p.cur + PassLen(p), p.end, p.q + PassLen(p))
  }

  function ResendEnd(s: Snd): Snd {
    s.(ctl := s.ctl.(retrans := false, isRetransing := false))
  }

  /** A whole pass with nothing in between. */
  function WholePass(s: Snd): Snd {
    var s1 := PassBegin(s);
    ResendEnd(if s.ackCnt < s.have then Mark(StartTimer(s1), true) else s1)
  }

  function WholePassPackets(s: Snd): seq<Packet>
    requires s.ackCnt <= s.have <= |s.buf|
  {
    Segments(s.buf[s.ackCnt..s.have], s.base)
  }

  // ----- the ACK branch of tju_handle_packet -----

  /** The last lines of the branch: a closed window starts the probe timer. */
  function ZeroWindow(s: Snd): Snd {
    if s.cong.wnd == 0 then Mark(StartTimer(s), false) else s
  }

  /** The sample is used only if the ACK is exactly the one waited for; any new ACK ends the measurement. */
  function TakeSample(s: Snd, ack: nat, sample: nat): Snd {
    if !s.measuring then s
    else s.(measuring := false, rtt := if s.expectAck == ack then RttEstimator.Update(s.rtt, sample) else s.rtt)
  }

  function Slide(s: Snd, ack: nat): Snd
    requires ack >= s.base
  {
    s.(ackCnt := s.ackCnt + (ack - s.base), base := ack)
  }

  /** Everything a new ACK does before send_lock is needed. */
  function NewAckSlide(s: Snd, ack: nat, adv: nat, sample: nat): Snd
    requires ack > s.base
  {
    var s1 := s.(cong := Congestion.OnNewAck(s.cong, adv));
    var s2 := Slide(TakeSample(s1, ack, sample), ack);
    if s2.base == s2.nextseq then Mark(StopTimer(s2), false) else Mark(StartTimer(s2), true)
  }

  predicate NeedsCompaction(s: Snd) {
    |s.buf| != 0 && (s.ackCnt == |s.buf| || s.ackCnt > CLEAN_THRESHOLD)
  }

  /** Drop the acknowledged bytes from the front of the buffer. */
  function Compact(s: Snd): Snd
    requires s.ackCnt <= s.have && s.ackCnt <= |s.buf|
  {
    s.(buf := s.buf[s.ackCnt..], have := s.have - s.ackCnt, ackCnt := 0)
  }

  function OtherAck(s: Snd, ack: nat, adv: nat): Snd
    requires ack <= s.base
  {
    if ack < s.base then s.(cong := Congestion.OnOldAck(s.cong, adv))
    else
      var s1 := s.(cong := Congestion.OnDupAck(s.cong, adv));
      if Congestion.CountsThree(s.cong) then Raise(s1) else s1
  }

  /** The clean-up would take ack_cnt from a smaller have_send_len: the ACK names bytes never sent. */
  predicate Wraps(s: Snd, ack: nat) {
    ack > s.base
    && var n := s.ackCnt + (ack - s.base);
       |s.buf| != 0 && (n == |s.buf| || n > CLEAN_THRESHOLD) && n > s.have
  }

  /** The source compares ack with base only. All it needs is that no unsigned subtraction wraps. */
  predicate CanHandle(s: Snd, ack: nat) { s.have <= |s.buf| && !Wraps(s, ack) }

  /** The whole ACK branch. */
  function HandleAck(s: Snd, ack: nat, adv: nat, sample: nat): Snd
    requires CanHandle(s, ack)
  {
    if ack <= s.base then ZeroWindow(OtherAck(s, ack, adv))
    else
      var s1 := NewAckSlide(s, ack, adv, sample);
      ZeroWindow(if NeedsCompaction(s1) then Compact(s1) else s1)
  }

  /** How the congestion state moves on an ACK. */
  function AckEvent(s: Snd, ack: nat, adv: nat): Congestion.Event {
    if ack < s.base then Congestion.OldAck(adv)
    else if ack == s.base then Congestion.DupAck(adv)
    else Congestion.NewAck(adv)
  }

  // ----- what each step leaves alone -----

  /** Same buffer, same offsets, same sequence numbers. */
  predicate SamePlace(s: Snd, t: Snd) {
    t.buf == s.buf && t.have == s.have && t.ackCnt == s.ackCnt && t.base == s.base && t.nextseq == s.nextseq
  }

  lemma ZeroWindowFrame(s: Snd)
    ensures SamePlace(s, ZeroWindow(s)) && ZeroWindow(s).cong == s.cong && ZeroWindow(s).rtt == s.rtt
  {
  }

  lemma OtherAckFrame(s: Snd, ack: nat, adv: nat)
    requires ack <= s.base
    ensures SamePlace(s, OtherAck(s, ack, adv)) && OtherAck(s, ack, adv).rtt == s.rtt
  {
  }

  lemma NewAckFrame(s: Snd, ack: nat, adv: nat, sample: nat)
    requires ack > s.base
    ensures var t := NewAckSlide(s, ack, adv, sample);
            && t.buf == s.buf && t.have == s.have && t.nextseq == s.nextseq
            && t.base == ack && t.ackCnt == s.ackCnt + (ack - s.base)
            && t.cong == Congestion.OnNewAck(s.cong, adv)
  {
  }

  /** A new ACK stops the timer if it covers everything published and restarts it otherwise. */
  lemma NewAckFlags(s: Snd, ack: nat, adv: nat, sample: nat)
    requires ack > s.base
    ensures var t, u := NewAckSlide(s, ack, adv, sample), TakeSample(s, ack, sample);
            && t.rtt == u.rtt && u.ctl == s.ctl
            && t.ctl == if ack == s.nextseq then s.ctl.(armed := false, isRetransing := false)
                        else Ctl(true, false, false, Starts(u))
  {
  }

  /** The flags after an ACK that advances nothing. */
  lemma OtherAckFlags(s: Snd, ack: nat, adv: nat)
    requires ack <= s.base
    ensures var t := ZeroWindow(OtherAck(s, ack, adv)); var raised := ack == s.base && Congestion.CountsThree(s.cong);
            t.ctl == if t.cong.wnd == 0 then Started(s.ctl, s.rtt.rto).(isRetransing := false)
                     else if raised then s.ctl.(isRetransing := true, retrans := true)
                     else s.ctl
  {
  }

  /** The flags after the whole branch, compacted or not: a closed window starts the timer once more. */
  lemma HandleAckFlags(s: Snd, ack: nat, adv: nat, sample: nat)
    requires CanHandle(s, ack) && ack > s.base
    ensures var t, s1 := HandleAck(s, ack, adv, sample), NewAckSlide(s, ack, adv, sample);
            && t.cong == s1.cong && t.rtt == s1.rtt
            && t.ctl == if t.cong.wnd == 0 then Started(s1.ctl, s1.rtt.rto).(isRetransing := false) else s1.ctl
  {
  }

  lemma RetransFrame(s: Snd, p: Pass)
    ensures !BeginsPass(s) ==> SamePlace(s, RetransIdle(s))
    ensures SamePlace(s, PassBegin(s)) && SamePlace(s, ResendOne(s, p)) && SamePlace(s, ResendEnd(s))
    ensures SamePlace(s, WholePass(s))
  {
  }

  lemma BurstFrame(s: Snd, snap: Snap)
    ensures var t := Burst(s, snap);
            && t.buf == s.buf && t.ackCnt == s.ackCnt && t.base == s.base && t.cong == s.cong && t.rtt == s.rtt
            && t.have == BurstEnd(s, snap) && t.nextseq == snap.nextseq + (t.have - s.have)
  {
  }

  lemma HandleAckFrame(s: Snd, ack: nat, adv: nat, sample: nat)
    requires CanHandle(s, ack)
    ensures var t := HandleAck(s, ack, adv, sample);
            if ack <= s.base then SamePlace(s, t)
            else
              var n := s.ackCnt + (ack - s.base);
              && t.base == ack && t.nextseq == s.nextseq
              && (if |s.buf| != 0 && (n == |s.buf| || n > CLEAN_THRESHOLD)
                  then t.ackCnt == 0 && t.buf == s.buf[n..] && t.have == s.have - n
                  else t.ackCnt == n && t.buf == s.buf && t.have == s.have)
  {
    if ack <= s.base {
      OtherAckFrame(s, ack, adv);
      ZeroWindowFrame(OtherAck(s, ack, adv));
    } else {
      NewAckFrame(s, ack, adv, sample);
      var s1 := NewAckSlide(s, ack, adv, sample);
      ZeroWindowFrame(if NeedsCompaction(s1) then Compact(s1) else s1);
    }
  }

  /** Both coordinate systems stay aligned through every operation, through an ACK iff it names sent bytes only. */
  lemma CoupledKept(s: Snd, data: seq<byte>, ack: nat, adv: nat, sample: nat)
    requires Coupled(s)
    ensures Coupled(AppSend(s, data))
    ensures Coupled(Burst(s, TakeSnap(s)))
    ensures Coupled(WholePass(s)) && (!BeginsPass(s) ==> Coupled(RetransIdle(s)))
    ensures CanHandle(s, ack) ==> (Coupled(HandleAck(s, ack, adv, sample)) <==> ack <= s.nextseq)
    ensures ack <= s.nextseq ==> CanHandle(s, ack)
  {
    BurstFrame(s, TakeSnap(s));
    RetransFrame(s, PassOf(s));
    if CanHandle(s, ack) {
      HandleAckFrame(s, ack, adv, sample);
    }
  }

  /** After any ACK the acknowledged prefix is at most four fifths of the buffer, and the bytes from
      base on are the same bytes as before. */
  lemma CompactionLaw(s: Snd, ack: nat, adv: nat, sample: nat)
    requires CanHandle(s, ack) && s.ackCnt <= CLEAN_THRESHOLD
    ensures var t := HandleAck(s, ack, adv, sample); var n := s.ackCnt + t.base - s.base;
            && t.base == (if ack > s.base then ack else s.base) && t.nextseq == s.nextseq
            && (ack > s.base && t.ackCnt == |t.buf| ==> t.buf == [])
            && (n <= |s.buf| ==> t.ackCnt <= CLEAN_THRESHOLD && t.ackCnt <= |t.buf| && t.buf[t.ackCnt..] == s.buf[n..])
  {
    HandleAckFrame(s, ack, adv, sample);
  }
}
