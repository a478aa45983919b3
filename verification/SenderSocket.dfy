/** The sender half of tju_tcp_t over its real buffer and fields (src/tju_tcp.c, src/timer.c). */
module SenderSocket {
  import opened Global
  import opened Segmentation
  import opened SenderCore
  import Congestion
  import RttEstimator

  /** The segments still to be emitted from buffer offset lo up to hi. */
  ghost function Left(s: seq<byte>, lo: nat, hi: nat, q: nat): seq<Packet> {
    if lo <= hi <= |s| then Segments(s[lo..hi], q) else []
  }

  /** A burst one segment further: what is out, followed by what is left, stays the same, and so does the outcome. */
  lemma Sent(out: seq<Packet>, s: Snd, b: Sending)
    requires s.have < b.end <= |s.buf| && b.base <= b.q
    ensures SendRest(SendOne(s, b), SendNext(s, b)) == SendRest(s, b)
    ensures out + [SendPacket(s, b)] + RestPackets(SendOne(s, b), SendNext(s, b)) == out + RestPackets(s, b)
  {
    RestUnfold(s, b);
  }

  /** Emitting the next segment keeps what is out, followed by what is left, the same. */
  lemma Emit(out: seq<Packet>, s: seq<byte>, lo: nat, hi: nat, q: nat, p: Packet)
    requires lo < hi <= |s|
    requires p == Data(q, s[lo..lo + Min(hi - lo, MAX_DLEN)])
    ensures var d := Min(hi - lo, MAX_DLEN); out + [p] + Left(s, lo + d, hi, q + d) == out + Left(s, lo, hi, q)
  {
    FirstSegment(s, lo, hi, q);
  }

  lemma LeftPrefix(s: seq<byte>, n: nat, lo: nat, hi: nat, q: nat)
    requires lo <= hi <= n <= |s|
    ensures Left(s, lo, hi, q) == Left(s[..n], lo, hi, q) == Segments(s[..n][lo..hi], q)
  {
    assert s[lo..hi] == s[..n][lo..hi];
  }

  /** A fresh buffer holding cells from..to of a at its front. */
  method Suffix(a: array<byte>, from: nat, to: nat) returns (b: array<byte>)
    requires from <= to <= a.Length
    ensures fresh(b) && b.Length == a.Length && b[..to - from] == a[..to][from..]
  {
    b := new byte[a.Length];
    forall i | 0 <= i < to - from {
      b[i] := a[from + i];
    }
  }

  class Sender {
    var sendingBuf: array<byte>
    var sendingLen: nat
    var haveSendLen: nat
    var ackCnt: nat
    var base: nat
    var nextseq: nat

    var windowSize: nat
    var windowStatus: Congestion.Status
    var cwnd: nat
    var ssthresh: nat
    var sameAckCnt: nat
    var rwnd: nat

    var estmatedRtt: nat
    var devRtt: nat
    var timeoutUsec: nat
    var isEstimatingRtt: bool
    var rttExpectAck: nat

    var isRetransing: bool
    var retrans: bool
    var timeoutFlag: bool
    var timerArmed: bool

    ghost predicate Valid()
      reads this
    {
      sendingBuf.Length == MAX_SOCK_BUF_SIZE && haveSendLen <= sendingLen <= MAX_SOCK_BUF_SIZE && 1 <= base
    }

    /** Offsets and sequence numbers aligned: what an ACK of bytes never sent would destroy. */
    ghost predicate Aligned()
      reads this
    {
      Valid() && ackCnt <= haveSendLen && nextseq - base == haveSendLen - ackCnt
    }

    ghost function Cong(): Congestion.Cong
      reads this
    {
      Congestion.Cong(windowStatus, cwnd, ssthresh, sameAckCnt, rwnd, windowSize)
    }

    ghost function Flags(): Ctl
      reads this
    {
      Ctl(isRetransing, retrans, timeoutFlag, timerArmed)
    }

    ghost function Abs(): (s: Snd)
      requires sendingLen <= sendingBuf.Length
      reads this, sendingBuf
      ensures Valid() ==> (Aligned() <==> Coupled(s))
    {
      Snd(sendingBuf[..sendingLen], haveSendLen, ackCnt, base, nextseq, Cong(),
          RttEstimator.Rtt(estmatedRtt, devRtt, timeoutUsec), isEstimatingRtt, rttExpectAck, Flags())
    }

    /** tju_socket; the flags RETRANS and TIMEOUT_FLAG are globals and start at zero. */
    constructor ()
      ensures Aligned() && Abs() == SenderCore.INITIAL && fresh(sendingBuf)
    {
      sendingBuf := new byte[MAX_SOCK_BUF_SIZE];
      sendingLen, haveSendLen, ackCnt, base, nextseq := 0, 0, 0, 1, 1;
      windowSize, windowStatus, cwnd, ssthresh, sameAckCnt, rwnd :=
        MAX_DLEN, Congestion.SlowStart, MAX_DLEN, MAX_SWINDOW_SIZE / 2, 0, MAX_RWINDOW_SIZE;
      estmatedRtt, devRtt, timeoutUsec, isEstimatingRtt, rttExpectAck := TCP_RTO_MIN, 0, INITIAL_RTO, false, 0;
      isRetransing, retrans, timeoutFlag, timerArmed := false, false, false, false;
      new;
      assert sendingBuf[..0] == [];
    }

    // ----- timer.c:177-230 -----

    method StartTimer()
      modifies `retrans, `timeoutFlag, `timerArmed
      ensures Flags() == Started(old(Flags()), timeoutUsec)
      ensures sendingLen <= sendingBuf.Length ==> Abs() == SenderCore.StartTimer(old(Abs()))
    {
      retrans, timeoutFlag := false, false;
      if timeoutUsec <= MAX_USEC {
        timerArmed := timeoutUsec != 0;
      }
    }

    method StopTimer()
      modifies `timerArmed
      ensures Flags() == old(Flags()).(armed := false)
      ensures sendingLen <= sendingBuf.Length ==> Abs() == SenderCore.StopTimer(old(Abs()))
    {
      timerArmed := false;
    }

    /** The one-shot timer expires and its handler runs. */
    method TimeoutHandler()
      requires Valid() && timerArmed
      modifies `retrans, `timeoutFlag, `timerArmed
      ensures Abs() == SenderCore.TimerFires(old(Abs()))
    {
      timerArmed := false;
      retrans, timeoutFlag := true, true;
    }

    method CalTimeout(sampleRtt: nat)
      requires Valid()
      modifies `estmatedRtt, `devRtt, `timeoutUsec
      ensures Abs() == old(Abs()).(rtt := RttEstimator.Update(old(Abs()).rtt, sampleRtt))
    {
      estmatedRtt := (7 * estmatedRtt + sampleRtt) / 8;
      var diff := sampleRtt - estmatedRtt;
      devRtt := (3 * devRtt + (if diff < 0 then -diff else diff)) / 4;
      timeoutUsec := estmatedRtt + 4 * devRtt;
    }

    // ----- tju_send -----

    /** One iteration of the loop of tju_send; on a full buffer it changes nothing. */
    method TjuSendIteration(data: seq<byte>) returns (done: bool)
      requires Valid()
      modifies `sendingLen, sendingBuf
      ensures Valid() && Abs() == AppSend(old(Abs()), data)
      ensures done <==> DataFits(old(Abs()), data)
    {
      var n := if MAX_SOCK_BUF_SIZE - sendingLen >= |data| then |data| else MAX_SOCK_BUF_SIZE - sendingLen;
      done := n == |data|;
      forall i | 0 <= i < n {
        sendingBuf[sendingLen + i] := data[i];
      }
      sendingLen := sendingLen + n;
    }

    // ----- sending_thread -----

    /** Lines 63-67 of timer.c: a measurement begins unless one is under way. */
    method BeginMeasurement(expectAck: nat)
      requires sendingLen <= sendingBuf.Length
      modifies `isEstimatingRtt, `rttExpectAck
      ensures Abs() == if old(Abs()).measuring then old(Abs())
                       else old(Abs()).(measuring := true, expectAck := expectAck)
    {
      if !isEstimatingRtt {
        isEstimatingRtt := true;
        rttExpectAck := expectAck;
      }
    }

    /** Lines 69-74 of timer.c: the timer, if the snapshot saw nothing outstanding. */
    method StartIfFirst(wndBase: nat, wndNextseq: nat)
      requires sendingLen <= sendingBuf.Length
      modifies `isRetransing, `retrans, `timeoutFlag, `timerArmed
      ensures Abs() == if wndBase == wndNextseq then Mark(SenderCore.StartTimer(old(Abs())), true) else old(Abs())
    {
      if wndBase == wndNextseq {
        StartTimer();
        isRetransing := true;
      }
    }

    /** Lines 39-59 of timer.c: the packet and its length. */
    method NextSegment(tmpLen: nat, q: nat) returns (p: Packet, dlen: nat)
      requires Valid() && haveSendLen < tmpLen <= sendingLen
      ensures dlen == Min(tmpLen - haveSendLen, MAX_DLEN)
      ensures p == Data(q, sendingBuf[..sendingLen][haveSendLen..haveSendLen + dlen])
    {
      dlen := Min(tmpLen - haveSendLen, MAX_DLEN);
      p := Data(q, sendingBuf[haveSendLen..haveSendLen + dlen]);
      assert sendingBuf[haveSendLen..haveSendLen + dlen] == sendingBuf[..sendingLen][haveSendLen..haveSendLen + dlen];
    }

    /** Lines 39-78 of timer.c: one segment, RTT measurement, and the timer if it is the first of the window. */
    method FirstSendOne(tmpLen: nat, wndBase: nat, wndNextseq: nat) returns (p: Packet, dlen: nat)
      requires Valid() && haveSendLen < tmpLen <= sendingLen
      modifies `haveSendLen, `isEstimatingRtt, `rttExpectAck, `isRetransing, `retrans, `timeoutFlag, `timerArmed
      ensures Valid() && haveSendLen <= tmpLen
      ensures var b := Sending(tmpLen, wndNextseq, wndBase);
              && Abs() == SendOne(old(Abs()), b) && p == SendPacket(old(Abs()), b) && dlen == SendLen(old(Abs()), b)
    {
      p, dlen := NextSegment(tmpLen, wndNextseq);
      BeginMeasurement(wndNextseq + dlen);
      StartIfFirst(wndBase, wndNextseq);
      haveSendLen := haveSendLen + dlen;
    }

    /** The loop of sending_thread, up to buffer offset tmpLen, and the new nextseq. */
    method FirstSendLoop(tmpLen: nat, wndBase: nat, firstSeq: nat) returns (out: seq<Packet>)
      requires Valid() && tmpLen <= sendingLen && wndBase <= firstSeq
      modifies `nextseq, `haveSendLen, `isEstimatingRtt, `rttExpectAck
      modifies `isRetransing, `retrans, `timeoutFlag, `timerArmed
      ensures Valid()
      ensures var b := Sending(tmpLen, firstSeq, wndBase);
              Abs() == SendRest(old(Abs()), b) && out == RestPackets(old(Abs()), b)
    {
      ghost var s0, b0 := Abs(), Sending(tmpLen, firstSeq, wndBase);
      ghost var s, b := s0, b0;
      var wndNextseq := firstSeq;
      out := [];
      while haveSendLen < tmpLen
        invariant Valid() && tmpLen <= sendingLen && wndBase <= wndNextseq
        invariant s == Abs() && b == Sending(tmpLen, wndNextseq, wndBase)
        invariant SendRest(s, b) == SendRest(s0, b0)
        invariant out + RestPackets(s, b) == RestPackets(s0, b0)
      {
        Sent(out, s, b);
        var p, dlen := FirstSendOne(tmpLen, wndBase, wndNextseq);
        out := out + [p];
        wndNextseq := wndNextseq + dlen;
        s, b := SendOne(s, b), SendNext(s, b);
      }
      nextseq := wndNextseq;
    }

    /** The body under the guard: snapshot and loop. */
    method SendBurst() returns (out: seq<Packet>)
      requires Aligned()
      modifies `nextseq, `haveSendLen, `isEstimatingRtt, `rttExpectAck
      modifies `isRetransing, `retrans, `timeoutFlag, `timerArmed
      ensures Valid()
      ensures Abs() == Burst(old(Abs()), TakeSnap(old(Abs()))) && out == BurstPackets(old(Abs()), TakeSnap(old(Abs())))
    {
      assert SendingOf(Abs(), TakeSnap(Abs())) == Sending(Min(sendingLen, ackCnt + windowSize), nextseq, base);
      out := FirstSendLoop(Min(sendingLen, ackCnt + windowSize), base, nextseq);
    }

    /** One iteration of sending_thread: out is what it hands to sendToLayer3. */
    method SendingThread() returns (out: seq<Packet>)
      requires Aligned()
      modifies this
      ensures Aligned() && sendingBuf == old(sendingBuf)
      ensures !CanSend(old(Abs())) ==> Abs() == old(Abs()) && out == []
      ensures CanSend(old(Abs())) ==>
                Abs() == Burst(old(Abs()), TakeSnap(old(Abs())))
                && out == BurstPackets(old(Abs()), TakeSnap(old(Abs())))
    {
      if windowSize != 0 && haveSendLen < sendingLen && haveSendLen < ackCnt + windowSize && !isRetransing {
        ghost var s := Abs();
        out := SendBurst();
        BurstFrame(s, TakeSnap(s));
      } else {
        out := [];
      }
    }

    // ----- retrans_thread -----

    /** The timeout reaction at the head of a pass. */
    method ReactToTimeout()
      requires Valid()
      modifies `ssthresh, `cwnd, `windowStatus, `windowSize
      ensures Valid() && Abs() == PassBegin(old(Abs()))
    {
      if timeoutFlag {
        ssthresh := cwnd / 2;
        cwnd := MAX_DLEN;
        windowStatus := Congestion.SlowStart;
        windowSize := Min(cwnd, rwnd);
      }
    }

    /** Lines 138-162 of timer.c: one segment of a pass, and the timer if it is the first unacknowledged one. */
    method ResendOneSegment(wndAckCnt: nat, haveSent: nat, wndBase: nat) returns (p: Packet, dlen: nat)
      requires wndAckCnt < haveSent <= sendingLen <= sendingBuf.Length
      modifies `isRetransing, `retrans, `timeoutFlag, `timerArmed
      ensures dlen == Min(haveSent - wndAckCnt, MAX_DLEN)
      ensures p == Data(wndBase, sendingBuf[..][wndAckCnt..wndAckCnt + dlen])
      ensures Flags() == if wndAckCnt == ackCnt then Started(old(Flags()), timeoutUsec).(isRetransing := true)
                         else old(Flags())
    {
      dlen := Min(haveSent - wndAckCnt, MAX_DLEN);
      p := Data(wndBase, sendingBuf[wndAckCnt..wndAckCnt + dlen]);
      assert sendingBuf[wndAckCnt..wndAckCnt + dlen] == sendingBuf[..][wndAckCnt..wndAckCnt + dlen];
      if wndAckCnt == ackCnt {
        StartTimer();
        isRetransing := true;
      }
    }

    /** The resend loop, from ack_cnt to have_send_len. */
    method ResendLoop() returns (out: seq<Packet>)
      requires Aligned()
      modifies `isRetransing, `retrans, `timeoutFlag, `timerArmed
      ensures Flags() == if ackCnt < haveSendLen then Started(old(Flags()), timeoutUsec).(isRetransing := true)
                         else old(Flags())
      ensures out == Left(sendingBuf[..], ackCnt, haveSendLen, base)
    {
      var wndAckCnt, haveSent, wndBase := ackCnt, haveSendLen, base;
      ghost var buf, from, q, f0 := sendingBuf[..], ackCnt, base, Flags();
      ghost var f1 := Started(f0, timeoutUsec).(isRetransing := true);
      out := [];
      while wndAckCnt < haveSent
        invariant from <= wndAckCnt <= haveSent
        invariant wndBase == q + (wndAckCnt - from)
        invariant Flags() == if wndAckCnt == from then f0 else f1
        invariant out + Left(buf, wndAckCnt, haveSent, wndBase) == Left(buf, from, haveSent, q)
      {
        var p, dlen := ResendOneSegment(wndAckCnt, haveSent, wndBase);
        Emit(out, buf, wndAckCnt, haveSent, wndBase, p);
        out := out + [p];
        wndAckCnt := wndAckCnt + dlen;
        wndBase := wndBase + dlen;
      }
    }

    /** Lines 170-171 of timer.c. */
    method LowerFlags()
      requires Valid()
      modifies `isRetransing, `retrans
      ensures Abs() == ResendEnd(old(Abs()))
    {
      retrans := false;
      isRetransing := false;
    }

    /** Lines 132-171: resend, then lower both flags. */
    method ResendAndClear() returns (out: seq<Packet>)
      requires Aligned()
      modifies `isRetransing, `retrans, `timeoutFlag, `timerArmed
      ensures Abs() == ResendEnd(if ackCnt < haveSendLen then Mark(SenderCore.StartTimer(old(Abs())), true)
                                 else old(Abs()))
      ensures out == WholePassPackets(old(Abs()))
    {
      ghost var s := Abs();
      out := ResendLoop();
      assert Abs() == if s.ackCnt < s.have then Mark(SenderCore.StartTimer(s), true) else s;
      LeftPrefix(sendingBuf[..], sendingLen, ackCnt, haveSendLen, base);
      LowerFlags();
    }

    /** Lines 115-172: the pass under send_lock. */
    method RetransmissionPass() returns (out: seq<Packet>)
      requires Aligned()
      modifies `ssthresh, `cwnd, `windowStatus, `windowSize, `isRetransing, `retrans, `timeoutFlag, `timerArmed
      ensures Abs() == WholePass(old(Abs())) && out == WholePassPackets(old(Abs()))
    {
      ghost var s := Abs();
      ReactToTimeout();
      out := ResendAndClear();
      RetransFrame(s, PassOf(s));
    }

    /** Lines 92-113: probe a closed window, or recheck after a finished pass. */
    method ProbeOrRecheck() returns (out: seq<Packet>)
      requires Valid() && (windowSize == 0 || !isRetransing)
      modifies `isRetransing, `retrans, `timeoutFlag, `timerArmed
      ensures Abs() == RetransIdle(old(Abs())) && out == RetransIdlePackets(old(Abs()))
    {
      out := [];
      if windowSize == 0 {
        out := [Data(base - 1, [])];
        StartTimer();
      } else {
        retrans := false;
        if ackCnt < haveSendLen {
          isRetransing := true;
          retrans := true;
        }
      }
    }

    /** One iteration of retrans_thread with RETRANS raised. */
    method RetransThread() returns (out: seq<Packet>)
      requires Aligned() && retrans
      modifies this
      ensures Aligned() && sendingBuf == old(sendingBuf)
      ensures BeginsPass(old(Abs())) ==> Abs() == WholePass(old(Abs())) && out == WholePassPackets(old(Abs()))
      ensures !BeginsPass(old(Abs())) ==> Abs() == RetransIdle(old(Abs())) && out == RetransIdlePackets(old(Abs()))
    {
      if windowSize == 0 || !isRetransing {
        out := ProbeOrRecheck();
      } else {
        out := RetransmissionPass();
      }
    }

    // ----- the ACK branch of tju_handle_packet -----

    /** Lines 544-557: a fresh buffer without the acknowledged prefix. */
    method CleanSendingBuf()
      requires Valid() && (NeedsCompaction(Abs()) ==> ackCnt <= haveSendLen)
      modifies `sendingBuf, `sendingLen, `haveSendLen, `ackCnt
      ensures Valid() && (sendingBuf == old(sendingBuf) || fresh(sendingBuf))
      ensures Abs() == if NeedsCompaction(old(Abs())) then Compact(old(Abs())) else old(Abs())
    {
      if sendingLen != 0 && (ackCnt == sendingLen || ackCnt > CLEAN_THRESHOLD) {
        sendingBuf := Suffix(sendingBuf, ackCnt, sendingLen);
        sendingLen := sendingLen - ackCnt;
        haveSendLen := haveSendLen - ackCnt;
        ackCnt := 0;
      }
    }

    /** Lines 458-489: count the duplicate, or inflate the window, and enter fast recovery at the third. */
    method DuplicateAck(advWindow: nat)
      modifies `rwnd, `windowSize, `windowStatus, `cwnd, `ssthresh, `sameAckCnt, `isRetransing, `retrans
      ensures Cong() == Congestion.OnDupAck(old(Cong()), advWindow)
      ensures Flags() == if Congestion.CountsThree(old(Cong()))
                         then old(Flags()).(isRetransing := true, retrans := true)
                         else old(Flags())
    {
      rwnd := advWindow;
      if windowStatus != Congestion.FastRecovery {
        sameAckCnt := sameAckCnt + 1;
      } else {
        cwnd := cwnd + MAX_DLEN;
      }
      if sameAckCnt == 3 && windowStatus != Congestion.FastRecovery {
        ssthresh := cwnd / 2;
        cwnd := ssthresh;
        windowStatus := Congestion.FastRecovery;
        isRetransing := true;
        retrans := true;
      }
      windowSize := Min(cwnd, rwnd);
    }

    /** Lines 446-490. */
    method OldOrDuplicateAck(ack: nat, advWindow: nat)
      requires Valid() && ack <= base
      modifies `rwnd, `windowSize, `windowStatus, `cwnd, `ssthresh, `sameAckCnt, `isRetransing, `retrans
      ensures Valid() && Abs() == OtherAck(old(Abs()), ack, advWindow)
    {
      if ack < base {
        rwnd := advWindow;
        windowSize := Min(cwnd, rwnd);
      } else {
        DuplicateAck(advWindow);
      }
    }

    /** Lines 495-516. */
    method GrowWindow(advWindow: nat)
      requires Valid()
      modifies `rwnd, `windowSize, `windowStatus, `cwnd, `sameAckCnt
      ensures Cong() == Congestion.OnNewAck(old(Cong()), advWindow)
    {
      rwnd := advWindow;
      sameAckCnt := 0;
      match windowStatus {
        case SlowStart =>
          cwnd := cwnd * 2;
          if cwnd >= ssthresh {
            cwnd := ssthresh;
            windowStatus := Congestion.CongestionAvoidance;
          }
        case CongestionAvoidance => cwnd := cwnd + MAX_DLEN;
        case FastRecovery => windowStatus := Congestion.CongestionAvoidance;
      }
      windowSize := Min(cwnd, rwnd);
    }

    /** Lines 520-525. */
    method MeasureRtt(ack: nat, sampleRtt: nat)
      requires Valid()
      modifies `estmatedRtt, `devRtt, `timeoutUsec, `isEstimatingRtt
      ensures Abs() == TakeSample(old(Abs()), ack, sampleRtt)
    {
      if isEstimatingRtt {
        if rttExpectAck == ack {
          CalTimeout(sampleRtt);
        }
        isEstimatingRtt := false;
      }
    }

    /** Lines 528-529. */
    method AdvanceBase(ack: nat)
      requires Valid() && base < ack
      modifies `ackCnt, `base
      ensures Valid() && Abs() == Slide(old(Abs()), ack)
    {
      ackCnt := ackCnt + (ack - base);
      base := ack;
    }

    /** Lines 531-541. */
    method RestartTimer()
      requires Valid()
      modifies `isRetransing, `retrans, `timeoutFlag, `timerArmed
      ensures Valid()
      ensures Abs() == if base == nextseq then Mark(SenderCore.StopTimer(old(Abs())), false)
                       else Mark(SenderCore.StartTimer(old(Abs())), true)
    {
      if base == nextseq {
        StopTimer();
        isRetransing := false;
      } else {
        StartTimer();
        isRetransing := true;
      }
    }

    /** Lines 495-541: window, sample, slide, timer. */
    method AdvanceWindow(ack: nat, advWindow: nat, sampleRtt: nat)
      requires Valid() && base < ack
      modifies this
      ensures Valid() && sendingBuf == old(sendingBuf)
      ensures Abs() == NewAckSlide(old(Abs()), ack, advWindow, sampleRtt)
    {
      ghost var s := Abs();
      GrowWindow(advWindow);
      assert Abs() == s.(cong := Congestion.OnNewAck(s.cong, advWindow));
      MeasureRtt(ack, sampleRtt);
      AdvanceBase(ack);
      RestartTimer();
    }

    /** Lines 561-565. */
    method CheckZeroWindow()
      requires Valid()
      modifies `isRetransing, `retrans, `timeoutFlag, `timerArmed
      ensures Valid() && Abs() == ZeroWindow(old(Abs()))
    {
      if windowSize == 0 {
        StartTimer();
        isRetransing := false;
      }
    }

    /** The ACK branch. The source does not compare ack with nextseq; only the clean-up must not wrap. */
    method HandleAck(ack: nat, advWindow: nat, sampleRtt: nat)
      requires Valid() && CanHandle(Abs(), ack)
      modifies this
      ensures Valid() && (sendingBuf == old(sendingBuf) || fresh(sendingBuf))
      ensures Abs() == SenderCore.HandleAck(old(Abs()), ack, advWindow, sampleRtt)
    {
      if ack <= base {
        OldOrDuplicateAck(ack, advWindow);
      } else {
        AdvanceWindow(ack, advWindow, sampleRtt);
        CleanSendingBuf();
      }
      CheckZeroWindow();
    }
  }
}
