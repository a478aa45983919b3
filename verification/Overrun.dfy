/** A run in which flow control fails: compaction between a snapshot and its burst. */
module Overrun {
  import opened Global
  import opened Segmentation
  import opened SenderCore
  import Reassembly
  import Congestion
  import A = Atomic
  import I = Interleaved
  import Races

  predicate Open(c: Congestion.Cong) {
    && c.status != Congestion.FastRecovery && c.cwnd >= MAX_DLEN && c.ssthresh >= MAX_DLEN
    && c.rwnd == MAX_RWINDOW_SIZE && c.wnd == Min(c.cwnd, c.rwnd)
  }

  /** k bytes sent and acknowledged, none of them compacted away; rest still to be sent. */
  predicate At(w: I.World, k: nat, rest: seq<byte>) {
    var s := w.snd;
    && |s.buf| == k + |rest| && s.buf[k..] == rest
    && s.ackCnt == k && s.have == k && s.base == k + 1 && s.nextseq == k + 1
    && !s.ctl.isRetransing && Open(s.cong)
    && w.rcv == Reassembly.Rcv(k + 1, map[], [], MAX_RWINDOW_SIZE)
    && w.pass.None? && w.snap.None? && w.burst.None?
  }

  /** One byte goes out, and more data is put into the buffer. */
  function GoOut(data: seq<byte>): seq<I.Step> {
    [I.Snapshot] + [I.BurstBegin] + [I.BurstOne] + [I.BurstEnd] + [I.AppSend(data)]
  }

  /** The byte is delivered, read and acknowledged; round trips may last as long as they like. */
  function ComeBack(b: byte, k: nat, sample: nat): seq<I.Step> {
    [I.DataArrives(k + 1, [b])] + [I.AppRecv(1)] + [I.AckArrives(k + 2, MAX_RWINDOW_SIZE, sample)]
  }

  function Round(b: byte, k: nat, data: seq<byte>, sample: nat): seq<I.Step> { GoOut(data) + ComeBack(b, k, sample) }

  /** The byte is out and the data behind it. */
  predicate Out(w: I.World, b: byte, k: nat, data: seq<byte>) {
    var s := w.snd;
    && |s.buf| == k + 1 + |data| && s.buf[k + 1..] == data
    && s.ackCnt == k && s.have == k + 1 && s.base == k + 1 && s.nextseq == k + 2 && Open(s.cong)
    && w.rcv == Reassembly.Rcv(k + 1, map[], [], MAX_RWINDOW_SIZE) && Data(k + 1, [b]) in w.net
    && w.pass.None? && w.snap.None? && w.burst.None? && !w.compacting
  }

  lemma GoesOut(w: I.World, b: byte, k: nat, data: seq<byte>)
    requires At(w, k, [b]) && !w.compacting && 1 <= |data| <= MAX_SOCK_BUF_SIZE - (k + 1)
    ensures I.Legal(w, GoOut(data)) && Out(I.Exec(w, GoOut(data)), b, k, data)
  {
    var s := w.snd;
    var a := [I.Snapshot] + [I.BurstBegin] + [I.BurstOne] + [I.BurstEnd];
    ByteGoesOut(w, b, k);
    Races.ExecSnoc(w, a, I.AppSend(data));
    assert I.Exec(w, GoOut(data)).snd.buf == s.buf + data;
  }

  lemma ByteGoesOut(w: I.World, b: byte, k: nat)
    requires At(w, k, [b]) && !w.compacting
    ensures var st := [I.Snapshot] + [I.BurstBegin] + [I.BurstOne] + [I.BurstEnd];
            I.Legal(w, st)
            && var v := I.Exec(w, st);
               && Out(v, b, k, []) && v.snd.buf == w.snd.buf
  {
    assert w.snd.buf[k..k + 1] == [b];
    A.Exec1(w, I.Snapshot);
    Races.ExecSnoc(w, [I.Snapshot], I.BurstBegin);
    Races.ExecSnoc(w, [I.Snapshot] + [I.BurstBegin], I.BurstOne);
    Races.ExecSnoc(w, [I.Snapshot] + [I.BurstBegin] + [I.BurstOne], I.BurstEnd);
  }

  /** The byte has been delivered and read, its ACK is under way, the sender knows nothing of it. */
  predicate Answered(w: I.World, k: nat, data: seq<byte>) {
    var s := w.snd;
    && |s.buf| == k + 1 + |data| && s.buf[k + 1..] == data
    && s.ackCnt == k && s.have == k + 1 && s.base == k + 1 && s.nextseq == k + 2 && Open(s.cong)
    && w.rcv == Reassembly.Rcv(k + 2, map[], [], MAX_RWINDOW_SIZE) && Ack(k + 2, MAX_RWINDOW_SIZE) in w.net
    && w.pass.None? && w.snap.None? && w.burst.None? && !w.compacting
  }

  lemma IsAnswered(w: I.World, b: byte, k: nat, data: seq<byte>)
    requires Out(w, b, k, data)
    ensures var st := [I.DataArrives(k + 1, [b])] + [I.AppRecv(1)]; I.Legal(w, st) && Answered(I.Exec(w, st), k, data)
  {
    var d := I.DataArrives(k + 1, [b]);
    Races.OneByteDelivered(b, k + 1);
    A.Exec1(w, d);
    assert [b][Min(1, 1)..] == [];
    Races.ExecSnoc(w, [d], I.AppRecv(1));
  }

  lemma IsAcknowledged(w: I.World, k: nat, data: seq<byte>, sample: nat)
    requires Answered(w, k, data) && |data| >= 1
    ensures var c := I.AckArrives(k + 2, MAX_RWINDOW_SIZE, sample);
            I.Enabled(w, c) && At(I.Apply(w, c), k + 1, data) && (I.Apply(w, c).compacting <==> k >= CLEAN_THRESHOLD)
  {
    I.AckArrivesFrame(w, k + 2, MAX_RWINDOW_SIZE, sample);
    assert !NewAckSlide(w.snd, k + 2, MAX_RWINDOW_SIZE, sample).ctl.isRetransing;
  }

  lemma ComesBack(w: I.World, b: byte, k: nat, data: seq<byte>, sample: nat)
    requires Out(w, b, k, data) && |data| >= 1
    ensures var st := ComeBack(b, k, sample);
            I.Legal(w, st) && At(I.Exec(w, st), k + 1, data) && (I.Exec(w, st).compacting <==> k >= CLEAN_THRESHOLD)
  {
    var a := [I.DataArrives(k + 1, [b])] + [I.AppRecv(1)];
    IsAnswered(w, b, k, data);
    IsAcknowledged(I.Exec(w, a), k, data, sample);
    Races.ExecSnoc(w, a, I.AckArrives(k + 2, MAX_RWINDOW_SIZE, sample));
  }

  lemma RoundRuns(w: I.World, b: byte, k: nat, data: seq<byte>, sample: nat)
    requires At(w, k, [b]) && !w.compacting && 1 <= |data| <= MAX_SOCK_BUF_SIZE - (k + 1)
    ensures var st := Round(b, k, data, sample);
            I.Legal(w, st) && At(I.Exec(w, st), k + 1, data) && (I.Exec(w, st).compacting <==> k >= CLEAN_THRESHOLD)
  {
    GoesOut(w, b, k, data);
    ComesBack(I.Exec(w, GoOut(data)), b, k, data, sample);
    A.ExecAppend(w, GoOut(data), ComeBack(b, k, sample));
  }

  /** k rounds, one byte ahead all the time, so that the buffer is never emptied. */
  function Rounds(b: byte, k: nat, sample: nat): seq<I.Step> {
    if k == 0 then [I.AppSend([b])] else Rounds(b, k - 1, sample) + Round(b, k - 1, [b], sample)
  }

  lemma {:induction false} RoundsRun(b: byte, k: nat, sample: nat)
    requires k <= CLEAN_THRESHOLD
    ensures I.Legal(I.INITIAL, Rounds(b, k, sample))
    ensures var w := I.Exec(I.INITIAL, Rounds(b, k, sample)); At(w, k, [b]) && !w.compacting
  {
    if k == 0 {
      A.Exec1(I.INITIAL, I.AppSend([b]));
      assert I.Exec(I.INITIAL, Rounds(b, 0, sample)).snd.buf == [b];
    } else {
      RoundsRun(b, k - 1, sample);
      RoundRuns(I.Exec(I.INITIAL, Rounds(b, k - 1, sample)), b, k - 1, [b], sample);
      A.ExecAppend(I.INITIAL, Rounds(b, k - 1, sample), Round(b, k - 1, [b], sample));
    }
  }

  /** Snapshot, then the compaction that was waiting, then a burst of n bytes. */
  function Straddle(n: nat): seq<I.Step> {
    [I.Snapshot] + [I.Compact] + ([I.BurstBegin] + (A.Repeat(I.BurstOne, Ceil(n, MAX_DLEN)) + [I.BurstEnd]))
  }

  /** The snapshot was taken before the compaction, and the compaction has taken place. */
  predicate Straddled(w: I.World, k: nat, data: seq<byte>) {
    var s := w.snd;
    && s.buf == data && s.have == 0 && s.ackCnt == 0 && s.base == k + 1 && s.nextseq == k + 1
    && w.snap == Some(Snap(s.cong.wnd, k, k + 1, k + 1)) && w.pass.None? && w.burst.None?
  }

  lemma StraddleBegins(w: I.World, k: nat, data: seq<byte>)
    requires At(w, k, data) && w.compacting && 1 <= |data|
    ensures var st := [I.Snapshot] + [I.Compact];
            I.Legal(w, st) && Straddled(I.Exec(w, st), k, data) && I.Exec(w, st).snd.cong == w.snd.cong
  {
    A.Exec1(w, I.Snapshot);
    Races.ExecSnoc(w, [I.Snapshot], I.Compact);
    ZeroWindowFrame(Compact(w.snd));
  }

  lemma StraddleEnds(w: I.World, k: nat, data: seq<byte>)
    requires Straddled(w, k, data) && 1 <= |data| <= k
    ensures var st := [I.BurstBegin] + (A.Repeat(I.BurstOne, Ceil(|data|, MAX_DLEN)) + [I.BurstEnd]);
            I.Legal(w, st) && Unacked(I.Exec(w, st).snd) == |data| && I.Exec(w, st).snd.cong == w.snd.cong
  {
    BurstFrame(w.snd, w.snap.value);
    A.SnapRuns(w);
  }

  /** The ACK handler has slid the window and waits for send_lock; the snapshot is taken there and used afterwards. */
  lemma Straddles(w: I.World, k: nat, data: seq<byte>)
    requires At(w, k, data) && w.compacting && 1 <= |data| <= k && |data| <= MAX_SOCK_BUF_SIZE
    ensures var st := Straddle(|data|);
            I.Legal(w, st) && Unacked(I.Exec(w, st).snd) == |data| && I.Exec(w, st).snd.cong == w.snd.cong
  {
    var a := [I.Snapshot] + [I.Compact];
    StraddleBegins(w, k, data);
    StraddleEnds(I.Exec(w, a), k, data);
    A.ExecAppend(w, a, [I.BurstBegin] + (A.Repeat(I.BurstOne, Ceil(|data|, MAX_DLEN)) + [I.BurstEnd]));
  }

  /** k rounds of one byte, one more with data behind it, then a compaction between snapshot and burst. */
  function StaleCompaction(b: byte, k: nat, data: seq<byte>, sample: nat): seq<I.Step> {
    Rounds(b, k, sample) + Round(b, k, data, sample) + Straddle(|data|)
  }

  /** The burst adds the old ack_cnt to the window and so sends the whole buffer, however small the window is. */
  lemma StaleCompactionOverruns(b: byte, k: nat, data: seq<byte>, sample: nat)
    requires k == CLEAN_THRESHOLD && 1 <= |data| < MAX_SOCK_BUF_SIZE - k
    ensures I.Legal(I.INITIAL, StaleCompaction(b, k, data, sample))
    ensures var s := I.Exec(I.INITIAL, StaleCompaction(b, k, data, sample)).snd;
            Unacked(s) == |data| && s.cong.wnd <= MAX_RWINDOW_SIZE
  {
    var a, r := Rounds(b, k, sample), Round(b, k, data, sample);
    RoundsRun(b, k, sample);
    RoundRuns(I.Exec(I.INITIAL, a), b, k, data, sample);
    A.ExecAppend(I.INITIAL, a, r);
    Straddles(I.Exec(I.INITIAL, a + r), k + 1, data);
    A.ExecAppend(I.INITIAL, a + r, Straddle(|data|));
  }
}
