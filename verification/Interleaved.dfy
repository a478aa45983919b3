/** One sender, one receiver and a network that loses, duplicates and reorders, with the threads of the sender
    interleaved: the sending thread may act on a stale window snapshot, its loop and a retransmission pass emit one
    segment per step while ACKs keep sliding the window, and compaction waits for send_lock. */
module Interleaved {
  import opened Global
  import opened SenderCore
  import Congestion
  import Reassembly
  import TjuPacket

  /** Where retrans_thread is before it holds send_lock: about to look at RETRANS and the window; about to look at
      is_retransing; about to lower RETRANS and recheck; waiting for the lock. */
  datatype Head = AtTop | SeenOpen | Rechecking | Entering

  /** stream: every byte put into the sending buffer so far; read: every byte returned by tju_recv so far;
      net: every packet sent so far, any of which may arrive any number of times or never;
      pass: Some while retrans_thread holds send_lock; snap: Some between the guard of sending_thread and its lock;
      burst: Some while sending_thread holds send_lock, nextseq not yet published;
      head: where retrans_thread is outside a pass;
      compacting: the receive thread waits for send_lock inside an ACK handler. */
  datatype World = World(stream: seq<byte>, snd: Snd, rcv: Reassembly.Rcv, net: set<Packet>, read: seq<byte>,
                         pass: Option<Pass>, snap: Option<Snap>, burst: Option<Sending>,
                         head: Head, compacting: bool)

  /** After the handshake: nothing sent, and the third handshake packet, an ACK of 1 with window 1, may still be
      about. */
  const INITIAL := World([], SenderCore.INITIAL, Reassembly.INITIAL, {Ack(1, 1)}, [], None, None, None, AtTop, false)

  datatype Step =
    | AppSend(data: seq<byte>)
    | Snapshot
    | BurstBegin
    | BurstOne
    | BurstEnd
    | RetransTop
    | RetransLook
    | RetransRecheck
    | RetransLock
    | ResendOne
    | ResendEnd
    | TimerFires
    | AckArrives(ack: nat, adv: nat, sample: nat)
    | Compact
    | DataArrives(q: nat, payload: seq<byte>)
    | AppRecv(len: nat)

  predicate Lockfree(w: World) { w.pass.None? && w.burst.None? }

  predicate Enabled(w: World, st: Step) {
    match st
    case AppSend(data) => Lockfree(w) && Room(w.snd) > 0
    case Snapshot => w.snap.None? && w.burst.None? && CanSend(w.snd)
    case BurstBegin => w.snap.Some? && Lockfree(w)
    case BurstOne => w.burst.Some? && w.snd.have < w.burst.value.end <= |w.snd.buf|
    case BurstEnd => w.burst.Some? && w.snd.have >= w.burst.value.end
    case RetransTop => w.snd.ctl.retrans && w.head.AtTop? && w.pass.None? && w.snd.base >= 1
    case RetransLook => w.head.SeenOpen?
    case RetransRecheck => w.head.Rechecking?
    case RetransLock => w.head.Entering? && Lockfree(w)
    case ResendOne => w.pass.Some? && w.pass.value.cur < w.pass.value.end <= |w.snd.buf|
    case ResendEnd => w.pass.Some? && w.pass.value.cur >= w.pass.value.end
    case TimerFires => w.snd.ctl.armed
    case AckArrives(ack, adv, _) => Ack(ack, adv) in w.net && !w.compacting
    case Compact => w.compacting && Lockfree(w) && w.snd.ackCnt <= w.snd.have && w.snd.ackCnt <= |w.snd.buf|
    case DataArrives(q, payload) => Data(q, payload) in w.net && Reassembly.Ok(w.rcv)
    case AppRecv(len) => |w.rcv.received| > 0
  }

  function PacketSet(ps: seq<Packet>): set<Packet> { set p | p in ps }

  function ApplyAck(w: World, ack: nat, adv: nat, sample: nat): World {
    if ack <= w.snd.base then w.(snd := ZeroWindow(OtherAck(w.snd, ack, adv)))
    else
      var s1 := NewAckSlide(w.snd, ack, adv, sample);
      if NeedsCompaction(s1) then w.(snd := s1, compacting := true) else w.(snd := ZeroWindow(s1))
  }

  function Apply(w: World, st: Step): World
    requires Enabled(w, st)
  {
    match st
    case AppSend(data) => w.(stream := w.stream + SendChunk(w.snd, data), snd := SenderCore.AppSend(w.snd, data))
    case Snapshot => w.(snap := Some(TakeSnap(w.snd)))
    case BurstBegin => w.(burst := Some(SendingOf(w.snd, w.snap.value)), snap := None)
    case BurstOne =>
      var b := w.burst.value;
      w.(snd := SendOne(w.snd, b), net := w.net + {SendPacket(w.snd, b)}, burst := Some(SendNext(w.snd, b)))
    case BurstEnd => w.(snd := SendEnd(w.snd, w.burst.value), burst := None)
    case RetransTop =>
      if w.snd.cong.wnd == 0 then w.(snd := StartTimer(w.snd), net := w.net + {Probe(w.snd)}) else w.(head := SeenOpen)
    case RetransLook => w.(head := if w.snd.ctl.isRetransing then Entering else Rechecking)
    case RetransRecheck => w.(snd := Recheck(w.snd), head := AtTop)
    case RetransLock => w.(snd := PassBegin(w.snd), pass := Some(PassOf(w.snd)), head := AtTop)
    case ResendOne =>
      var p := w.pass.value;
      w.(snd := SenderCore.ResendOne(w.snd, p), net := w.net + {ResendPacket(w.snd, p)}, pass := Some(PassNext(p)))
    case ResendEnd => w.(snd := SenderCore.ResendEnd(w.snd), pass := None)
    case TimerFires => w.(snd := SenderCore.TimerFires(w.snd))
    case AckArrives(ack, adv, sample) => ApplyAck(w, ack, adv, sample)
    case Compact => w.(snd := ZeroWindow(SenderCore.Compact(w.snd)), compacting := false)
    case DataArrives(q, payload) =>
      var r := Reassembly.HandleData(w.rcv, q, payload);
      w.(rcv := r, net := w.net + {Reassembly.Reply(r)})
    case AppRecv(len) =>
      w.(rcv := Reassembly.Read(w.rcv, len), read := w.read + w.rcv.received[..Min(len, |w.rcv.received|)])
  }

  predicate Legal(w: World, steps: seq<Step>)
    decreases |steps|
  {
    |steps| == 0 || (Enabled(w, steps[0]) && Legal(Apply(w, steps[0]), steps[1..]))
  }

  function Exec(w: World, steps: seq<Step>): World
    requires Legal(w, steps)
    decreases |steps|
  {
    if |steps| == 0 then w else Exec(Apply(w, steps[0]), steps[1..])
  }

  // ----- the invariant -----

  /** Stream position of the first byte of the sending buffer: everything before it has been compacted away. */
  function Dropped(s: Snd): int { s.base - 1 - s.ackCnt }

  /** The sequence number behind the last byte sent. Inside a burst nextseq lags behind it. */
  function Frontier(w: World): nat { if w.burst.Some? then w.burst.value.q else w.snd.nextseq }

  /** The sender with nextseq where it belongs. */
  function Published(w: World): Snd { w.snd.(nextseq := Frontier(w)) }

  function Outstanding(w: World): int { Frontier(w) - w.snd.base }

  /** The whole buffer, acknowledged prefix included, is a suffix of the stream. */
  predicate BufferOk(w: World) {
    && Coupled(Published(w))
    && 0 <= Dropped(w.snd) <= |w.stream|
    && w.snd.buf == w.stream[Dropped(w.snd)..]
  }

  /** payload is what the stream holds from sequence number q on. */
  predicate Names(stream: seq<byte>, q: nat, payload: seq<byte>) {
    1 <= q && q - 1 + |payload| <= |stream| && payload == stream[q - 1..q - 1 + |payload|]
  }

  predicate PacketOk(w: World, p: Packet) {
    match p
    case Data(q, payload) =>
      || (payload == [] && q < w.snd.base)
      || (1 <= |payload| <= MAX_DLEN && q + |payload| <= Frontier(w) && Names(w.stream, q, payload))
    case Ack(ack, wnd) => 1 <= ack <= w.rcv.expected && 1 <= wnd <= MAX_RWINDOW_SIZE
  }

  predicate NetOk(w: World) { forall p <- w.net :: PacketOk(w, p) }

  /** Pending bytes are stream bytes below limit. */
  predicate HoldsStream(m: map<nat, byte>, stream: seq<byte>, limit: nat) {
    forall k <- m :: 1 <= k < limit && k - 1 < |stream| && m[k] == stream[k - 1]
  }

  /** The receiver's view of a stream sent up to sequence number limit. */
  predicate View(r: Reassembly.Rcv, read: seq<byte>, stream: seq<byte>, limit: nat) {
    && 1 <= r.expected <= limit
    && r.expected - 1 <= |stream|
    && HoldsStream(r.pending, stream, limit)
    && read + r.received == stream[..r.expected - 1]
  }

  predicate ReceiverOk(w: World) {
    && Reassembly.Ok(w.rcv)
    && View(w.rcv, w.read, w.stream, Frontier(w))
    && w.snd.base <= w.rcv.expected
  }

  /** A pass in progress ends where the sent bytes end, and its two coordinates differ by what has been compacted
      away. */
  predicate PassOk(w: World) {
    w.pass.Some? ==>
      var p := w.pass.value;
      && w.burst.None? && w.head.AtTop?
      && p.cur <= p.end == w.snd.have && p.q == p.cur + Dropped(w.snd) + 1
  }

  /** nextseq changes only at the end of a burst. */
  predicate SnapOk(w: World) {
    w.snap.Some? ==>
      && w.burst.None? && w.snap.value.base <= w.snd.base
      && w.snap.value.base <= w.snap.value.nextseq == w.snd.nextseq
  }

  predicate BurstOk(w: World) {
    w.burst.Some? ==>
      var b := w.burst.value;
      b.end <= |w.snd.buf| && b.base <= w.snd.base && b.base <= b.q && w.snd.nextseq <= b.q
  }

  predicate Safe(w: World) { BufferOk(w) && NetOk(w) && ReceiverOk(w) && PassOk(w) && SnapOk(w) && BurstOk(w) }

  lemma SafeInitially()
    ensures Safe(INITIAL)
  {
  }

  // ----- each step keeps it -----

  /** A packet stays good while the stream and the counters only grow. */
  lemma PacketsStay(w: World, w': World)
    requires NetOk(w)
    requires w.stream <= w'.stream && w.snd.base <= w'.snd.base && Frontier(w) <= Frontier(w')
    requires w.rcv.expected <= w'.rcv.expected
    ensures forall p <- w.net :: PacketOk(w', p)
  {
    forall p | p in w.net
      ensures PacketOk(w', p)
    {
      assert PacketOk(w, p);
    }
  }

  lemma SafeAppSend(w: World, data: seq<byte>)
    requires Safe(w) && Enabled(w, AppSend(data))
    ensures Safe(Apply(w, AppSend(data)))
  {
    var w' := Apply(w, AppSend(data));
    PacketsStay(w, w');
    var d := Dropped(w.snd);
    assert w'.stream[d..] == w.stream[d..] + SendChunk(w.snd, data);
    assert w'.stream[..w.rcv.expected - 1] == w.stream[..w.rcv.expected - 1];
  }

  /** A slice of the buffer is named by its place in the stream. */
  lemma SliceNamed(w: World, lo: nat, hi: nat)
    requires BufferOk(w) && lo <= hi <= |w.snd.buf|
    ensures Names(w.stream, Dropped(w.snd) + 1 + lo, w.snd.buf[lo..hi])
  {
  }

  /** The next segment of a burst carries the bytes its number names, however far ACKs have slid the window. */
  lemma BurstNamed(w: World)
    requires Safe(w) && Enabled(w, BurstOne)
    ensures var p := SendPacket(w.snd, w.burst.value);
            1 <= |p.payload| <= MAX_DLEN && p.q == Frontier(w) && Names(w.stream, p.q, p.payload)
  {
    SliceNamed(w, w.snd.have, w.snd.have + SendLen(w.snd, w.burst.value));
  }

  lemma BurstOneNet(w: World)
    requires Safe(w) && Enabled(w, BurstOne)
    ensures NetOk(Apply(w, BurstOne))
  {
    PacketsStay(w, Apply(w, BurstOne));
    BurstNamed(w);
  }

  lemma BurstOneView(w: World)
    requires Safe(w) && Enabled(w, BurstOne)
    ensures ReceiverOk(Apply(w, BurstOne)) && Frontier(w) <= Frontier(Apply(w, BurstOne))
  {
    var w' := Apply(w, BurstOne);
    assert w'.rcv == w.rcv && w'.read == w.read && w'.stream == w.stream && w'.snd.base == w.snd.base;
  }

  lemma BurstOneCoupled(w: World)
    requires Safe(w) && Enabled(w, BurstOne)
    ensures var w' := Apply(w, BurstOne); BufferOk(w') && PassOk(w') && SnapOk(w') && BurstOk(w')
  {
    var w' := Apply(w, BurstOne);
    assert w'.snd.have == w.snd.have + SendLen(w.snd, w.burst.value);
    assert w'.snd.buf == w.snd.buf && w'.snd.base == w.snd.base && w'.snd.ackCnt == w.snd.ackCnt;
  }

  lemma SafeBurstOne(w: World)
    requires Safe(w) && Enabled(w, BurstOne)
    ensures Safe(Apply(w, BurstOne))
  {
    BurstOneNet(w);
    BurstOneView(w);
    BurstOneCoupled(w);
  }

  lemma SafeBurstEdge(w: World, st: Step)
    requires Safe(w) && Enabled(w, st) && (st == BurstBegin || st == BurstEnd)
    ensures Safe(Apply(w, st))
  {
    PacketsStay(w, Apply(w, st));
  }

  lemma SafeRetransTop(w: World)
    requires Safe(w) && Enabled(w, RetransTop)
    ensures Safe(Apply(w, RetransTop))
  {
    PacketsStay(w, Apply(w, RetransTop));
  }

  lemma SafeRetransHead(w: World, st: Step)
    requires Safe(w) && Enabled(w, st) && (st == RetransLook || st == RetransRecheck)
    ensures Safe(Apply(w, st))
  {
    PacketsStay(w, Apply(w, st));
  }

  lemma SafeRetransLock(w: World)
    requires Safe(w) && Enabled(w, RetransLock)
    ensures Safe(Apply(w, RetransLock))
  {
    RetransFrame(w.snd, PassOf(w.snd));
    PacketsStay(w, Apply(w, RetransLock));
  }

  /** The segment a pass is about to emit carries the bytes its sequence number names, however far ACKs have
      slid the window since the pass took its snapshot. */
  lemma ResendNamed(w: World)
    requires Safe(w) && Enabled(w, ResendOne)
    ensures var p := ResendPacket(w.snd, w.pass.value);
            1 <= |p.payload| <= MAX_DLEN && p.q + |p.payload| <= Frontier(w) && Names(w.stream, p.q, p.payload)
  {
    var p := w.pass.value;
    SliceNamed(w, p.cur, p.cur + PassLen(p));
  }

  lemma SafeResend(w: World, st: Step)
    requires Safe(w) && Enabled(w, st) && (st == ResendOne || st == ResendEnd)
    ensures Safe(Apply(w, st))
  {
    var w' := Apply(w, st);
    RetransFrame(w.snd, w.pass.value);
    PacketsStay(w, w');
    if st == ResendOne {
      ResendNamed(w);
    }
  }

  /** Where an ACK leaves the sender, whatever it does to the flags. */
  lemma AckArrivesFrame(w: World, ack: nat, adv: nat, sample: nat)
    requires Enabled(w, AckArrives(ack, adv, sample))
    ensures var w' := Apply(w, AckArrives(ack, adv, sample)); var s, t := w.snd, w'.snd;
            && w' == w.(snd := t, compacting := w'.compacting)
            && t.buf == s.buf && t.have == s.have && t.nextseq == s.nextseq
            && t.base == (if ack > s.base then ack else s.base) && t.ackCnt == s.ackCnt + (t.base - s.base)
            && t.cong == Congestion.Apply(s.cong, AckEvent(s, ack, adv))
            && t.rtt == (if ack > s.base then TakeSample(s, ack, sample).rtt else s.rtt)
            && (w'.compacting <==> ack > s.base && NeedsCompaction(Slide(s, ack)))
  {
    if ack <= w.snd.base {
      OtherAckFrame(w.snd, ack, adv);
      ZeroWindowFrame(OtherAck(w.snd, ack, adv));
    } else {
      NewAckFrame(w.snd, ack, adv, sample);
      ZeroWindowFrame(NewAckSlide(w.snd, ack, adv, sample));
    }
  }

  lemma SafeAckArrives(w: World, ack: nat, adv: nat, sample: nat)
    requires Safe(w) && Enabled(w, AckArrives(ack, adv, sample))
    ensures Safe(Apply(w, AckArrives(ack, adv, sample)))
  {
    assert PacketOk(w, Ack(ack, adv));
    AckArrivesFrame(w, ack, adv, sample);
    PacketsStay(w, Apply(w, AckArrives(ack, adv, sample)));
  }

  lemma SafeCompact(w: World)
    requires Safe(w) && Enabled(w, Compact)
    ensures Safe(Apply(w, Compact))
  {
    var w' := Apply(w, Compact);
    ZeroWindowFrame(SenderCore.Compact(w.snd));
    PacketsStay(w, w');
    assert w.stream[Dropped(w.snd)..][w.snd.ackCnt..] == w.stream[Dropped(w.snd) + w.snd.ackCnt..];
  }

  lemma StoredTrue(r: Reassembly.Rcv, q: nat, payload: seq<byte>, stream: seq<byte>, limit: nat)
    requires HoldsStream(r.pending, stream, limit)
    requires Names(stream, q, payload) && q + |payload| <= limit
    ensures HoldsStream(Reassembly.Stored(r, q, payload).pending, stream, limit)
  {
    var m := Reassembly.Stored(r, q, payload).pending;
    forall k | k in m
      ensures 1 <= k < limit && k - 1 < |stream| && m[k] == stream[k - 1]
    {
      if k in r.pending && m[k] == r.pending[k] {
      } else {
        assert m[k] == Reassembly.Named(payload, q, k) == payload[k - q];
      }
    }
  }

  lemma BytesTrue(m: map<nat, byte>, e: nat, n: nat, stream: seq<byte>, limit: nat)
    requires HoldsStream(m, stream, limit) && 1 <= e && e - 1 <= |stream|
    requires forall k :: e <= k < e + n ==> k in m
    ensures e - 1 + n <= |stream| && (n > 0 ==> e + n <= limit)
    ensures stream[..e - 1] + Reassembly.Bytes(m, e, n) == stream[..e - 1 + n]
  {
    if n > 0 {
      assert e + n - 1 in m;
    }
    var b := Reassembly.Bytes(m, e, n);
    forall i | 0 <= i < n
      ensures b[i] == stream[e - 1 + i]
    {
      assert e + i in m;
    }
  }

  lemma AppendRead(read: seq<byte>, before: seq<byte>, more: seq<byte>)
    ensures read + (before + more) == (read + before) + more
  {
  }

  /** Delivery hands over stream bytes only, in order. */
  lemma DeliverTrue(r: Reassembly.Rcv, read: seq<byte>, stream: seq<byte>, limit: nat)
    requires Reassembly.Ok(r) && View(r, read, stream, limit)
    ensures View(Reassembly.Deliver(r), read, stream, limit)
  {
    var n := Reassembly.RunLength(r.pending, r.expected);
    Reassembly.RunLengthMaximal(r.pending, r.expected);
    BytesTrue(r.pending, r.expected, n, stream, limit);
    AppendRead(read, r.received, Reassembly.Bytes(r.pending, r.expected, n));
  }

  /** A true segment leaves the receiver's view true, whatever its position. */
  lemma HandleTrue(r: Reassembly.Rcv, read: seq<byte>, stream: seq<byte>, limit: nat, q: nat, payload: seq<byte>)
    requires Reassembly.Ok(r) && View(r, read, stream, limit)
    requires q >= r.expected ==> Names(stream, q, payload) && q + |payload| <= limit
    ensures View(Reassembly.HandleData(r, q, payload), read, stream, limit)
  {
    if q >= r.expected {
      Reassembly.StoredOk(r, q, payload);
      StoredTrue(r, q, payload, stream, limit);
      DeliverTrue(Reassembly.Stored(r, q, payload), read, stream, limit);
    }
  }

  lemma SafeDataArrives(w: World, q: nat, payload: seq<byte>)
    requires Safe(w) && Enabled(w, DataArrives(q, payload))
    ensures Safe(Apply(w, DataArrives(q, payload)))
  {
    assert PacketOk(w, Data(q, payload));
    HandleTrue(w.rcv, w.read, w.stream, Frontier(w), q, payload);
    Reassembly.HandleDataOk(w.rcv, q, payload);
    PacketsStay(w, Apply(w, DataArrives(q, payload)));
  }

  lemma SafeAppRecv(w: World, len: nat)
    requires Safe(w) && Enabled(w, AppRecv(len))
    ensures Safe(Apply(w, AppRecv(len)))
  {
    var w' := Apply(w, AppRecv(len));
    var n := Min(len, |w.rcv.received|);
    assert w.read + w.rcv.received[..n] + w.rcv.received[n..] == w.read + w.rcv.received;
    PacketsStay(w, w');
  }

  /** Steps of the two sending threads. */
  predicate ThreadStep(st: Step) {
    || st.BurstBegin? || st.BurstOne? || st.BurstEnd? || st.RetransTop? || st.RetransLook? || st.RetransRecheck?
    || st.RetransLock? || st.ResendOne? || st.ResendEnd?
  }

  lemma SafeThreadStep(w: World, st: Step)
    requires Safe(w) && Enabled(w, st) && ThreadStep(st)
    ensures Safe(Apply(w, st))
  {
    match st
    case BurstBegin => SafeBurstEdge(w, st);
    case BurstOne => SafeBurstOne(w);
    case BurstEnd => SafeBurstEdge(w, st);
    case RetransTop => SafeRetransTop(w);
    case RetransLook => SafeRetransHead(w, st);
    case RetransRecheck => SafeRetransHead(w, st);
    case RetransLock => SafeRetransLock(w);
    case ResendOne => SafeResend(w, st);
    case ResendEnd => SafeResend(w, st);
  }

  lemma SafeMark(w: World, st: Step)
    requires Safe(w) && Enabled(w, st) && (st == Snapshot || st == TimerFires)
    ensures Safe(Apply(w, st))
  {
    PacketsStay(w, Apply(w, st));
  }

  lemma SafeStep(w: World, st: Step)
    requires Safe(w) && Enabled(w, st)
    ensures Safe(Apply(w, st))
  {
    match st
    case AppSend(data) => SafeAppSend(w, data);
    case Snapshot => SafeMark(w, st);
    case TimerFires => SafeMark(w, st);
    case AckArrives(ack, adv, sample) => SafeAckArrives(w, ack, adv, sample);
    case Compact => SafeCompact(w);
    case DataArrives(q, payload) => SafeDataArrives(w, q, payload);
    case AppRecv(len) => SafeAppRecv(w, len);
    case _ => SafeThreadStep(w, st);
  }

  lemma {:induction false} SafeRun(w: World, steps: seq<Step>)
    requires Safe(w) && Legal(w, steps)
    ensures Safe(Exec(w, steps))
    decreases |steps|
  {
    if |steps| > 0 {
      SafeStep(w, steps[0]);
      SafeRun(Apply(w, steps[0]), steps[1..]);
    }
  }

  // ----- theorems over every run -----

  /** What the application has read, followed by what waits for it, is exactly the first expected-1 bytes
      put into the sending buffer. */
  lemma EndToEnd(steps: seq<Step>)
    requires Legal(INITIAL, steps)
    ensures var w := Exec(INITIAL, steps);
            1 <= w.rcv.expected <= |w.stream| + 1 && w.read + w.rcv.received == w.stream[..w.rcv.expected - 1]
  {
    SafeInitially();
    SafeRun(INITIAL, steps);
  }

  /** The offsets, the sequence numbers and the buffer contents agree in every reachable state, and no ACK in the
      network runs ahead of the receiver. Inside a burst nextseq lags behind the bytes sent by as much as it emitted. */
  lemma SenderCoupling(steps: seq<Step>)
    requires Legal(INITIAL, steps)
    ensures var w := Exec(INITIAL, steps); var s := w.snd;
            && s.ackCnt <= s.have <= |s.buf| <= MAX_SOCK_BUF_SIZE
            && Frontier(w) - s.base == s.have - s.ackCnt
            && (if w.burst.None? then s.nextseq == Frontier(w) else s.nextseq <= Frontier(w))
            && 1 <= s.base <= w.rcv.expected <= Frontier(w)
            && s.base - 1 <= |w.stream| && s.buf[s.ackCnt..] == w.stream[s.base - 1..]
            && forall p <- w.net :: p.Ack? ==> p.ack <= w.rcv.expected
  {
    SafeInitially();
    SafeRun(INITIAL, steps);
    var w := Exec(INITIAL, steps);
    var d := Dropped(w.snd);
    assert w.stream[d..][w.snd.ackCnt..] == w.stream[d + w.snd.ackCnt..];
    forall p | p in w.net && p.Ack?
      ensures p.ack <= w.rcv.expected
    {
      assert PacketOk(w, p);
    }
  }

  /** Every data segment ever sent, first transmission or resent in an interleaved pass, carries the bytes
      its sequence number names. */
  lemma SegmentsTrue(steps: seq<Step>, q: nat, payload: seq<byte>)
    requires Legal(INITIAL, steps)
    requires Data(q, payload) in Exec(INITIAL, steps).net && payload != []
    ensures Names(Exec(INITIAL, steps).stream, q, payload)
  {
    SafeInitially();
    SafeRun(INITIAL, steps);
    assert PacketOk(Exec(INITIAL, steps), Data(q, payload));
  }

  /** The same for the segment a retransmission pass is about to send, after any interleaving. */
  lemma InterleavedPass(steps: seq<Step>)
    requires Legal(INITIAL, steps) && Enabled(Exec(INITIAL, steps), ResendOne)
    ensures var w := Exec(INITIAL, steps); var p := ResendPacket(w.snd, w.pass.value);
            p.payload != [] && Names(w.stream, p.q, p.payload)
  {
    SafeInitially();
    SafeRun(INITIAL, steps);
    ResendNamed(Exec(INITIAL, steps));
  }

  /** The same for the segment the sending thread is about to send. */
  lemma InterleavedBurst(steps: seq<Step>)
    requires Legal(INITIAL, steps) && Enabled(Exec(INITIAL, steps), BurstOne)
    ensures var w := Exec(INITIAL, steps); var p := SendPacket(w.snd, w.burst.value);
            p.payload != [] && Names(w.stream, p.q, p.payload)
  {
    SafeInitially();
    SafeRun(INITIAL, steps);
    BurstNamed(Exec(INITIAL, steps));
  }

  lemma SafePacketFits(w: World, p: Packet)
    requires Safe(w) && p in w.net
    requires |w.stream| + 1 + MAX_RWINDOW_SIZE < 0x1_0000_0000
    ensures TjuPacket.Encodable(p) && (p.Data? ==> p.q + |p.payload| < 0x1_0000_0000)
  {
    assert PacketOk(w, p);
  }

  /** While the stream is short enough for 32-bit sequence numbers, every packet sent fits the wire format, is read
      back unchanged at the other end, and the receiver's window test does not wrap. */
  lemma PacketsFitWire(steps: seq<Step>, p: Packet, src: uint16, dst: uint16, ownSeq: uint32)
    requires Legal(INITIAL, steps) && p in Exec(INITIAL, steps).net
    requires |Exec(INITIAL, steps).stream| + 1 + MAX_RWINDOW_SIZE < 0x1_0000_0000
    ensures TjuPacket.Encodable(p)
    ensures |TjuPacket.Encode(src, dst, ownSeq, p)| <= MAX_LEN
    ensures TjuPacket.Decode(TjuPacket.Encode(src, dst, ownSeq, p)) == Some(p)
    ensures p.Data? ==> p.q + |p.payload| < 0x1_0000_0000
    ensures Exec(INITIAL, steps).rcv.expected + MAX_RWINDOW_SIZE < 0x1_0000_0000
  {
    SafeInitially();
    SafeRun(INITIAL, steps);
    SafePacketFits(Exec(INITIAL, steps), p);
    TjuPacket.WireRoundTrip(src, dst, ownSeq, p);
  }
}
