/** A retransmission pass that reads its locals one after the other (src/timer.c:133-135) while the ACK handler stores
    ack_cnt and base one after the other (src/tju_tcp.c:528-529), neither of them under a common lock. */
module TornPass {
  import opened Global
  import opened SenderCore
  import Segmentation
  import Reassembly
  import I = Interleaved
  import Races

  /** reading: the pass has read ack_cnt and have_send_len but not base; stale: Some while the ACK handler has stored
      the new ack_cnt but not the new base, which readers still see as it was. */
  datatype World = World(w: I.World, reading: bool, stale: Option<nat>)

  const START := World(I.INITIAL, false, None)

  datatype Step = In(st: I.Step) | ReadBase | StoreBase

  predicate Enabled(t: World, st: Step) {
    match st
    case In(i) =>
      && I.Enabled(t.w, i)
      && (i.ResendOne? || i.ResendEnd? ==> !t.reading)
      && (i.AckArrives? || i.Compact? ==> t.stale.None?)
    case ReadBase => t.reading && t.w.pass.Some?
    case StoreBase => t.stale.Some?
  }

  /** What a reader of base finds. */
  function SeenBase(t: World): nat { if t.stale.Some? then t.stale.value else t.w.snd.base }

  function Apply(t: World, st: Step): World
    requires Enabled(t, st)
  {
    match st
    case In(i) =>
      World(I.Apply(t.w, i), t.reading || i.RetransLock?,
            if i.AckArrives? && i.ack > t.w.snd.base then Some(t.w.snd.base) else t.stale)
    case ReadBase => t.(w := t.w.(pass := Some(t.w.pass.value.(q := SeenBase(t)))), reading := false)
    case StoreBase => t.(stale := None)
  }

  predicate Legal(t: World, steps: seq<Step>)
    decreases |steps|
  {
    |steps| == 0 || (Enabled(t, steps[0]) && Legal(Apply(t, steps[0]), steps[1..]))
  }

  function Exec(t: World, steps: seq<Step>): World
    requires Legal(t, steps)
    decreases |steps|
  {
    if |steps| == 0 then t else Exec(Apply(t, steps[0]), steps[1..])
  }

  // ----- numbering -----

  /** The number of the bytes the pass is at. */
  function Belongs(w: I.World): int
    requires w.pass.Some?
  {
    w.pass.value.cur + I.Dropped(w.snd) + 1
  }

  /** The world in which the pass numbers its segments as it should. */
  function Restored(w: I.World): I.World {
    if w.pass.Some? && Belongs(w) >= 0 then w.(pass := Some(w.pass.value.(q := Belongs(w)))) else w
  }

  /** While base is unread the pass holds, for the number of its first segment, base as it was when ack_cnt was read. */
  predicate Known(t: World) {
    && I.Safe(Restored(t.w))
    && (t.reading ==> t.w.pass.Some? && t.w.pass.value.q == Belongs(t.w) <= t.w.snd.base)
  }

  /** The segments the pass has yet to send are numbered by the bytes they carry. */
  predicate Sound(t: World) {
    t.w.pass.Some? && !t.reading && t.w.pass.value.cur < t.w.pass.value.end ==> t.w.pass.value.q == Belongs(t.w)
  }

  /** There is something to resend, and the base found in memory is not what it was when ack_cnt was read: an ACK has
      slid the window since, or one had stored its ack_cnt and not yet its base. */
  predicate Torn(t: World, st: Step) {
    st.ReadBase? && t.w.pass.Some? && t.w.pass.value.cur < t.w.pass.value.end && SeenBase(t) != t.w.pass.value.q
  }

  lemma AckIgnoresPass(w: I.World, p: Option<Pass>, i: I.Step)
    requires I.Enabled(w, i) && i.AckArrives?
    ensures I.Enabled(w.(pass := p), i) && I.Apply(w.(pass := p), i) == I.Apply(w, i).(pass := p)
  {
  }

  lemma RestoredAck(w: I.World, i: I.Step)
    requires I.Enabled(w, i) && i.AckArrives?
    ensures I.Enabled(Restored(w), i) && Restored(I.Apply(w, i)) == Restored(I.Apply(Restored(w), i))
    ensures I.Apply(w, i).pass == w.pass && I.Dropped(I.Apply(w, i).snd) == I.Dropped(w.snd)
  {
    AckIgnoresPass(w, Restored(w).pass, i);
    I.AckArrivesFrame(w, i.ack, i.adv, i.sample);
  }

  predicate AtSender(i: I.Step) { I.ThreadStep(i) || i.Compact? }

  lemma RestoredSender(t: World, i: I.Step)
    requires Known(t) && Sound(t) && Enabled(t, In(i))
    requires AtSender(i)
    ensures I.Enabled(Restored(t.w), i) && Restored(I.Apply(t.w, i)) == Restored(I.Apply(Restored(t.w), i))
    ensures Sound(Apply(t, In(i)))
  {
    RetransFrame(t.w.snd, if t.w.pass.Some? then t.w.pass.value else PassOf(t.w.snd));
  }

  lemma RestoredOther(w: I.World, i: I.Step)
    requires I.Enabled(w, i) && !i.AckArrives?
    requires !AtSender(i)
    ensures I.Enabled(Restored(w), i) && Restored(I.Apply(w, i)) == Restored(I.Apply(Restored(w), i))
    ensures I.Apply(w, i).pass == w.pass && I.Dropped(I.Apply(w, i).snd) == I.Dropped(w.snd)
  {
  }

  lemma RestoredStep(t: World, i: I.Step)
    requires Known(t) && Sound(t) && Enabled(t, In(i))
    ensures I.Enabled(Restored(t.w), i) && Restored(I.Apply(t.w, i)) == Restored(I.Apply(Restored(t.w), i))
    ensures Sound(Apply(t, In(i)))
  {
    if i.AckArrives? {
      RestoredAck(t.w, i);
    } else if AtSender(i) {
      RestoredSender(t, i);
    } else {
      RestoredOther(t.w, i);
    }
  }

  /** Nothing but the end of the reading touches what the pass has read. */
  lemma ReadingIn(t: World, i: I.Step)
    requires Known(t) && Enabled(t, In(i)) && Apply(t, In(i)).reading
    ensures var v := I.Apply(t.w, i); v.pass.Some? && v.pass.value.q == Belongs(v) <= v.snd.base
  {
    if i.AckArrives? {
      RestoredAck(t.w, i);
      I.AckArrivesFrame(t.w, i.ack, i.adv, i.sample);
    }
  }

  lemma SafeRestored(w: I.World)
    requires I.Safe(w)
    ensures Restored(w) == w
  {
  }

  lemma SoundIn(t: World, i: I.Step)
    requires Known(t) && Sound(t) && Enabled(t, In(i))
    ensures Known(Apply(t, In(i))) && Sound(Apply(t, In(i)))
  {
    RestoredStep(t, i);
    I.SafeStep(Restored(t.w), i);
    SafeRestored(I.Apply(Restored(t.w), i));
    if Apply(t, In(i)).reading {
      ReadingIn(t, i);
    }
  }

  /** A step leaves the numbering sound iff it is not a torn read. */
  lemma SoundStep(t: World, st: Step)
    requires Known(t) && Sound(t) && Enabled(t, st)
    ensures Known(Apply(t, st)) && (Sound(Apply(t, st)) <==> !Torn(t, st))
  {
    match st
    case In(i) => SoundIn(t, i);
    case _ =>
  }

  predicate AlwaysSound(t: World, steps: seq<Step>)
    requires Legal(t, steps)
    decreases |steps|
  {
    Sound(t) && (|steps| == 0 || AlwaysSound(Apply(t, steps[0]), steps[1..]))
  }

  predicate NeverTorn(t: World, steps: seq<Step>)
    requires Legal(t, steps)
    decreases |steps|
  {
    |steps| == 0 || (!Torn(t, steps[0]) && NeverTorn(Apply(t, steps[0]), steps[1..]))
  }

  lemma {:induction false} SoundRun(t: World, steps: seq<Step>)
    requires Known(t) && Sound(t) && Legal(t, steps)
    ensures AlwaysSound(t, steps) <==> NeverTorn(t, steps)
    ensures NeverTorn(t, steps) ==> Known(Exec(t, steps))
    decreases |steps|
  {
    if |steps| > 0 {
      SoundStep(t, steps[0]);
      if Sound(Apply(t, steps[0])) {
        SoundRun(Apply(t, steps[0]), steps[1..]);
      }
    }
  }

  /** In every run: all segments of all passes are numbered by the bytes they carry iff no pass reads a base that does
      not go with its ack_cnt; and then the receiver hands over exactly the stream. */
  lemma NumberedIffNeverTorn(steps: seq<Step>)
    requires Legal(START, steps)
    ensures AlwaysSound(START, steps) <==> NeverTorn(START, steps)
    ensures NeverTorn(START, steps) ==>
              var w := Exec(START, steps).w;
              1 <= w.rcv.expected <= |w.stream| + 1 && w.read + w.rcv.received == w.stream[..w.rcv.expected - 1]
  {
    SafeRestored(I.INITIAL);
    I.SafeInitially();
    SoundRun(START, steps);
  }

  // ----- which torn reads can do harm -----

  /** The segments the pass would send on this base. */
  function Resent(t: World): seq<Packet>
    requires Known(t) && Enabled(t, ReadBase)
  {
    Segmentation.Segments(t.w.snd.buf[t.w.pass.value.cur..t.w.pass.value.end], SeenBase(t))
  }

  /** The last of them is numbered where the receiver still takes something. */
  predicate Biting(t: World)
    requires t.w.pass.Some?
  {
    var p := t.w.pass.value;
    p.cur < p.end && SeenBase(t) + (Segmentation.Ceil(p.end - p.cur, MAX_DLEN) - 1) * MAX_DLEN >= t.w.rcv.expected
  }

  /** Segments are numbered upwards: if the last is below e, all are. */
  lemma AllBelow(slice: seq<byte>, q: nat, k: nat, e: nat)
    requires k < |Segmentation.Segments(slice, q)|
    requires |slice| > 0 ==> q + (Segmentation.Ceil(|slice|, MAX_DLEN) - 1) * MAX_DLEN < e
    ensures Segmentation.Segments(slice, q)[k].Data? && Segmentation.Segments(slice, q)[k].q < e
  {
    Segmentation.SegmentCount(slice, q);
    Segmentation.SegmentAt(slice, q, k);
    assert k * MAX_DLEN <= (Segmentation.Ceil(|slice|, MAX_DLEN) - 1) * MAX_DLEN;
  }

  /** If it is not, no receiver that has got as far or further takes notice of any of them. */
  lemma ToothlessIgnored(t: World, k: nat, r: Reassembly.Rcv)
    requires Known(t) && Enabled(t, ReadBase) && !Biting(t) && k < |Resent(t)|
    requires Reassembly.Ok(r) && t.w.rcv.expected <= r.expected
    ensures Resent(t)[k].Data? && Reassembly.HandleData(r, Resent(t)[k].q, Resent(t)[k].payload) == r
  {
    var p := t.w.pass.value;
    AllBelow(t.w.snd.buf[p.cur..p.end], SeenBase(t), k, t.w.rcv.expected);
  }

  /** So a base that is behind does no harm if there is one segment to resend. */
  lemma BehindOneSegment(t: World)
    requires Known(t) && Enabled(t, ReadBase)
    requires SeenBase(t) < t.w.pass.value.q && t.w.pass.value.end - t.w.pass.value.cur <= MAX_DLEN
    ensures !Biting(t)
  {
    assert t.w.snd.base <= t.w.rcv.expected;
  }

  // ----- a run that hands over bytes twice -----

  lemma Cons(t: World, st: Step, rest: seq<Step>)
    requires Enabled(t, st) && Legal(Apply(t, st), rest)
    ensures Legal(t, [st] + rest) && Exec(t, [st] + rest) == Exec(Apply(t, st), rest)
  {
    assert ([st] + rest)[1..] == rest;
  }

  predicate Plain(steps: seq<I.Step>) { forall i <- steps :: !i.RetransLock? && !i.AckArrives? }

  function Lift(steps: seq<I.Step>, rest: seq<Step>): seq<Step> {
    if |steps| == 0 then rest else [In(steps[0])] + Lift(steps[1..], rest)
  }

  lemma {:induction false} LiftRuns(w: I.World, steps: seq<I.Step>, rest: seq<Step>)
    requires I.Legal(w, steps) && Plain(steps) && Legal(World(I.Exec(w, steps), false, None), rest)
    ensures Legal(World(w, false, None), Lift(steps, rest))
    ensures Exec(World(w, false, None), Lift(steps, rest)) == Exec(World(I.Exec(w, steps), false, None), rest)
    decreases |steps|
  {
    if |steps| > 0 {
      assert steps[0] in steps;
      LiftRuns(I.Apply(w, steps[0]), steps[1..], rest);
      Cons(World(w, false, None), In(steps[0]), Lift(steps[1..], rest));
    }
  }

  /** The pass has taken the lock and read ack_cnt 0 and have_send_len 1. */
  function Reading(b: byte): World { World(Races.Locked(b), true, None) }

  function ToLock(rest: seq<Step>): seq<Step> {
    [In(I.TimerFires)] + ([In(I.RetransTop)] + ([In(I.RetransLook)] + ([In(I.RetransLock)] + rest)))
  }

  lemma ReadingRuns(b: byte, rest: seq<Step>)
    requires Legal(Reading(b), rest)
    ensures var t := World(Races.FirstOut(b), false, None); var st := ToLock(rest);
            Legal(t, st) && Exec(t, st) == Exec(Reading(b), rest)
  {
    var t := World(Races.FirstOut(b), false, None);
    var t1 := Apply(t, In(I.TimerFires));
    var t2 := Apply(t1, In(I.RetransTop));
    var t3 := Apply(t2, In(I.RetransLook));
    assert Apply(t3, In(I.RetransLock)) == Reading(b);
    Cons(t3, In(I.RetransLock), rest);
    Cons(t2, In(I.RetransLook), [In(I.RetransLock)] + rest);
    Cons(t1, In(I.RetransTop), [In(I.RetransLook)] + ([In(I.RetransLock)] + rest));
    Cons(t, In(I.TimerFires), [In(I.RetransTop)] + ([In(I.RetransLook)] + ([In(I.RetransLock)] + rest)));
  }

  /** The byte arrives and its ACK slides the window: base is now 2, and the pass reads it. */
  function Tear(b: byte, sample: nat): seq<Step> {
    [In(I.DataArrives(1, [b]))] + ([In(I.AckArrives(2, MAX_RWINDOW_SIZE, sample))]
    + ([StoreBase] + ([ReadBase] + ResentTail(b))))
  }

  function TearTail(b: byte, sample: nat): seq<Step> { ToLock(Tear(b, sample)) }

  /** The byte goes out again as byte 2, and the receiver takes it. */
  function ResentTail(b: byte): seq<Step> { [In(I.ResendOne)] + ([In(I.DataArrives(2, [b]))] + []) }

  predicate Misnumbered(t: World, b: byte) {
    && t.w.stream == [b] && t.w.read == [] && t.w.rcv == Reassembly.Rcv(2, map[], [b], MAX_RWINDOW_SIZE)
    && t.w.snd.buf == [b] && t.w.pass == Some(Pass(0, 1, 2)) && !t.reading && t.stale.None?
  }

  /** The first half: the misnumbered segment goes out. */
  lemma ResentGoesOut(t: World, b: byte)
    requires Misnumbered(t, b)
    ensures Enabled(t, In(I.ResendOne))
    ensures var t1 := Apply(t, In(I.ResendOne));
            t1.w.stream == [b] && t1.w.read == [] && t1.w.rcv == t.w.rcv && Data(2, [b]) in t1.w.net
  {
    assert t.w.snd.buf[0..1] == [b];
    assert ResendPacket(t.w.snd, t.w.pass.value) == Data(2, [b]);
  }

  /** The second half: the receiver takes it for the next byte. */
  lemma ResentIsTaken(t: World, b: byte)
    requires t.w.stream == [b] && t.w.read == [] && t.w.rcv == Reassembly.Rcv(2, map[], [b], MAX_RWINDOW_SIZE)
    requires Data(2, [b]) in t.w.net
    ensures Enabled(t, In(I.DataArrives(2, [b])))
    ensures var w := Apply(t, In(I.DataArrives(2, [b]))).w; w.stream == [b] && w.read + w.rcv.received == [b, b]
  {
    DeliveredTwice(b);
  }

  lemma ResentTailRuns(t: World, b: byte)
    requires Misnumbered(t, b)
    ensures Legal(t, ResentTail(b))
    ensures var w := Exec(t, ResentTail(b)).w; w.stream == [b] && w.read + w.rcv.received == [b, b]
  {
    var d := In(I.DataArrives(2, [b]));
    var t1 := Apply(t, In(I.ResendOne));
    ResentGoesOut(t, b);
    ResentIsTaken(t1, b);
    Cons(t1, d, []);
    Cons(t, In(I.ResendOne), [d] + []);
  }

  lemma DeliveredTwice(b: byte)
    ensures Reassembly.HandleData(Reassembly.Rcv(2, map[], [b], MAX_RWINDOW_SIZE), 2, [b])
         == Reassembly.Rcv(3, map[], [b, b], MAX_RWINDOW_SIZE)
  {
    var s := Reassembly.Stored(Reassembly.Rcv(2, map[], [b], MAX_RWINDOW_SIZE), 2, [b]);
    assert s.pending == map[2 := b] by {
      assert Reassembly.Named([b], 2, 2) == b;
    }
    Reassembly.RunLengthUnique(s.pending, 2, 1);
    assert Reassembly.From(s.pending, 3) == map[];
  }

  /** The pass holds the lock with its base unread, and the ACK for its byte has slid the window. */
  lemma SlidRuns(b: byte, sample: nat)
    ensures var c := In(I.DataArrives(1, [b])); var k := In(I.AckArrives(2, MAX_RWINDOW_SIZE, sample));
            && Enabled(Reading(b), c) && Enabled(Apply(Reading(b), c), k)
            && var t := Apply(Apply(Reading(b), c), k);
               && t.reading && t.stale == Some(1) && t.w.snd.base == 2 && t.w.snd.buf == [b]
               && t.w.pass == Some(Pass(0, 1, 1)) && t.w.stream == [b] && t.w.read == []
               && t.w.rcv == Reassembly.Rcv(2, map[], [b], MAX_RWINDOW_SIZE)
  {
    Races.OneByteDelivered(b, 1);
    var t3 := Apply(Reading(b), In(I.DataArrives(1, [b])));
    I.AckArrivesFrame(t3.w, 2, MAX_RWINDOW_SIZE, sample);
  }

  lemma TearRuns(b: byte, sample: nat)
    ensures Legal(Reading(b), Tear(b, sample))
    ensures var w := Exec(Reading(b), Tear(b, sample)).w; w.stream == [b] && w.read + w.rcv.received == [b, b]
  {
    var c, k := In(I.DataArrives(1, [b])), In(I.AckArrives(2, MAX_RWINDOW_SIZE, sample));
    SlidRuns(b, sample);
    var t3 := Apply(Reading(b), c);
    var t4 := Apply(t3, k);
    var t5 := Apply(t4, StoreBase);
    ResentTailRuns(Apply(t5, ReadBase), b);
    Cons(t5, ReadBase, ResentTail(b));
    Cons(t4, StoreBase, [ReadBase] + ResentTail(b));
    Cons(t3, k, [StoreBase] + ([ReadBase] + ResentTail(b)));
    Cons(Reading(b), c, [k] + ([StoreBase] + ([ReadBase] + ResentTail(b))));
  }

  /** One byte is sent and the application at the other end is given two. */
  lemma TornPassDuplicates(b: byte, sample: nat)
    ensures var st := Lift(Races.FirstSteps(b), TearTail(b, sample));
            Legal(START, st)
            && var w := Exec(START, st).w; w.stream == [b] && w.read + w.rcv.received == [b, b]
  {
    Races.FirstOutRuns(b);
    TearRuns(b, sample);
    ReadingRuns(b, Tear(b, sample));
    LiftRuns(I.INITIAL, Races.FirstSteps(b), TearTail(b, sample));
  }
}
