/** Connection release over FIFO, loss-free channels (src/tju_tcp.c:335-367, 579-662). */
module Close {
  import opened Global

  datatype TcpState =
    | Established | FinWait1 | FinWait2 | CloseWait | Closing | LastAck | TimeWait | Closed

  /** FIN (seq 0), ACK of 1, FIN|ACK (seq 0, ack 1); every sequence number in a close is FIN_SEQ or FIN_SEQ + 1. */
  datatype Pkt = Fin | FinAcked | FinAck

  /** One handler call up to its return or to its sleep: new state and the packet it sends, if any. */
  function Handle(s: TcpState, p: Pkt): (TcpState, seq<Pkt>) {
    match s
    case Established => if p.Fin? then (CloseWait, [FinAcked]) else (s, [])
    case FinWait1 => if p.FinAcked? then (FinWait2, []) else (Closing, [FinAcked])
    case FinWait2 => if p.FinAck? then (TimeWait, [FinAcked]) else (s, [])
    case LastAck => if p.FinAcked? then (Closed, []) else (s, [])
    case Closing => if p.FinAcked? then (TimeWait, []) else (s, [])
    case _ => (s, [])
  }

  /** The receive thread sleeps inside the handler: one second before the third packet, 2MSL before CLOSED. */
  predicate Sleeping(s: TcpState) { s == CloseWait || s == TimeWait }

  function Wake(s: TcpState): (TcpState, seq<Pkt>)
    requires Sleeping(s)
  {
    if s == CloseWait then (LastAck, [FinAck]) else (Closed, [])
  }

  /** packet_FIN, resent every eight seconds by the loop of tju_close until CLOSED. */
  function Resent(s: TcpState): seq<Pkt> {
    match s
    case FinWait1 => [Fin]
    case FinWait2 => [Fin]
    case Closing => [Fin]
    case TimeWait => [Fin]
    case LastAck => [FinAck]
    case _ => []
  }

  class Endpoint {
    var state: TcpState

    constructor ()
      ensures state == Established
    {
      state := Established;
    }

    /** tju_close up to its wait, called by the application. */
    method TjuClose() returns (out: seq<Pkt>)
      requires state == Established || state == LastAck
      modifies this
      ensures old(state) == Established ==> state == FinWait1 && out == [Fin]
      ensures old(state) == LastAck ==> state == LastAck && out == []
    {
      out := [];
      if state == Established {
        out := [Fin];
        state := FinWait1;
      }
    }

    /** tju_handle_packet for the packets of a close. */
    method HandlePacket(p: Pkt) returns (out: seq<Pkt>)
      modifies this
      ensures (state, out) == Handle(old(state), p)
    {
      out := [];
      if state == Established {
        if p == Fin {
          out := [FinAcked];
          state := CloseWait;
        }
      } else if state == FinWait1 {
        if p == FinAcked {
          state := FinWait2;
        } else {
          out := [FinAcked];
          state := Closing;
        }
      } else if state == FinWait2 {
        if p == FinAck {
          out := [FinAcked];
          state := TimeWait;
        }
      } else if state == LastAck {
        if p == FinAcked {
          state := Closed;
        }
      } else if state == Closing {
        if p == FinAcked {
          state := TimeWait;
        }
      }
    }

    method SleepOver() returns (out: seq<Pkt>)
      requires Sleeping(state)
      modifies this
      ensures (state, out) == Wake(old(state))
    {
      if state == CloseWait {
        out := [FinAck];
        state := LastAck;
      } else {
        out := [];
        state := Closed;
      }
    }

    /** One thing the endpoint does: what it sends, and what is left of what has arrived. */
    method Act(act: Act, inbox: seq<Pkt>) returns (out: seq<Pkt>, left: seq<Pkt>)
      requires CanAct(state, inbox, act)
      modifies this
      ensures (state, out, left) == Do(old(state), inbox, act)
    {
      left := inbox;
      match act {
        case CallClose => out := TjuClose();
        case Receive =>
          out := HandlePacket(inbox[0]);
          left := inbox[1..];
        case WakeUp => out := SleepOver();
        case Resend => out := Resent(state);
      }
    }
  }

  // ----- two endpoints -----

  /** What an endpoint can do. */
  datatype Act = CallClose | Receive | WakeUp | Resend

  /** a, b: the two states; ab, ba: the channels, oldest packet first. */
  datatype World = World(a: TcpState, b: TcpState, ab: seq<Pkt>, ba: seq<Pkt>)

  const START := World(Established, Established, [], [])

  function Swap(w: World): World { World(w.b, w.a, w.ba, w.ab) }

  predicate CanAct(s: TcpState, inbox: seq<Pkt>, act: Act) {
    match act
    case CallClose => s == Established
    case Receive => inbox != [] && !Sleeping(s)
    case WakeUp => Sleeping(s)
    case Resend => Resent(s) != []
  }

  /** New state, packets sent, and what is left of what has arrived. */
  function Do(s: TcpState, inbox: seq<Pkt>, act: Act): (TcpState, seq<Pkt>, seq<Pkt>)
    requires CanAct(s, inbox, act)
  {
    match act
    case CallClose => (FinWait1, [Fin], inbox)
    case Receive => var (t, out) := Handle(s, inbox[0]); (t, out, inbox[1..])
    case WakeUp => var (t, out) := Wake(s); (t, out, inbox)
    case Resend => (s, Resent(s), inbox)
  }

  predicate CanA(w: World, act: Act) { CanAct(w.a, w.ba, act) }

  function DoA(w: World, act: Act): World
    requires CanA(w, act)
  {
    var (s, out, left) := Do(w.a, w.ba, act);
    w.(a := s, ab := w.ab + out, ba := left)
  }

  datatype Step = ByA(act: Act) | ByB(act: Act)

  predicate Enabled(w: World, st: Step) {
    match st
    case ByA(act) => CanA(w, act)
    case ByB(act) => CanA(Swap(w), act)
  }

  function Apply(w: World, st: Step): World
    requires Enabled(w, st)
  {
    match st
    case ByA(act) => DoA(w, act)
    case ByB(act) => Swap(DoA(Swap(w), act))
  }

  predicate Legal(w: World, steps: seq<Step>)
    decreases |steps|
  {
    |steps| == 0 || (Enabled(w, steps[0]) && Legal(Apply(w, steps[0]), steps[1..]))
  }

  function Exec(w: World, steps: seq<Step>): World
    requires Legal(w, steps)
    decreases |steps|
  {
    if |steps| == 0 then w else Exec(Apply(w, steps[0]), steps[1..])
  }

  // ----- the transitions -----

  /** State changes of an endpoint: from, by what, to, and what it sends. */
  predicate Edge(w: World, act: Act, to: TcpState, out: seq<Pkt>) {
    || (w.a == Established && act == CallClose && to == FinWait1 && out == [Fin])
    || (w.a == CloseWait && act == WakeUp && to == LastAck && out == [FinAck])
    || (w.a == TimeWait && act == WakeUp && to == Closed && out == [])
    || (act == Receive && w.ba != [] && Arc(w.a, w.ba[0], to, out))
  }

  predicate Arc(s: TcpState, p: Pkt, to: TcpState, out: seq<Pkt>) {
    || (s == Established && p == Fin && to == CloseWait && out == [FinAcked])
    || (s == FinWait1 && p == FinAcked && to == FinWait2 && out == [])
    || (s == FinWait1 && p != FinAcked && to == Closing && out == [FinAcked])
    || (s == FinWait2 && p == FinAck && to == TimeWait && out == [FinAcked])
    || (s == Closing && p == FinAcked && to == TimeWait && out == [])
    || (s == LastAck && p == FinAcked && to == Closed && out == [])
  }

  /** All of these happen, and nothing else changes the state. Otherwise a packet received is dropped without answer,
      and a resend repeats a FIN; packets are taken and put in order. */
  lemma StepTable(w: World, act: Act, to: TcpState, out: seq<Pkt>)
    requires CanA(w, act)
    ensures var v := DoA(w, act);
            && v.b == w.b && v.ba == (if act == Receive then w.ba[1..] else w.ba)
            && w.ab <= v.ab
            && (Edge(w, act, to, out) ==> v.a == to && v.ab == w.ab + out)
            && (v.a != w.a ==> Edge(w, act, v.a, v.ab[|w.ab|..]))
            && (v.a == w.a ==> if act == Resend then v.ab[|w.ab|..] in {[Fin], [FinAck]} else v.ab == w.ab)
  {
  }

  /** Whoever called tju_close first waits in TIME_WAIT before it is CLOSED. */
  lemma {:induction false} WaitsBeforeClosed(w: World, steps: seq<Step>)
    requires Legal(w, steps) && w.a in {FinWait1, FinWait2, Closing, TimeWait} && Exec(w, steps).a == Closed
    ensures ByA(WakeUp) in steps
    decreases |steps|
  {
    if |steps| > 0 {
      var v := Apply(w, steps[0]);
      if v.a in {FinWait1, FinWait2, Closing, TimeWait} {
        WaitsBeforeClosed(v, steps[1..]);
        assert forall st <- steps[1..] :: st in steps;
      } else {
        assert steps[0] == ByA(WakeUp);
      }
    }
  }

  /** The FIN repeated is the one sent: FIN for who called tju_close, FIN|ACK for who was called upon, until CLOSED. */
  lemma ResendRepeats(steps: seq<Step>)
    requires Legal(START, steps)
    ensures var w, called := Exec(START, steps), ByA(CallClose) in steps;
            && (called ==> w.a !in {Established, CloseWait, LastAck})
            && (!called ==> w.a in {Established, CloseWait, LastAck, Closed})
            && Resent(w.a) == (if w.a in {Established, CloseWait, Closed} then []
                               else if called then [Fin] else [FinAck])
  {
    ResendFrom(START, steps, false);
  }

  lemma {:induction false} ResendFrom(w: World, steps: seq<Step>, was: bool)
    requires Legal(w, steps)
    requires was ==> w.a !in {Established, CloseWait, LastAck}
    requires !was ==> w.a in {Established, CloseWait, LastAck, Closed}
    ensures var v, called := Exec(w, steps), was || ByA(CallClose) in steps;
            && (called ==> v.a !in {Established, CloseWait, LastAck})
            && (!called ==> v.a in {Established, CloseWait, LastAck, Closed})
            && Resent(v.a) == (if v.a in {Established, CloseWait, Closed} then []
                               else if called then [Fin] else [FinAck])
    decreases |steps|
  {
    if |steps| > 0 {
      ResendFrom(Apply(w, steps[0]), steps[1..], was || steps[0] == ByA(CallClose));
      assert forall st <- steps :: st == steps[0] || st in steps[1..];
      assert forall st <- steps[1..] :: st in steps;
    }
  }

  // ----- the invariant -----

  predicate Only(c: seq<Pkt>, p: Pkt) { forall x <- c :: x == p }

  function Acks(c: seq<Pkt>): nat { multiset(c)[FinAcked] }

  lemma TakeFirst(c: seq<Pkt>)
    requires c != []
    ensures c[0] in c && (forall x <- c[1..] :: x in c)
    ensures Acks(c) == Acks(c[1..]) + (if c[0] == FinAcked then 1 else 0)
    ensures Acks(c) == 0 <==> FinAcked !in c
  {
    assert c == [c[0]] + c[1..];
  }

  lemma PutLast(c: seq<Pkt>, p: Pkt)
    ensures Acks(c + [p]) == Acks(c) + (if p == FinAcked then 1 else 0)
    ensures Acks(c) == 0 <==> FinAcked !in c
    ensures forall x <- c + [p] :: x in c || x == p
  {
  }

  /** a closed first, b has answered or will: everything a sends is FIN but for one ACK once it has b's FIN|ACK. */
  predicate OneSided(w: World) {
    && (w.a == FinWait1 || w.a == FinWait2 || w.a == TimeWait || w.a == Closed)
    && match w.b
       case Established => w.a == FinWait1 && w.ba == [] && w.ab != [] && Only(w.ab, Fin)
       case CloseWait => Only(w.ab, Fin) && ((w.a == FinWait1 && w.ba == [FinAcked]) || (w.a == FinWait2 && w.ba == []))
       case LastAck =>
         if w.a == FinWait1 then Only(w.ab, Fin) && |w.ba| >= 2 && w.ba[0] == FinAcked && Only(w.ba[1..], FinAck)
         else Only(w.ba, FinAck)
              && (if w.a == FinWait2 then w.ba != [] && Only(w.ab, Fin) else Acks(w.ab) == 1 && FinAck !in w.ab)
       case Closed => (w.a == TimeWait || w.a == Closed) && Only(w.ba, FinAck) && Only(w.ab, Fin)
       case _ => false
  }

  /** Half of the simultaneous case: what a has sent against what b has taken. */
  predicate Crossing(a: TcpState, b: TcpState, ab: seq<Pkt>) {
    && (a == FinWait1 || a == Closing || a == TimeWait || a == Closed)
    && FinAck !in ab
    && (b == FinWait1 ==> ab != [] && ab[0] == Fin)
    && (b == FinWait1 || b == Closing ==> Acks(ab) == if a == FinWait1 then 0 else 1)
    && (b == TimeWait || b == Closed ==> a != FinWait1 && Acks(ab) == 0)
  }

  predicate BothSided(w: World) { Crossing(w.a, w.b, w.ab) && Crossing(w.b, w.a, w.ba) }

  predicate Inv(w: World) { w == START || OneSided(w) || OneSided(Swap(w)) || BothSided(w) }

  lemma StartStep(w: World, act: Act)
    requires w == START && CanA(w, act)
    ensures OneSided(DoA(w, act))
  {
  }

  lemma ActiveReceives(w: World)
    requires OneSided(w) && CanA(w, Receive)
    ensures OneSided(DoA(w, Receive))
  {
    TakeFirst(w.ba);
    PutLast(w.ab, FinAcked);
    assert w.ab + [] == w.ab;
  }

  lemma ActiveSends(w: World, act: Act)
    requires OneSided(w) && CanA(w, act) && act != Receive
    ensures OneSided(DoA(w, act))
  {
    PutLast(w.ab, Fin);
    assert w.ab + [] == w.ab;
  }

  /** The other side calling tju_close itself makes the close simultaneous. */
  lemma PassiveCloses(w: World)
    requires OneSided(Swap(w)) && CanA(w, CallClose)
    ensures BothSided(DoA(w, CallClose))
  {
    assert w.ba[0] in w.ba;
    TakeFirst(w.ba);
    PutLast(w.ab, Fin);
  }

  lemma PassiveReceives(w: World)
    requires OneSided(Swap(w)) && CanA(w, Receive)
    ensures OneSided(Swap(DoA(w, Receive)))
  {
    TakeFirst(w.ba);
    assert w.ab + [] == w.ab;
  }

  /** The third packet of the close, after the sleep. */
  lemma PassiveWakes(w: World)
    requires OneSided(Swap(w)) && CanA(w, WakeUp)
    ensures OneSided(Swap(DoA(w, WakeUp)))
  {
    if w.a == CloseWait {
      assert DoA(w, WakeUp).ab == w.ab + [FinAck];
      PutLast(w.ab, FinAck);
      assert w.ab == [] || w.ab == [FinAcked];
      assert w.ab == [FinAcked] ==> (w.ab + [FinAck])[1..] == [FinAck];
    }
  }

  lemma PassiveResends(w: World)
    requires OneSided(Swap(w)) && CanA(w, Resend)
    ensures OneSided(Swap(DoA(w, Resend)))
  {
    PutLast(w.ab, FinAck);
    if w.ab != [] {
      PutLast(w.ab[1..], FinAck);
      assert (w.ab + [FinAck])[1..] == w.ab[1..] + [FinAck];
    }
  }

  lemma CrossingReceives(w: World)
    requires BothSided(w) && CanA(w, Receive)
    ensures BothSided(DoA(w, Receive))
  {
    TakeFirst(w.ba);
    PutLast(w.ab, FinAcked);
    assert w.ab + [] == w.ab;
  }

  lemma CrossingSends(w: World, act: Act)
    requires BothSided(w) && CanA(w, act) && act != Receive
    ensures BothSided(DoA(w, act))
  {
    PutLast(w.ab, Fin);
    assert w.ab + [] == w.ab;
  }

  lemma InvA(w: World, act: Act)
    requires Inv(w) && CanA(w, act)
    ensures Inv(DoA(w, act))
  {
    if w == START {
      StartStep(w, act);
    } else if OneSided(w) {
      if act == Receive { ActiveReceives(w); } else { ActiveSends(w, act); }
    } else if OneSided(Swap(w)) {
      if act == CallClose {
        PassiveCloses(w);
      } else if act == Receive {
        PassiveReceives(w);
      } else if act == WakeUp {
        PassiveWakes(w);
      } else {
        PassiveResends(w);
      }
    } else {
      if act == Receive { CrossingReceives(w); } else { CrossingSends(w, act); }
    }
  }

  lemma InvSwap(w: World)
    ensures Inv(Swap(w)) <==> Inv(w)
    ensures Swap(Swap(w)) == w
  {
  }

  lemma {:induction false} InvRun(w: World, steps: seq<Step>)
    requires Inv(w) && Legal(w, steps)
    ensures Inv(Exec(w, steps))
    decreases |steps|
  {
    if |steps| > 0 {
      match steps[0]
      case ByA(act) =>
        InvA(w, act);
        InvRun(Apply(w, steps[0]), steps[1..]);
      case ByB(act) =>
        InvSwap(w);
        InvA(Swap(w), act);
        InvSwap(DoA(Swap(w), act));
        InvRun(Apply(w, steps[0]), steps[1..]);
    }
  }

  /** Who can be where: FIN_WAIT_2 faces a peer that has answered the FIN and is not closed yet, CLOSED one that has
      at least sent its own FIN and been told so or is about to be. */
  predicate Matched(s: TcpState, peer: TcpState) {
    && (s == FinWait2 ==> peer == CloseWait || peer == LastAck)
    && (s == Closed ==> peer == LastAck || peer == Closing || peer == TimeWait || peer == Closed)
  }

  lemma CloseStates(steps: seq<Step>)
    requires Legal(START, steps)
    ensures var w := Exec(START, steps); Matched(w.a, w.b) && Matched(w.b, w.a)
  {
    InvRun(START, steps);
  }

  // ----- draining -----

  predicate Quiescent(w: World) { w.ab == [] && w.ba == [] && !Sleeping(w.a) && !Sleeping(w.b) }

  /** In every run: once a close has begun, a state with empty channels and nobody asleep has both sides CLOSED. */
  lemma DrainedMeansClosed(steps: seq<Step>)
    requires Legal(START, steps) && Quiescent(Exec(START, steps))
    ensures var w := Exec(START, steps); w == START || (w.a == Closed && w.b == Closed)
  {
    InvRun(START, steps);
  }

  function Rank(s: TcpState): nat {
    match s
    case Established => 9
    case FinWait1 => 6
    case FinWait2 => 4
    case Closing => 3
    case CloseWait => 4
    case TimeWait => 1
    case LastAck => 1
    case Closed => 0
  }

  /** Packets under way weigh one each, states enough to pay for what they may still send. */
  function Weight(w: World): nat { |w.ab| + |w.ba| + 2 * Rank(w.a) + 2 * Rank(w.b) }

  predicate Draining(st: Step) { st.act == Receive || st.act == WakeUp }

  /** Deliveries and wake-ups alone, without new calls or resends, come to an end: each loses weight. */
  lemma DrainStep(w: World, st: Step)
    requires Enabled(w, st) && Draining(st)
    ensures Weight(Apply(w, st)) < Weight(w)
  {
  }

  lemma {:induction false} DrainBound(w: World, steps: seq<Step>)
    requires Legal(w, steps) && forall st <- steps :: Draining(st)
    ensures |steps| + Weight(Exec(w, steps)) <= Weight(w)
    decreases |steps|
  {
    if |steps| > 0 {
      DrainStep(w, steps[0]);
      DrainBound(Apply(w, steps[0]), steps[1..]);
    }
  }

  /** A drain that has gone as far as it can. */
  predicate Exhausted(w: World) {
    !Enabled(w, ByA(Receive)) && !Enabled(w, ByA(WakeUp)) && !Enabled(w, ByB(Receive)) && !Enabled(w, ByB(WakeUp))
  }

  lemma {:induction false} ExecAppend(w: World, x: seq<Step>, y: seq<Step>)
    requires Legal(w, x) && Legal(Exec(w, x), y)
    ensures Legal(w, x + y) && Exec(w, x + y) == Exec(Exec(w, x), y)
    decreases |x|
  {
    if |x| == 0 {
      EmptyAppend(x, y);
    } else {
      ExecAppend(Apply(w, x[0]), x[1..], y);
      HeadTail(x, y);
    }
  }

  predicate Begun(w: World) { w.a != Established || w.b != Established }

  lemma BegunStepA(w: World, act: Act)
    requires CanA(w, act) && (w == START || Begun(w))
    ensures DoA(w, act) == START || Begun(DoA(w, act))
    ensures Begun(w) ==> Begun(DoA(w, act))
  {
  }

  lemma BegunStep(w: World, st: Step)
    requires Enabled(w, st) && (w == START || Begun(w))
    ensures Apply(w, st) == START || Begun(Apply(w, st))
    ensures Begun(w) ==> Begun(Apply(w, st))
  {
    match st
    case ByA(act) => BegunStepA(w, act);
    case ByB(act) => BegunStepA(Swap(w), act);
  }

  lemma {:induction false} StaysBegun(w: World, steps: seq<Step>)
    requires Legal(w, steps) && (w == START || Begun(w))
    ensures Exec(w, steps) == START || Begun(Exec(w, steps))
    ensures Begun(w) ==> Begun(Exec(w, steps))
    decreases |steps|
  {
    if |steps| > 0 {
      BegunStep(w, steps[0]);
      StaysBegun(Apply(w, steps[0]), steps[1..]);
    }
  }

  /** Once a close has begun, any maximal drain, in whatever order, is finite and takes both sides to CLOSED. */
  lemma {:induction false} DrainCloses(before: seq<Step>, drain: seq<Step>)
    requires Legal(START, before) && Begun(Exec(START, before))
    requires Legal(Exec(START, before), drain) && forall st <- drain :: Draining(st)
    ensures |drain| <= Weight(Exec(START, before))
    ensures var v := Exec(Exec(START, before), drain);
            Exhausted(v) ==> v.a == Closed && v.b == Closed
  {
    var w := Exec(START, before);
    DrainBound(w, drain);
    ExecAppend(START, before, drain);
    InvRun(START, before + drain);
    StaysBegun(w, drain);
  }

  // ----- the endpoint objects follow the model -----

  class Release {
    const a: Endpoint
    const b: Endpoint
    var ab: seq<Pkt>
    var ba: seq<Pkt>
    ghost var past: seq<Step>

    ghost function Abs(): World
      reads this, a, b
    {
      World(a.state, b.state, ab, ba)
    }

    /** The objects are where the steps taken so far lead the model. */
    ghost predicate Valid()
      reads this, a, b
    {
      a != b && Legal(START, past) && Exec(START, past) == Abs()
    }

    constructor ()
      ensures Valid() && Abs() == START && past == [] && fresh(a) && fresh(b)
    {
      a := new Endpoint();
      b := new Endpoint();
      ab, ba, past := [], [], [];
    }

    method Perform(st: Step)
      requires Valid() && Enabled(Abs(), st)
      modifies this, a, b
      ensures Valid() && Abs() == Apply(old(Abs()), st) && past == old(past) + [st]
    {
      ghost var w := Abs();
      var out;
      match st {
        case ByA(act) =>
          out, ba := a.Act(act, ba);
          ab := ab + out;
        case ByB(act) =>
          out, ab := b.Act(act, ab);
          ba := ba + out;
      }
      OneStep(w, st);
      ExecAppend(START, past, [st]);
      past := past + [st];
    }

    /** So at any time each object matches its peer, and once a close has begun nothing but CLOSED is left when
        the channels are empty and nobody sleeps. */
    lemma ObjectsMatch()
      requires Valid()
      ensures Matched(a.state, b.state) && Matched(b.state, a.state)
      ensures Quiescent(Abs()) ==> Abs() == START || (a.state == Closed && b.state == Closed)
    {
      CloseStates(past);
      if Quiescent(Abs()) {
        DrainedMeansClosed(past);
      }
    }
  }

  lemma OneStep(w: World, st: Step)
    requires Enabled(w, st)
    ensures Legal(w, [st]) && Exec(w, [st]) == Apply(w, st)
  {
    assert [st][1..] == [];
  }
}
