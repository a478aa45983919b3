/** tju_accept taken apart: the socket leaves the accept queue in one step and is registered in established_socks in a
    later one (src/tju_tcp.c:118-130), with the receive thread running in between. */
module SplitAccept {
  import opened Global
  import opened SynQueue
  import H = Handshake

  /** held: what the one accepting thread has taken and not yet registered. */
  datatype State = State(s: H.State, held: Option<Sock>)

  const START := State(H.START, None)

  datatype Step = Other(st: H.Step) | Dequeue(slot: Slot) | Register

  predicate Enabled(w: State, st: Step) {
    match st
    case Other(o) => !o.Accept? && H.Enabled(w.s, o)
    case Dequeue(slot) => w.held.None? && FirstAccept(w.s.q, slot)
    case Register => w.held.Some?
  }

  function Apply(h: Port -> Slot, w: State, st: Step): State
    requires Enabled(w, st)
  {
    match st
    case Other(o) => w.(s := H.Apply(h, w.s, o))
    case Dequeue(slot) => State(w.s.(q := GetFromAccept(w.s.q, slot)), Some(w.s.q.acc[slot]))
    case Register => State(w.s.(table := w.s.table[h(w.held.value.port) := w.held.value]), None)
  }

  predicate Legal(h: Port -> Slot, ports: set<Port>, w: State, steps: seq<Step>)
    decreases |steps|
  {
    |steps| == 0 || (Enabled(w, steps[0]) && (steps[0].Other? && steps[0].st.Connect? ==> steps[0].st.port in ports)
                     && Legal(h, ports, Apply(h, w, steps[0]), steps[1..]))
  }

  function Exec(h: Port -> Slot, ports: set<Port>, w: State, steps: seq<Step>): State
    requires Legal(h, ports, w, steps)
    decreases |steps|
  {
    if |steps| == 0 then w else Exec(h, ports, Apply(h, w, steps[0]), steps[1..])
  }

  /** The two steps back to back are the accept of module Handshake. */
  lemma BackToBack(h: Port -> Slot, w: State, slot: Slot)
    requires Enabled(w, Dequeue(slot))
    ensures H.Enabled(w.s, H.Accept(slot))
    ensures var t := Apply(h, w, Dequeue(slot));
            Enabled(t, Register) && Apply(h, t, Register) == State(H.Apply(h, w.s, H.Accept(slot)), None)
  {
  }

  // ----- when a second socket waits for a registered slot -----

  /** A registration that finds the slot of its socket refilled in the accept queue. */
  predicate Late(h: Port -> Slot, w: State, st: Step) {
    st.Register? && w.held.Some? && h(w.held.value.port) in w.s.q.acc
  }

  /** The socket in hand is one that waited in the accept queue. */
  predicate Known(h: Port -> Slot, ports: set<Port>, w: State) {
    && H.Core(h, ports, w.s)
    && (w.held.Some? ==> w.held.value.state == Established && w.held.value.port in w.s.handled)
  }

  lemma CoreStep(h: Port -> Slot, ports: set<Port>, w: State, st: Step)
    requires Known(h, ports, w) && Enabled(w, st) && (st.Other? && st.st.Connect? ==> st.st.port in ports)
    ensures Known(h, ports, Apply(h, w, st))
  {
    match st
    case Other(o) => H.InvStep(h, ports, w.s, o);
    case Dequeue(slot) => GetFromAcceptKeeps(h, w.s.q, slot);
    case Register => H.PktsStay(w.s, Apply(h, w, st).s);
  }

  lemma SingleStep(h: Port -> Slot, ports: set<Port>, w: State, st: Step)
    requires H.Inv(h, ports, w.s) && Enabled(w, st) && (st.Other? && st.st.Connect? ==> st.st.port in ports)
    ensures H.NoDoubles(Apply(h, w, st).s) <==> !Late(h, w, st)
  {
    match st
    case Other(o) => H.InvStep(h, ports, w.s, o);
    case _ =>
  }

  predicate AlwaysSingle(h: Port -> Slot, ports: set<Port>, w: State, steps: seq<Step>)
    requires Legal(h, ports, w, steps)
    decreases |steps|
  {
    H.NoDoubles(w.s) && (|steps| == 0 || AlwaysSingle(h, ports, Apply(h, w, steps[0]), steps[1..]))
  }

  predicate NeverLate(h: Port -> Slot, ports: set<Port>, w: State, steps: seq<Step>)
    requires Legal(h, ports, w, steps)
    decreases |steps|
  {
    |steps| == 0 || (!Late(h, w, steps[0]) && NeverLate(h, ports, Apply(h, w, steps[0]), steps[1..]))
  }

  lemma {:induction false} SingleRun(h: Port -> Slot, ports: set<Port>, w: State, steps: seq<Step>)
    requires Known(h, ports, w) && H.NoDoubles(w.s) && Legal(h, ports, w, steps)
    ensures AlwaysSingle(h, ports, w, steps) <==> NeverLate(h, ports, w, steps)
    decreases |steps|
  {
    if |steps| > 0 {
      var w1 := Apply(h, w, steps[0]);
      CoreStep(h, ports, w, steps[0]);
      SingleStep(h, ports, w, steps[0]);
      if H.NoDoubles(w1.s) {
        SingleRun(h, ports, w1, steps[1..]);
      }
    }
  }

  /** In every run: at no time does a second socket wait for a registered slot iff no registration finds the slot
      it registers refilled. */
  lemma SplitAcceptSafeIff(h: Port -> Slot, ports: set<Port>, steps: seq<Step>)
    requires Legal(h, ports, START, steps)
    ensures AlwaysSingle(h, ports, START, steps) <==> NeverLate(h, ports, START, steps)
  {
    SingleRun(h, ports, START, steps);
  }

  // ----- a run in which it does -----

  lemma Cons(h: Port -> Slot, ports: set<Port>, w: State, st: Step, rest: seq<Step>)
    requires Enabled(w, st) && (st.Other? && st.st.Connect? ==> st.st.port in ports)
    requires Legal(h, ports, Apply(h, w, st), rest)
    ensures Legal(h, ports, w, [st] + rest) && Exec(h, ports, w, [st] + rest) == Exec(h, ports, Apply(h, w, st), rest)
  {
    assert ([st] + rest)[1..] == rest;
  }

  /** The ordinary handshake of one client. */
  function Ordinary(p: Port, rest: seq<Step>): seq<Step> {
    [Other(H.Connect(p))] + ([Other(H.AtServer(H.SynPkt(p)))]
    + ([Other(H.AtClient(p))] + ([Other(H.AtServer(H.AckPkt(p)))] + rest)))
  }

  /** One connected client, its socket in the accept queue. */
  function Waiting(h: Port -> Slot, p: Port): State {
    State(H.State({p}, {p}, {p}, Queues(map[], map[h(p) := Sock(p, Established)], 0, 1), map[],
                  {H.SynPkt(p), H.SynAckPkt(p), H.AckPkt(p)}), None)
  }

  lemma PromoteOnly(h: Port -> Slot, p: Port)
    ensures Promote(h, EnSynQueue(h, EMPTY, Sock(p, SynRecv)), p)
         == Queues(map[], map[h(p) := Sock(p, Established)], 0, 1)
  {
    var q := EnSynQueue(h, EMPTY, Sock(p, SynRecv));
    assert q.syn - {h(p)} == map[];
  }

  lemma OrdinaryRuns(h: Port -> Slot, ports: set<Port>, p: Port, rest: seq<Step>)
    requires p in ports && Legal(h, ports, Waiting(h, p), rest)
    ensures Legal(h, ports, START, Ordinary(p, rest))
    ensures Exec(h, ports, START, Ordinary(p, rest)) == Exec(h, ports, Waiting(h, p), rest)
  {
    var c0, c1 := Other(H.Connect(p)), Other(H.AtServer(H.SynPkt(p)));
    var c2, c3 := Other(H.AtClient(p)), Other(H.AtServer(H.AckPkt(p)));
    var w1 := Apply(h, START, c0);
    var w2 := Apply(h, w1, c1);
    var w3 := Apply(h, w2, c2);
    PromoteOnly(h, p);
    assert Apply(h, w3, c3) == Waiting(h, p);
    Cons(h, ports, w3, c3, rest);
    Cons(h, ports, w2, c2, [c3] + rest);
    Cons(h, ports, w1, c1, [c2] + ([c3] + rest));
    Cons(h, ports, START, c0, [c1] + ([c2] + ([c3] + rest)));
  }

  /** The socket is taken, a duplicated SYN and ACK come through to the listening socket, the socket is registered. */
  function Doubling(h: Port -> Slot, p: Port): seq<Step> {
    [Dequeue(h(p))] + ([Other(H.AtServer(H.SynPkt(p)))] + ([Other(H.AtServer(H.AckPkt(p)))] + ([Register] + [])))
  }

  lemma DoublingRuns(h: Port -> Slot, ports: set<Port>, p: Port)
    ensures Legal(h, ports, Waiting(h, p), Doubling(h, p))
    ensures Exec(h, ports, Waiting(h, p), Doubling(h, p))
         == State(Waiting(h, p).s.(table := map[h(p) := Sock(p, Established)]), None)
  {
    var w := Waiting(h, p);
    var d0, d1, d2 := Dequeue(h(p)), Other(H.AtServer(H.SynPkt(p))), Other(H.AtServer(H.AckPkt(p)));
    var w1 := Apply(h, w, d0);
    assert w1.s.q == EMPTY;
    var w2 := Apply(h, w1, d1);
    PromoteOnly(h, p);
    var w3 := Apply(h, w2, d2);
    assert w3.s == w.s;
    Cons(h, ports, w3, Register, []);
    Cons(h, ports, w2, d2, [Register] + []);
    Cons(h, ports, w1, d1, [d2] + ([Register] + []));
    Cons(h, ports, w, d0, [d1] + ([d2] + ([Register] + [])));
  }

  /** After it the next tju_accept returns a second socket for the slot just registered. */
  lemma SplitAcceptDoubles(h: Port -> Slot, ports: set<Port>, p: Port)
    requires p in ports
    ensures var st := Ordinary(p, Doubling(h, p));
            Legal(h, ports, START, st) && !NeverLate(h, ports, START, st)
            && var w := Exec(h, ports, START, st);
               Enabled(w, Dequeue(h(p))) && h(p) in w.s.table && w.s.q.acc[h(p)] == w.s.table[h(p)]
  {
    var st := Ordinary(p, Doubling(h, p));
    DoublingRuns(h, ports, p);
    OrdinaryRuns(h, ports, p, Doubling(h, p));
    var w := Exec(h, ports, START, st);
    assert h(p) in w.s.q.acc;
    if NeverLate(h, ports, START, st) {
      SplitAcceptSafeIff(h, ports, st);
      LastSingle(h, ports, START, st);
    }
  }

  lemma {:induction false} LastSingle(h: Port -> Slot, ports: set<Port>, w: State, steps: seq<Step>)
    requires Legal(h, ports, w, steps) && AlwaysSingle(h, ports, w, steps)
    ensures H.NoDoubles(Exec(h, ports, w, steps).s)
    decreases |steps|
  {
    if |steps| > 0 {
      LastSingle(h, ports, Apply(h, w, steps[0]), steps[1..]);
    }
  }

  // ----- old packets after a close -----

  /** The socket is taken, registered and closed; then copies of the old SYN and ACK arrive. */
  function Reopening(h: Port -> Slot, p: Port): seq<Step> {
    [Dequeue(h(p))] + ([Register] + ([Other(H.Unregister(h(p)))]
    + ([Other(H.AtServer(H.SynPkt(p)))] + ([Other(H.AtServer(H.AckPkt(p)))] + []))))
  }

  /** Closing frees the slot, and nothing tells old packets from new ones: copies of a finished handshake make
      tju_accept return another socket, without any call of tju_connect. */
  lemma OldHandshakeAccepted(h: Port -> Slot, ports: set<Port>, p: Port)
    requires p in ports
    ensures var st := Ordinary(p, Reopening(h, p));
            Legal(h, ports, START, st) && Exec(h, ports, START, st) == Waiting(h, p)
            && Enabled(Exec(h, ports, START, st), Dequeue(h(p)))
  {
    var w := Waiting(h, p);
    var d0, d2 := Dequeue(h(p)), Other(H.Unregister(h(p)));
    var d3, d4 := Other(H.AtServer(H.SynPkt(p))), Other(H.AtServer(H.AckPkt(p)));
    var w1 := Apply(h, w, d0);
    var w2 := Apply(h, w1, Register);
    var w3 := Apply(h, w2, d2);
    assert w3.s.q == EMPTY && w3.s.table == map[];
    var w4 := Apply(h, w3, d3);
    PromoteOnly(h, p);
    assert Apply(h, w4, d4) == w;
    Cons(h, ports, w4, d4, []);
    Cons(h, ports, w3, d3, [d4] + []);
    Cons(h, ports, w2, d2, [d3] + ([d4] + []));
    Cons(h, ports, w1, Register, [d2] + ([d3] + ([d4] + [])));
    Cons(h, ports, w, d0, [Register] + ([d2] + ([d3] + ([d4] + []))));
    OrdinaryRuns(h, ports, p, Reopening(h, p));
  }
}
