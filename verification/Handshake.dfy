/** The three-way handshake over a network that loses, duplicates and reorders
    (src/tju_tcp.c:114-130, 165-199, 286-333, src/kernel.c:22-37, src/syn.c). */
module Handshake {
  import opened Global
  import opened SynQueue

  // Clients are told apart by port; both initial sequence numbers are 0, so a packet is its kind and its port.
  datatype Pkt = SynPkt(port: Port) | SynAckPkt(port: Port) | AckPkt(port: Port)

  /** connecting: clients that have called tju_connect; connected: those whose socket has become ESTABLISHED;
      handled: ports whose SYN the listening socket has handled; table: established_socks of the server. */
  datatype State = State(connecting: set<Port>, connected: set<Port>, handled: set<Port>, q: Queues,
                         table: map<Slot, Sock>, net: set<Pkt>)

  const START := State({}, {}, {}, EMPTY, map[], {})

  datatype Step =
    | Connect(port: Port)        // first or repeated SYN of tju_connect
    | AtServer(pkt: Pkt)         // onTCPPocket on the server
    | AtClient(port: Port)       // a SYN-ACK reaches its client
    | Accept(slot: Slot)         // tju_accept: take from the queue and register, as one step
    | Unregister(slot: Slot)     // the end of tju_close

  predicate Enabled(s: State, st: Step) {
    match st
    case Connect(_) => true
    case AtServer(pkt) => pkt in s.net && !pkt.SynAckPkt?
    case AtClient(port) => SynAckPkt(port) in s.net
    case Accept(slot) => FirstAccept(s.q, slot)
    case Unregister(slot) => slot in s.table
  }

  /** LISTEN: answer a SYN and queue a half-open socket; promote on the third packet. */
  function AtListener(h: Port -> Slot, s: State, pkt: Pkt): State {
    match pkt
    case SynPkt(p) =>
      s.(handled := s.handled + {p}, net := s.net + {SynAckPkt(p)}, q := EnSynQueue(h, s.q, Sock(p, SynRecv)))
    case AckPkt(p) => s.(q := Promote(h, s.q, p))
    case SynAckPkt(_) => s
  }

  function Apply(h: Port -> Slot, s: State, st: Step): State
    requires Enabled(s, st)
  {
    match st
    case Connect(p) => s.(connecting := s.connecting + {p}, net := s.net + {SynPkt(p)})
    case AtServer(pkt) => if h(pkt.port) in s.table then s else AtListener(h, s, pkt)
    case AtClient(p) =>
      if p in s.connecting && p !in s.connected then
        s.(connected := s.connected + {p}, net := s.net + {AckPkt(p)})
      else s
    case Accept(slot) => var k := s.q.acc[slot]; s.(q := GetFromAccept(s.q, slot), table := s.table[h(k.port) := k])
    case Unregister(slot) => s.(table := s.table - {slot})
  }

  predicate Legal(h: Port -> Slot, ports: set<Port>, s: State, steps: seq<Step>)
    decreases |steps|
  {
    |steps| == 0 || (Enabled(s, steps[0]) && (steps[0].Connect? ==> steps[0].port in ports)
                     && Legal(h, ports, Apply(h, s, steps[0]), steps[1..]))
  }

  function Exec(h: Port -> Slot, ports: set<Port>, s: State, steps: seq<Step>): State
    requires Legal(h, ports, s, steps)
    decreases |steps|
  {
    if |steps| == 0 then s else Exec(h, ports, Apply(h, s, steps[0]), steps[1..])
  }

  // ----- what holds whatever the hash does -----

  predicate PktOk(s: State, p: Pkt) {
    match p
    case SynPkt(port) => port in s.connecting
    case SynAckPkt(port) => port in s.handled
    case AckPkt(port) => port in s.connected
  }

  predicate Core(h: Port -> Slot, ports: set<Port>, s: State) {
    && SynQueue.Inv(h, s.q)
    && s.connected <= s.handled <= s.connecting <= ports
    && (forall p <- s.net :: PktOk(s, p))
    && (forall k <- s.q.syn :: s.q.syn[k].port in s.handled)
    && (forall k <- s.q.acc :: s.q.acc[k].port in s.handled)
    && (forall k <- s.table ::
          k == h(s.table[k].port) && s.table[k].state == Established && s.table[k].port in s.handled)
  }

  /** No socket waits in the accept queue for a slot that is registered. */
  predicate NoDoubles(s: State) { forall k <- s.q.acc :: k !in s.table }

  predicate Inv(h: Port -> Slot, ports: set<Port>, s: State) { Core(h, ports, s) && NoDoubles(s) }

  lemma PktsStay(s: State, t: State)
    requires forall p <- s.net :: PktOk(s, p)
    requires s.connecting <= t.connecting && s.connected <= t.connected && s.handled <= t.handled
    ensures forall p <- s.net :: PktOk(t, p)
  {
    forall p | p in s.net
      ensures PktOk(t, p)
    {
      assert PktOk(s, p);
    }
  }

  lemma CoreServer(h: Port -> Slot, ports: set<Port>, s: State, pkt: Pkt)
    requires Core(h, ports, s) && Enabled(s, AtServer(pkt))
    ensures Core(h, ports, Apply(h, s, AtServer(pkt)))
    ensures NoDoubles(s) ==> NoDoubles(Apply(h, s, AtServer(pkt)))
  {
    var t := Apply(h, s, AtServer(pkt));
    PktsStay(s, t);
    assert PktOk(s, pkt);
    if h(pkt.port) !in s.table {
      match pkt
      case SynPkt(p) => EnSynKeeps(h, s.q, p);
      case AckPkt(p) => PromoteKeeps(h, s.q, p);
      case SynAckPkt(_) =>
    }
  }

  lemma InvStep(h: Port -> Slot, ports: set<Port>, s: State, st: Step)
    requires Core(h, ports, s) && Enabled(s, st) && (st.Connect? ==> st.port in ports)
    ensures Core(h, ports, Apply(h, s, st))
    ensures NoDoubles(s) ==> NoDoubles(Apply(h, s, st))
  {
    var t := Apply(h, s, st);
    PktsStay(s, t);
    match st
    case AtServer(pkt) => CoreServer(h, ports, s, pkt);
    case AtClient(p) => assert PktOk(s, SynAckPkt(p));
    case Accept(slot) => GetFromAcceptKeeps(h, s.q, slot);
    case _ =>
  }

  lemma {:induction false} InvRun(h: Port -> Slot, ports: set<Port>, s: State, steps: seq<Step>)
    requires Inv(h, ports, s) && Legal(h, ports, s, steps)
    ensures Inv(h, ports, Exec(h, ports, s, steps))
    decreases |steps|
  {
    if |steps| > 0 {
      InvStep(h, ports, s, steps[0]);
      InvRun(h, ports, Apply(h, s, steps[0]), steps[1..]);
    }
  }

  /** A connected client's SYN has been handled by the server, registered sockets are ESTABLISHED, sit at their own hash
      and belong to clients whose SYN has been handled, and no socket waits in the accept queue for a slot
      that is registered: duplicated SYNs and ACKs never make tju_accept return a second socket for it. */
  lemma HandshakeSafe(h: Port -> Slot, ports: set<Port>, steps: seq<Step>)
    requires Legal(h, ports, START, steps)
    ensures var s := Exec(h, ports, START, steps);
            && s.connected <= s.handled
            && (forall k <- s.table ::
                  k == h(s.table[k].port) && s.table[k].state == Established && s.table[k].port in s.handled)
            && (forall slot: Slot :: Enabled(s, Accept(slot)) ==> slot !in s.table)
  {
    InvRun(h, ports, START, steps);
  }

  /** What the server's steps do to registrations and to the packets of a port: the accepted socket is registered at its
      slot, closing frees the slot; a registered slot's packets never reach the listener, any other SYN is answered
      and has somebody half-open in its slot, its own socket if the slot was free. */
  lemma ServerTable(h: Port -> Slot, ports: set<Port>, s: State, st: Step, k: Slot)
    requires Core(h, ports, s) && Enabled(s, st)
    ensures var t := Apply(h, s, st);
            match st
            case Accept(slot) => k in t.table <==> k in s.table || k == slot
            case Unregister(slot) => k in t.table <==> k in s.table && k != slot
            case _ => t.table == s.table
    ensures var t := Apply(h, s, st);
            && (st.Accept? ==> t.table[st.slot] == s.q.acc[st.slot])
            && (k in t.table && k in s.table && !(st.Accept? && st.slot == k) ==> t.table[k] == s.table[k])
            && (st.AtServer? && h(st.pkt.port) in s.table ==> t == s)
            && (st.AtServer? && st.pkt.SynPkt? && h(st.pkt.port) !in s.table ==>
                  var p := st.pkt.port;
                  && p in t.handled && SynAckPkt(p) in t.net && h(p) in t.q.syn
                  && (h(p) !in s.q.syn ==> t.q.syn[h(p)] == Sock(p, SynRecv)))
  {
  }

  // ----- what holds exactly when clients do not share slots -----

  predicate Apart(h: Port -> Slot, ports: set<Port>) {
    forall p, r :: p in ports && r in ports && h(p) == h(r) ==> p == r
  }

  /** Every socket waiting to be accepted belongs to a client that is connected. */
  predicate AcceptedConnected(s: State) {
    forall k <- s.q.acc :: s.q.acc[k].port in s.connected
  }

  lemma AcceptedThird(h: Port -> Slot, ports: set<Port>, s: State, p: Port)
    requires Inv(h, ports, s) && Apart(h, ports) && AcceptedConnected(s) && AckPkt(p) in s.net
    ensures AcceptedConnected(Apply(h, s, AtServer(AckPkt(p))))
  {
    assert PktOk(s, AckPkt(p));
    if h(p) in s.q.syn {
      var o := s.q.syn[h(p)];
      assert h(o.port) == h(p);
      assert o.port == p;
    }
  }

  lemma AcceptedStep(h: Port -> Slot, ports: set<Port>, s: State, st: Step)
    requires Inv(h, ports, s) && Apart(h, ports) && AcceptedConnected(s)
    requires Enabled(s, st) && (st.Connect? ==> st.port in ports)
    ensures AcceptedConnected(Apply(h, s, st))
  {
    if st.AtServer? && st.pkt.AckPkt? {
      AcceptedThird(h, ports, s, st.pkt.port);
    }
  }

  lemma {:induction false} AcceptedRun(h: Port -> Slot, ports: set<Port>, s: State, steps: seq<Step>)
    requires Inv(h, ports, s) && Apart(h, ports) && AcceptedConnected(s) && Legal(h, ports, s, steps)
    ensures AcceptedConnected(Exec(h, ports, s, steps))
    decreases |steps|
  {
    if |steps| > 0 {
      InvStep(h, ports, s, steps[0]);
      AcceptedStep(h, ports, s, steps[0]);
      AcceptedRun(h, ports, Apply(h, s, steps[0]), steps[1..]);
    }
  }

  // Two clients in one slot: r's SYN finds p's half-open socket in its place but is answered all the same,
  // and r's third packet then promotes p's socket.
  function Collision(p: Port, r: Port): seq<Step> {
    [Connect(p), Connect(r), AtServer(SynPkt(p)), AtServer(SynPkt(r)), AtClient(r), AtServer(AckPkt(r))]
  }

  function AfterCollision(h: Port -> Slot, p: Port, r: Port): State {
    State({p, r}, {r}, {p, r}, Queues(map[], map[h(p) := Sock(p, Established)], 0, 1), map[],
          {SynPkt(p), SynPkt(r), SynAckPkt(p), SynAckPkt(r), AckPkt(r)})
  }

  lemma CollisionHalf(h: Port -> Slot, p: Port, r: Port)
    requires p != r && h(p) == h(r)
    ensures var s := START.(connecting := {p, r}, net := {SynPkt(p), SynPkt(r)});
            && Apply(h, Apply(h, START, Connect(p)), Connect(r)) == s
            && Enabled(s, AtServer(SynPkt(p)))
            && var s1 := Apply(h, s, AtServer(SynPkt(p)));
               Enabled(s1, AtServer(SynPkt(r)))
               && Apply(h, s1, AtServer(SynPkt(r))) == HalfOpen(h, p, r)
  {
    assert {p} + {r} == {p, r};
  }

  function HalfOpen(h: Port -> Slot, p: Port, r: Port): State {
    State({p, r}, {}, {p, r}, Queues(map[h(p) := Sock(p, SynRecv)], map[], 1, 0), map[],
          {SynPkt(p), SynPkt(r), SynAckPkt(p), SynAckPkt(r)})
  }

  lemma CollisionSecond(h: Port -> Slot, p: Port, r: Port)
    requires p != r && h(p) == h(r)
    ensures var s := HalfOpen(h, p, r);
            && Enabled(s, AtClient(r))
            && var s1 := Apply(h, s, AtClient(r));
               Enabled(s1, AtServer(AckPkt(r))) && Apply(h, s1, AtServer(AckPkt(r))) == AfterCollision(h, p, r)
  {
    var q := HalfOpen(h, p, r).q;
    assert SynOccupant(h, q, r) == Some(Sock(p, SynRecv));
    assert q.syn - {h(r)} == map[];
  }

  lemma CollisionRuns(h: Port -> Slot, ports: set<Port>, p: Port, r: Port)
    requires p in ports && r in ports && p != r && h(p) == h(r)
    ensures Legal(h, ports, START, Collision(p, r))
    ensures Exec(h, ports, START, Collision(p, r)) == AfterCollision(h, p, r)
  {
    var c := Collision(p, r);
    CollisionHalf(h, p, r);
    CollisionSecond(h, p, r);
    var s := HalfOpen(h, p, r);
    var s1 := Apply(h, s, c[4]);
    assert c[5..] == [c[5]] && c[4..] == [c[4]] + c[5..] && c[3..] == [c[3]] + c[4..];
    assert c[2..] == [c[2]] + c[3..] && c[1..] == [c[1]] + c[2..];
    assert Legal(h, ports, s1, c[5..]) && Exec(h, ports, s1, c[5..]) == AfterCollision(h, p, r);
    assert Legal(h, ports, s, c[4..]) && Exec(h, ports, s, c[4..]) == AfterCollision(h, p, r);
    var s2 := Apply(h, START, c[0]);
    var s3 := Apply(h, s2, c[1]);
    var s4 := Apply(h, s3, c[2]);
    assert Legal(h, ports, s4, c[3..]) && Exec(h, ports, s4, c[3..]) == AfterCollision(h, p, r);
    assert Legal(h, ports, s3, c[2..]) && Exec(h, ports, s3, c[2..]) == AfterCollision(h, p, r);
    assert Legal(h, ports, s2, c[1..]) && Exec(h, ports, s2, c[1..]) == AfterCollision(h, p, r);
  }

  ghost predicate AlwaysConnected(h: Port -> Slot, ports: set<Port>) {
    forall steps: seq<Step> :: Legal(h, ports, START, steps) ==> AcceptedConnected(Exec(h, ports, START, steps))
  }

  /** A socket in the accept queue implies that its client is connected, in every run, iff no two clients hash to one
      slot. */
  lemma AcceptedIffApart(h: Port -> Slot, ports: set<Port>)
    ensures AlwaysConnected(h, ports) <==> Apart(h, ports)
  {
    if Apart(h, ports) {
      forall steps: seq<Step> | Legal(h, ports, START, steps)
        ensures AcceptedConnected(Exec(h, ports, START, steps))
      {
        AcceptedRun(h, ports, START, steps);
      }
    } else {
      var p, r :| p in ports && r in ports && h(p) == h(r) && p != r;
      CollisionRuns(h, ports, p, r);
      assert h(p) in AfterCollision(h, p, r).q.acc;
      assert !AcceptedConnected(Exec(h, ports, START, Collision(p, r)));
    }
  }
}
