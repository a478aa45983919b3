/** The half-open and accept queues (src/syn.c). */
module SynQueue {
  import opened Global

  const MAX_SOCK := 32

  type Port = uint16
  type Slot = x: nat | x < 32

  /** The fields of a queued tju_tcp_t that the queues look at: the remote port, which with the fixed addresses
      determines the hash, and the state. */
  datatype TcpState = SynRecv | Established
  datatype Sock = Sock(port: Port, state: TcpState)

  datatype Queues = Queues(syn: map<Slot, Sock>, acc: map<Slot, Sock>, synNum: nat, acceptNum: nat)

  const EMPTY := Queues(map[], map[], 0, 0)

  // ----- the operations; h stands for cal_hash with the local address fixed -----

  function EnSynQueue(h: Port -> Slot, q: Queues, s: Sock): Queues {
    if h(s.port) in q.syn then q else q.(syn := q.syn[h(s.port) := s], synNum := q.synNum + 1)
  }

  function EnAcceptQueue(h: Port -> Slot, q: Queues, s: Sock): Queues {
    if h(s.port) in q.acc then q else q.(acc := q.acc[h(s.port) := s], acceptNum := q.acceptNum + 1)
  }

  /** Who is taken out for a packet from port: whoever sits in that port's slot. */
  function SynOccupant(h: Port -> Slot, q: Queues, port: Port): Option<Sock> {
    if q.synNum != 0 && h(port) in q.syn then Some(q.syn[h(port)]) else None
  }

  function GetFromSyn(h: Port -> Slot, q: Queues, port: Port): Queues {
    if SynOccupant(h, q, port).None? then q else q.(syn := q.syn - {h(port)}, synNum := Dec(q.synNum))
  }

  function Dec(n: nat): nat { if n == 0 then 0 else n - 1 }

  /** slot is the one the scan of get_from_accept stops at. */
  predicate FirstAccept(q: Queues, slot: Slot) {
    slot in q.acc && forall i: Slot :: i < slot ==> i !in q.acc
  }

  function GetFromAccept(q: Queues, slot: Slot): Queues {
    q.(acc := q.acc - {slot}, acceptNum := Dec(q.acceptNum))
  }

  /** The LISTEN branch of tju_handle_packet for the third handshake packet. */
  function Promote(h: Port -> Slot, q: Queues, port: Port): Queues {
    match SynOccupant(h, q, port)
    case None => q
    case Some(s) => EnAcceptQueue(h, GetFromSyn(h, q, port), s.(state := Established))
  }

  // ----- counters, places and states -----

  predicate Inv(h: Port -> Slot, q: Queues) {
    && q.synNum == |q.syn|
    && q.acceptNum == |q.acc|
    && (forall k <- q.syn :: k == h(q.syn[k].port) && q.syn[k].state == SynRecv)
    && (forall k <- q.acc :: k == h(q.acc[k].port) && q.acc[k].state == Established)
  }

  lemma RemoveOne(m: map<Slot, Sock>, k: Slot)
    requires k in m
    ensures |m - {k}| == |m| - 1
  {
    assert (m - {k}).Keys == m.Keys - {k};
  }

  lemma EnSynKeeps(h: Port -> Slot, q: Queues, port: Port)
    requires Inv(h, q)
    ensures Inv(h, EnSynQueue(h, q, Sock(port, SynRecv)))
  {
    if h(port) !in q.syn {
      assert |q.syn[h(port) := Sock(port, SynRecv)]| == |q.syn| + 1;
    }
  }

  lemma PromoteKeeps(h: Port -> Slot, q: Queues, port: Port)
    requires Inv(h, q)
    ensures Inv(h, Promote(h, q, port))
    ensures (q.synNum == 0 <==> q.syn == map[]) && (SynOccupant(h, q, port).Some? <==> h(port) in q.syn)
  {
    if h(port) in q.syn {
      RemoveOne(q.syn, h(port));
      var s := q.syn[h(port)];
      if h(s.port) !in q.acc {
        assert |q.acc[h(s.port) := s.(state := Established)]| == |q.acc| + 1;
      }
    }
  }

  /** With a positive counter the scan finds an occupied slot: it cannot fall through to NULL. */
  lemma {:induction false} ScanFinds(m: map<Slot, Sock>, from: nat, k: Slot) returns (slot: Slot)
    requires k in m && from <= k && forall i: Slot :: i < from ==> i !in m
    ensures slot in m && forall i: Slot :: i < slot ==> i !in m
    decreases k - from
  {
    if from in m {
      slot := from;
    } else {
      slot := ScanFinds(m, from + 1, k);
    }
  }

  lemma AcceptFinds(h: Port -> Slot, q: Queues)
    requires Inv(h, q)
    ensures q.acceptNum > 0 <==> exists slot: Slot :: FirstAccept(q, slot)
  {
    if q.acceptNum > 0 {
      var k :| k in q.acc;
      var slot := ScanFinds(q.acc, 0, k);
      assert FirstAccept(q, slot);
    }
  }

  lemma GetFromAcceptKeeps(h: Port -> Slot, q: Queues, slot: Slot)
    requires Inv(h, q) && FirstAccept(q, slot)
    ensures Inv(h, GetFromAccept(q, slot)) && q.acceptNum > 0
  {
    RemoveOne(q.acc, slot);
  }

  datatype Op = Syn(port: Port) | Ack(port: Port) | Take(slot: Slot)

  predicate Enabled(q: Queues, op: Op) { op.Take? ==> FirstAccept(q, op.slot) }

  function Apply(h: Port -> Slot, q: Queues, op: Op): Queues {
    match op
    case Syn(port) => EnSynQueue(h, q, Sock(port, SynRecv))
    case Ack(port) => Promote(h, q, port)
    case Take(slot) => GetFromAccept(q, slot)
  }

  predicate Legal(h: Port -> Slot, q: Queues, ops: seq<Op>)
    decreases |ops|
  {
    |ops| == 0 || (Enabled(q, ops[0]) && Legal(h, Apply(h, q, ops[0]), ops[1..]))
  }

  function Exec(h: Port -> Slot, q: Queues, ops: seq<Op>): Queues
    decreases |ops|
  {
    if |ops| == 0 then q else Exec(h, Apply(h, q, ops[0]), ops[1..])
  }

  lemma ApplyKeeps(h: Port -> Slot, q: Queues, op: Op)
    requires Inv(h, q) && Enabled(q, op)
    ensures Inv(h, Apply(h, q, op))
  {
    match op
    case Syn(port) => EnSynKeeps(h, q, port);
    case Ack(port) => PromoteKeeps(h, q, port);
    case Take(slot) => GetFromAcceptKeeps(h, q, slot);
  }

  lemma {:induction false} InvRun(h: Port -> Slot, q: Queues, ops: seq<Op>)
    requires Inv(h, q) && Legal(h, q, ops)
    ensures Inv(h, Exec(h, q, ops))
    decreases |ops|
  {
    if |ops| > 0 {
      ApplyKeeps(h, q, ops[0]);
      InvRun(h, Apply(h, q, ops[0]), ops[1..]);
    }
  }

  /** After any operations the counters count, every occupant sits at its own hash in its own state, and a
      positive accept_num means the scan will find a socket. */
  lemma QueueCounters(h: Port -> Slot, ops: seq<Op>)
    requires Legal(h, EMPTY, ops)
    ensures var q := Exec(h, EMPTY, ops);
            Inv(h, q) && (q.acceptNum > 0 <==> exists slot: Slot :: FirstAccept(q, slot))
  {
    InvRun(h, EMPTY, ops);
    AcceptFinds(h, Exec(h, EMPTY, ops));
  }

  // ----- slot by slot -----

  /** A SYN takes its slot if the slot is free, and nothing else changes. */
  lemma EnSynLaw(h: Port -> Slot, q: Queues, port: Port, k: Slot)
    ensures var t := EnSynQueue(h, q, Sock(port, SynRecv));
            && t.acc == q.acc && (k in t.syn <==> k in q.syn || k == h(port))
            && (k in t.syn ==> t.syn[k] == if k in q.syn then q.syn[k] else Sock(port, SynRecv))
  {
  }

  /** The third packet empties its slot of the half-open queue; who sat there is ESTABLISHED in the accept queue, unless
      that slot is taken; and nothing else changes. */
  lemma PromoteLaw(h: Port -> Slot, q: Queues, port: Port, k: Slot)
    requires Inv(h, q)
    ensures var t := Promote(h, q, port);
            && (k in t.syn <==> k in q.syn && k != h(port)) && (k in t.syn ==> t.syn[k] == q.syn[k])
            && (k in t.acc <==> k in q.acc || (k == h(port) && k in q.syn))
            && (k in t.acc ==> t.acc[k] == if k in q.acc then q.acc[k] else Sock(q.syn[k].port, Established))
  {
    PromoteKeeps(h, q, port);
  }

  /** The scan stops at one slot only, the lowest; taking it leaves the others alone. */
  lemma TakeLaw(q: Queues, slot: Slot, k: Slot)
    requires FirstAccept(q, slot)
    ensures k in q.acc ==> slot <= k
    ensures var t := GetFromAccept(q, slot);
            && t.syn == q.syn && (k in t.acc <==> k in q.acc && k != slot) && (k in t.acc ==> t.acc[k] == q.acc[k])
  {
  }

  /** First come, first served: an occupant stays until it is promoted or taken, whoever else hashes to its slot. */
  lemma {:induction false} OccupantsStay(h: Port -> Slot, q: Queues, ops: seq<Op>, k: Slot)
    requires Inv(h, q) && Legal(h, q, ops)
    ensures var t := Exec(h, q, ops);
            && (k in q.syn && (forall op <- ops :: op.Ack? ==> h(op.port) != k) ==> k in t.syn && t.syn[k] == q.syn[k])
            && (k in q.acc && (forall op <- ops :: op.Take? ==> op.slot != k) ==> k in t.acc && t.acc[k] == q.acc[k])
    decreases |ops|
  {
    if |ops| > 0 {
      assert ops[0] in ops && forall op <- ops[1..] :: op in ops;
      match ops[0] {
        case Syn(port) => EnSynLaw(h, q, port, k);
        case Ack(port) => PromoteLaw(h, q, port, k);
        case Take(slot) => TakeLaw(q, slot, k);
      }
      ApplyKeeps(h, q, ops[0]);
      OccupantsStay(h, Apply(h, q, ops[0]), ops[1..], k);
    }
  }

  // ----- the arrays -----

  function MapOf(a: seq<Option<Sock>>): map<Slot, Sock>
    requires |a| == MAX_SOCK
  {
    map i: Slot | i < |a| && a[i].Some? :: a[i].value
  }

  lemma MapStore(a: seq<Option<Sock>>, k: Slot, s: Sock)
    requires |a| == MAX_SOCK
    ensures MapOf(a[k := Some(s)]) == MapOf(a)[k := s]
    ensures MapOf(a[k := None]) == MapOf(a) - {k}
  {
    var b, c := MapOf(a[k := Some(s)]), MapOf(a)[k := s];
    assert b.Keys == c.Keys;
    assert b == c;
    var d, e := MapOf(a[k := None]), MapOf(a) - {k};
    assert d.Keys == e.Keys;
    assert d == e;
  }

  class SynQueues {
    const hash: Port -> Slot
    const synQueue: array<Option<Sock>>
    const acceptQueue: array<Option<Sock>>
    var synNum: nat
    var acceptNum: nat

    ghost predicate Valid()
      reads this, synQueue, acceptQueue
    {
      && synQueue.Length == acceptQueue.Length == MAX_SOCK
      && synQueue != acceptQueue
      && Inv(hash, Abs())
    }

    ghost function Abs(): Queues
      requires synQueue.Length == acceptQueue.Length == MAX_SOCK
      reads this, synQueue, acceptQueue
    {
      Queues(MapOf(synQueue[..]), MapOf(acceptQueue[..]), synNum, acceptNum)
    }

    /** init_queue */
    constructor (hash: Port -> Slot)
      ensures this.hash == hash && Valid() && Abs() == EMPTY && fresh(synQueue) && fresh(acceptQueue)
    {
      this.hash := hash;
      synQueue := new Option<Sock>[32](i => None);
      acceptQueue := new Option<Sock>[32](i => None);
      synNum, acceptNum := 0, 0;
      new;
      assert MapOf(synQueue[..]) == map[] && MapOf(acceptQueue[..]) == map[];
    }

    method EnSyn(port: Port)
      requires Valid()
      modifies `synNum, synQueue
      ensures Valid() && Abs() == EnSynQueue(hash, old(Abs()), Sock(port, SynRecv))
    {
      EnSynKeeps(hash, Abs(), port);
      var k := hash(port);
      if synQueue[k].None? {
        MapStore(synQueue[..], k, Sock(port, SynRecv));
        synQueue[k] := Some(Sock(port, SynRecv));
        synNum := synNum + 1;
        assert synQueue[..] == old(synQueue[..])[k := Some(Sock(port, SynRecv))];
      }
    }

    method EnAccept(s: Sock)
      requires synQueue.Length == acceptQueue.Length == MAX_SOCK && synQueue != acceptQueue
      modifies `acceptNum, acceptQueue
      ensures Abs() == EnAcceptQueue(hash, old(Abs()), s)
    {
      var k := hash(s.port);
      if acceptQueue[k].None? {
        MapStore(acceptQueue[..], k, s);
        acceptQueue[k] := Some(s);
        acceptNum := acceptNum + 1;
        assert acceptQueue[..] == old(acceptQueue[..])[k := Some(s)];
      }
    }

    /** get_from_syn for a packet from port. */
    method TakeSyn(port: Port) returns (s: Option<Sock>)
      requires Valid()
      modifies `synNum, synQueue
      ensures s == SynOccupant(hash, old(Abs()), port) && Abs() == GetFromSyn(hash, old(Abs()), port)
    {
      if synNum == 0 {
        return None;
      }
      var k := hash(port);
      s := synQueue[k];
      if s.Some? {
        MapStore(synQueue[..], k, s.value);
        synQueue[k] := None;
        synNum := synNum - 1;
        assert synQueue[..] == old(synQueue[..])[k := None];
      }
    }

    /** Lines 320-333 of tju_tcp.c: the third handshake packet at the listening socket. */
    method HandleThirdAck(port: Port) returns (found: bool)
      requires Valid()
      modifies `synNum, `acceptNum, synQueue, acceptQueue
      ensures Valid() && Abs() == Promote(hash, old(Abs()), port)
      ensures found <==> SynOccupant(hash, old(Abs()), port).Some?
    {
      PromoteKeeps(hash, Abs(), port);
      var s := TakeSyn(port);
      found := s.Some?;
      if found {
        EnAccept(s.value.(state := Established));
      }
    }

    /** The body of the scan at an occupied slot. */
    method RemoveAccept(slot: Slot) returns (s: Sock)
      requires Valid() && FirstAccept(Abs(), slot)
      modifies `acceptNum, acceptQueue
      ensures Valid() && s == old(Abs()).acc[slot] && Abs() == GetFromAccept(old(Abs()), slot)
    {
      GetFromAcceptKeeps(hash, Abs(), slot);
      s := acceptQueue[slot].value;
      MapStore(acceptQueue[..], slot, s);
      acceptQueue[slot] := None;
      acceptNum := acceptNum - 1;
      assert acceptQueue[..] == old(acceptQueue[..])[slot := None];
    }

    /** get_from_accept after its wait: the occupant of the first occupied slot, and NULL only if accept_num is zero. */
    method TakeAccept() returns (s: Option<Sock>, ghost slot: Slot)
      requires Valid()
      modifies `acceptNum, acceptQueue
      ensures Valid()
      ensures s.Some? <==> old(acceptNum) > 0
      ensures s.None? ==> Abs() == old(Abs())
      ensures s.Some? ==>
                FirstAccept(old(Abs()), slot) && s.value == old(Abs()).acc[slot]
                && Abs() == GetFromAccept(old(Abs()), slot)
    {
      AcceptFinds(hash, Abs());
      ghost var acc := Abs().acc;
      slot := 0;
      for i := 0 to MAX_SOCK
        invariant Valid() && Abs() == old(Abs())
        invariant forall j: Slot :: j < i ==> j !in acc
      {
        if acceptQueue[i].Some? {
          slot := i;
          var found := RemoveAccept(i);
          return Some(found), slot;
        }
      }
      s := None;
    }
  }
}
