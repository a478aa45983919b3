/** What the arrival of one segment does, byte by byte (src/tju_tcp.c:370-440). */
module Arrival {
  import opened Global
  import opened Reassembly

  /** A segment behind expected is old; one that reaches the end of the window is refused. */
  predicate Taken(r: Rcv, q: nat, payload: seq<byte>) {
    r.expected <= q && q + |payload| < r.expected + MAX_RWINDOW_SIZE
  }

  /** The byte known for position k once the segment has been laid over what was held. */
  function Overlaid(r: Rcv, q: nat, payload: seq<byte>, k: nat): Option<byte> {
    if Taken(r, q, payload) && q <= k < q + |payload| then Some(payload[k - q])
    else if k in r.pending then Some(r.pending[k])
    else None
  }

  /** The byte t has for position k: still pending, or delivered since r. */
  function Has(r: Rcv, t: Rcv, k: nat): Option<byte> {
    if k >= t.expected then (if k in t.pending then Some(t.pending[k]) else None)
    else if r.expected <= k && |r.received| + (k - r.expected) < |t.received|
    then Some(t.received[|r.received| + (k - r.expected)])
    else None
  }

  lemma StoredHas(r: Rcv, q: nat, payload: seq<byte>, k: nat)
    requires Ok(r) && q >= r.expected
    ensures var s := Stored(r, q, payload);
            && s == r.(pending := s.pending)
            && Overlaid(r, q, payload, k) == (if k in s.pending then Some(s.pending[k]) else None)
  {
    if Taken(r, q, payload) && q <= k < q + |payload| {
      assert Named(payload, q, k) == payload[k - q];
    }
  }

  lemma DeliverHas(s: Rcv, k: nat)
    requires Ok(s) && k >= s.expected
    ensures Has(s, Deliver(s), k) == if k in s.pending then Some(s.pending[k]) else None
  {
    RunLengthMaximal(s.pending, s.expected);
    RunLengthBound(s);
    DeliverLaw(s);
  }

  /** Nothing that was held and nothing that arrives is lost, changed or made up: each position has the byte of the
      segment if the segment covers it, else the byte held before, and delivered bytes go behind what was there. */
  lemma ArrivalKeeps(r: Rcv, q: nat, payload: seq<byte>, k: nat)
    requires Ok(r) && k >= r.expected
    ensures var t := HandleData(r, q, payload);
            && Has(r, t, k) == Overlaid(r, q, payload, k)
            && r.received <= t.received
            && |t.received| - |r.received| == t.expected - r.expected
  {
    if q >= r.expected {
      StoredOk(r, q, payload);
      StoredHas(r, q, payload, k);
      DeliverHas(Stored(r, q, payload), k);
      DeliverLaw(Stored(r, q, payload));
    }
  }

  /** With n bytes known in a row, all of them are delivered and the whole window advertised again; or none, if
      there are none or received has no room, and then the advertised window is what they leave of it. */
  lemma ArrivalDelivers(r: Rcv, q: nat, payload: seq<byte>, n: nat)
    requires Ok(r) && q >= r.expected
    requires forall k :: r.expected <= k < r.expected + n ==> Overlaid(r, q, payload, k).Some?
    requires Overlaid(r, q, payload, r.expected + n).None?
    ensures var t := HandleData(r, q, payload);
            if n == 0 then t.expected == r.expected && t.remain == r.remain
            else if |r.received| + n > MAX_SOCK_BUF_SIZE then
              t.expected == r.expected && t.remain == MAX_RWINDOW_SIZE - n
            else t.expected == r.expected + n && t.remain == MAX_RWINDOW_SIZE
  {
    StoredOk(r, q, payload);
    var s := Stored(r, q, payload);
    forall k | r.expected <= k < r.expected + n
      ensures k in s.pending
    {
      StoredHas(r, q, payload, k);
    }
    StoredHas(r, q, payload, r.expected + n);
    RunLengthUnique(s.pending, s.expected, n);
    DeliverLaw(s);
  }

  lemma OldIgnored(r: Rcv, q: nat, payload: seq<byte>)
    requires Ok(r) && q < r.expected
    ensures HandleData(r, q, payload) == r
  {
  }

  // ----- out of order -----

  /** The next segment, then the one behind it, or the other way round: with room for whatever they complete the
      receiver ends in the same state, all of both delivered. */
  lemma EitherOrder(r: Rcv, p1: seq<byte>, p2: seq<byte>)
    requires Ok(r) && 1 <= |p1| && 1 <= |p2| && |p1| + |p2| < MAX_RWINDOW_SIZE
    requires r.pending == map[] && |r.received| + |p1| + |p2| <= MAX_SOCK_BUF_SIZE
    ensures var q1 := r.expected; var q2 := q1 + |p1|;
            var both := Rcv(q2 + |p2|, map[], r.received + p1 + p2, MAX_RWINDOW_SIZE);
            && Ok(HandleData(r, q1, p1)) && HandleData(HandleData(r, q1, p1), q2, p2) == both
            && Ok(HandleData(r, q2, p2)) && HandleData(HandleData(r, q2, p2), q1, p1) == both
  {
    InTurn(r, p1, p2);
    OutOfTurn(r, p1, p2);
    Regrouped(r.received, p1, p2);
  }

  lemma InTurn(r: Rcv, p1: seq<byte>, p2: seq<byte>)
    requires Ok(r) && 1 <= |p1| && 1 <= |p2| && |p1| + |p2| < MAX_RWINDOW_SIZE
    requires r.pending == map[] && |r.received| + |p1| + |p2| <= MAX_SOCK_BUF_SIZE
    ensures var t := HandleData(r, r.expected, p1); var q2 := r.expected + |p1|;
            Ok(t) && HandleData(t, q2, p2) == Rcv(q2 + |p2|, map[], r.received + p1 + p2, MAX_RWINDOW_SIZE)
  {
    NextArrives(r, p1);
    HandleDataOk(r, r.expected, p1);
    NextArrives(HandleData(r, r.expected, p1), p2);
  }

  lemma OutOfTurn(r: Rcv, p1: seq<byte>, p2: seq<byte>)
    requires Ok(r) && 1 <= |p1| && 1 <= |p2| && |p1| + |p2| < MAX_RWINDOW_SIZE
    requires r.pending == map[] && |r.received| + |p1| + |p2| <= MAX_SOCK_BUF_SIZE
    ensures var q2 := r.expected + |p1|; var t := HandleData(r, q2, p2);
            Ok(t) && HandleData(t, r.expected, p1) == Rcv(q2 + |p2|, map[], r.received + (p1 + p2), MAX_RWINDOW_SIZE)
  {
    var q2 := r.expected + |p1|;
    HeldBack(r, q2, p2);
    HandleDataOk(r, q2, p2);
    FilledUp(r, HandleData(r, q2, p2), p1, p2);
  }

  lemma FilledUp(r: Rcv, t: Rcv, p1: seq<byte>, p2: seq<byte>)
    requires Ok(t) && t.expected == r.expected && t.received == r.received && HoldsOnly(t, r.expected + |p1|, p2)
    requires 1 <= |p1| && |p1| + |p2| < MAX_RWINDOW_SIZE && |r.received| + |p1| + |p2| <= MAX_SOCK_BUF_SIZE
    ensures HandleData(t, r.expected, p1)
         == Rcv(r.expected + |p1| + |p2|, map[], r.received + (p1 + p2), MAX_RWINDOW_SIZE)
  {
    GapFilled(t, p1, p2);
  }

  lemma GapFilled(r: Rcv, p1: seq<byte>, p2: seq<byte>)
    requires Ok(r) && 1 <= |p1| && |p1| + |p2| < MAX_RWINDOW_SIZE
    requires |r.received| + |p1| + |p2| <= MAX_SOCK_BUF_SIZE && HoldsOnly(r, r.expected + |p1|, p2)
    ensures HandleData(r, r.expected, p1)
         == Rcv(r.expected + |p1| + |p2|, map[], r.received + (p1 + p2), MAX_RWINDOW_SIZE)
  {
    forall k: nat | k >= r.expected
      ensures Overlaid(r, r.expected, p1, k)
           == if k < r.expected + |p1 + p2| then Some((p1 + p2)[k - r.expected]) else None
    {
      assert (if k in r.pending then Some(r.pending[k]) else None)
          == (if r.expected + |p1| <= k < r.expected + |p1| + |p2| then Some(p2[k - (r.expected + |p1|)]) else None);
    }
    AllDelivered(r, r.expected, p1, p1 + p2);
  }

  /** From expected on exactly the bytes p are known once the segment is laid over the rest. */
  ghost predicate KnownExactly(r: Rcv, q: nat, payload: seq<byte>, p: seq<byte>) {
    forall k: nat | k >= r.expected ::
      Overlaid(r, q, payload, k) == if k < r.expected + |p| then Some(p[k - r.expected]) else None
  }

  lemma NothingLeft(r: Rcv, q: nat, payload: seq<byte>, p: seq<byte>)
    requires Ok(r) && q >= r.expected && KnownExactly(r, q, payload, p)
    requires HandleData(r, q, payload).expected == r.expected + |p|
    ensures HandleData(r, q, payload).pending == map[]
  {
    var t := HandleData(r, q, payload);
    HandleDataOk(r, q, payload);
    forall k: nat | k >= t.expected
      ensures k !in t.pending
    {
      ArrivalKeeps(r, q, payload, k);
    }
    assert t.pending.Keys == {};
  }

  lemma BytesBehind(r: Rcv, q: nat, payload: seq<byte>, p: seq<byte>)
    requires Ok(r) && q >= r.expected && KnownExactly(r, q, payload, p)
    requires HandleData(r, q, payload).expected == r.expected + |p|
    ensures HandleData(r, q, payload).received == r.received + p
  {
    var t := HandleData(r, q, payload);
    ArrivalKeeps(r, q, payload, r.expected);
    forall i | 0 <= i < |p|
      ensures t.received[|r.received| + i] == p[i]
    {
      ArrivalKeeps(r, q, payload, r.expected + i);
      assert Has(r, t, r.expected + i) == Some(p[i]);
    }
    Behind(r.received, t.received, p);
  }

  /** Then p is delivered, and nothing is held any more. */
  lemma AllDelivered(r: Rcv, q: nat, payload: seq<byte>, p: seq<byte>)
    requires Ok(r) && q >= r.expected && KnownExactly(r, q, payload, p)
    requires 1 <= |p| && |r.received| + |p| <= MAX_SOCK_BUF_SIZE
    ensures HandleData(r, q, payload) == Rcv(r.expected + |p|, map[], r.received + p, MAX_RWINDOW_SIZE)
    ensures Ok(HandleData(r, q, payload))
  {
    ArrivalDelivers(r, q, payload, |p|);
    NothingLeft(r, q, payload, p);
    BytesBehind(r, q, payload, p);
    HandleDataOk(r, q, payload);
  }

  /** The next segment, with nothing held. */
  lemma NextArrives(r: Rcv, p: seq<byte>)
    requires Ok(r) && r.pending == map[] && 1 <= |p| < MAX_RWINDOW_SIZE && |r.received| + |p| <= MAX_SOCK_BUF_SIZE
    ensures HandleData(r, r.expected, p) == Rcv(r.expected + |p|, map[], r.received + p, MAX_RWINDOW_SIZE)
  {
    AllDelivered(r, r.expected, p, p);
  }

  /** Held at q and nowhere else. */
  ghost predicate HoldsOnly(t: Rcv, q: nat, p: seq<byte>) {
    forall k: nat | k >= t.expected ::
      (if k in t.pending then Some(t.pending[k]) else None) == (if q <= k < q + |p| then Some(p[k - q]) else None)
  }

  lemma HeldBack(r: Rcv, q: nat, p: seq<byte>)
    requires Ok(r) && r.pending == map[] && r.expected < q && q + |p| < r.expected + MAX_RWINDOW_SIZE
    ensures var t := HandleData(r, q, p); t.expected == r.expected && t.received == r.received && HoldsOnly(t, q, p)
  {
    var t := HandleData(r, q, p);
    ArrivalDelivers(r, q, p, 0);
    ArrivalKeeps(r, q, p, q);
    forall k: nat | k >= t.expected
      ensures (if k in t.pending then Some(t.pending[k]) else None) == if q <= k < q + |p| then Some(p[k - q]) else None
    {
      ArrivalKeeps(r, q, p, k);
      assert Has(r, t, k) == Overlaid(r, q, p, k);
    }
  }
}
