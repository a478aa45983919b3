/** The receiver as a partial map from stream positions to bytes; the class in ReceiverWindow.dfy implements it. */
module Reassembly {
  import opened Global

  /** expected: next byte wanted; pending: bytes held out of order, by sequence number;
      received: delivered and not yet read; remain: last computed advertised window. */
  datatype Rcv = Rcv(expected: nat, pending: map<nat, byte>, received: seq<byte>, remain: nat)

  const INITIAL := Rcv(1, map[], [], MAX_RWINDOW_SIZE)

  /** Pending bytes lie in the window without its last byte, so a scan always meets a gap inside it. */
  predicate Ok(r: Rcv) {
    && (forall k <- r.pending :: r.expected <= k < r.expected + MAX_RWINDOW_SIZE - 1)
    && |r.received| <= MAX_SOCK_BUF_SIZE
    && 1 <= r.remain <= MAX_RWINDOW_SIZE
  }

  /** Number of consecutive positions present from e on. */
  function RunLength(m: map<nat, byte>, e: nat): nat
    decreases m.Keys
  {
    if e in m then 1 + RunLength(m - {e}, e + 1) else 0
  }

  /** RunLength is the maximal contiguous prefix. */
  lemma {:induction false} RunLengthMaximal(m: map<nat, byte>, e: nat)
    ensures forall k :: e <= k < e + RunLength(m, e) ==> k in m
    ensures e + RunLength(m, e) !in m
    decreases m.Keys
  {
    if e in m {
      RunLengthMaximal(m - {e}, e + 1);
      var n := RunLength(m - {e}, e + 1);
      forall k | e <= k < e + RunLength(m, e)
        ensures k in m
      {
        if k > e {
          assert e + 1 <= k < e + 1 + n;
          assert k in m - {e};
        }
      }
      assert e + 1 + n !in m - {e};
    }
  }

  lemma RunLengthUnique(m: map<nat, byte>, e: nat, n: nat)
    requires forall k :: e <= k < e + n ==> k in m
    requires e + n !in m
    ensures RunLength(m, e) == n
  {
    RunLengthMaximal(m, e);
  }

  /** The scan stays below 44000 positions, so what it leaves of the window is at least one byte. */
  lemma RunLengthBound(r: Rcv)
    requires Ok(r)
    ensures RunLength(r.pending, r.expected) <= MAX_RWINDOW_SIZE - 1
  {
    RunLengthMaximal(r.pending, r.expected);
    assert r.expected + MAX_RWINDOW_SIZE - 1 !in r.pending;
  }

  function Bytes(m: map<nat, byte>, e: nat, n: nat): (b: seq<byte>)
    requires forall k :: e <= k < e + n ==> k in m
    ensures |b| == n && forall i :: 0 <= i < n ==> b[i] == m[e + i]
  {
    seq(n, i requires 0 <= i < n => m[e + i])
  }

  predicate FitsWindow(r: Rcv, q: nat, n: nat) { q + n < r.expected + MAX_RWINDOW_SIZE }

  /** The byte a segment numbered q gives to position k. */
  function Named(payload: seq<byte>, q: nat, k: nat): byte
    requires q <= k < q + |payload|
  {
    payload[k - q]
  }

  function Chunk(q: nat, payload: seq<byte>): map<nat, byte> {
    map k: nat | q <= k < q + |payload| :: Named(payload, q, k)
  }

  function Store(r: Rcv, q: nat, payload: seq<byte>): Rcv {
    r.(pending := r.pending + Chunk(q, payload))
  }

  function From(m: map<nat, byte>, e: nat): map<nat, byte> {
    map k: nat | k in m && e <= k :: m[k]
  }

  /** Hand the maximal prefix to received, all of it or nothing. */
  function Deliver(r: Rcv): Rcv
    requires Ok(r)
  {
    RunLengthMaximal(r.pending, r.expected);
    RunLengthBound(r);
    var n := RunLength(r.pending, r.expected);
    if n == 0 then r
    else if MAX_SOCK_BUF_SIZE - |r.received| < n then r.(remain := MAX_RWINDOW_SIZE - n)
    else
      Rcv(r.expected + n, From(r.pending, r.expected + n),
          r.received + Bytes(r.pending, r.expected, n), MAX_RWINDOW_SIZE)
  }

  /** The state in which a segment has been stored or refused, before delivery. */
  function Stored(r: Rcv, q: nat, payload: seq<byte>): Rcv
  {
    if FitsWindow(r, q, |payload|) then Store(r, q, payload) else r
  }

  lemma StoredOk(r: Rcv, q: nat, payload: seq<byte>)
    requires Ok(r) && q >= r.expected
    ensures Ok(Stored(r, q, payload))
  {
  }

  function HandleData(r: Rcv, q: nat, payload: seq<byte>): Rcv
    requires Ok(r)
  {
    if q >= r.expected then
      StoredOk(r, q, payload);
      Deliver(Stored(r, q, payload))
    else r
  }

  function Reply(r: Rcv): Packet { Ack(r.expected, r.remain) }

  function Read(r: Rcv, n: nat): Rcv {
    r.(received := r.received[Min(n, |r.received|)..])
  }

  /** Ok is kept for every segment whatsoever; the advertised window stays in 1..44000 and expected never falls. */
  lemma HandleDataOk(r: Rcv, q: nat, payload: seq<byte>)
    requires Ok(r)
    ensures var r' := HandleData(r, q, payload);
            Ok(r') && r'.expected >= r.expected && 1 <= Reply(r').wnd <= MAX_RWINDOW_SIZE
  {
    if q >= r.expected {
      StoredOk(r, q, payload);
      var s := Stored(r, q, payload);
      RunLengthMaximal(s.pending, s.expected);
      RunLengthBound(s);
    }
  }

  /** k is still pending in t, or has been appended to received at its own position. */
  predicate HeldOrDelivered(s: Rcv, t: Rcv, k: nat)
    requires k in s.pending
  {
    || (k >= t.expected && k in t.pending && t.pending[k] == s.pending[k])
    || (s.expected <= k < t.expected && |t.received| == |s.received| + t.expected - s.expected
        && t.received[|s.received| + k - s.expected] == s.pending[k])
  }

  /** Delivery loses nothing and moves all of the maximal prefix or nothing, the latter only if it is empty or
      would overflow received. */
  lemma DeliverLaw(s: Rcv)
    requires Ok(s)
    ensures var t := Deliver(s); var n := RunLength(s.pending, s.expected);
            && s.received <= t.received
            && (if n == 0 then t == s
                else if |s.received| + n > MAX_SOCK_BUF_SIZE then t == s.(remain := MAX_RWINDOW_SIZE - n)
                else t.expected == s.expected + n && |t.received| == |s.received| + n && t.expected !in s.pending)
  {
    RunLengthMaximal(s.pending, s.expected);
    RunLengthBound(s);
  }

  lemma DeliverKeeps(s: Rcv, k: nat)
    requires Ok(s) && k in s.pending
    ensures HeldOrDelivered(s, Deliver(s), k)
  {
    RunLengthMaximal(s.pending, s.expected);
    RunLengthBound(s);
    DeliverLaw(s);
  }

  /** What arrives is never lost: every held byte is still held or has just been delivered at its own position,
      and when the prefix does not fit received nothing moves. */
  lemma NothingLost(r: Rcv, q: nat, payload: seq<byte>)
    requires Ok(r) && q >= r.expected
    ensures var s := Stored(r, q, payload); var t := HandleData(r, q, payload);
            && (forall k <- s.pending :: HeldOrDelivered(s, t, k))
            && r.received <= t.received
            && t.expected == r.expected + |t.received| - |r.received|
            && (t.expected > r.expected ==> t.expected !in s.pending)
            && (t.expected == r.expected ==> t.received == r.received && t.pending == s.pending)
            && (t.expected == r.expected && r.expected in s.pending ==>
                  |r.received| + RunLength(s.pending, r.expected) > MAX_SOCK_BUF_SIZE
                  && t.remain == MAX_RWINDOW_SIZE - RunLength(s.pending, r.expected))
  {
    StoredOk(r, q, payload);
    var s := Stored(r, q, payload);
    DeliverLaw(s);
    forall k | k in s.pending
      ensures HeldOrDelivered(s, Deliver(s), k)
    {
      DeliverKeeps(s, k);
    }
  }

  /** Order of arrival does not matter to the map: two segments that agree where they overlap commute. */
  lemma StoresCommute(r: Rcv, q1: nat, p1: seq<byte>, q2: nat, p2: seq<byte>)
    requires forall k :: q1 <= k < q1 + |p1| && q2 <= k < q2 + |p2| ==> Named(p1, q1, k) == Named(p2, q2, k)
    ensures Store(Store(r, q1, p1), q2, p2) == Store(Store(r, q2, p2), q1, p1)
  {
    var a := Store(Store(r, q1, p1), q2, p2).pending;
    var b := Store(Store(r, q2, p2), q1, p1).pending;
    assert a.Keys == b.Keys;
    forall k | k in a
      ensures a[k] == b[k]
    {
    }
    assert a == b;
  }

  // ----- the arrays as a representation of the map -----

  function PendingOf(buf: seq<byte>, mark: seq<byte>, e: nat): map<nat, byte>
    requires |buf| == |mark|
  {
    map k: nat | e <= k < e + |mark| && Named(mark, e, k) != 0 :: Named(buf, e, k)
  }

  lemma StoreRefines(buf: seq<byte>, mark: seq<byte>, buf': seq<byte>, mark': seq<byte>, e: nat, q: nat,
                     payload: seq<byte>)
    requires |buf| == |mark| == |buf'| == |mark'|
    requires e <= q && q + |payload| <= e + |mark|
    requires forall i :: 0 <= i < |mark| ==>
                           (buf'[i], mark'[i]) == if q - e <= i < q - e + |payload| then (payload[i - (q - e)], 1)
                                                   else (buf[i], mark[i])
    ensures PendingOf(buf', mark', e) == PendingOf(buf, mark, e) + Chunk(q, payload)
  {
    var a, b := PendingOf(buf', mark', e), PendingOf(buf, mark, e) + Chunk(q, payload);
    forall k: nat
      ensures k in a <==> k in b
      ensures k in a ==> a[k] == b[k]
    {
      if e <= k < e + |mark| {
        assert (buf'[k - e], mark'[k - e])
            == if q <= k < q + |payload| then (payload[k - q], 1) else (buf[k - e], mark[k - e]);
      }
    }
    assert a.Keys == b.Keys;
  }

  lemma ShiftRefines(buf: seq<byte>, mark: seq<byte>, buf': seq<byte>, mark': seq<byte>, e: nat, n: nat)
    requires |buf| == |mark| == |buf'| == |mark'| && n <= |mark|
    requires forall i :: 0 <= i < |mark| - n ==> buf'[i] == buf[i + n] && mark'[i] == mark[i + n]
    requires forall i :: |mark| - n <= i < |mark| ==> mark'[i] == 0
    ensures PendingOf(buf', mark', e + n) == From(PendingOf(buf, mark, e), e + n)
  {
    var a, b := PendingOf(buf', mark', e + n), From(PendingOf(buf, mark, e), e + n);
    forall k: nat
      ensures k in a <==> k in b
      ensures k in a ==> a[k] == b[k]
    {
      if e + n <= k < e + |mark| {
        var i := k - e - n;
        assert buf'[i] == buf[i + n] && mark'[i] == mark[i + n];
      }
    }
    assert a.Keys == b.Keys;
  }

  lemma ScanRefines(buf: seq<byte>, mark: seq<byte>, e: nat, n: nat)
    requires |buf| == |mark| && n < |mark|
    requires mark[n] == 0 && forall i :: 0 <= i < n ==> mark[i] != 0
    ensures RunLength(PendingOf(buf, mark, e), e) == n
    ensures forall k :: e <= k < e + n ==> k in PendingOf(buf, mark, e)
    ensures Bytes(PendingOf(buf, mark, e), e, n) == buf[..n]
  {
    var m := PendingOf(buf, mark, e);
    forall k | e <= k < e + n
      ensures k in m
    {
      assert mark[k - e] != 0;
    }
    RunLengthUnique(m, e, n);
  }
}
