/** How a buffer slice is cut into segments by the loops of src/timer.c. */
module Segmentation {
  import opened Global
  import TjuPacket

  /** Cut data into segments of at most MAX_DLEN bytes numbered from q. */
  function Segments(data: seq<byte>, q: nat): seq<Packet>
    decreases |data|
  {
    if |data| == 0 then []
    else
      var dlen := Min(|data|, MAX_DLEN);
      [Data(q, data[..dlen])] + Segments(data[dlen..], q + dlen)
  }

  function Ceil(n: nat, d: nat): nat
    requires d > 0
  {
    (n + d - 1) / d
  }

  lemma SliceOfSlice(s: seq<byte>, lo: nat, hi: nat, a: nat, b: nat)
    requires lo <= hi <= |s| && a <= b <= hi - lo
    ensures s[lo..hi][a..b] == s[lo + a..lo + b]
  {
    var t, u := s[lo..hi][a..b], s[lo + a..lo + b];
    forall i | 0 <= i < |t|
      ensures t[i] == u[i]
    {
    }
  }

  lemma TailSlice(s: seq<byte>, d: nat, from: nat, n: nat)
    requires d + from + n <= |s|
    ensures s[d..][from..from + n] == s[d + from..d + from + n]
  {
  }

  /** The first segment of a slice, and what is left to cut. */
  lemma FirstSegment(s: seq<byte>, lo: nat, hi: nat, q: nat)
    requires lo < hi <= |s|
    ensures var d := Min(hi - lo, MAX_DLEN);
            Segments(s[lo..hi], q) == [Data(q, s[lo..lo + d])] + Segments(s[lo + d..hi], q + d)
  {
    var t, d := s[lo..hi], Min(hi - lo, MAX_DLEN);
    assert t[..d] == s[lo..lo + d];
    assert t[d..] == s[lo + d..hi];
  }

  /** How a non-empty slice begins: its first segment, and the rest. */
  lemma Unfold(data: seq<byte>, q: nat)
    requires |data| > 0
    ensures var d := Min(|data|, MAX_DLEN); var s := Segments(data, q);
            && s[0] == Data(q, data[..d]) && s[1..] == Segments(data[d..], q + d)
            && s == [s[0]] + s[1..] && data == data[..d] + data[d..]
  {
  }

  lemma {:induction false} SegmentCount(data: seq<byte>, q: nat)
    ensures |Segments(data, q)| == Ceil(|data|, MAX_DLEN)
    decreases |data|
  {
    if |data| > MAX_DLEN {
      SegmentCount(data[MAX_DLEN..], q + MAX_DLEN);
    } else if |data| > 0 {
      SegmentCount(data[|data|..], q + |data|);
    }
  }

  lemma {:induction false} SegmentAt(data: seq<byte>, q: nat, k: nat)
    requires k < |Segments(data, q)|
    ensures k * MAX_DLEN < |data|
    ensures Segments(data, q)[k] == Data(q + k * MAX_DLEN, data[k * MAX_DLEN..Min((k + 1) * MAX_DLEN, |data|)])
    decreases |data|
  {
    var d, s := Min(|data|, MAX_DLEN), Segments(data, q);
    Unfold(data, q);
    if k > 0 {
      assert s[k] == s[1..][k - 1];
      SegmentAt(data[d..], q + d, k - 1);
      assert d == MAX_DLEN;
      TailSlice(data, d, (k - 1) * MAX_DLEN, Min(k * MAX_DLEN, |data| - d) - (k - 1) * MAX_DLEN);
    }
  }

  /** ceil(n/1375) packets, the k-th carrying bytes 1375k.. and named by their position. */
  lemma {:induction false} SegmentLaw(data: seq<byte>, q: nat)
    ensures |Segments(data, q)| == Ceil(|data|, MAX_DLEN)
    ensures forall k :: 0 <= k < |Segments(data, q)| ==>
                          k * MAX_DLEN < |data|
                          && Segments(data, q)[k]
                             == Data(q + k * MAX_DLEN, data[k * MAX_DLEN..Min((k + 1) * MAX_DLEN, |data|)])
  {
    SegmentCount(data, q);
    forall k | 0 <= k < |Segments(data, q)|
      ensures k * MAX_DLEN < |data|
              && Segments(data, q)[k] == Data(q + k * MAX_DLEN, data[k * MAX_DLEN..Min((k + 1) * MAX_DLEN, |data|)])
    {
      SegmentAt(data, q, k);
    }
  }

  predicate AllData(ps: seq<Packet>) { forall p <- ps :: p.Data? }

  function Payloads(ps: seq<Packet>): seq<byte>
    requires AllData(ps)
  {
    if |ps| == 0 then [] else ps[0].payload + Payloads(ps[1..])
  }

  /** Each segment holds the bytes its number names, counted from q. */
  lemma {:induction false} SegmentContents(data: seq<byte>, q: nat, p: Packet)
    requires p in Segments(data, q)
    ensures p.Data? && q <= p.q && p.q + |p.payload| <= q + |data| && 1 <= |p.payload| <= MAX_DLEN
    ensures p.payload == data[p.q - q..p.q - q + |p.payload|]
    decreases |data|
  {
    var d, s := Min(|data|, MAX_DLEN), Segments(data, q);
    Unfold(data, q);
    assert p == s[0] || p in s[1..];
    if p in s[1..] {
      SegmentContents(data[d..], q + d, p);
      TailSlice(data, d, p.q - q - d, |p.payload|);
    } else {
      assert p.q == q && p.payload == data[..d];
    }
  }

  lemma {:induction false} SegmentPayloads(data: seq<byte>, q: nat)
    ensures AllData(Segments(data, q)) && Payloads(Segments(data, q)) == data
    decreases |data|
  {
    var s := Segments(data, q);
    forall p | p in s
      ensures p.Data?
    {
      SegmentContents(data, q, p);
    }
    if |data| > 0 {
      var d := Min(|data|, MAX_DLEN);
      Unfold(data, q);
      SegmentPayloads(data[d..], q + d);
      assert Payloads(s) == s[0].payload + Payloads(s[1..]);
    }
  }

  /** The payloads put together are exactly the slice; all packets are data packets of 1..MAX_DLEN bytes. */
  lemma SegmentsConcat(data: seq<byte>, q: nat)
    ensures AllData(Segments(data, q))
    ensures Payloads(Segments(data, q)) == data
    ensures forall p <- Segments(data, q) ::
              1 <= |p.payload| <= MAX_DLEN && q <= p.q && p.q + |p.payload| <= q + |data|
  {
    SegmentPayloads(data, q);
    forall p | p in Segments(data, q)
      ensures 1 <= |p.payload| <= MAX_DLEN && q <= p.q && p.q + |p.payload| <= q + |data|
    {
      SegmentContents(data, q, p);
    }
  }

  /** Segments written to the wire and read back with the getters give the slice again. */
  function ReadBack(wire: seq<seq<byte>>): Option<seq<byte>>
    requires forall m <- wire :: |m| >= 20
  {
    if |wire| == 0 then Some([])
    else
      match TjuPacket.Decode(wire[0])
      case Some(Data(_, payload)) =>
        (match ReadBack(wire[1..])
         case Some(rest) => Some(payload + rest)
         case None => None)
      case _ => None
  }

  function Written(src: uint16, dst: uint16, ps: seq<Packet>): (wire: seq<seq<byte>>)
    requires forall p <- ps :: TjuPacket.Encodable(p)
    ensures forall m <- wire :: |m| >= 20
  {
    if |ps| == 0 then []
    else
      TjuPacket.WireRoundTrip(src, dst, 0, ps[0]);
      [TjuPacket.Encode(src, dst, 0, ps[0])] + Written(src, dst, ps[1..])
  }

  lemma {:induction false} SegmentsEncodable(data: seq<byte>, q: nat)
    requires q + |data| < 0x1_0000_0000
    ensures forall p <- Segments(data, q) :: TjuPacket.Encodable(p)
  {
    SegmentsConcat(data, q);
  }

  lemma {:induction false} WrittenReadsBack(src: uint16, dst: uint16, ps: seq<Packet>)
    requires AllData(ps) && forall p <- ps :: TjuPacket.Encodable(p)
    ensures ReadBack(Written(src, dst, ps)) == Some(Payloads(ps))
    ensures forall m <- Written(src, dst, ps) :: |m| <= MAX_LEN
  {
    if |ps| > 0 {
      WrittenReadsBack(src, dst, ps[1..]);
      TjuPacket.WireRoundTrip(src, dst, 0, ps[0]);
      var w := Written(src, dst, ps);
      assert w[0] == TjuPacket.Encode(src, dst, 0, ps[0]);
      assert w[1..] == Written(src, dst, ps[1..]);
    }
  }

  /** A slice cut, written, and read with the getters is the slice again, in packets of at most MAX_LEN bytes. */
  lemma WireCarriesSlice(src: uint16, dst: uint16, data: seq<byte>, q: nat)
    requires q + |data| < 0x1_0000_0000
    ensures forall p <- Segments(data, q) :: TjuPacket.Encodable(p)
    ensures ReadBack(Written(src, dst, Segments(data, q))) == Some(data)
    ensures forall m <- Written(src, dst, Segments(data, q)) :: |m| <= MAX_LEN
  {
    SegmentsEncodable(data, q);
    SegmentsConcat(data, q);
    WrittenReadsBack(src, dst, Segments(data, q));
  }
}
