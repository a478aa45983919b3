/** The wire format (src/tju_packet.c). */
module TjuPacket {
  import opened Global

  datatype Header = Header(src: uint16, dst: uint16, seqNum: uint32, ackNum: uint32,
                           hlen: uint16, plen: uint16, flags: byte, advWindow: uint16, ext: byte)

  function Big16(v: uint16): (b: seq<byte>)
    ensures |b| == 2
  {
    [v / 0x100, v % 0x100]
  }

  function Big32(v: uint32): (b: seq<byte>)
    ensures |b| == 4
  {
    [v / 0x100_0000, v / 0x1_0000 % 0x100, v / 0x100 % 0x100, v % 0x100]
  }

  function Read16(msg: seq<byte>, offset: nat): uint16
    requires offset + 2 <= |msg|
  {
    var b0: int, b1: int := msg[offset], msg[offset + 1];
    b0 * 0x100 + b1
  }

  function Read32(msg: seq<byte>, offset: nat): uint32
    requires offset + 4 <= |msg|
  {
    var b0: int, b1: int, b2: int, b3: int := msg[offset], msg[offset + 1], msg[offset + 2], msg[offset + 3];
    b0 * 0x100_0000 + b1 * 0x1_0000 + b2 * 0x100 + b3
  }

  // The field readers, each at its fixed offset.
  function GetSrc(msg: seq<byte>): uint16 requires |msg| >= 20 { Read16(msg, 0) }
  function GetDst(msg: seq<byte>): uint16 requires |msg| >= 20 { Read16(msg, 2) }
  function GetSeq(msg: seq<byte>): uint32 requires |msg| >= 20 { Read32(msg, 4) }
  function GetAck(msg: seq<byte>): uint32 requires |msg| >= 20 { Read32(msg, 8) }
  function GetHlen(msg: seq<byte>): uint16 requires |msg| >= 20 { Read16(msg, 12) }
  function GetPlen(msg: seq<byte>): uint16 requires |msg| >= 20 { Read16(msg, 14) }
  function GetFlags(msg: seq<byte>): byte requires |msg| >= 20 { msg[16] }
  function GetAdvertisedWindow(msg: seq<byte>): uint16 requires |msg| >= 20 { Read16(msg, 17) }
  function GetExt(msg: seq<byte>): byte requires |msg| >= 20 { msg[19] }

  /** All getters together. */
  function ReadHeader(msg: seq<byte>): Header
    requires |msg| >= 20
  {
    Header(GetSrc(msg), GetDst(msg), GetSeq(msg), GetAck(msg), GetHlen(msg), GetPlen(msg),
           GetFlags(msg), GetAdvertisedWindow(msg), GetExt(msg))
  }

  /** The 20 bytes of a header, most significant byte first in every field. */
  function HeaderBytes(h: Header): (b: seq<byte>)
    ensures |b| == 20
  {
    Big16(h.src) + Big16(h.dst) + Big32(h.seqNum) + Big32(h.ackNum) + Big16(h.hlen) + Big16(h.plen)
    + [h.flags] + Big16(h.advWindow) + [h.ext]
  }

  /** Image of a whole packet; data is laid at hlen, over whatever is there. */
  function PacketBytes(h: Header, data: seq<byte>): (b: seq<byte>)
    requires h.plen >= 20
    requires h.plen > h.hlen ==> |data| >= h.plen - h.hlen
    ensures |b| == h.plen
  {
    var image := HeaderBytes(h) + seq(h.plen - 20, i => 0);
    if h.plen > h.hlen then image[..h.hlen] + data[..h.plen - h.hlen] else image
  }

  lemma Digits32(v: uint32)
    ensures v == v / 0x100_0000 * 0x100_0000 + v / 0x1_0000 % 0x100 * 0x1_0000 + v / 0x100 % 0x100 * 0x100 + v % 0x100
  {
    assert v / 0x1_0000 == v / 0x100 / 0x100;
    assert v / 0x100_0000 == v / 0x1_0000 / 0x100;
  }

  lemma Digits32Unique(a: byte, b: byte, c: byte, d: byte)
    ensures Big32(a * 0x100_0000 + b * 0x1_0000 + c * 0x100 + d) == [a, b, c, d]
  {
    var v := a * 0x100_0000 + b * 0x1_0000 + c * 0x100 + d;
    assert v / 0x100 == a * 0x1_0000 + b * 0x100 + c;
    assert v / 0x1_0000 == a * 0x100 + b;
    assert v / 0x100_0000 == a;
  }

  /** What header_in_char writes, the getters read back: every field, whatever follows the header. */
  lemma HeaderRoundTrip(h: Header, rest: seq<byte>)
    ensures ReadHeader(HeaderBytes(h) + rest) == h
  {
    var msg := HeaderBytes(h) + rest;
    Digits32(h.seqNum);
    Digits32(h.ackNum);
    assert msg[0..2] == Big16(h.src);
    assert msg[2..4] == Big16(h.dst);
    assert msg[4..8] == Big32(h.seqNum);
    assert msg[8..12] == Big32(h.ackNum);
    assert msg[12..14] == Big16(h.hlen);
    assert msg[14..16] == Big16(h.plen);
    assert msg[17..19] == Big16(h.advWindow);
  }

  lemma Cut(msg: seq<byte>)
    requires |msg| >= 20
    ensures msg[0..2] + msg[2..4] + msg[4..8] + msg[8..12] + msg[12..14] + msg[14..16] + msg[16..17] + msg[17..19]
            + msg[19..20] == msg[..20]
  {
  }

  /** The number written by these bytes, most significant first. */
  function BigEndian(s: seq<byte>): nat {
    if |s| == 0 then 0 else BigEndian(s[..|s| - 1]) * 0x100 + s[|s| - 1]
  }

  lemma TwoBytes(b: seq<byte>, i: nat)
    requires i + 2 <= |b|
    ensures var hi: int, lo: int := b[i], b[i + 1]; BigEndian(b[i..i + 2]) == hi * 0x100 + lo
  {
    var s, one := b[i..i + 2], [b[i]];
    assert s[..1] == one && one[..0] == [];
    assert BigEndian([]) == 0;
    assert BigEndian(one) == b[i];
    assert BigEndian(s) == BigEndian(s[..1]) * 0x100 + s[1];
  }

  lemma FourBytes(b: seq<byte>, i: nat)
    requires i + 4 <= |b|
    ensures BigEndian(b[i..i + 4]) == BigEndian(b[i..i + 2]) * 0x1_0000 + BigEndian(b[i + 2..i + 4])
  {
    TwoBytes(b, i);
    TwoBytes(b, i + 2);
    assert b[i..i + 4][..3] == b[i..i + 3];
    assert b[i..i + 3][..2] == b[i..i + 2];
  }

  /** Where each field of a header lies. */
  lemma HeaderLayout(h: Header)
    ensures var b := HeaderBytes(h);
            && BigEndian(b[0..2]) == h.src && BigEndian(b[2..4]) == h.dst
            && BigEndian(b[4..8]) == h.seqNum && BigEndian(b[8..12]) == h.ackNum
            && BigEndian(b[12..14]) == h.hlen && BigEndian(b[14..16]) == h.plen
            && b[16] == h.flags && BigEndian(b[17..19]) == h.advWindow && b[19] == h.ext
  {
    var b := HeaderBytes(h);
    TwoBytes(b, 0);
    TwoBytes(b, 2);
    LongField(b, 4, h.seqNum);
    LongField(b, 8, h.ackNum);
    TwoBytes(b, 12);
    TwoBytes(b, 14);
    TwoBytes(b, 17);
  }

  lemma LongField(b: seq<byte>, i: nat, v: uint32)
    requires i + 4 <= |b|
    requires b[i] == v / 0x100_0000 && b[i + 1] == v / 0x1_0000 % 0x100
    requires b[i + 2] == v / 0x100 % 0x100 && b[i + 3] == v % 0x100
    ensures BigEndian(b[i..i + 4]) == v
  {
    FourBytes(b, i);
    TwoBytes(b, i);
    TwoBytes(b, i + 2);
    Digits32(v);
  }

  /** Conversely any 20 bytes are the header the getters find in them, so the format is a bijection. */
  lemma HeaderUnique(msg: seq<byte>)
    requires |msg| >= 20
    ensures HeaderBytes(ReadHeader(msg)) == msg[..20]
  {
    Digits32Unique(msg[4], msg[5], msg[6], msg[7]);
    Digits32Unique(msg[8], msg[9], msg[10], msg[11]);
    var h := ReadHeader(msg);
    assert Big16(h.src) == msg[0..2];
    assert Big16(h.dst) == msg[2..4];
    assert Big32(h.seqNum) == msg[4..8];
    assert Big32(h.ackNum) == msg[8..12];
    assert Big16(h.hlen) == msg[12..14];
    assert Big16(h.plen) == msg[14..16];
    assert Big16(h.advWindow) == msg[17..19];
    Cut(msg);
  }

  /** The payload a receiver cuts out: plen - hlen bytes from hlen on. */
  function Payload(msg: seq<byte>): seq<byte>
    requires |msg| >= 20 && GetHlen(msg) <= GetPlen(msg) <= |msg|
  {
    msg[GetHlen(msg)..GetPlen(msg)]
  }

  lemma PacketRoundTrip(h: Header, data: seq<byte>)
    requires 20 <= h.hlen <= h.plen
    requires |data| >= h.plen - h.hlen
    ensures ReadHeader(PacketBytes(h, data)) == h
    ensures Payload(PacketBytes(h, data)) == data[..h.plen - h.hlen]
  {
    var b := PacketBytes(h, data);
    assert b == HeaderBytes(h) + b[20..];
    HeaderRoundTrip(h, b[20..]);
  }

  // The buffer writers of header_in_char: a store at a moving index, everything behind it untouched.
  method Store8(msg: array<byte>, index: nat, v: byte) returns (next: nat)
    requires index + 1 <= msg.Length
    modifies msg
    ensures next == index + 1
    ensures msg[..next] == old(msg[..index]) + [v]
    ensures msg[next..] == old(msg[index..])[1..]
  {
    msg[index] := v;
    next := index + 1;
  }

  method Store16(msg: array<byte>, index: nat, v: uint16) returns (next: nat)
    requires index + 2 <= msg.Length
    modifies msg
    ensures next == index + 2
    ensures msg[..next] == old(msg[..index]) + Big16(v)
    ensures msg[next..] == old(msg[index..])[2..]
  {
    msg[index], msg[index + 1] := v / 0x100, v % 0x100;
    next := index + 2;
  }

  method Store32(msg: array<byte>, index: nat, v: uint32) returns (next: nat)
    requires index + 4 <= msg.Length
    modifies msg
    ensures next == index + 4
    ensures msg[..next] == old(msg[..index]) + Big32(v)
    ensures msg[next..] == old(msg[index..])[4..]
  {
    msg[index], msg[index + 1] := v / 0x100_0000, v / 0x1_0000 % 0x100;
    msg[index + 2], msg[index + 3] := v / 0x100 % 0x100, v % 0x100;
    next := index + 4;
  }

  method StoreLengths(msg: array<byte>, start: nat, h: Header) returns (index: nat)
    requires start + 8 <= msg.Length
    modifies msg
    ensures index == start + 8
    ensures msg[..index] == old(msg[..start]) + Big16(h.hlen) + Big16(h.plen) + [h.flags] + Big16(h.advWindow) + [h.ext]
    ensures msg[index..] == old(msg[start..])[8..]
  {
    index := Store16(msg, start, h.hlen);
    index := Store16(msg, index, h.plen);
    index := Store8(msg, index, h.flags);
    index := Store16(msg, index, h.advWindow);
    index := Store8(msg, index, h.ext);
  }

  method HeaderInChar(h: Header) returns (msg: array<byte>)
    requires h.plen >= 20
    ensures fresh(msg)
    ensures msg[..] == HeaderBytes(h) + seq(h.plen - 20, i => 0)
  {
    msg := new byte[h.plen](i => 0);
    ghost var zeros := msg[..];
    var index := Store16(msg, 0, h.src);
    index := Store16(msg, index, h.dst);
    index := Store32(msg, index, h.seqNum);
    index := Store32(msg, index, h.ackNum);
    assert msg[12..] == zeros[12..];
    index := StoreLengths(msg, index, h);
    assert msg[..20] == HeaderBytes(h);
    assert msg[20..] == zeros[20..] == seq(h.plen - 20, i => 0);
    assert msg[..] == msg[..20] + msg[20..];
  }

  /** packet_to_buf: header image, then plen - hlen data bytes copied to offset hlen. */
  method PacketToBuf(h: Header, data: seq<byte>) returns (msg: array<byte>)
    requires h.plen >= 20
    requires h.plen > h.hlen ==> |data| >= h.plen - h.hlen
    ensures fresh(msg)
    ensures msg[..] == PacketBytes(h, data)
  {
    msg := HeaderInChar(h);
    if h.plen > h.hlen {
      ghost var image := msg[..];
      forall i | 0 <= i < h.plen - h.hlen {
        msg[h.hlen + i] := data[i];
      }
      assert msg[..h.hlen] == image[..h.hlen];
      assert msg[h.hlen..] == data[..h.plen - h.hlen];
      assert msg[..] == msg[..h.hlen] + msg[h.hlen..];
    }
  }

  // Header of a data segment as sending_thread and retrans_thread build it, and of the receiver's ACK.
  function DataHeader(src: uint16, dst: uint16, q: uint32, dlen: nat): Header
    requires dlen <= MAX_DLEN
  {
    Header(src, dst, q, 0, 20, 20 + dlen, NO_FLAG, 1, 0)
  }

  function AckHeader(src: uint16, dst: uint16, q: uint32, ack: uint32, wnd: uint16): Header {
    Header(src, dst, q, ack, 20, 20, ACK_FLAG_MASK, wnd, 0)
  }

  /** A packet of the transfer engine that fits the 32-bit and 16-bit fields. */
  predicate Encodable(p: Packet) {
    match p
    case Data(q, payload) => q < 0x1_0000_0000 && |payload| <= MAX_DLEN
    case Ack(ack, wnd) => ack < 0x1_0000_0000 && wnd < 0x1_0000
  }

  function Encode(src: uint16, dst: uint16, ownSeq: uint32, p: Packet): seq<byte>
    requires Encodable(p)
  {
    match p
    case Data(q, payload) => PacketBytes(DataHeader(src, dst, q, |payload|), payload)
    case Ack(ack, wnd) => PacketBytes(AckHeader(src, dst, ownSeq, ack, wnd), [])
  }

  /** How tju_handle_packet classifies a segment in ESTABLISHED, by the flags byte alone. */
  function Decode(msg: seq<byte>): Option<Packet>
    requires |msg| >= 20
  {
    if !(GetHlen(msg) <= GetPlen(msg) <= |msg|) then None
    else if GetFlags(msg) == NO_FLAG then Some(Data(GetSeq(msg), Payload(msg)))
    else if GetFlags(msg) == ACK_FLAG_MASK then Some(Ack(GetAck(msg), GetAdvertisedWindow(msg)))
    else None
  }

  /** Every engine packet survives the wire and none exceeds MAX_LEN, so sendToLayer3 never refuses it. */
  lemma WireRoundTrip(src: uint16, dst: uint16, ownSeq: uint32, p: Packet)
    requires Encodable(p)
    ensures 20 <= |Encode(src, dst, ownSeq, p)| <= MAX_LEN
    ensures Decode(Encode(src, dst, ownSeq, p)) == Some(p)
  {
    match p
    case Data(q, payload) =>
      PacketRoundTrip(DataHeader(src, dst, q, |payload|), payload);
      assert payload[..|payload|] == payload;
    case Ack(ack, wnd) =>
      PacketRoundTrip(AckHeader(src, dst, ownSeq, ack, wnd), []);
  }

  /** What is in the header of each packet of the engine: ports as given, no flag and no acknowledgement number on data,
      the ACK flag and the receiver's own sequence number on ACKs, advertised window 1 on data. */
  lemma EncodedFields(src: uint16, dst: uint16, ownSeq: uint32, p: Packet)
    requires Encodable(p)
    ensures var m := Encode(src, dst, ownSeq, p);
            && |m| >= 20
            && GetSrc(m) == src && GetDst(m) == dst && GetHlen(m) == 20 && GetPlen(m) == |m| && GetExt(m) == 0
            && match p
               case Data(q, payload) =>
                 && GetSeq(m) == q && GetAck(m) == 0 && GetFlags(m) == 0 && GetAdvertisedWindow(m) == 1
                 && m[20..] == payload
               case Ack(ack, wnd) =>
                 && GetSeq(m) == ownSeq && GetAck(m) == ack && GetFlags(m) == 4 && GetAdvertisedWindow(m) == wnd
                 && |m| == 20
  {
    match p
    case Data(q, payload) =>
      var h := DataHeader(src, dst, q, |payload|);
      HeaderInFront(h, payload);
    case Ack(ack, wnd) =>
      HeaderInFront(AckHeader(src, dst, ownSeq, ack, wnd), []);
  }

  lemma HeaderInFront(h: Header, data: seq<byte>)
    requires h.hlen == 20 && h.plen == 20 + |data|
    ensures PacketBytes(h, data) == HeaderBytes(h) + data
    ensures ReadHeader(PacketBytes(h, data)) == h
  {
    HeaderRoundTrip(h, data);
    assert HeaderBytes(h)[..20] == HeaderBytes(h);
    if |data| > 0 {
      assert (HeaderBytes(h) + seq(h.plen - 20, i => 0))[..20] == HeaderBytes(h);
    }
  }
}
