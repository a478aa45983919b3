/** What one call of tju_send leaves in the stream (src/tju_tcp.c:226-249). */
module SendCall {
  import opened Global
  import opened SenderCore

  /** Bytes appended by a call whose successive iterations find these amounts of room. When the data do not fit,
      the source fills the buffer and then subtracts MAX_SOCK_BUF_SIZE - sending_len, by now zero, from what is
      left: the next iteration starts over with all of the data. */
  function Appended(data: seq<byte>, rooms: seq<nat>): seq<byte>
    decreases |rooms|
  {
    if |rooms| == 0 then []
    else if |data| <= rooms[0] then data
    else data[..rooms[0]] + Appended(data, rooms[1..])
  }

  /** The call returns at the first iteration that finds enough room; one that finds none at all just goes round. */
  predicate Returns(data: seq<byte>, rooms: seq<nat>) {
    && |rooms| > 0
    && |data| <= rooms[|rooms| - 1]
    && (forall i :: 0 <= i < |rooms| - 1 ==> rooms[i] < |data|)
  }

  /** What the first iteration that finds any room finds. */
  function FirstRoom(rooms: seq<nat>): nat
    requires |rooms| > 0
  {
    if rooms[0] == 0 && |rooms| > 1 then FirstRoom(rooms[1..]) else rooms[0]
  }

  lemma ReturnsLater(data: seq<byte>, rooms: seq<nat>)
    requires Returns(data, rooms) && |rooms| > 1
    ensures Returns(data, rooms[1..])
  {
    assert rooms[1..][|rooms| - 2] == rooms[|rooms| - 1];
  }

  lemma {:induction false} AppendedLength(data: seq<byte>, rooms: seq<nat>)
    requires Returns(data, rooms)
    ensures |Appended(data, rooms)| >= |data|
    decreases |rooms|
  {
    if |rooms| > 1 {
      ReturnsLater(data, rooms);
      AppendedLength(data, rooms[1..]);
    }
  }

  /** A call, also one that starts on a full buffer, appends exactly its data iff they fit the first time there is any
      room; otherwise a prefix of them is in the stream twice. */
  lemma {:induction false} AppendsExactlyIfFits(data: seq<byte>, rooms: seq<nat>)
    requires Returns(data, rooms)
    ensures var room := FirstRoom(rooms);
            && (Appended(data, rooms) == data <==> |data| <= room)
            && (|data| > room ==> |Appended(data, rooms)| > |data| && data[..room] <= Appended(data, rooms))
    decreases |rooms|
  {
    if |rooms| > 1 {
      ReturnsLater(data, rooms);
      AppendedLength(data, rooms[1..]);
      if rooms[0] == 0 {
        AppendsExactlyIfFits(data, rooms[1..]);
        assert Appended(data, rooms) == Appended(data, rooms[1..]);
      }
    }
  }

  /** The iterations of the model: each appends what AppSend appends and finishes iff the data fit. */
  lemma IterationAppends(s: Snd, data: seq<byte>, rest: seq<nat>)
    requires Room(s) >= 0
    ensures Appended(data, [Room(s)] + rest)
         == SendChunk(s, data) + (if DataFits(s, data) then [] else Appended(data, rest))
    ensures AppSend(s, data).buf == s.buf + SendChunk(s, data)
  {
    assert ([Room(s)] + rest)[1..] == rest;
  }
}
