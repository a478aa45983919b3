/** Sender and receiver objects driven by the steps of the atomic system: the real buffers follow the model. */
module Connection {
  import opened Global
  import opened SenderCore
  import opened Atomic
  import Reassembly
  import Progress
  import RunInvariants
  import I = Interleaved
  import SenderSocket
  import ReceiverWindow

  /** What the objects need to know of a reachable state. */
  lemma Reached(past: seq<Op>)
    requires Legal(I.INITIAL, past)
    ensures var w := Exec(I.INITIAL, past); Coupled(w.snd) && Reassembly.Ok(w.rcv)
  {
    RunInvariants.GoodInitially();
    RunInvariants.GoodRun(I.INITIAL, past);
  }

  lemma OneMore(past: seq<Op>, op: Op)
    requires Legal(I.INITIAL, past) && Enabled(Exec(I.INITIAL, past), op)
    ensures Legal(I.INITIAL, past + [op]) && Exec(I.INITIAL, past + [op]) == Do(Exec(I.INITIAL, past), op)
    ensures var w := Exec(I.INITIAL, past + [op]); Coupled(w.snd) && Reassembly.Ok(w.rcv)
  {
    var w := Exec(I.INITIAL, past);
    Progress.Cons(w, op, []);
    assert [op] + [] == [op];
    Progress.Append(I.INITIAL, past, [op]);
    Reached(past + [op]);
  }

  lemma AckEnabled(past: seq<Op>, ack: nat, adv: nat, sample: nat)
    requires Legal(I.INITIAL, past) && Ack(ack, adv) in Exec(I.INITIAL, past).net
    ensures Enabled(Exec(I.INITIAL, past), GotAck(ack, adv, sample))
  {
    RunInvariants.GoodInitially();
    RunInvariants.GoodRun(I.INITIAL, past);
    assert I.PacketOk(Exec(I.INITIAL, past), Ack(ack, adv));
  }

  /** What a read does to the model: nothing at the sender. */
  lemma RecvIs(w: World, len: nat)
    requires |w.rcv.received| > 0
    ensures Enabled(w, Op.Recv(len))
    ensures var v, n := Do(w, Op.Recv(len)), Min(len, |w.rcv.received|);
            v.snd == w.snd && v.rcv == Reassembly.Read(w.rcv, len) && v.read == w.read + w.rcv.received[..n]
  {
  }

  class Link {
    const snd: SenderSocket.Sender
    const rcv: ReceiverWindow.Receiver
    ghost var past: seq<Op>
    ghost var w: World

    ghost predicate Apart()
      reads this, snd, rcv
    {
      snd.sendingBuf !in {rcv.recvBuf, rcv.mark, rcv.receivedBuf}
    }

    /** The objects hold what the steps taken so far make of the model. */
    ghost predicate Valid()
      reads this, snd, rcv, snd.sendingBuf, rcv.recvBuf, rcv.mark, rcv.receivedBuf
    {
      && snd.Aligned() && rcv.Valid() && Apart()
      && w.snd == snd.Abs() && w.rcv == rcv.Abs()
      && Legal(I.INITIAL, past) && w == Exec(I.INITIAL, past)
    }

    constructor ()
      ensures Valid() && w == I.INITIAL && fresh(snd) && fresh(rcv)
      ensures fresh(snd.sendingBuf) && fresh(rcv.recvBuf) && fresh(rcv.mark) && fresh(rcv.receivedBuf)
    {
      var s := new SenderSocket.Sender();
      var r := new ReceiverWindow.Receiver();
      snd, rcv := s, r;
      w, past := I.INITIAL, [];
    }

    method Send(data: seq<byte>) returns (done: bool)
      requires Valid() && Enabled(w, Op.Send(data))
      modifies `w, `past, snd, snd.sendingBuf
      ensures Valid() && w == Do(old(w), Op.Send(data)) && done == DataFits(old(w).snd, data)
    {
      OneMore(past, Op.Send(data));
      done := snd.TjuSendIteration(data);
      w, past := Do(w, Op.Send(data)), past + [Op.Send(data)];
    }

    method SendingThread() returns (out: seq<Packet>)
      requires Valid() && Enabled(w, FirstSend)
      modifies `w, `past, snd
      ensures Valid() && w == Do(old(w), FirstSend) && w.net == old(w).net + I.PacketSet(out)
    {
      OneMore(past, FirstSend);
      out := snd.SendingThread();
      w, past := Do(w, FirstSend), past + [FirstSend];
    }

    method RetransThread() returns (out: seq<Packet>)
      requires Valid() && Enabled(w, Retrans)
      modifies `w, `past, snd
      ensures Valid() && w == Do(old(w), Retrans) && w.net == old(w).net + I.PacketSet(out)
    {
      OneMore(past, Retrans);
      out := snd.RetransThread();
      w, past := Do(w, Retrans), past + [Retrans];
    }

    method TimerExpires()
      requires Valid() && Enabled(w, Fires)
      modifies `w, `past, snd
      ensures Valid() && w == Do(old(w), Fires)
    {
      OneMore(past, Fires);
      snd.TimeoutHandler();
      w, past := Do(w, Fires), past + [Fires];
    }

    method AckArrives(ack: nat, adv: nat, sample: nat)
      requires Valid() && Ack(ack, adv) in w.net
      modifies `w, `past, snd
      ensures Valid() && Enabled(old(w), GotAck(ack, adv, sample)) && w == Do(old(w), GotAck(ack, adv, sample))
    {
      AckEnabled(past, ack, adv, sample);
      OneMore(past, GotAck(ack, adv, sample));
      snd.HandleAck(ack, adv, sample);
      w, past := Do(w, GotAck(ack, adv, sample)), past + [GotAck(ack, adv, sample)];
    }

    method DataArrives(q: nat, payload: seq<byte>) returns (reply: Packet)
      requires Valid() && Data(q, payload) in w.net
      modifies `w, `past, rcv, rcv.recvBuf, rcv.mark, rcv.receivedBuf
      ensures Valid() && w == Do(old(w), GotData(q, payload)) && w.net == old(w).net + {reply}
    {
      OneMore(past, GotData(q, payload));
      var ack, adv := rcv.HandleData(q, payload);
      reply := Ack(ack, adv);
      w, past := Do(w, GotData(q, payload)), past + [GotData(q, payload)];
    }

    method Recv(buffer: array<byte>, len: nat) returns (readLen: nat)
      requires Valid() && rcv.receivedLen > 0 && len <= buffer.Length
      requires buffer !in {snd.sendingBuf, rcv.recvBuf, rcv.mark, rcv.receivedBuf}
      modifies `w, `past, rcv, buffer
      ensures Valid() && Enabled(old(w), Op.Recv(len)) && w == Do(old(w), Op.Recv(len))
      ensures readLen <= buffer.Length && w.read == old(w).read + buffer[..readLen]
    {
      ghost var v := w;
      OneMore(past, Op.Recv(len));
      RecvIs(v, len);
      var done;
      done, readLen := rcv.TjuRecv(buffer, len);
      assert buffer[..readLen] == v.rcv.received[..readLen];
      assert snd.Abs() == v.snd && rcv.Abs() == Do(v, Op.Recv(len)).rcv;
      w, past := Do(w, Op.Recv(len)), past + [Op.Recv(len)];
    }

    /** Hence, at any moment: bytes read, then the live part of received_buf, are the stream up to expect_seq, and the
        live part of sending_buf is the stream from base on. */
    lemma BuffersHoldStream()
      requires Valid()
      ensures 1 <= snd.base <= rcv.expectSeq <= snd.nextseq <= |w.stream| + 1
      ensures w.read + rcv.receivedBuf[..rcv.receivedLen] == w.stream[..rcv.expectSeq - 1]
      ensures snd.sendingBuf[snd.ackCnt..snd.sendingLen] == w.stream[snd.base - 1..]
      ensures forall i :: 0 <= i < MAX_RWINDOW_SIZE && rcv.mark[i] != 0 ==>
                            rcv.expectSeq - 1 + i < |w.stream| && rcv.recvBuf[i] == w.stream[rcv.expectSeq - 1 + i]
    {
      RunInvariants.GoodInitially();
      RunInvariants.GoodRun(I.INITIAL, past);
      var d := I.Dropped(w.snd);
      assert w.stream[d..][snd.ackCnt..] == w.stream[d + snd.ackCnt..];
      forall i | 0 <= i < MAX_RWINDOW_SIZE && rcv.mark[i] != 0
        ensures rcv.expectSeq - 1 + i < |w.stream| && rcv.recvBuf[i] == w.stream[rcv.expectSeq - 1 + i]
      {
        var k := rcv.expectSeq + i;
        assert Reassembly.Named(rcv.mark[..], rcv.expectSeq, k) == rcv.mark[i];
        assert k in w.rcv.pending;
        assert Reassembly.Named(rcv.recvBuf[..], rcv.expectSeq, k) == rcv.recvBuf[i];
      }
    }
  }
}
