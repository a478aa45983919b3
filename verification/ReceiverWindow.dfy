/** The receiver half of tju_tcp_t over its real buffers (src/tju_tcp.c:250-281, 370-440, 681-687). */
module ReceiverWindow {
  import opened Global
  import Reassembly

  /** get_wnd_free_len: the scan needs a sentinel, and the last mark is one. */
  method GetWndFreeLen(mark: array<byte>) returns (ans: uint16)
    requires mark.Length == MAX_RWINDOW_SIZE && mark[MAX_RWINDOW_SIZE - 1] == 0
    ensures ans <= MAX_RWINDOW_SIZE - 1
    ensures mark[ans] == 0 && forall i :: 0 <= i < ans ==> mark[i] != 0
  {
    ans := 0;
    while mark[ans] != 0
      invariant ans <= MAX_RWINDOW_SIZE - 1
      invariant forall i :: 0 <= i < ans ==> mark[i] != 0
      decreases MAX_RWINDOW_SIZE - ans
    {
      ans := ans + 1;
    }
  }

  /** A fresh array holding what lies behind the first n cells, zeroes after it. */
  method ShiftDown(a: array<byte>, n: nat) returns (b: array<byte>)
    requires n <= a.Length
    ensures fresh(b) && b.Length == a.Length
    ensures forall i :: 0 <= i < a.Length - n ==> b[i] == a[i + n]
    ensures forall i :: a.Length - n <= i < a.Length ==> b[i] == 0
  {
    b := new byte[a.Length](i => 0);
    forall i | 0 <= i < a.Length - n {
      b[i] := a[n + i];
    }
  }

  class Receiver {
    var recvBuf: array<byte>
    var mark: array<byte>
    var expectSeq: nat
    var remainSize: nat
    var receivedBuf: array<byte>
    var receivedLen: nat

    ghost predicate Valid()
      reads this, recvBuf, mark, receivedBuf
    {
      && recvBuf.Length == mark.Length == MAX_RWINDOW_SIZE
      && receivedBuf.Length == MAX_SOCK_BUF_SIZE
      && recvBuf != mark && recvBuf != receivedBuf && mark != receivedBuf
      && mark[MAX_RWINDOW_SIZE - 1] == 0
      && receivedLen <= MAX_SOCK_BUF_SIZE
      && 1 <= remainSize <= MAX_RWINDOW_SIZE
    }

    ghost function Abs(): (r: Reassembly.Rcv)
      requires Valid()
      reads this, recvBuf, mark, receivedBuf
      ensures Reassembly.Ok(r)
    {
      Reassembly.Rcv(expectSeq, Reassembly.PendingOf(recvBuf[..], mark[..], expectSeq),
                     receivedBuf[..receivedLen], remainSize)
    }

    /** tju_socket: marks zeroed, buffers of arbitrary content. */
    constructor ()
      ensures Valid() && Abs() == Reassembly.INITIAL
      ensures fresh(recvBuf) && fresh(mark) && fresh(receivedBuf)
    {
      recvBuf := new byte[MAX_RWINDOW_SIZE];
      mark := new byte[MAX_RWINDOW_SIZE](i => 0);
      receivedBuf := new byte[MAX_SOCK_BUF_SIZE];
      expectSeq, remainSize, receivedLen := 1, MAX_RWINDOW_SIZE, 0;
      new;
      assert Reassembly.PendingOf(recvBuf[..], mark[..], expectSeq) == map[];
    }

    /** Lines 380-384: copy into the window and mark, unless the segment reaches its end. */
    method StoreSegment(q: nat, payload: seq<byte>)
      requires Valid() && q >= expectSeq
      modifies recvBuf, mark
      ensures Valid() && Abs() == Reassembly.Stored(old(Abs()), q, payload)
    {
      if q + |payload| < expectSeq + MAX_RWINDOW_SIZE {
        ghost var buf0, mark0 := recvBuf[..], mark[..];
        forall i | 0 <= i < |payload| {
          recvBuf[q - expectSeq + i] := payload[i];
        }
        forall i | 0 <= i < |payload| {
          mark[q - expectSeq + i] := 1;
        }
        Reassembly.StoreRefines(buf0, mark0, recvBuf[..], mark[..], expectSeq, q, payload);
      }
    }

    /** Lines 396-400: append the prefix of the window to received_buf. */
    method AppendReceived(n: nat)
      requires Valid() && n <= MAX_RWINDOW_SIZE && receivedLen + n <= MAX_SOCK_BUF_SIZE
      modifies this`receivedLen, receivedBuf
      ensures Valid()
      ensures receivedBuf[..receivedLen] == old(receivedBuf[..receivedLen]) + recvBuf[..n]
    {
      forall i | 0 <= i < n {
        receivedBuf[receivedLen + i] := recvBuf[i];
      }
      receivedLen := receivedLen + n;
    }

    /** Lines 402-410: fresh window and mark arrays holding what lies behind the prefix. The tail of the new
        window is left as allocated by the source and zero here; its marks are zero in both. */
    method ShiftWindow(n: nat)
      requires Valid() && 1 <= n <= MAX_RWINDOW_SIZE
      modifies this`recvBuf, this`mark, this`expectSeq
      ensures Valid() && fresh(recvBuf) && fresh(mark)
      ensures expectSeq == old(expectSeq) + n
      ensures Reassembly.PendingOf(recvBuf[..], mark[..], expectSeq)
           == Reassembly.From(old(Reassembly.PendingOf(recvBuf[..], mark[..], expectSeq)), expectSeq)
    {
      ghost var buf0, mark0 := recvBuf[..], mark[..];
      var newBuf := ShiftDown(recvBuf, n);
      var newMark := ShiftDown(mark, n);
      Reassembly.ShiftRefines(buf0, mark0, newBuf[..], newMark[..], expectSeq, n);
      recvBuf, mark, expectSeq := newBuf, newMark, expectSeq + n;
    }

    /** Lines 386-415: deliver the maximal prefix, or only note how much of the window it occupies. */
    method Advance()
      requires Valid()
      modifies this, receivedBuf
      ensures Valid() && Abs() == Reassembly.Deliver(old(Abs()))
      ensures receivedBuf == old(receivedBuf)
      ensures recvBuf == old(recvBuf) || fresh(recvBuf)
      ensures mark == old(mark) || fresh(mark)
    {
      ghost var r := Abs();
      if mark[0] != 0 {
        var freeLen := GetWndFreeLen(mark);
        Reassembly.ScanRefines(recvBuf[..], mark[..], expectSeq, freeLen);
        if MAX_SOCK_BUF_SIZE - receivedLen < freeLen {
          remainSize := MAX_RWINDOW_SIZE - freeLen;
        } else {
          remainSize := MAX_RWINDOW_SIZE;
          AppendReceived(freeLen);
          ShiftWindow(freeLen);
          assert receivedBuf[..receivedLen] == r.received + Reassembly.Bytes(r.pending, r.expected, freeLen);
        }
      } else {
        Reassembly.ScanRefines(recvBuf[..], mark[..], expectSeq, 0);
      }
    }

    /** The data branch of tju_handle_packet: any segment, in or out of order, old or too far ahead. */
    method HandleData(q: nat, payload: seq<byte>) returns (ack: nat, advWindow: uint16)
      requires Valid()
      modifies this, recvBuf, mark, receivedBuf
      ensures Valid() && Abs() == Reassembly.HandleData(old(Abs()), q, payload)
      ensures Ack(ack, advWindow) == Reassembly.Reply(Abs()) && advWindow >= 1
      ensures receivedBuf == old(receivedBuf)
      ensures recvBuf == old(recvBuf) || fresh(recvBuf)
      ensures mark == old(mark) || fresh(mark)
    {
      if q >= expectSeq {
        StoreSegment(q, payload);
        Advance();
      }
      ack, advWindow := expectSeq, remainSize;
    }

    /** Lines 267-275: what is left moves to a fresh buffer, or the buffer is simply empty. */
    method DropFront(readLen: nat)
      requires Valid() && readLen <= receivedLen
      modifies `receivedBuf, `receivedLen
      ensures Valid() && (receivedBuf == old(receivedBuf) || fresh(receivedBuf))
      ensures receivedBuf[..receivedLen] == old(receivedBuf[..receivedLen])[readLen..]
    {
      if readLen < receivedLen {
        var newBuf := new byte[MAX_SOCK_BUF_SIZE];
        forall i | 0 <= i < receivedLen - readLen {
          newBuf[i] := receivedBuf[readLen + i];
        }
        receivedLen := receivedLen - readLen;
        receivedBuf := newBuf;
      } else {
        receivedLen := 0;
      }
    }

    /** Line 265: the front bytes go to the caller's buffer. */
    method CopyOut(buffer: array<byte>, n: nat)
      requires Valid() && n <= receivedLen && n <= buffer.Length && buffer != receivedBuf
      modifies buffer
      ensures buffer[..n] == receivedBuf[..n] && buffer[n..] == old(buffer[..])[n..]
    {
      forall i | 0 <= i < n {
        buffer[i] := receivedBuf[i];
      }
    }

    /** One turn of tju_recv: nothing while received_len is zero, else at most len bytes from the front. */
    method TjuRecv(buffer: array<byte>, len: nat) returns (done: bool, readLen: nat)
      requires Valid()
      requires len <= buffer.Length && buffer !in {recvBuf, mark, receivedBuf}
      modifies `receivedBuf, `receivedLen, buffer
      ensures done <==> old(receivedLen) > 0
      ensures Valid() && Abs() == Reassembly.Read(old(Abs()), len)
      ensures readLen == Min(len, |old(Abs()).received|)
      ensures buffer[..readLen] == old(Abs()).received[..readLen]
      ensures buffer[readLen..] == old(buffer[..])[readLen..]
      ensures receivedBuf == old(receivedBuf) || fresh(receivedBuf)
    {
      done := receivedLen > 0;
      readLen := Min(len, receivedLen);
      if done {
        CopyOut(buffer, readLen);
        DropFront(readLen);
      }
    }
  }
}
