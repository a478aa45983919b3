/** A call of tju_send whose data do not fit, in a run: the caller's first bytes are sent twice
    (src/tju_tcp.c:229-246). */
module Overflow {
  import opened Global
  import opened SenderCore
  import opened Atomic
  import opened Progress
  import RunInvariants
  import Completion
  import I = Interleaved

  /** All of the buffer acknowledged means the buffer has been cleaned out. */
  predicate Cleaned(s: Snd) { s.ackCnt == |s.buf| ==> s.buf == [] }

  lemma CleanedStep(w: World, op: Op)
    requires RunInvariants.Good(w) && Enabled(w, op) && Cleaned(w.snd)
    ensures Cleaned(Do(w, op).snd)
  {
    match op
    case GotAck(ack, adv, sample) => HandleAckFrame(w.snd, ack, adv, sample);
    case FirstSend => BurstFrame(w.snd, TakeSnap(w.snd));
    case Retrans => RetransFrame(w.snd, PassOf(w.snd));
    case _ =>
  }

  lemma {:induction false} CleanedRun(w: World, ops: seq<Op>)
    requires RunInvariants.Good(w) && Cleaned(w.snd) && Legal(w, ops)
    ensures RunInvariants.Good(Exec(w, ops)) && Cleaned(Exec(w, ops).snd)
    decreases |ops|
  {
    if |ops| > 0 {
      RunInvariants.GoodStep(w, ops[0]);
      CleanedStep(w, ops[0]);
      CleanedRun(Do(w, ops[0]), ops[1..]);
    }
  }

  /** After x, data in two iterations with a full buffer and a complete transfer in between. */
  predicate Twice(x: seq<byte>, data: seq<byte>, more: seq<Op>)
    requires |x| < MAX_SOCK_BUF_SIZE && |data| > MAX_SOCK_BUF_SIZE - |x|
  {
    var ops := [Send(x)] + ([Send(data)] + (more + [Send(data)]));
    Legal(I.INITIAL, ops) && Exec(I.INITIAL, ops).stream == x + data[..MAX_SOCK_BUF_SIZE - |x|] + data
  }

  lemma CompleteHasRoom(w: World)
    requires RunInvariants.Good(w) && Cleaned(w.snd) && Completion.Complete(w)
    ensures Room(w.snd) == MAX_SOCK_BUF_SIZE
  {
    assert |w.snd.buf| == |w.stream| - I.Dropped(w.snd);
  }

  /** x, and as much of data as there is room for. */
  lemma FilledUp(x: seq<byte>, data: seq<byte>)
    requires |x| < MAX_SOCK_BUF_SIZE && |data| > MAX_SOCK_BUF_SIZE - |x|
    ensures Enabled(I.INITIAL, Send(x)) && Enabled(Do(I.INITIAL, Send(x)), Send(data))
    ensures var w := Do(Do(I.INITIAL, Send(x)), Send(data));
            Healthy(w) && Cleaned(w.snd) && w.stream == x + data[..MAX_SOCK_BUF_SIZE - |x|]
  {
    HealthyInitially();
    GentleStep(I.INITIAL, Send(x));
    var w1 := Do(I.INITIAL, Send(x));
    assert w1.snd.buf == x && w1.stream == x;
    GentleStep(w1, Send(data));
    CleanedStep(I.INITIAL, Send(x));
    CleanedStep(w1, Send(data));
  }

  /** The second iteration, after a complete transfer, appends all of data. */
  lemma AgainFromComplete(w: World, data: seq<byte>)
    requires RunInvariants.Good(w) && Cleaned(w.snd) && Completion.Complete(w) && |data| <= MAX_SOCK_BUF_SIZE
    ensures Legal(w, [Send(data)]) && Exec(w, [Send(data)]).stream == w.stream + data
  {
    CompleteHasRoom(w);
    Cons(w, Send(data), []);
    assert [Send(data)] + [] == [Send(data)];
  }

  lemma FinishAndAgain(w: World, data: seq<byte>) returns (more: seq<Op>)
    requires Healthy(w) && Cleaned(w.snd) && |data| <= MAX_SOCK_BUF_SIZE
    ensures Legal(w, more + [Send(data)]) && Exec(w, more + [Send(data)]).stream == w.stream + data
  {
    more := Completion.Finish(w);
    CleanedRun(w, more);
    AgainFromComplete(Exec(w, more), data);
    Append(w, more, [Send(data)]);
  }

  /** Whatever has been sent before and whatever the data: if they do not fit, some legal run puts their first bytes
      into the stream twice. */
  lemma OverflowReached(x: seq<byte>, data: seq<byte>)
    requires |x| < MAX_SOCK_BUF_SIZE && MAX_SOCK_BUF_SIZE - |x| < |data| <= MAX_SOCK_BUF_SIZE
    ensures exists more: seq<Op> :: Twice(x, data, more)
  {
    FilledUp(x, data);
    var w1 := Do(I.INITIAL, Send(x));
    var more := FinishAndAgain(Do(w1, Send(data)), data);
    Cons(w1, Send(data), more + [Send(data)]);
    Cons(I.INITIAL, Send(x), [Send(data)] + (more + [Send(data)]));
    assert Twice(x, data, more);
  }
}
