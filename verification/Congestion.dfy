/** Congestion control: the ACK branch of tju_handle_packet (src/tju_tcp.c:443-517) and the
    timeout reaction of retrans_thread (src/timer.c:119-130). */
module Congestion {
  import opened Global

  datatype Status = SlowStart | CongestionAvoidance | FastRecovery

  datatype Cong = Cong(status: Status, cwnd: nat, ssthresh: nat, dups: nat, rwnd: nat, wnd: nat)

  const INITIAL := Cong(SlowStart, MAX_DLEN, MAX_SWINDOW_SIZE / 2, 0, MAX_RWINDOW_SIZE, MAX_DLEN)

  /** window_size is recomputed from the congestion window and the last advertised window. */
  function Resize(c: Cong): Cong { c.(wnd := Min(c.cwnd, c.rwnd)) }

  /** ACK below base: only the windows are refreshed. */
  function OnOldAck(c: Cong, adv: nat): Cong { Resize(c.(rwnd := adv)) }

  predicate CountsThree(c: Cong) { c.status != FastRecovery && c.dups + 1 == 3 }

  /** ACK equal to base. */
  function OnDupAck(c: Cong, adv: nat): Cong {
    var c1 := c.(rwnd := adv);
    if c.status == FastRecovery then Resize(c1.(cwnd := c.cwnd + MAX_DLEN))
    else if CountsThree(c) then
      Resize(c1.(dups := 3, ssthresh := c.cwnd / 2, cwnd := c.cwnd / 2, status := FastRecovery))
    else Resize(c1.(dups := c.dups + 1))
  }

  /** ACK above base. */
  function OnNewAck(c: Cong, adv: nat): Cong {
    var c1 := c.(rwnd := adv, dups := 0);
    match c.status
    case SlowStart =>
      if 2 * c.cwnd >= c.ssthresh then Resize(c1.(cwnd := c.ssthresh, status := CongestionAvoidance))
      else Resize(c1.(cwnd := 2 * c.cwnd))
    case CongestionAvoidance => Resize(c1.(cwnd := c.cwnd + MAX_DLEN))
    case FastRecovery => Resize(c1.(status := CongestionAvoidance))
  }

  /** A retransmission pass that begins with TIMEOUT_FLAG set. The duplicate count survives. */
  function OnTimeout(c: Cong): Cong {
    Resize(c.(ssthresh := c.cwnd / 2, cwnd := MAX_DLEN, status := SlowStart))
  }

  datatype Event = OldAck(adv: nat) | DupAck(adv: nat) | NewAck(adv: nat) | Timeout

  function Apply(c: Cong, e: Event): Cong {
    match e
    case OldAck(adv) => OnOldAck(c, adv)
    case DupAck(adv) => OnDupAck(c, adv)
    case NewAck(adv) => OnNewAck(c, adv)
    case Timeout => OnTimeout(c)
  }

  function Run(c: Cong, es: seq<Event>): Cong
    decreases |es|
  {
    if |es| == 0 then c else Apply(Run(c, es[..|es| - 1]), es[|es| - 1])
  }

  lemma {:induction false} RunAppend(c: Cong, a: seq<Event>, b: seq<Event>)
    ensures Run(c, a + b) == Run(Run(c, a), b)
    decreases |b|
  {
    if |b| == 0 {
      assert a + b == a;
    } else {
      var n := |b| - 1;
      assert (a + b)[..|a + b| - 1] == a + b[..n];
      RunAppend(c, a, b[..n]);
    }
  }

  // ----- invariant -----

  predicate Inv(c: Cong) {
    && c.wnd == Min(c.cwnd, c.rwnd)
    && (c.status == FastRecovery ==> c.dups == 3)
    && (c.status == CongestionAvoidance ==> c.dups <= 2)
    && (c.status == SlowStart ==> c.cwnd >= MAX_DLEN)
  }

  lemma InvKept(c: Cong, e: Event)
    requires Inv(c)
    ensures Inv(Apply(c, e))
  {
  }

  /** In every run the window is min(cwnd, rwnd), and a zero congestion window means fast recovery or
      avoidance with at most two duplicates counted. */
  lemma {:induction false} InvAlways(es: seq<Event>)
    ensures Inv(Run(INITIAL, es))
    ensures var c := Run(INITIAL, es);
            c.cwnd == 0 ==> c.status == FastRecovery || (c.status == CongestionAvoidance && c.dups <= 2)
    decreases |es|
  {
    if |es| > 0 {
      InvAlways(es[..|es| - 1]);
      InvKept(Run(INITIAL, es[..|es| - 1]), es[|es| - 1]);
    }
  }

  // ----- a closed congestion window reopens -----

  function Dups(c: Cong, advs: seq<nat>): Cong
    decreases |advs|
  {
    if |advs| == 0 then c else Dups(OnDupAck(c, advs[0]), advs[1..])
  }

  /** Duplicates it takes to reopen: one in fast recovery, otherwise enough to enter it and one more. */
  function Needed(c: Cong): nat
    requires Inv(c) && c.status != SlowStart
  {
    if c.status == FastRecovery then 1 else 4 - c.dups
  }

  /** With the peer's window open, a closed window stays closed for exactly Needed(c) - 1 <= 3 further duplicates
      and is open after Needed(c) <= 4 of them. */
  lemma {:induction false} Reopens(c: Cong, advs: seq<nat>)
    requires Inv(c) && c.wnd == 0 && c.rwnd > 0
    requires |advs| <= 4 && forall i :: 0 <= i < |advs| ==> advs[i] > 0
    ensures c.cwnd == 0 && c.status != SlowStart && 1 <= Needed(c) <= 4
    ensures |advs| < Needed(c) ==> Dups(c, advs).wnd == 0
    ensures |advs| == Needed(c) ==> Dups(c, advs).wnd > 0
    decreases |advs|
  {
    if |advs| > 0 {
      var d := OnDupAck(c, advs[0]);
      if c.status == FastRecovery {
        assert d.wnd > 0;
        if |advs| == 1 {
          assert Dups(c, advs) == Dups(d, []) == d;
        }
      } else {
        InvKept(c, DupAck(advs[0]));
        assert d.cwnd == 0 && Needed(d) == Needed(c) - 1;
        Reopens(d, advs[1..]);
      }
    }
  }

  // ----- slow start -----

  /** New ACKs since the start or the last timeout. */
  function Fresh(es: seq<Event>): nat
    decreases |es|
  {
    if |es| == 0 then 0
    else match es[|es| - 1]
         case Timeout => 0
         case NewAck(_) => Fresh(es[..|es| - 1]) + 1
         case _ => Fresh(es[..|es| - 1])
  }

  /** In slow start the window has doubled once per new ACK and, once it has, is still below the threshold. */
  lemma {:induction false} SlowStartLaw(es: seq<Event>)
    ensures var c := Run(INITIAL, es);
            c.status == SlowStart ==> c.cwnd == MAX_DLEN * Pow2(Fresh(es)) && (Fresh(es) > 0 ==> c.cwnd < c.ssthresh)
    decreases |es|
  {
    if |es| > 0 {
      SlowStartLaw(es[..|es| - 1]);
    }
  }

  function NewAcks(es: seq<Event>): nat
    decreases |es|
  {
    if |es| == 0 then 0 else NewAcks(es[..|es| - 1]) + (if es[|es| - 1].NewAck? then 1 else 0)
  }

  /** A run in which no timeout is taken and no third duplicate arrives. */
  predicate LossFree(c: Cong, es: seq<Event>)
    decreases |es|
  {
    |es| == 0 || (LossFree(c, es[..|es| - 1])
                  && !es[|es| - 1].Timeout?
                  && !(es[|es| - 1].DupAck? && CountsThree(Run(c, es[..|es| - 1]))))
  }

  /** Loss-free slow start from one segment lasts exactly until the first new ACK, the n-th say, with
      MAX_DLEN * 2^n at the threshold or above: max(1, ceil(log2(ssthresh / MAX_DLEN))) new ACKs. */
  lemma {:induction false} SlowStartLength(c: Cong, es: seq<Event>)
    requires c.status == SlowStart && c.cwnd == MAX_DLEN
    requires LossFree(c, es)
    ensures var d := Run(c, es); var n := NewAcks(es);
            && (d.status == SlowStart <==> n == 0 || MAX_DLEN * Pow2(n) < c.ssthresh)
            && (d.status == SlowStart ==> d.cwnd == MAX_DLEN * Pow2(n) && d.ssthresh == c.ssthresh)
            && d.status != FastRecovery
    decreases |es|
  {
    if |es| > 0 {
      SlowStartLength(c, es[..|es| - 1]);
    }
  }

  lemma FirstSlowStart(es: seq<Event>)
    requires LossFree(INITIAL, es)
    ensures Run(INITIAL, es).status == SlowStart <==> NewAcks(es) <= 3
  {
    SlowStartLength(INITIAL, es);
    var n := NewAcks(es);
    assert Pow2(3) == 8 && Pow2(4) == 16;
    if n <= 3 {
      Pow2Grows(n, 3);
    } else {
      Pow2Grows(4, n);
    }
  }

  lemma {:induction false} Pow2Grows(a: nat, b: nat)
    requires a <= b
    ensures Pow2(a) <= Pow2(b)
    decreases b
  {
    if a < b {
      Pow2Grows(a, b - 1);
    }
  }

  // ----- fast retransmit -----

  function Firings(c: Cong, es: seq<Event>): nat
    decreases |es|
  {
    if |es| == 0 then 0
    else (if es[0].DupAck? && CountsThree(c) then 1 else 0) + Firings(Apply(c, es[0]), es[1..])
  }

  /** Without a window-advancing ACK the duplicate count only grows, so three is passed once. */
  lemma {:induction false} FiresOnce(c: Cong, es: seq<Event>)
    requires Inv(c)
    requires forall e <- es :: !e.NewAck?
    ensures Firings(c, es) <= (if c.dups <= 2 then 1 else 0)
    decreases |es|
  {
    if |es| > 0 {
      InvKept(c, es[0]);
      FiresOnce(Apply(c, es[0]), es[1..]);
    }
  }

  /** In every run, any stretch without a window-advancing ACK holds at most one fast retransmit. */
  lemma FastRetransmitOnce(before: seq<Event>, stretch: seq<Event>)
    requires forall e <- stretch :: !e.NewAck?
    ensures Firings(Run(INITIAL, before), stretch) <= 1
  {
    InvAlways(before);
    FiresOnce(Run(INITIAL, before), stretch);
  }
}
