/** The whole congestion state in closed form: what it is after any events, read off the events and the windows just
    before the losses among them. */
module CongestionHistory {
  import opened Global
  import opened Congestion

  function Before(es: seq<Event>): seq<Event>
    requires |es| > 0
  {
    es[..|es| - 1]
  }

  /** Since a third duplicate, nothing has advanced the window and no timeout has been taken. */
  predicate InRecovery(es: seq<Event>)
    decreases |es|
  {
    |es| > 0
    && match es[|es| - 1]
       case DupAck(_) => InRecovery(Before(es)) || Duplicates(Before(es)) == 2
       case OldAck(_) => InRecovery(Before(es))
       case _ => false
  }

  /** Duplicates since the last ACK that advanced the window, those in recovery left out. Timeouts do not matter. */
  function Duplicates(es: seq<Event>): nat
    decreases |es|
  {
    if |es| == 0 then 0
    else match es[|es| - 1]
         case NewAck(_) => 0
         case DupAck(_) => Duplicates(Before(es)) + (if InRecovery(Before(es)) then 0 else 1)
         case _ => Duplicates(Before(es))
  }

  /** A timeout, or the third duplicate. */
  predicate Loss(before: seq<Event>, e: Event) {
    e.Timeout? || (e.DupAck? && !InRecovery(before) && Duplicates(before) == 2)
  }

  /** Half the congestion window just before the last loss; without one half the largest window. */
  function HalfAtLoss(es: seq<Event>): nat
    decreases |es|
  {
    if |es| == 0 then MAX_SWINDOW_SIZE / 2
    else if Loss(Before(es), es[|es| - 1]) then Run(INITIAL, Before(es)).cwnd / 2
    else HalfAtLoss(Before(es))
  }

  /** Since the start or a timeout no third duplicate has arrived, and the doubled window has stayed below the
      threshold. */
  predicate InSlowStart(es: seq<Event>)
    decreases |es|
  {
    |es| == 0
    || match es[|es| - 1]
       case Timeout => true
       case NewAck(_) => InSlowStart(Before(es)) && MAX_DLEN * Pow2(Fresh(es)) < HalfAtLoss(es)
       case DupAck(_) => InSlowStart(Before(es)) && Duplicates(Before(es)) != 2
       case OldAck(_) => InSlowStart(Before(es))
  }

  /** Segments the window has gained outside slow start: one per duplicate in recovery, one per advance in avoidance. */
  function Gained(es: seq<Event>): nat
    decreases |es|
  {
    if |es| == 0 || InSlowStart(Before(es)) || Loss(Before(es), es[|es| - 1]) then 0
    else
      var grows := match es[|es| - 1]
                   case NewAck(_) => !InRecovery(Before(es))
                   case DupAck(_) => InRecovery(Before(es))
                   case _ => false;
      Gained(Before(es)) + (if grows then 1 else 0)
  }

  /** The window the peer advertised last. */
  function LastWindow(es: seq<Event>): nat
    decreases |es|
  {
    if |es| == 0 then MAX_RWINDOW_SIZE
    else match es[|es| - 1]
         case Timeout => LastWindow(Before(es))
         case OldAck(adv) => adv
         case DupAck(adv) => adv
         case NewAck(adv) => adv
  }

  /** Slow start doubles from one segment, recovery starts from half the window of the loss and gains a segment per
      duplicate, avoidance gains one per advance; nothing else happens to cwnd, ssthresh or the counter. */
  predicate FormHolds(es: seq<Event>) {
    var c := Run(INITIAL, es);
    && c.status == (if InSlowStart(es) then SlowStart else if InRecovery(es) then FastRecovery else CongestionAvoidance)
    && c.cwnd == (if InSlowStart(es) then MAX_DLEN * Pow2(Fresh(es)) else HalfAtLoss(es) + MAX_DLEN * Gained(es))
    && c.ssthresh == HalfAtLoss(es)
    && c.dups == Duplicates(es)
    && c.rwnd == LastWindow(es)
    && c.wnd == Min(c.cwnd, c.rwnd)
    && (InRecovery(es) ==> !InSlowStart(es))
  }

  lemma AdvanceStep(es: seq<Event>)
    requires |es| > 0 && es[|es| - 1].NewAck? && FormHolds(Before(es))
    ensures FormHolds(es)
  {
    assert HalfAtLoss(es) == HalfAtLoss(Before(es));
    assert Fresh(es) == Fresh(Before(es)) + 1;
  }

  lemma OtherStep(es: seq<Event>)
    requires |es| > 0 && !es[|es| - 1].NewAck? && FormHolds(Before(es))
    ensures FormHolds(es)
  {
  }

  lemma {:induction false} ClosedForm(es: seq<Event>)
    ensures FormHolds(es)
    decreases |es|
  {
    if |es| > 0 {
      ClosedForm(Before(es));
      if es[|es| - 1].NewAck? { AdvanceStep(es); } else { OtherStep(es); }
    }
  }

  // ----- what follows for stretches of a run -----

  function CountDups(es: seq<Event>): nat
    decreases |es|
  {
    if |es| == 0 then 0 else CountDups(Before(es)) + (if es[|es| - 1].DupAck? then 1 else 0)
  }

  /** After the third duplicate: window and threshold are half of what the window was, and the window grows by one
      segment per further duplicate. */
  lemma {:induction false} RecoveryLaw(before: seq<Event>, adv: nat, after: seq<Event>)
    requires var c := Run(INITIAL, before); c.status != FastRecovery && c.dups == 2
    requires forall e <- after :: e.DupAck? || e.OldAck?
    ensures var half := Run(INITIAL, before).cwnd / 2; var c := Run(INITIAL, before + [DupAck(adv)] + after);
            c.status == FastRecovery && c.ssthresh == half && c.cwnd == half + MAX_DLEN * CountDups(after)
    decreases |after|
  {
    var es := before + [DupAck(adv)] + after;
    if |after| == 0 {
      assert Before(es) == before;
    } else {
      assert Before(es) == before + [DupAck(adv)] + Before(after);
      assert after[|after| - 1] in after && forall e <- Before(after) :: e in after;
      RecoveryLaw(before, adv, Before(after));
    }
  }

  /** After a timeout: slow start from one segment, for exactly as many new ACKs as it takes to reach half of what the
      window was, and then the window is that half. */
  lemma SlowStartAfterLoss(before: seq<Event>, after: seq<Event>)
    requires LossFree(Run(INITIAL, before + [Timeout]), after)
    ensures var half := Run(INITIAL, before).cwnd / 2; var n := NewAcks(after);
            var c := Run(INITIAL, before + [Timeout] + after);
            && (c.status == SlowStart <==> n == 0 || MAX_DLEN * Pow2(n) < half)
            && (c.status == SlowStart ==> c.cwnd == MAX_DLEN * Pow2(n) && c.ssthresh == half)
  {
    var es := before + [Timeout];
    assert Before(es) == before;
    RunAppend(INITIAL, es, after);
    SlowStartLength(Run(INITIAL, es), after);
  }

  /** In avoidance without loss the window grows by one segment per new ACK and by nothing else. */
  lemma {:induction false} AvoidanceLaw(c: Cong, es: seq<Event>)
    requires c.status == CongestionAvoidance && LossFree(c, es)
    ensures var d := Run(c, es);
            d.status == CongestionAvoidance && d.cwnd == c.cwnd + MAX_DLEN * NewAcks(es) && d.ssthresh == c.ssthresh
    decreases |es|
  {
    if |es| > 0 {
      AvoidanceLaw(c, Before(es));
    }
  }
}
