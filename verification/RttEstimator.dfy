/** The retransmission-timeout estimator (CalTimeout, src/timer.c:208-230). */
module RttEstimator {
  import opened Global

  datatype Rtt = Rtt(est: nat, dev: nat, rto: nat)

  const INITIAL := Rtt(TCP_RTO_MIN, 0, INITIAL_RTO)

  // 0.875 * e + 0.125 * s and 0.75 * d + 0.25 * x in doubles are exact below 2^50 and the
  // assignment to a uint64 drops the fraction, so both are floors of exact quotients.
  function NewEst(e: nat, s: nat): nat { (7 * e + s) / 8 }

  function NewDev(d: nat, x: nat): nat { (3 * d + x) / 4 }

  /** One sample: the deviation is taken from the mean already updated. */
  function Update(r: Rtt, s: nat): Rtt {
    var e := NewEst(r.est, s);
    var d := NewDev(r.dev, Abs(s - e));
    Rtt(e, d, e + 4 * d)
  }

  function Updates(r: Rtt, samples: seq<nat>): Rtt
    decreases |samples|
  {
    if |samples| == 0 then r else Updates(Update(r, samples[0]), samples[1..])
  }

  lemma {:induction false} UpdatesAppend(r: Rtt, a: seq<nat>, b: seq<nat>)
    ensures Updates(r, a + b) == Updates(Updates(r, a), b)
    decreases |a|
  {
    if |a| == 0 {
      EmptyAppend(a, b);
    } else {
      HeadTail(a, b);
      UpdatesAppend(Update(r, a[0]), a[1..], b);
    }
  }

  predicate Within(r: Rtt, lo: nat, hi: nat) {
    lo <= r.est <= hi && r.dev <= hi - lo
  }

  lemma UpdateWithin(r: Rtt, s: nat, lo: nat, hi: nat)
    requires Within(r, lo, hi) && lo <= s <= hi
    ensures Within(Update(r, s), lo, hi)
    ensures lo <= Update(r, s).rto <= hi + 4 * (hi - lo)
  {
  }

  /** Samples inside [lo, hi] keep the mean there, the deviation below hi - lo, and the RTO inside
      [lo, hi + 4(hi - lo)]. */
  lemma {:induction false} Bounds(r: Rtt, samples: seq<nat>, lo: nat, hi: nat)
    requires Within(r, lo, hi)
    requires forall i :: 0 <= i < |samples| ==> lo <= samples[i] <= hi
    ensures Within(Updates(r, samples), lo, hi)
    ensures samples != [] ==> lo <= Updates(r, samples).rto <= hi + 4 * (hi - lo)
    decreases |samples|
  {
    if |samples| > 0 {
      UpdateWithin(r, samples[0], lo, hi);
      Bounds(Update(r, samples[0]), samples[1..], lo, hi);
    }
  }

  /** The same from the state tju_socket sets up, for any bounds around TCP_RTO_MIN. */
  lemma BoundsFromStart(samples: seq<nat>, lo: nat, hi: nat)
    requires lo <= TCP_RTO_MIN <= hi
    requires forall i :: 0 <= i < |samples| ==> lo <= samples[i] <= hi
    ensures var r := Updates(INITIAL, samples);
            Within(r, lo, hi) && (if samples == [] then r.rto == INITIAL_RTO else lo <= r.rto <= hi + 4 * (hi - lo))
  {
    Bounds(INITIAL, samples, lo, hi);
  }

  /** One sample, exactly: an eighth of it goes into the mean, a quarter of its distance from the new mean into the
      deviation, fractions are dropped, and the interval is the mean and four deviations. */
  lemma UpdateLaw(r: Rtt, s: nat)
    ensures var t := Update(r, s);
            && 8 * t.est <= 7 * r.est + s < 8 * t.est + 8
            && 4 * t.dev <= 3 * r.dev + Abs(s - t.est) < 4 * t.dev + 4
            && t.rto == t.est + 4 * t.dev
  {
  }

  // ----- a constant sample -----

  function Iterate(r: Rtt, s: nat, n: nat): Rtt {
    if n == 0 then r else Update(Iterate(r, s, n - 1), s)
  }

  function Pow(b: nat, n: nat): nat { if n == 0 then 1 else b * Pow(b, n - 1) }

  lemma Scale(k: nat, x: int, y: int)
    requires x <= y
    ensures k * x <= k * y
  {
  }

  lemma Regroup(k: int, m: int, x: int)
    ensures k * m * x == m * (k * x) == k * (m * x)
  {
  }

  /** If m * x is at most p * x0, and k * y at most l * x, then k more on one side are at most l more on the other. */
  lemma Multiply(k: nat, m: nat, l: nat, p: nat, x0: int, x: int, y: int)
    requires m * x <= p * x0 && k * y <= l * x
    ensures k * m * y <= l * p * x0
  {
    Scale(m, k * y, l * x);
    Scale(l, m * x, p * x0);
    Regroup(k, m, y);
    Regroup(l, m, x);
    Regroup(l, p, x0);
  }

  /** One more step that takes at most a fraction of a over b. */
  lemma DecayAbove(a: nat, b: nat, n: nat, x0: int, x: int, y: int)
    requires Pow(b, n) * x <= Pow(a, n) * x0 && b * y <= a * x
    ensures Pow(b, n + 1) * y <= Pow(a, n + 1) * x0
  {
    Multiply(b, Pow(b, n), a, Pow(a, n), x0, x, y);
  }

  /** And one that leaves at least as much. */
  lemma DecayBelow(a: nat, b: nat, n: nat, x0: int, x: int, y: int)
    requires Pow(a, n) * x0 <= Pow(b, n) * x && a * x <= b * y
    ensures Pow(a, n + 1) * x0 <= Pow(b, n + 1) * y
  {
    var pa, pb := Pow(a, n), Pow(b, n);
    Scale(pb, a * x, b * y);
    Scale(a, pa * x0, pb * x);
    Regroup(a, pa, x0);
    Regroup(a, pb, x);
    Regroup(b, pb, y);
  }

  lemma MeanStep(r: Rtt, s: nat)
    ensures var e := Update(r, s).est;
            8 * (e - s) <= 7 * (r.est - s) && 7 * (r.est - s + 7) <= 8 * (e - s + 7)
  {
    UpdateLaw(r, s);
  }

  predicate MeanWithin(n: nat, gap0: int, gap: int) {
    Pow(8, n) * gap <= Pow(7, n) * gap0 && Pow(7, n) * (gap0 + 7) <= Pow(8, n) * (gap + 7)
  }

  lemma MeanWithinStep(n: nat, gap0: int, gap: int, next: int)
    requires MeanWithin(n, gap0, gap) && 8 * next <= 7 * gap && 7 * (gap + 7) <= 8 * (next + 7)
    ensures MeanWithin(n + 1, gap0, next)
  {
    DecayAbove(7, 8, n, gap0, gap, next);
    DecayBelow(7, 8, n, gap0 + 7, gap + 7, next + 7);
  }

  /** How fast: n samples of s take the mean's distance from s to (7/8)^n of what it was, give or take the seven
      units that truncation can hold it below. */
  lemma {:induction false} MeanDecays(r: Rtt, s: nat, n: nat)
    ensures MeanWithin(n, r.est - s, Iterate(r, s, n).est - s)
  {
    if n > 0 {
      MeanDecays(r, s, n - 1);
      MeanStep(Iterate(r, s, n - 1), s);
      MeanWithinStep(n - 1, r.est - s, Iterate(r, s, n - 1).est - s, Iterate(r, s, n).est - s);
    }
  }

  predicate DeviationWithin(n: nat, dev0: nat, dev: nat) {
    Pow(4, n) * dev <= Pow(3, n) * dev0 && Pow(3, n) * (dev0 + 3) <= Pow(4, n) * (dev + 3)
  }

  lemma DeviationWithinStep(n: nat, dev0: nat, dev: nat, next: nat)
    requires DeviationWithin(n, dev0, dev) && 4 * next <= 3 * dev < 4 * next + 4
    ensures DeviationWithin(n + 1, dev0, next)
  {
    DecayAbove(3, 4, n, dev0, dev, next);
    DecayBelow(3, 4, n, dev0 + 3, dev + 3, next + 3);
  }

  lemma QuietStep(r: Rtt)
    ensures var t := Update(r, r.est); t.est == r.est && 4 * t.dev <= 3 * r.dev < 4 * t.dev + 4
  {
    UpdateLaw(r, r.est);
  }

  /** And n samples equal to the mean leave the mean alone and take the deviation to (3/4)^n, give or take three. */
  lemma {:induction false} DeviationDecays(r: Rtt, n: nat)
    ensures var t := Iterate(r, r.est, n); t.est == r.est && DeviationWithin(n, r.dev, t.dev)
  {
    if n > 0 {
      DeviationDecays(r, n - 1);
      QuietStep(Iterate(r, r.est, n - 1));
      DeviationWithinStep(n - 1, r.dev, Iterate(r, r.est, n - 1).dev, Iterate(r, r.est, n).dev);
    }
  }

  predicate Settled(r: Rtt, s: nat) {
    r.est <= s && s - r.est <= 7 && r.dev <= s - r.est
  }

  /** Settled states stay settled: the mean is a fixed point of the truncated average. */
  lemma SettledStays(r: Rtt, s: nat)
    requires Settled(r, s)
    ensures Settled(Update(r, s), s) && Update(r, s).est == r.est
    ensures s - 7 <= Update(r, s).rto <= s + 21
  {
  }

  /** How far a state is from settled; each sample takes at least one unit away. */
  function Distance(r: Rtt, s: nat): (nat, nat) {
    (if r.est > s then r.est - s else if s - r.est > 7 then s - r.est else 0, r.dev)
  }

  lemma Approaches(r: Rtt, s: nat)
    requires !Settled(r, s)
    ensures var (a, d) := Distance(r, s); var (a', d') := Distance(Update(r, s), s);
            a' < a || (a' == a && d' < d)
  {
    var e := NewEst(r.est, s);
    if r.est > s {
      assert s <= e < r.est;
    } else if s - r.est > 7 {
      assert r.est < e <= s;
    } else {
      assert e == r.est;
    }
  }

  lemma {:induction false} Settles(r: Rtt, s: nat) returns (n: nat)
    ensures Settled(Iterate(r, s, n), s)
    decreases Distance(r, s).0, Distance(r, s).1
  {
    if Settled(r, s) {
      n := 0;
    } else {
      Approaches(r, s);
      var k := Settles(Update(r, s), s);
      IterateShift(r, s, k);
      n := k + 1;
    }
  }

  lemma {:induction false} IterateShift(r: Rtt, s: nat, n: nat)
    ensures Iterate(Update(r, s), s, n) == Iterate(r, s, n + 1)
  {
    if n > 0 {
      IterateShift(r, s, n - 1);
    }
  }

  lemma {:induction false} SettledForever(r: Rtt, s: nat, n: nat, m: nat)
    requires Settled(Iterate(r, s, n), s) && n < m
    ensures Settled(Iterate(r, s, m), s) && s - 7 <= Iterate(r, s, m).rto <= s + 21
  {
    if m > n + 1 {
      SettledForever(r, s, n, m - 1);
    }
    SettledStays(Iterate(r, s, m - 1), s);
  }

  /** After more than n updates the mean is in [s-7, s] and the RTO in [s-7, s+21]. */
  ghost predicate CloseAfter(r: Rtt, s: nat, n: nat) {
    forall m: nat :: m > n ==> s - 7 <= Iterate(r, s, m).est <= s && s - 7 <= Iterate(r, s, m).rto <= s + 21
  }

  /** One repeated sample, from any state: finitely many updates bring mean and RTO close to it, for ever. */
  lemma ConstantSample(r: Rtt, s: nat)
    ensures exists n: nat :: CloseAfter(r, s, n)
  {
    var n := Settles(r, s);
    forall m: nat | m > n
      ensures s - 7 <= Iterate(r, s, m).est <= s && s - 7 <= Iterate(r, s, m).rto <= s + 21
    {
      SettledForever(r, s, n, m);
    }
    assert CloseAfter(r, s, n);
  }

  // ----- when the timer arms -----

  /** setitimer takes the RTO as tv_usec with tv_sec = 0: zero disarms, a million or more is refused. */
  predicate Arms(r: Rtt) { 1 <= r.rto <= MAX_USEC }

  lemma ArmsFromStart(samples: seq<nat>, lo: nat, hi: nat)
    requires 1 <= lo <= TCP_RTO_MIN <= hi && hi + 4 * (hi - lo) <= MAX_USEC
    requires forall i :: 0 <= i < |samples| ==> lo <= samples[i] <= hi
    ensures Arms(Updates(INITIAL, samples))
  {
    BoundsFromStart(samples, lo, hi);
  }

  /** After the first sample, whatever it is, the timer starts iff the sample is below one second. */
  lemma FirstSampleArms(s: nat)
    ensures Arms(Update(INITIAL, s)) <==> s < 1_000_000
  {
    var e := NewEst(TCP_RTO_MIN, s);
    var x := Abs(s - e);
    assert NewDev(0, x) == x / 4;
    if s >= TCP_RTO_MIN {
      assert x == s - e;
    } else {
      assert s <= e <= TCP_RTO_MIN;
    }
  }

  /** A sample that keeps the timer arming, whatever the estimator holds. */
  function SafeSample(r: Rtt): nat { if r.est >= 1 then r.est else 8 }

  /** rto is est + 4 dev after any sample; before the first it is the initial half second. */
  predicate Consistent(r: Rtt) { r == INITIAL || r.rto == r.est + 4 * r.dev }

  lemma Div8(e: nat)
    ensures (7 * e + e) / 8 == e
  {
  }

  lemma Div4(d: nat, x: nat)
    ensures 4 * ((3 * d + x) / 4) <= 3 * d + x
  {
  }

  lemma UpdateSame(r: Rtt)
    ensures Update(r, r.est) == Rtt(r.est, NewDev(r.dev, 0), r.est + 4 * NewDev(r.dev, 0))
  {
    Div8(r.est);
  }

  lemma UpdateZero(r: Rtt)
    requires r.est == 0
    ensures Update(r, 8) == Rtt(1, NewDev(r.dev, 7), 1 + 4 * NewDev(r.dev, 7))
  {
    assert NewEst(0, 8) == 1;
  }

  /** est + 4 dev from the old state bounds the new interval. */
  lemma SafeSampleBound(r: Rtt)
    ensures var t := Update(r, SafeSample(r));
            && t.rto == t.est + 4 * t.dev
            && 1 <= t.rto <= (if r.est >= 1 then r.est + 3 * r.dev else 8 + 3 * r.dev)
  {
    if r.est >= 1 {
      UpdateSame(r);
      Div4(r.dev, 0);
    } else {
      UpdateZero(r);
      Div4(r.dev, 7);
    }
  }

  lemma SafeSampleArms(r: Rtt)
    requires Consistent(r) && Arms(r)
    ensures Consistent(Update(r, SafeSample(r))) && Arms(Update(r, SafeSample(r)))
  {
    SafeSampleBound(r);
    if r != INITIAL {
      assert r.est + 4 * r.dev <= MAX_USEC;
    }
  }
}
