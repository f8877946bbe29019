/** The same priority arithmetic with every result rounded: what holds of it whatever the rounding. */
module Rounding {
  import opened Priority

  /** A bound on the error of one single-precision operation between -64 and 64. */
  const ERROR: real := 0.000004

  /** Monotone, exact on small whole numbers, and never far off. Rounding to nearest in IEEE 754 single
      precision has these properties. */
  ghost predicate IsRounding(rnd: real -> real) {
    && (forall x, y :: x <= y ==> rnd(x) <= rnd(y))
    && (forall n: int :: -64 <= n <= 64 ==> Fixes(rnd, n))
    && (forall x :: -64.0 <= x <= 64.0 ==> x - ERROR <= rnd(x) <= x + ERROR)
  }

  predicate Fixes(rnd: real -> real, n: int) { rnd(n as real) == n as real }

  function Term(rnd: real -> real, weight: real, factor: real): real { rnd(rnd(weight) * factor) }

  /** The adjustment in the code's order of operations; `usage` and `starvation` are as stored. */
  function RoundedAdjustment(rnd: real -> real, usage: real, starvation: real, ioBound: bool): real {
    var a := rnd(Term(rnd, CPU_WEIGHT, usage) - Term(rnd, STARVATION_WEIGHT, starvation));
    if ioBound then rnd(a - rnd(IO_BOOST)) else a
  }

  function RoundedSum(rnd: real -> real, p: int, usage: real, starvation: real, ioBound: bool): real {
    rnd(p as real + rnd(RoundedAdjustment(rnd, usage, starvation, ioBound) * 20.0))
  }

  function RoundedDynamic(rnd: real -> real, p: int, usage: real, starvation: real, ioBound: bool): int {
    Clamp(Truncate(RoundedSum(rnd, p, usage, starvation, ioBound)))
  }

  /** Exact arithmetic is the special case of no rounding. */
  lemma ExactIsRounding(p: int, usage: real, starvation: real, ioBound: bool)
    ensures IsRounding(x => x)
    ensures RoundedDynamic(x => x, p, usage, starvation, ioBound) == Dynamic(p, usage, starvation, ioBound)
  {
  }

  lemma Whole(rnd: real -> real, n: int)
    requires IsRounding(rnd) && -64 <= n <= 64
    ensures rnd(n as real) == n as real
  {
    assert Fixes(rnd, n);
  }

  lemma Ordered(rnd: real -> real, x: real, y: real)
    requires IsRounding(rnd) && x <= y
    ensures rnd(x) <= rnd(y)
  {
  }

  lemma Close(rnd: real -> real, x: real)
    requires IsRounding(rnd) && -64.0 <= x <= 64.0
    ensures x - ERROR <= rnd(x) <= x + ERROR
  {
  }

  lemma Product(a: real, b: real, c: real)
    requires a <= b && c >= 0.0
    ensures a * c <= b * c && c * a <= c * b
  {
    assert (b - a) * c >= 0.0;
  }

  /** With no CPU usage an adjustment never raises a valid priority, under any rounding. */
  lemma RoundedNeverRises(rnd: real -> real, p: int, starvation: real, ioBound: bool)
    requires IsRounding(rnd) && InRange(p) && starvation >= 0.0
    ensures RoundedDynamic(rnd, p, 0.0, starvation, ioBound) <= p
  {
    hide IsRounding, Term;
    Whole(rnd, 0);
    Whole(rnd, p);
    Ordered(rnd, 0.0, IO_BOOST);
    TermOrdered(rnd, STARVATION_WEIGHT, 0.0, starvation);
    NoTerm(rnd, STARVATION_WEIGHT);
    NoTerm(rnd, CPU_WEIGHT);
    var b := Term(rnd, STARVATION_WEIGHT, starvation);
    Ordered(rnd, 0.0 - b, 0.0);
    Ordered(rnd, rnd(0.0 - b) - rnd(IO_BOOST), 0.0);
    var d := RoundedAdjustment(rnd, 0.0, starvation, ioBound);
    Ordered(rnd, d * 20.0, 0.0);
    Ordered(rnd, p as real + rnd(d * 20.0), p as real);
    TruncateMonotone(RoundedSum(rnd, p, 0.0, starvation, ioBound), p as real);
  }

  lemma NoTerm(rnd: real -> real, weight: real)
    requires IsRounding(rnd)
    ensures Term(rnd, weight, 0.0) == 0.0
  {
    Whole(rnd, 0);
    assert rnd(weight) * 0.0 == 0.0;
  }

  lemma TermOrdered(rnd: real -> real, weight: real, factor: real, factor': real)
    requires IsRounding(rnd) && weight >= 0.0 && factor <= factor'
    ensures Term(rnd, weight, factor) <= Term(rnd, weight, factor')
  {
    Whole(rnd, 0);
    Ordered(rnd, 0.0, weight);
    Product(factor, factor', rnd(weight));
    Ordered(rnd, rnd(weight) * factor, rnd(weight) * factor');
  }

  /** More CPU usage never lowers the number and more waiting never raises it, under any rounding. */
  lemma RoundedMonotone(rnd: real -> real, p: int, usage: real, usage': real, starvation: real, starvation': real, ioBound: bool)
    requires IsRounding(rnd) && usage <= usage' && starvation' <= starvation
    ensures RoundedDynamic(rnd, p, usage, starvation, ioBound) <= RoundedDynamic(rnd, p, usage', starvation', ioBound)
  {
    hide IsRounding, Truncate, Term;
    TermOrdered(rnd, CPU_WEIGHT, usage, usage');
    TermOrdered(rnd, STARVATION_WEIGHT, starvation', starvation);
    var a := Term(rnd, CPU_WEIGHT, usage) - Term(rnd, STARVATION_WEIGHT, starvation);
    var a' := Term(rnd, CPU_WEIGHT, usage') - Term(rnd, STARVATION_WEIGHT, starvation');
    Ordered(rnd, a, a');
    Ordered(rnd, rnd(a) - rnd(IO_BOOST), rnd(a') - rnd(IO_BOOST));
    var d := RoundedAdjustment(rnd, usage, starvation, ioBound);
    var d' := RoundedAdjustment(rnd, usage', starvation', ioBound);
    Ordered(rnd, d * 20.0, d' * 20.0);
    Ordered(rnd, p as real + rnd(d * 20.0), p as real + rnd(d' * 20.0));
    TruncateMonotone(RoundedSum(rnd, p, usage, starvation, ioBound), RoundedSum(rnd, p, usage', starvation', ioBound));
  }

  lemma NotNegative(a: real, b: real)
    requires a >= 0.0 && b >= 0.0
    ensures a * b >= 0.0
  {
  }

  /** A factor between 0 and 1 brings a number no further from zero. */
  lemma Scaled(x: real, bound: real, factor: real)
    requires 0.0 - bound <= x <= bound && 0.0 <= factor <= 1.0
    ensures 0.0 - bound <= x * factor <= bound
  {
    NotNegative(bound - x, factor);
    NotNegative(bound + x, factor);
    NotNegative(bound, 1.0 - factor);
  }

  lemma ProductClose(x: real, y: real, factor: real)
    requires y - ERROR <= x <= y + ERROR && 0.0 <= factor <= 1.0
    ensures y * factor - ERROR <= x * factor <= y * factor + ERROR
  {
    NotNegative(x - y + ERROR, factor);
    NotNegative(y - x + ERROR, factor);
  }

  lemma TermClose(rnd: real -> real, weight: real, factor: real)
    requires IsRounding(rnd) && 0.0 <= weight <= 1.0 && 0.0 <= factor <= 1.0
    ensures weight * factor - 2.0 * ERROR <= Term(rnd, weight, factor) <= weight * factor + 2.0 * ERROR
    ensures 0.0 - weight <= weight * factor <= weight
  {
    hide IsRounding;
    Close(rnd, weight);
    Scaled(weight, weight, factor);
    ProductClose(rnd(weight), weight, factor);
    var product := rnd(weight) * factor;
    assert -1.0 <= weight * factor <= 1.0;
    assert weight * factor - ERROR <= product <= weight * factor + ERROR;
    Close(rnd, product);
  }

  /** The operations after the two products add little error. */
  lemma RestClose(rnd: real -> real, p: int, a: real, b: real, ioBound: bool)
    requires IsRounding(rnd) && InRange(p) && -0.8 <= a <= 0.8 && -0.4 <= b <= 0.4
    ensures var d := if ioBound then rnd(rnd(a - b) - rnd(IO_BOOST)) else rnd(a - b);
      var exact := p as real + (a - b - (if ioBound then IO_BOOST else 0.0)) * 20.0;
      exact - 0.0005 <= rnd(p as real + rnd(d * 20.0)) <= exact + 0.0005
  {
    hide IsRounding;
    var d := if ioBound then rnd(rnd(a - b) - rnd(IO_BOOST)) else rnd(a - b);
    Close(rnd, IO_BOOST);
    Close(rnd, a - b);
    Close(rnd, rnd(a - b) - rnd(IO_BOOST));
    Close(rnd, d * 20.0);
    Close(rnd, p as real + rnd(d * 20.0));
  }

  /** The rounded sum is close to the exact one. */
  lemma SumClose(rnd: real -> real, p: int, usage: real, starvation: real, ioBound: bool)
    requires IsRounding(rnd) && InRange(p) && 0.0 <= usage <= 1.0 && 0.0 <= starvation <= 1.0
    ensures var exact := p as real + Adjustment(usage, starvation, ioBound) * 20.0;
      exact - 0.001 <= RoundedSum(rnd, p, usage, starvation, ioBound) <= exact + 0.001
  {
    hide IsRounding, Term;
    TermClose(rnd, CPU_WEIGHT, usage);
    TermClose(rnd, STARVATION_WEIGHT, starvation);
    RestClose(rnd, p, Term(rnd, CPU_WEIGHT, usage), Term(rnd, STARVATION_WEIGHT, starvation), ioBound);
  }

  /** Rounding moves a stored priority by at most one point. */
  lemma RoundedWithinOne(rnd: real -> real, p: int, usage: real, starvation: real, ioBound: bool)
    requires IsRounding(rnd) && InRange(p) && 0.0 <= usage <= 1.0 && 0.0 <= starvation <= 1.0
    ensures -1 <= RoundedDynamic(rnd, p, usage, starvation, ioBound) - Dynamic(p, usage, starvation, ioBound) <= 1
  {
    SumClose(rnd, p, usage, starvation, ioBound);
    hide IsRounding, RoundedSum;
  }

  /** Truncating near a whole number gives that number or the one next to it on the side of zero. */
  lemma TruncateNear(n: int, x: real)
    requires n as real - 0.001 <= x <= n as real + 0.001
    ensures n > 0 ==> n - 1 <= Truncate(x) <= n
    ensures n == 0 ==> Truncate(x) == 0
    ensures n < 0 ==> n <= Truncate(x) <= n + 1
  {
  }

  /** A full slice after the longest wait costs eight points, or four if I/O-bound; rounding may leave the
      result one point nearer zero. */
  lemma StarvedFullUsage(rnd: real -> real, p: int, ioBound: bool)
    requires IsRounding(rnd) && InRange(p)
    ensures var n, r := p + (if ioBound then 4 else 8), RoundedDynamic(rnd, p, 1.0, 1.0, ioBound);
      && (n > 0 ==> Clamp(n - 1) <= r <= Clamp(n))
      && (n == 0 ==> r == 0)
      && (n < 0 ==> Clamp(n) <= r <= Clamp(n + 1))
  {
    SumClose(rnd, p, 1.0, 1.0, ioBound);
    var n := p + (if ioBound then 4 else 8);
    assert p as real + Adjustment(1.0, 1.0, ioBound) * 20.0 == n as real;
    TruncateNear(n, RoundedSum(rnd, p, 1.0, 1.0, ioBound));
    hide IsRounding, RoundedSum, Truncate;
  }

  /** An adjustment soon after another one, under any rounding and however short the gap: a plain or CPU
      task at 0 or below keeps its priority, one above 0 loses at most one point. */
  lemma RoundedBarelyStarved(rnd: real -> real, p: int, starvation: real)
    requires IsRounding(rnd) && InRange(p) && 0.0 <= starvation <= 0.15
    ensures var r := RoundedDynamic(rnd, p, 0.0, starvation, false);
      if p <= 0 then r == p else p - 1 <= r <= p
  {
    SumClose(rnd, p, 0.0, starvation, false);
    RoundedNeverRises(rnd, p, starvation, false);
    hide IsRounding, RoundedSum;
  }

  /** Such adjustments one after another, each starting from what the last one stored. */
  function RoundedChain(rnd: real -> real, p: int, starvations: seq<real>): int {
    if starvations == [] then p else
    RoundedDynamic(rnd, RoundedChain(rnd, p, starvations[..|starvations| - 1]), 0.0, starvations[|starvations| - 1], false)
  }

  /** They never take a priority below 0 from above, nor move one that is not above 0. */
  lemma {:induction false} RoundedSettles(rnd: real -> real, p: int, starvations: seq<real>)
    requires IsRounding(rnd) && InRange(p)
    requires forall i :: 0 <= i < |starvations| ==> 0.0 <= starvations[i] <= 0.15
    ensures var r, k := RoundedChain(rnd, p, starvations), |starvations|;
      InRange(r) && if p <= 0 then r == p else (if k < p then p - k else 0) <= r <= p
  {
    hide IsRounding, RoundedDynamic;
    if starvations != [] {
      var k := |starvations| - 1;
      RoundedSettles(rnd, p, starvations[..k]);
      RoundedBarelyStarved(rnd, RoundedChain(rnd, p, starvations[..k]), starvations[k]);
    }
  }
}
