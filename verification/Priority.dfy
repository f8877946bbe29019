/** The dynamic-priority arithmetic, over exact rationals with truncation toward zero. */
module Priority {

  const LOWEST: int := -20
  const HIGHEST: int := 19

  const CPU_WEIGHT: real := 0.7
  const STARVATION_WEIGHT: real := 0.3
  const IO_BOOST: real := 0.2

  predicate InRange(p: int) { LOWEST <= p <= HIGHEST }

  function Truncate(x: real): int {
    if x >= 0.0 then x.Floor else 0 - (0.0 - x).Floor
  }

  function Clamp(p: int): int {
    if p < LOWEST then LOWEST else if p > HIGHEST then HIGHEST else p
  }

  /** Truncation drops the fraction, toward zero; the clamp leaves [-20, 19] alone. */
  lemma TruncatesTowardZero(x: real)
    ensures x >= 0.0 ==> Truncate(x) as real <= x < Truncate(x) as real + 1.0
    ensures x <= 0.0 ==> Truncate(x) as real - 1.0 < x <= Truncate(x) as real
  {
  }

  lemma ClampIs(p: int)
    ensures -20 <= p <= 19 ==> Clamp(p) == p
    ensures p < -20 ==> Clamp(p) == -20
    ensures p > 19 ==> Clamp(p) == 19
  {
  }

  /** Ten seconds without running count as full starvation. */
  function Starvation(waitedNs: int): (s: real)
    ensures 0.0 <= s <= 1.0
    ensures waitedNs <= 0 ==> s == 0.0
    ensures 0 <= waitedNs <= 10_000_000_000 ==> s * 10_000_000_000.0 == waitedNs as real
    ensures waitedNs >= 10_000_000_000 ==> s == 1.0
  {
    var s := waitedNs as real / 10_000_000_000.0;
    if s < 0.0 then 0.0 else if s > 1.0 then 1.0 else s
  }

  function Adjustment(cpuUsage: real, starvation: real, ioBound: bool): real {
    CPU_WEIGHT * cpuUsage - STARVATION_WEIGHT * starvation - (if ioBound then IO_BOOST else 0.0)
  }

  /** What `adjust_dynamic_priority` stores. */
  function Dynamic(staticPriority: int, cpuUsage: real, starvation: real, ioBound: bool): (p: int)
    ensures InRange(p)
  {
    Clamp(Truncate(staticPriority as real + Adjustment(cpuUsage, starvation, ioBound) * 20.0))
  }

  /** A whole number minus a non-negative amount never truncates above itself. */
  lemma TruncateBelow(p: int, x: real)
    requires x >= 0.0
    ensures Truncate(p as real - x) <= p
  {
    var y := p as real - x;
    if y >= 0.0 {
      assert y.Floor as real <= y;
    } else {
      assert (0.0 - y).Floor as real > 0.0 - y - 1.0;
    }
  }

  /** Without CPU usage an adjustment never raises a valid priority. */
  lemma NeverRises(p: int, starvation: real, ioBound: bool)
    requires InRange(p) && 0.0 <= starvation
    ensures Dynamic(p, 0.0, starvation, ioBound) <= p
  {
    TruncateBelow(p, STARVATION_WEIGHT * starvation * 20.0 + (if ioBound then IO_BOOST * 20.0 else 0.0));
  }

  /** What one adjustment takes off a fully starved task. */
  function Drop(ioBound: bool): nat { if ioBound then 10 else 6 }

  lemma StarvedDrop(p: int, ioBound: bool)
    requires InRange(p)
    ensures Dynamic(p, 0.0, 1.0, ioBound) == Clamp(p - Drop(ioBound))
  {
    assert (p - Drop(ioBound)) as real == p as real + Adjustment(0.0, 1.0, ioBound) * 20.0;
  }

  /** `k` starved adjustments, each starting from what the last one stored. */
  function Starved(p: int, ioBound: bool, k: nat): (r: int)
    requires InRange(p)
    ensures InRange(r)
  {
    if k == 0 then p else Dynamic(Starved(p, ioBound, k - 1), 0.0, 1.0, ioBound)
  }

  /** The closed form: a straight fall to the fixed point -20, reached after at most seven steps. */
  lemma {:induction false} StarvedFalls(p: int, ioBound: bool, k: nat)
    requires InRange(p)
    ensures Starved(p, ioBound, k) == Clamp(p - k * Drop(ioBound))
    ensures k >= 7 ==> Starved(p, ioBound, k) == LOWEST
  {
    if k > 0 {
      StarvedFalls(p, ioBound, k - 1);
      StarvedDrop(Starved(p, ioBound, k - 1), ioBound);
    }
  }

  /** The part of a drop that does not depend on waiting. */
  function Boost(ioBound: bool): nat { if ioBound then 4 else 0 }

  /** A share of starvation, that of two microseconds, that single precision does not round away even against
      the largest priority. */
  const NOTICED: real := 0.0000002

  /** An adjustment soon after another one (a starvation share under 1/6): truncation toward zero
      takes one more point off a priority that stays positive and leaves the others alone. What holds of
      shorter shares too is `Rounding.RoundedBarelyStarved`. */
  lemma BarelyStarvedDrop(p: int, starvation: real, ioBound: bool)
    requires InRange(p) && NOTICED <= starvation < 1.0 / 6.0
    ensures Dynamic(p, 0.0, starvation, ioBound) ==
      Clamp(if p > Boost(ioBound) then p - Boost(ioBound) - 1 else p - Boost(ioBound))
  {
    var x := 6.0 * starvation;
    var q := p - Boost(ioBound);
    assert p as real + Adjustment(0.0, starvation, ioBound) * 20.0 == q as real - x;
    assert 0.0 < x < 1.0;
    if q > 0 {
      assert (q as real - x).Floor == q - 1;
    } else {
      assert (0.0 - (q as real - x)).Floor == 0 - q;
    }
  }

  lemma TruncateMonotone(x: real, y: real)
    requires x <= y
    ensures Truncate(x) <= Truncate(y)
  {
  }

  /** More CPU usage never lowers the number, more waiting never raises it, and being I/O-bound never does. */
  lemma DynamicMonotone(p: int, usage: real, usage': real, starvation: real, starvation': real, ioBound: bool)
    requires usage <= usage' && starvation' <= starvation
    ensures Dynamic(p, usage, starvation, ioBound) <= Dynamic(p, usage', starvation', ioBound)
    ensures Dynamic(p, usage, starvation, true) <= Dynamic(p, usage, starvation, false)
  {
    TruncateMonotone(p as real + Adjustment(usage, starvation, ioBound) * 20.0,
                     p as real + Adjustment(usage', starvation', ioBound) * 20.0);
    TruncateMonotone(p as real + Adjustment(usage, starvation, true) * 20.0,
                     p as real + Adjustment(usage, starvation, false) * 20.0);
  }

  /** A full slice costs fourteen points. What the longest wait pays back of them depends on rounding:
      `Rounding.StarvedFullUsage`. */
  lemma FullUsageRises(p: int)
    ensures Dynamic(p, 1.0, 0.0, false) == Clamp(p + 14)
  {
    assert p as real + Adjustment(1.0, 0.0, false) * 20.0 == (p + 14) as real;
  }

  /** Truncating a quotient is dividing toward zero. */
  lemma TruncatedQuotient(n: int)
    ensures Truncate(n as real / 10_000_000_000.0) == if n >= 0 then n / 10_000_000_000 else 0 - (0 - n) / 10_000_000_000
  {
    FloorQuotient(if n >= 0 then n else 0 - n);
    if n < 0 {
      assert 0.0 - n as real / 10_000_000_000.0 == (0 - n) as real / 10_000_000_000.0;
    }
  }

  lemma FloorQuotient(n: nat)
    ensures (n as real / 10_000_000_000.0).Floor == n / 10_000_000_000
  {
    var q, r := n / 10_000_000_000, n % 10_000_000_000;
    assert n == q * 10_000_000_000 + r;
    assert n as real == q as real * 10_000_000_000.0 + r as real;
    assert q as real <= n as real / 10_000_000_000.0 < q as real + 1.0;
  }

  /** The whole formula in the time waited and the usage: 14 points for full usage, 6 back for ten seconds or
      more, in proportion in between, and 4 for being I/O-bound. */
  lemma DynamicIs(p: int, usage: real, waitedNs: int, ioBound: bool)
    ensures var w := if waitedNs < 0 then 0 else if waitedNs > 10_000_000_000 then 10_000_000_000 else waitedNs;
      Dynamic(p, usage, Starvation(waitedNs), ioBound) ==
        Clamp(Truncate(p as real + 14.0 * usage - 6.0 * w as real / 10_000_000_000.0 - (if ioBound then 4.0 else 0.0)))
  {
    var w := if waitedNs < 0 then 0 else if waitedNs > 10_000_000_000 then 10_000_000_000 else waitedNs;
    var s := Starvation(waitedNs);
    assert s * 10_000_000_000.0 == w as real;
    assert Adjustment(usage, s, ioBound) * 20.0 == 14.0 * usage - 6.0 * s - (if ioBound then 4.0 else 0.0);
  }

  /** Without CPU usage the formula is one integer division, toward zero. */
  lemma IdleDynamicIs(p: int, waitedNs: int, ioBound: bool)
    ensures var w := if waitedNs < 0 then 0 else if waitedNs > 10_000_000_000 then 10_000_000_000 else waitedNs;
      var n := 10_000_000_000 * (if ioBound then p - 4 else p) - 6 * w;
      Dynamic(p, 0.0, Starvation(waitedNs), ioBound) ==
        Clamp(if n >= 0 then n / 10_000_000_000 else 0 - (0 - n) / 10_000_000_000)
  {
    DynamicIs(p, 0.0, waitedNs, ioBound);
    var w := if waitedNs < 0 then 0 else if waitedNs > 10_000_000_000 then 10_000_000_000 else waitedNs;
    var n := 10_000_000_000 * (if ioBound then p - 4 else p) - 6 * w;
    assert p as real - 6.0 * w as real / 10_000_000_000.0 - (if ioBound then 4.0 else 0.0) == n as real / 10_000_000_000.0;
    hide Truncate, Clamp, Dynamic, Starvation;
    TruncatedQuotient(n);
  }
}
