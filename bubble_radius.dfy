/** The radius model of the bubble chart: a device multiplier from the
    screen diagonal, base bounds from the stock count, a percentile-rank and
    change-ratio blend mapped into those bounds, and a rescale that keeps the
    total bubble area within 52% of the screen.

    `Math.pow(x, 2.2)`, `Math.pow(x, 1.5)` and `Math.sqrt` are parameters:
    the curves are any monotone maps of [0, 1] into [0, 1] that send 1
    to 1, and the square root is any function that squares back to its
    argument. */
module BubbleRadius {
  import opened Stocks
  import Sorting

  /** `Math.PI`, the double nearest to pi, as an exact real. */
  const Pi: real := 3.141592653589793

  /** What the radius model assumes of `Math.pow(·, 2.2)` and `Math.pow(·, 1.5)`. */
  ghost predicate UnitCurve(f: real -> real) {
    && (forall x :: 0.0 <= x <= 1.0 ==> 0.0 <= f(x) <= 1.0)
    && (forall x, y :: 0.0 <= x <= y <= 1.0 ==> f(x) <= f(y))
    && f(1.0) == 1.0
  }

  /** What the model assumes of `Math.sqrt`. */
  ghost predicate IsSqrt(sqrt: real -> real) {
    forall x :: 0.0 <= x ==> 0.0 <= sqrt(x) && sqrt(x) * sqrt(x) == x
  }

  lemma MulMonotone(a: real, b: real, c: real)
    requires 0.0 <= c && a <= b
    ensures a * c <= b * c
  {
  }

  lemma SquareMonotone(a: real, b: real)
    requires 0.0 <= a <= b
    ensures a * a <= b * b
  {
    MulMonotone(a, b, a);
    MulMonotone(a, b, b);
  }

  lemma SquareStrictMonotone(a: real, b: real)
    requires 0.0 <= a < b
    ensures a * a < b * b
  {
    var d := b - a;
    assert b * b == a * a + 2.0 * a * d + d * d;
    assert d * d > 0.0;
    assert a * d >= 0.0;
  }

  /** Comparing the diagonal with a breakpoint is comparing its square with
      the breakpoint's square, which is how DeviceMultiplier is written. */
  lemma DiagonalComparison(diagSq: real, k: real, sqrt: real -> real)
    requires IsSqrt(sqrt) && diagSq >= 0.0 && k >= 0.0
    ensures sqrt(diagSq) < k <==> diagSq < k * k
  {
    var d := sqrt(diagSq);
    assert 0.0 <= d && d * d == diagSq;
    if d < k { SquareStrictMonotone(d, k); }
    else { SquareMonotone(k, d); }
  }

  /** The device multiplier for a screen whose diagonal squared is `diagSq`:
      seven bands from 1.0 (diagonal under 600) to 1.8 (2600 and over). */
  function DeviceMultiplier(diagSq: real): (m: real)
    ensures 1.0 <= m <= 1.8
  {
    if diagSq < 600.0 * 600.0 then 1.0
    else if diagSq < 900.0 * 900.0 then 1.1
    else if diagSq < 1200.0 * 1200.0 then 1.2
    else if diagSq < 1600.0 * 1600.0 then 1.3
    else if diagSq < 2000.0 * 2000.0 then 1.45
    else if diagSq < 2600.0 * 2600.0 then 1.6
    else 1.8
  }

  /** A bigger screen never gets a smaller multiplier. */
  lemma DeviceMultiplierMonotone(d1: real, d2: real)
    requires d1 <= d2
    ensures DeviceMultiplier(d1) <= DeviceMultiplier(d2)
  {
  }

  /** The (min, max) radius factors of the smallest screen side, by stock count. */
  function TierFactors(count: nat): (f: (real, real))
    ensures 0.0 < f.0 < f.1
  {
    if count <= 10 then (0.04, 0.18)
    else if count <= 20 then (0.03, 0.15)
    else if count <= 50 then (0.022, 0.12)
    else if count <= 100 then (0.016, 0.09)
    else (0.012, 0.07)
  }

  /** More stocks never get larger base bubbles. */
  lemma TierFactorsShrink(n1: nat, n2: nat)
    requires n1 <= n2
    ensures TierFactors(n2).0 <= TierFactors(n1).0
    ensures TierFactors(n2).1 <= TierFactors(n1).1
  {
  }

  datatype Bounds = Bounds(minR: real, maxR: real)

  /** The radius range for `count` stocks on a screen whose smaller side is
      `side`: the tier's bounds, with the minimum raised to 14 and the maximum
      raised to 3.5 times the minimum. */
  function RadiusBounds(count: nat, side: real, dm: real): (b: Bounds)
    requires side >= 0.0 && dm >= 1.0
    ensures b.minR >= 14.0 && b.maxR >= 3.5 * b.minR
    ensures b.minR >= side * TierFactors(count).0 * dm
    ensures b.maxR >= side * TierFactors(count).1 * dm
    ensures b.minR == 14.0 || b.minR == side * TierFactors(count).0 * dm
    ensures b.maxR == 3.5 * b.minR || b.maxR == side * TierFactors(count).1 * dm
  {
    var f := TierFactors(count);
    var minR := Max(14.0, side * f.0 * dm);
    Bounds(minR, Max(minR * 3.5, side * f.1 * dm))
  }

  /** `sorted.filter(c => c <= v).length` */
  function CountAtMost(s: seq<real>, v: real): (n: nat)
    ensures n <= |s|
  {
    if s == [] then 0 else (if s[0] <= v then 1 else 0) + CountAtMost(s[1..], v)
  }

  lemma {:induction false} CountAtMostAppend(a: seq<real>, b: seq<real>, v: real)
    ensures CountAtMost(a + b, v) == CountAtMost(a, v) + CountAtMost(b, v)
  {
    if a == [] {
      assert a + b == b;
    } else {
      assert (a + b)[0] == a[0];
      assert (a + b)[1..] == a[1..] + b;
      CountAtMostAppend(a[1..], b, v);
    }
  }

  /** Counting with element i taken out, plus element i itself. */
  lemma CountAtMostRemove(t: seq<real>, i: int, v: real)
    requires 0 <= i < |t|
    ensures CountAtMost(t, v) == (if t[i] <= v then 1 else 0) + CountAtMost(t[..i] + t[i + 1..], v)
  {
    assert t == (t[..i] + [t[i]]) + t[i + 1..];
    assert [t[i]][1..] == [];
    CountAtMostAppend(t[..i] + [t[i]], t[i + 1..], v);
    CountAtMostAppend(t[..i], [t[i]], v);
    CountAtMostAppend(t[..i], t[i + 1..], v);
  }

  /** Taking element i out removes one copy of it. */
  lemma MultisetRemove(t: seq<real>, i: int)
    requires 0 <= i < |t|
    ensures multiset(t[..i] + t[i + 1..]) == multiset(t) - multiset{t[i]}
  {
    assert t == t[..i] + [t[i]] + t[i + 1..];
  }

  /** The count does not depend on the order, so ranking on the sorted copy
      is ranking on the original list. */
  lemma {:induction false} CountAtMostPermutation(s: seq<real>, t: seq<real>, v: real)
    requires multiset(s) == multiset(t)
    ensures CountAtMost(s, v) == CountAtMost(t, v)
  {
    if s == [] {
      assert |t| == |multiset(t)| == 0;
    } else {
      assert s[0] in multiset(t);
      var i :| 0 <= i < |t| && t[i] == s[0];
      MultisetRemove(t, i);
      assert s == [s[0]] + s[1..];
      assert multiset(s[1..]) == multiset(s) - multiset{s[0]};
      CountAtMostPermutation(s[1..], t[..i] + t[i + 1..], v);
      CountAtMostRemove(t, i, v);
    }
  }

  lemma {:induction false} CountAtMostMonotone(s: seq<real>, v: real, w: real)
    requires v <= w
    ensures CountAtMost(s, v) <= CountAtMost(s, w)
  {
    if s != [] { CountAtMostMonotone(s[1..], v, w); }
  }

  lemma {:induction false} CountAtMostMember(s: seq<real>, v: real)
    requires v in s
    ensures CountAtMost(s, v) >= 1
  {
    if s[0] != v { CountAtMostMember(s[1..], v); }
  }

  lemma {:induction false} CountAtMostAll(s: seq<real>, v: real)
    requires forall i :: 0 <= i < |s| ==> s[i] <= v
    ensures CountAtMost(s, v) == |s|
  {
    if s != [] { CountAtMostAll(s[1..], v); }
  }

  /** `sortedChanges`: the absolute changes sorted ascending (`a - b`). */
  function SortedChanges(abs: seq<real>): (sorted: seq<real>)
    ensures multiset(sorted) == multiset(abs)
    ensures forall i, j :: 0 <= i < j < |sorted| ==> sorted[i] <= sorted[j]
  {
    Sorting.SortDesc(abs, x => -x)
  }

  lemma FractionMonotone(n: real, m: real, d: real)
    requires d > 0.0 && n <= m
    ensures n / d <= m / d
  {
  }

  lemma Fraction(n: nat, d: nat)
    requires 0 < d && n <= d
    ensures 0.0 <= n as real / d as real <= 1.0
    ensures n >= 1 ==> n as real / d as real > 0.0
  {
  }

  /** The percentile rank of `v`: the fraction of the list that is at most `v`. */
  function Rank(abs: seq<real>, v: real): (r: real)
    requires |abs| > 0
    ensures 0.0 <= r <= 1.0
    ensures v in abs ==> r > 0.0
  {
    var sorted := SortedChanges(abs);
    var n := CountAtMost(sorted, v);
    assert v in abs ==> n >= 1 by {
      if v in abs {
        CountAtMostPermutation(sorted, abs, v);
        CountAtMostMember(abs, v);
      }
    }
    Fraction(n, |abs|);
    n as real / |abs| as real
  }

  /** Equal changes share a rank and a larger change never ranks lower. */
  lemma RankMonotone(abs: seq<real>, v: real, w: real)
    requires |abs| > 0 && v <= w
    ensures Rank(abs, v) <= Rank(abs, w)
  {
    var sorted := SortedChanges(abs);
    CountAtMostMonotone(sorted, v, w);
    FractionMonotone(CountAtMost(sorted, v) as real, CountAtMost(sorted, w) as real, |abs| as real);
  }

  /** `Math.max(...absChanges, 0.1)` */
  function MaxChange(abs: seq<real>): (m: real)
    ensures m >= 0.1
    ensures forall i :: 0 <= i < |abs| ==> abs[i] <= m
    ensures m == 0.1 || m in abs
  {
    if abs == [] then 0.1 else Max(abs[0], MaxChange(abs[1..]))
  }

  lemma UnitProduct(a: real, d: real)
    requires 0.0 <= a <= 1.0 && d >= 0.0
    ensures 0.0 <= a * d <= d
  {
  }

  lemma BlendInRange(c1: real, c2: real, lo: real, hi: real)
    requires 0.0 <= c1 <= 1.0 && 0.0 <= c2 <= 1.0 && lo <= hi
    ensures lo <= lo + (c1 * 0.6 + c2 * 0.4) * (hi - lo) <= hi
  {
    var blended := c1 * 0.6 + c2 * 0.4;
    assert 0.0 <= blended <= 1.0;
    UnitProduct(blended, hi - lo);
    assert blended * (hi - lo) <= hi - lo;
  }

  lemma BlendMonotone(b1: real, b2: real, lo: real, hi: real)
    requires b1 <= b2 && lo <= hi
    ensures lo + b1 * (hi - lo) <= lo + b2 * (hi - lo)
  {
  }

  /** One bubble's radius before the area rescale: 60% rank curve plus 40%
      change-ratio curve, mapped linearly into [minR, maxR]. */
  function BlendedRadius(rank: real, ratio: real, b: Bounds, pow22: real -> real, pow15: real -> real): (r: real)
    requires 0.0 <= rank <= 1.0 && 0.0 <= ratio <= 1.0 && b.minR <= b.maxR
    requires UnitCurve(pow22) && UnitCurve(pow15)
    ensures b.minR <= r <= b.maxR
    ensures rank == 1.0 && ratio == 1.0 ==> r == b.maxR
  {
    var c1, c2 := pow22(rank), pow15(ratio);
    BlendInRange(c1, c2, b.minR, b.maxR);
    b.minR + (c1 * 0.6 + c2 * 0.4) * (b.maxR - b.minR)
  }

  lemma BlendedRadiusMonotone(rank1: real, ratio1: real, rank2: real, ratio2: real, b: Bounds,
                              pow22: real -> real, pow15: real -> real)
    requires 0.0 <= rank1 <= rank2 <= 1.0 && 0.0 <= ratio1 <= ratio2 <= 1.0 && b.minR <= b.maxR
    requires UnitCurve(pow22) && UnitCurve(pow15)
    ensures BlendedRadius(rank1, ratio1, b, pow22, pow15) <= BlendedRadius(rank2, ratio2, b, pow22, pow15)
  {
    assert pow22(rank1) <= pow22(rank2) && pow15(ratio1) <= pow15(ratio2);
    var b1 := pow22(rank1) * 0.6 + pow15(ratio1) * 0.4;
    var b2 := pow22(rank2) * 0.6 + pow15(ratio2) * 0.4;
    BlendMonotone(b1, b2, b.minR, b.maxR);
  }

  /** The absolute change of every stock for the selected horizon. */
  function AbsChanges(stocks: seq<Stock>, period: Period): (abs: seq<real>)
    ensures |abs| == |stocks|
    ensures forall i :: 0 <= i < |stocks| ==> abs[i] == Abs(ChangeAt(stocks[i], period))
  {
    seq(|stocks|, i requires 0 <= i < |stocks| => Abs(ChangeAt(stocks[i], period)))
  }

  predicate NonNegative(abs: seq<real>) {
    forall i :: 0 <= i < |abs| ==> abs[i] >= 0.0
  }

  lemma RatioInUnit(v: real, m: real)
    requires 0.0 <= v <= m && m > 0.0
    ensures 0.0 <= v / m <= 1.0
  {
    FractionMonotone(v, m, m);
    FractionMonotone(0.0, v, m);
  }

  /** The change ratio `change / maxChange` of stock i, in [0, 1]. */
  function Ratio(abs: seq<real>, i: nat): (q: real)
    requires i < |abs| && NonNegative(abs)
    ensures 0.0 <= q <= 1.0
  {
    var m := MaxChange(abs);
    RatioInUnit(abs[i], m);
    abs[i] / m
  }

  /** Stock i's radius before the area rescale. */
  function RadiusAt(abs: seq<real>, b: Bounds, pow22: real -> real, pow15: real -> real, i: nat): (r: real)
    requires i < |abs| && NonNegative(abs) && b.minR <= b.maxR
    requires UnitCurve(pow22) && UnitCurve(pow15)
    ensures b.minR <= r <= b.maxR
  {
    BlendedRadius(Rank(abs, abs[i]), Ratio(abs, i), b, pow22, pow15)
  }

  /** `finalRadii`: every unscaled radius lies in [minR, maxR]. */
  function UnscaledRadii(abs: seq<real>, b: Bounds, pow22: real -> real, pow15: real -> real): (radii: seq<real>)
    requires NonNegative(abs) && b.minR <= b.maxR
    requires UnitCurve(pow22) && UnitCurve(pow15)
    ensures |radii| == |abs|
    ensures forall i :: 0 <= i < |abs| ==> radii[i] == RadiusAt(abs, b, pow22, pow15, i)
    ensures forall i :: 0 <= i < |abs| ==> b.minR <= radii[i] <= b.maxR
  {
    seq(|abs|, i requires 0 <= i < |abs| => RadiusAt(abs, b, pow22, pow15, i))
  }

  /** Monotonicity of the radius model: a stock whose |change| is at least
      another's gets a radius at least as large (equal changes, equal radii). */
  lemma RadiusMonotone(abs: seq<real>, b: Bounds, pow22: real -> real, pow15: real -> real, i: nat, j: nat)
    requires |abs| > 0 && NonNegative(abs) && b.minR <= b.maxR
    requires UnitCurve(pow22) && UnitCurve(pow15)
    requires i < |abs| && j < |abs| && abs[i] <= abs[j]
    ensures UnscaledRadii(abs, b, pow22, pow15)[i] <= UnscaledRadii(abs, b, pow22, pow15)[j]
  {
    RankMonotone(abs, abs[i], abs[j]);
    FractionMonotone(abs[i], abs[j], MaxChange(abs));
    BlendedRadiusMonotone(Rank(abs, abs[i]), Ratio(abs, i), Rank(abs, abs[j]), Ratio(abs, j), b, pow22, pow15);
  }

  /** The stock with the largest |change|, when that is at least 0.1, gets
      the maximum radius: its rank and its change ratio are both 1. */
  lemma LargestGetsMaxRadius(abs: seq<real>, b: Bounds, pow22: real -> real, pow15: real -> real, i: nat)
    requires |abs| > 0 && NonNegative(abs) && b.minR <= b.maxR
    requires UnitCurve(pow22) && UnitCurve(pow15)
    requires i < |abs| && abs[i] >= 0.1
    requires forall j :: 0 <= j < |abs| ==> abs[j] <= abs[i]
    ensures UnscaledRadii(abs, b, pow22, pow15)[i] == b.maxR
  {
    RankOfLargest(abs, abs[i]);
    RatioOfLargest(abs, i);
    assert UnscaledRadii(abs, b, pow22, pow15)[i] == BlendedRadius(1.0, 1.0, b, pow22, pow15);
  }

  lemma RankOfLargest(abs: seq<real>, v: real)
    requires |abs| > 0 && forall j :: 0 <= j < |abs| ==> abs[j] <= v
    ensures Rank(abs, v) == 1.0
  {
    var sorted := SortedChanges(abs);
    CountAtMostAll(abs, v);
    CountAtMostPermutation(sorted, abs, v);
    assert CountAtMost(sorted, v) == |abs|;
    SelfRatio(|abs| as real);
    assert Rank(abs, v) == |abs| as real / |abs| as real;
  }

  lemma SelfRatio(x: real)
    requires x > 0.0
    ensures x / x == 1.0
  {
  }

  lemma RatioOfLargest(abs: seq<real>, i: nat)
    requires NonNegative(abs) && i < |abs| && abs[i] >= 0.1
    requires forall j :: 0 <= j < |abs| ==> abs[j] <= abs[i]
    ensures Ratio(abs, i) == 1.0
  {
    var m := MaxChange(abs);
    assert m == abs[i];
    SelfRatio(m);
  }

  /** `Math.PI * r * r` summed over all bubbles. */
  function TotalArea(radii: seq<real>): (a: real)
    ensures a >= 0.0
  {
    if radii == [] then 0.0 else Pi * radii[0] * radii[0] + TotalArea(radii[1..])
  }

  /** The factor applied to every radius: 1 when the bubbles fit in the
      allowed area, otherwise the square root of allowed / total, below 1. */
  function ScaleFactor(total: real, allowed: real, sqrt: real -> real): (s: real)
    requires IsSqrt(sqrt) && allowed >= 0.0
    ensures total <= allowed ==> s == 1.0
    ensures total > allowed ==> 0.0 <= s < 1.0 && s * s * total == allowed
  {
    if total > allowed then
      var q := allowed / total;
      assert 0.0 <= q < 1.0;
      var s := sqrt(q);
      SqrtBelowOne(s, q);
      assert s * s * total == q * total == allowed;
      s
    else 1.0
  }

  lemma SqrtBelowOne(s: real, q: real)
    requires 0.0 <= s && s * s == q && 0.0 <= q < 1.0
    ensures s < 1.0
  {
  }

  function Scaled(radii: seq<real>, s: real): (r: seq<real>)
    ensures |r| == |radii|
    ensures forall i :: 0 <= i < |radii| ==> r[i] == radii[i] * s
  {
    if radii == [] then [] else [radii[0] * s] + Scaled(radii[1..], s)
  }

  /** Scaling every radius by s scales the total area by s squared, so the
      scaled bubbles exactly fill the allowed area (before the floor). */
  lemma {:induction false} ScaledArea(radii: seq<real>, s: real)
    ensures TotalArea(Scaled(radii, s)) == s * s * TotalArea(radii)
  {
    if radii != [] {
      ScaledArea(radii[1..], s);
      var r := radii[0];
      assert Pi * (r * s) * (r * s) == s * s * (Pi * r * r);
    }
  }

  /** `scaledRadii`: each radius times the scale factor, but never below
      0.8 × minR; so no radius grows, and none drops under the floor. */
  function ScaledRadii(radii: seq<real>, s: real, minR: real): (r: seq<real>)
    requires 0.0 <= s <= 1.0 && minR >= 0.0
    ensures |r| == |radii|
    ensures forall i :: 0 <= i < |radii| ==> r[i] == ScaledRadius(radii[i], s, minR)
    ensures forall i :: 0 <= i < |radii| ==> r[i] >= 0.8 * minR
    ensures forall i :: 0 <= i < |radii| && radii[i] >= 0.8 * minR ==> r[i] <= radii[i]
    ensures s == 1.0 && (forall i :: 0 <= i < |radii| ==> radii[i] >= 0.8 * minR) ==> r == radii
  {
    seq(|radii|, i requires 0 <= i < |radii| => ScaledRadius(radii[i], s, minR))
  }

  /** One radius after the rescale: `Math.max(minR * 0.8, r * scale)`. */
  function ScaledRadius(r: real, s: real, minR: real): (x: real)
    requires 0.0 <= s <= 1.0 && minR >= 0.0
    ensures x >= 0.8 * minR
    ensures r >= 0.8 * minR ==> x <= r
    ensures s == 1.0 && r >= 0.8 * minR ==> x == r
  {
    assert r >= 0.0 ==> r * s <= r by {
      if r >= 0.0 { ScaleDown(r, s); }
    }
    Max(minR * 0.8, r * s)
  }

  lemma ScaleDown(r: real, s: real)
    requires r >= 0.0 && 0.0 <= s <= 1.0
    ensures r * s <= r
  {
  }

  /** The whole radius model for one batch. */
  datatype Sizing = Sizing(bounds: Bounds, unscaled: seq<real>, scale: real, radii: seq<real>)

  function SizeBubbles(stocks: seq<Stock>, period: Period, width: real, height: real,
                       pow22: real -> real, pow15: real -> real, sqrt: real -> real): (z: Sizing)
    requires width >= 0.0 && height >= 0.0
    requires UnitCurve(pow22) && UnitCurve(pow15) && IsSqrt(sqrt)
    ensures z.bounds.minR >= 14.0 && z.bounds.maxR >= 3.5 * z.bounds.minR
    ensures |z.unscaled| == |z.radii| == |stocks|
    ensures forall i :: 0 <= i < |stocks| ==> z.bounds.minR <= z.unscaled[i] <= z.bounds.maxR
    ensures forall i :: 0 <= i < |stocks| ==> 0.8 * z.bounds.minR <= z.radii[i] <= z.unscaled[i]
    ensures z.scale == ScaleFactor(TotalArea(z.unscaled), Allowed(width, height), sqrt)
    ensures z.radii == ScaledRadii(z.unscaled, z.scale, z.bounds.minR)
  {
    var dm := DeviceMultiplier(width * width + height * height);
    var b := RadiusBounds(|stocks|, Min(width, height), dm);
    var unscaled := UnscaledRadii(AbsChanges(stocks, period), b, pow22, pow15);
    var s := ScaleFactor(TotalArea(unscaled), Allowed(width, height), sqrt);
    Sizing(b, unscaled, s, ScaledRadii(unscaled, s, b.minR))
  }

  /** 52% of the viewport area: the most the bubbles may cover together. */
  function Allowed(width: real, height: real): (a: real)
    requires width >= 0.0 && height >= 0.0
    ensures a >= 0.0
  {
    MulMonotone(0.0, width, height);
    width * height * 0.52
  }

  /** The area cap: bubbles that fit are left alone; otherwise the scale
      factor is below 1 and the scaled (unfloored) radii cover exactly the
      allowed 52% of the viewport. */
  lemma SizeBubblesArea(stocks: seq<Stock>, period: Period, width: real, height: real,
                        pow22: real -> real, pow15: real -> real, sqrt: real -> real)
    requires width >= 0.0 && height >= 0.0
    requires UnitCurve(pow22) && UnitCurve(pow15) && IsSqrt(sqrt)
    ensures var z := SizeBubbles(stocks, period, width, height, pow22, pow15, sqrt);
      TotalArea(z.unscaled) <= Allowed(width, height) ==> z.scale == 1.0 && z.radii == z.unscaled
    ensures var z := SizeBubbles(stocks, period, width, height, pow22, pow15, sqrt);
      TotalArea(z.unscaled) > Allowed(width, height) ==>
        0.0 <= z.scale < 1.0 && TotalArea(Scaled(z.unscaled, z.scale)) == Allowed(width, height)
  {
    var z := SizeBubbles(stocks, period, width, height, pow22, pow15, sqrt);
    AreaCap(z.unscaled, Allowed(width, height), z.bounds.minR, sqrt);
  }

  lemma AreaCap(unscaled: seq<real>, allowed: real, minR: real, sqrt: real -> real)
    requires IsSqrt(sqrt) && allowed >= 0.0 && minR >= 0.0
    requires forall i :: 0 <= i < |unscaled| ==> unscaled[i] >= minR
    ensures var s := ScaleFactor(TotalArea(unscaled), allowed, sqrt);
      TotalArea(unscaled) <= allowed ==> s == 1.0 && ScaledRadii(unscaled, s, minR) == unscaled
    ensures var s := ScaleFactor(TotalArea(unscaled), allowed, sqrt);
      TotalArea(unscaled) > allowed ==> 0.0 <= s < 1.0 && TotalArea(Scaled(unscaled, s)) == allowed
  {
    if TotalArea(unscaled) <= allowed {
      AreaFits(unscaled, allowed, minR, sqrt);
    } else {
      AreaShrinks(unscaled, allowed, sqrt);
    }
  }

  lemma AreaFits(unscaled: seq<real>, allowed: real, minR: real, sqrt: real -> real)
    requires IsSqrt(sqrt) && allowed >= 0.0 && minR >= 0.0
    requires forall i :: 0 <= i < |unscaled| ==> unscaled[i] >= minR
    requires TotalArea(unscaled) <= allowed
    ensures ScaleFactor(TotalArea(unscaled), allowed, sqrt) == 1.0
    ensures ScaledRadii(unscaled, 1.0, minR) == unscaled
  {
    assert forall i :: 0 <= i < |unscaled| ==> unscaled[i] >= 0.8 * minR;
  }

  lemma AreaShrinks(unscaled: seq<real>, allowed: real, sqrt: real -> real)
    requires IsSqrt(sqrt) && allowed >= 0.0
    requires TotalArea(unscaled) > allowed
    ensures var s := ScaleFactor(TotalArea(unscaled), allowed, sqrt);
      0.0 <= s < 1.0 && TotalArea(Scaled(unscaled, s)) == allowed
  {
    var s := ScaleFactor(TotalArea(unscaled), allowed, sqrt);
    ScaledArea(unscaled, s);
  }

  /** The 0.8 × minR floor can undo the area cap: once the floored bubbles
      alone need more than 52% of the screen, the cap is exceeded. */
  lemma {:induction false} FloorArea(radii: seq<real>, f: real)
    requires f >= 0.0 && forall i :: 0 <= i < |radii| ==> radii[i] >= f
    ensures TotalArea(radii) >= |radii| as real * (Pi * f * f)
  {
    if radii != [] {
      FloorArea(radii[1..], f);
      SquareMonotone(f, radii[0]);
      assert Pi * radii[0] * radii[0] >= Pi * f * f;
    }
  }

  /** On a 10 × 10 viewport any single bubble is floored at 11.2 pixels, so
      the scaled area exceeds 52% of the screen. */
  lemma AreaCapBrokenOnTinyViewport(stocks: seq<Stock>, period: Period,
                                    pow22: real -> real, pow15: real -> real, sqrt: real -> real)
    requires |stocks| == 1
    requires UnitCurve(pow22) && UnitCurve(pow15) && IsSqrt(sqrt)
    ensures TotalArea(SizeBubbles(stocks, period, 10.0, 10.0, pow22, pow15, sqrt).radii) > 0.52 * (10.0 * 10.0)
  {
    var z := SizeBubbles(stocks, period, 10.0, 10.0, pow22, pow15, sqrt);
    assert z.bounds.minR >= 14.0;
    FloorArea(z.radii, 11.2);
  }
}
