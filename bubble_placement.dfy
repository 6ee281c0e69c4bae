/** The seeding of the bubble chart: every stock is paired with its scaled
    radius, the pairs are sorted largest bubble first, and the i-th bubble
    is placed on a spiral around the centre of the viewport, at rest.

    `Math.cos`, `Math.sin` and `Math.sqrt` are parameters: the first two are
    any functions into [-1, 1], the last any function that is non-negative
    on non-negative arguments. */
module BubblePlacement {
  import opened Stocks
  import Sorting

  /** What the placement assumes of `Math.cos` and `Math.sin`. */
  ghost predicate UnitRange(f: real -> real) {
    forall x :: -1.0 <= f(x) <= 1.0
  }

  /** What the placement assumes of `Math.sqrt`. */
  ghost predicate NonNegativeRoot(sqrt: real -> real) {
    forall x :: 0.0 <= x ==> 0.0 <= sqrt(x)
  }

  /** A stock paired with its radius and its signed change for the period
      (the `indexed` entries). */
  datatype Sized = Sized(stock: Stock, radius: real, change: real)

  /** A simulation node as first seeded: the stock's fields, radius and
      change, a position and a velocity. */
  datatype Bubble = Bubble(stock: Stock, radius: real, change: real, x: real, y: real, vx: real, vy: real)

  function Sum(s: seq<real>): (t: real)
    ensures (forall i :: 0 <= i < |s| ==> s[i] >= 0.0) ==> t >= 0.0
  {
    if s == [] then 0.0 else s[0] + Sum(s[1..])
  }

  /** `sum / length || 30`: the mean radius, with 30 for an empty list (0/0
      is NaN, which is falsy) and for a mean of 0. */
  function AverageRadius(radii: seq<real>): (avg: real)
    ensures |radii| == 0 ==> avg == 30.0
    ensures |radii| > 0 && Sum(radii) != 0.0 ==> avg == Sum(radii) / |radii| as real
    ensures |radii| > 0 && Sum(radii) == 0.0 ==> avg == 30.0
    ensures (forall i :: 0 <= i < |radii| ==> radii[i] >= 0.0) ==> avg > 0.0
  {
    if |radii| == 0 then 30.0
    else
      var mean := Sum(radii) / |radii| as real;
      if mean == 0.0 then 30.0 else mean
  }

  /** The collision gap between bubbles: 6% of the mean radius, at least 2. */
  function Gap(avgR: real): (g: real)
    ensures g >= 2.0 && g >= avgR * 0.06
    ensures g == 2.0 || g == avgR * 0.06
  {
    Max(2.0, avgR * 0.06)
  }

  /** Pairs stock i with radius i and its signed change for `period`. */
  function Indexed(stocks: seq<Stock>, radii: seq<real>, period: Period): (s: seq<Sized>)
    requires |radii| == |stocks|
    ensures |s| == |stocks|
    ensures forall i :: 0 <= i < |s| ==> s[i] == Sized(stocks[i], radii[i], ChangeAt(stocks[i], period))
  {
    seq(|stocks|, i requires 0 <= i < |stocks| => Sized(stocks[i], radii[i], ChangeAt(stocks[i], period)))
  }

  /** `indexed.sort((a, b) => b.radius - a.radius)`: a stable sort, largest
      radius first. */
  function ByRadius(s: seq<Sized>): (r: seq<Sized>)
    ensures |r| == |s| && multiset(r) == multiset(s)
    ensures forall i, j :: 0 <= i < j < |r| ==> r[i].radius >= r[j].radius
  {
    Sorting.SortDesc(s, (z: Sized) => z.radius)
  }

  lemma ScaledByUnit(c: real, m: real)
    requires -1.0 <= c <= 1.0 && m >= 0.0
    ensures -m <= c * m <= m
  {
  }

  /** The offset of the i-th bubble from the centre along one axis:
      `trig(i * 0.9) * min(sqrt(i + 1) * avgR * 1.1, extent * 0.35)`. */
  function SpiralOffset(i: nat, avgR: real, extent: real, trig: real -> real, sqrt: real -> real): (d: real)
    requires UnitRange(trig) && NonNegativeRoot(sqrt) && avgR >= 0.0 && extent >= 0.0
    ensures -(extent * 0.35) <= d <= extent * 0.35
  {
    var root := sqrt((i + 1) as real);
    var spiralR := root * avgR * 1.1;
    assert spiralR >= 0.0 by { ScaledByUnit(1.0, root * avgR); }
    var m := Min(spiralR, extent * 0.35);
    var c := trig(i as real * 0.9);
    ScaledByUnit(c, m);
    assert m <= extent * 0.35;
    c * m
  }

  /** The i-th seeded node: centred on the viewport plus its spiral offset, at rest. */
  function Place(z: Sized, i: nat, avgR: real, width: real, height: real,
                 cos: real -> real, sin: real -> real, sqrt: real -> real): (b: Bubble)
    requires UnitRange(cos) && UnitRange(sin) && NonNegativeRoot(sqrt)
    requires avgR >= 0.0 && width >= 0.0 && height >= 0.0
    ensures b.stock == z.stock && b.radius == z.radius && b.change == z.change
    ensures b.vx == 0.0 && b.vy == 0.0
    ensures -(width * 0.35) <= b.x - width / 2.0 <= width * 0.35
    ensures -(height * 0.35) <= b.y - height / 2.0 <= height * 0.35
  {
    Bubble(z.stock, z.radius, z.change,
           width / 2.0 + SpiralOffset(i, avgR, width, cos, sqrt),
           height / 2.0 + SpiralOffset(i, avgR, height, sin, sqrt),
           0.0, 0.0)
  }

  /** Forgets a node's position and velocity. */
  function Unplaced(b: seq<Bubble>): (s: seq<Sized>)
    ensures |s| == |b|
    ensures forall i :: 0 <= i < |b| ==> s[i] == Sized(b[i].stock, b[i].radius, b[i].change)
  {
    seq(|b|, i requires 0 <= i < |b| => Sized(b[i].stock, b[i].radius, b[i].change))
  }

  /** `bubbleData`: the seeded nodes. They carry exactly the (stock, radius,
      change) triples of the input, largest radius first, each within 35% of
      the viewport's width and height of its centre, and all at rest. */
  function SeedBubbles(stocks: seq<Stock>, radii: seq<real>, period: Period, width: real, height: real,
                       cos: real -> real, sin: real -> real, sqrt: real -> real): (bubbles: seq<Bubble>)
    requires |radii| == |stocks| && forall i :: 0 <= i < |radii| ==> radii[i] >= 0.0
    requires UnitRange(cos) && UnitRange(sin) && NonNegativeRoot(sqrt)
    requires width >= 0.0 && height >= 0.0
    ensures |bubbles| == |stocks|
    ensures multiset(Unplaced(bubbles)) == multiset(Indexed(stocks, radii, period))
    ensures forall i, j :: 0 <= i < j < |bubbles| ==> bubbles[i].radius >= bubbles[j].radius
    ensures forall i :: 0 <= i < |bubbles| ==> bubbles[i].vx == 0.0 && bubbles[i].vy == 0.0
    ensures forall i :: 0 <= i < |bubbles| ==>
      -(width * 0.35) <= bubbles[i].x - width / 2.0 <= width * 0.35 &&
      -(height * 0.35) <= bubbles[i].y - height / 2.0 <= height * 0.35
  {
    var sorted := ByRadius(Indexed(stocks, radii, period));
    var avgR := AverageRadius(radii);
    var bubbles := seq(|sorted|, i requires 0 <= i < |sorted| => Place(sorted[i], i, avgR, width, height, cos, sin, sqrt));
    assert Unplaced(bubbles) == sorted;
    bubbles
  }
}
