/** Pixel geometry of the chart widget: the mapping between data indices and
    screen x coordinates, and back. Java floats are modelled as reals. */
module Geometry {

  datatype Rect = Rect(left: real, top: real, right: real, bottom: real)

  function RealMax(a: real, b: real): real {
    if a >= b then a else b
  }

  function RealMin(a: real, b: real): real {
    if a <= b then a else b
  }

  function Max(a: int, b: int): int {
    if a >= b then a else b
  }

  function Min(a: int, b: int): int {
    if a <= b then a else b
  }

  /** Math.round: the integer nearest to x, halves rounded up. */
  function Round(x: real): (r: int)
    ensures x - 0.5 < r as real <= x + 0.5
  {
    (x + 0.5).Floor
  }

  lemma RoundOfInt(i: int)
    ensures Round(i as real) == i
  {
  }

  lemma RoundShift(x: real, n: int)
    ensures Round(x + n as real) == Round(x) + n
  {
    assert (x + n as real + 0.5).Floor == (x + 0.5).Floor + n;
  }

  lemma RoundMonotone(x: real, y: real)
    requires x <= y
    ensures Round(x) <= Round(y)
  {
  }

  /** i steps of size `step` added up one at a time, subtracted for negative i. */
  function Steps(i: int, step: real): real
    decreases if i >= 0 then i else -i
  {
    if i == 0 then 0.0
    else if i > 0 then Steps(i - 1, step) + step
    else Steps(i + 1, step) - step
  }

  lemma {:induction false} StepsIsProduct(i: int, step: real)
    ensures Steps(i, step) == i as real * step
    decreases if i >= 0 then i else -i
  {
    if i > 0 {
      StepsIsProduct(i - 1, step);
      assert i as real * step == (i - 1) as real * step + step;
    } else if i < 0 {
      StepsIsProduct(i + 1, step);
      assert i as real * step == (i + 1) as real * step - step;
    }
  }

  /** The x coordinate of index i on a grid that starts at `left` with spacing `step`
      (barX and, relative to the selection start, chartX). */
  function GridX(left: real, step: real, i: int): real {
    left + Steps(i, step)
  }

  /** GridX is the product form of barX and chartX. */
  lemma GridXIsProduct(left: real, step: real, i: int)
    ensures GridX(left, step, i) == left + i as real * step
  {
    StepsIsProduct(i, step);
  }

  /** The index whose grid point is nearest to x, clamped to [lo, hi]
      (barI with lo = 0 and hi = valuesCount - 1). */
  function NearestIndex(x: real, left: real, step: real, lo: int, hi: int): (r: int)
    requires step > 0.0 && lo <= hi
    ensures lo <= r <= hi
  {
    Max(lo, Min(Round((x - left) / step), hi))
  }

  lemma GridOffset(left: real, step: real, i: int, d: real)
    requires step > 0.0
    ensures (GridX(left, step, i) + d - left) / step == i as real + d / step
  {
    GridXIsProduct(left, step, i);
    assert GridX(left, step, i) + d - left == i as real * step + d;
    assert (i as real * step + d) / step == i as real + d / step;
  }

  /** Mapping an index to its grid point and back returns the index. */
  lemma NearestIndexRoundTrip(left: real, step: real, lo: int, hi: int, i: int)
    requires step > 0.0 && lo <= i <= hi
    ensures NearestIndex(GridX(left, step, i), left, step, lo, hi) == i
  {
    GridOffset(left, step, i, 0.0);
    RoundOfInt(i);
  }

  /** A point further right never maps to an index further left. */
  lemma NearestIndexMonotone(x: real, y: real, left: real, step: real, lo: int, hi: int)
    requires step > 0.0 && lo <= hi && x <= y
    ensures NearestIndex(x, left, step, lo, hi) <= NearestIndex(y, left, step, lo, hi)
  {
    assert (x - left) / step <= (y - left) / step;
    RoundMonotone((x - left) / step, (y - left) / step);
  }

  lemma ScaleLe(a: real, b: real, s: real)
    requires s > 0.0
    ensures a <= b <==> a * s <= b * s
  {
    assert b * s - a * s == (b - a) * s;
  }

  lemma QuotientBetween(a: real, b: real, c: real, s: real)
    requires s > 0.0 && a * s <= c <= b * s
    ensures a <= c / s <= b
  {
    assert c / s * s == c;
    ScaleLe(a, c / s, s);
    ScaleLe(c / s, b, s);
  }

  /** Inside the grid the chosen index is the rounded fractional position of x,
      at most half a step away from it. */
  lemma NearestIndexIsNearest(x: real, left: real, step: real, lo: int, hi: int)
    requires step > 0.0 && lo <= hi
    requires GridX(left, step, lo) <= x <= GridX(left, step, hi)
    ensures var q := (x - left) / step;
            var r := NearestIndex(x, left, step, lo, hi);
            r == Round(q) && q - 0.5 < r as real <= q + 0.5
  {
    var q := (x - left) / step;
    GridXIsProduct(left, step, lo);
    GridXIsProduct(left, step, hi);
    QuotientBetween(lo as real, hi as real, x - left, step);
    RoundMonotone(lo as real, q);
    RoundMonotone(q, hi as real);
    RoundOfInt(lo);
    RoundOfInt(hi);
  }

  /** Shifting a grid point by d, when the result stays inside the grid's open
      interval, moves the nearest index by Round(d / step) with no clamping. */
  lemma NearestIndexShift(left: real, step: real, hi: int, i: int, d: real)
    requires step > 0.0 && 0 <= i <= hi
    requires GridX(left, step, i) + d > left
    requires GridX(left, step, i) + d < GridX(left, step, hi)
    ensures NearestIndex(GridX(left, step, i) + d, left, step, 0, hi) == i + Round(d / step)
  {
    GridOffset(left, step, i, d);
    RoundShift(d / step, i);
    var q := i as real + d / step;
    assert (GridX(left, step, i) + d - left) / step == q;
    assert q > 0.0 by {
      assert GridX(left, step, i) + d - left > 0.0;
    }
    assert q < hi as real by {
      GridOffset(left, step, hi, 0.0);
      assert GridX(left, step, i) + d - left < GridX(left, step, hi) - left;
      assert (GridX(left, step, hi) - left) / step == hi as real;
    }
  }

  /** Grid points are in the order of their indices. */
  lemma GridXMonotone(left: real, step: real, a: int, b: int)
    requires step > 0.0 && a < b
    ensures GridX(left, step, a) < GridX(left, step, b)
  {
    GridXIsProduct(left, step, a);
    GridXIsProduct(left, step, b);
    ScaleLe(b as real, a as real, step);
  }

  /** Dividing a width into n equal steps puts grid point n on the right edge. */
  lemma GridEnd(left: real, right: real, n: int)
    requires n >= 1
    ensures GridX(left, (right - left) / n as real, n) == right
  {
    GridXIsProduct(left, (right - left) / n as real, n);
    assert (right - left) / n as real * n as real == right - left;
  }

  /** A point more than 2.1 steps left of grid point j rounds to an index at most j - 2. */
  lemma NearestIndexBelow(x: real, left: real, step: real, lo: int, hi: int, j: int, w: real)
    requires step > 0.0 && lo <= hi && w >= 2.1 * step
    requires x < GridX(left, step, j) - w
    ensures NearestIndex(x, left, step, lo, hi) <= Max(lo, j - 2)
  {
    var q := (x - left) / step;
    GridXIsProduct(left, step, j);
    assert q * step == x - left;
    assert (j as real - 2.1) * step == j as real * step - 2.1 * step;
    assert x - left < j as real * step - 2.1 * step;
    ScaleLe(j as real - 2.1, q, step);
  }

  /** A point more than 2.1 steps right of grid point j rounds to an index at least j + 2. */
  lemma NearestIndexAbove(x: real, left: real, step: real, lo: int, hi: int, j: int, w: real)
    requires step > 0.0 && lo <= hi && w >= 2.1 * step
    requires x > GridX(left, step, j) + w
    ensures NearestIndex(x, left, step, lo, hi) >= Min(hi, j + 2)
  {
    var q := (x - left) / step;
    GridXIsProduct(left, step, j);
    assert q * step == x - left;
    assert (j as real + 2.1) * step == j as real * step + 2.1 * step;
    assert x - left > j as real * step + 2.1 * step;
    ScaleLe(q, j as real + 2.1, step);
  }

  /** A displacement of at least one step rounds to a shift of at least one index,
      in the same direction. */
  lemma RoundAwayFromZero(d: real, step: real)
    requires step > 0.0 && (d >= step || d <= -step)
    ensures d > 0.0 ==> Round(d / step) >= 1
    ensures d < 0.0 ==> Round(d / step) <= -1
  {
    var q := d / step;
    assert q * step == d;
    if d > 0.0 {
      ScaleLe(1.0, q, step);
    } else {
      ScaleLe(q, -1.0, step);
    }
  }

  /** Shifting both ends a < b of a range by d, at least one step, with both shifted
      points strictly inside the grid, moves both nearest indices by the same nonzero
      amount in the direction of d. */
  lemma NearestIndexShiftRange(left: real, step: real, hi: int, a: int, b: int, d: real)
    requires step > 0.0 && 0 <= a < b <= hi
    requires GridX(left, step, a) + d > left && GridX(left, step, b) + d < GridX(left, step, hi)
    requires d >= step || d <= -step
    ensures NearestIndex(GridX(left, step, b) + d, left, step, 0, hi) -
            NearestIndex(GridX(left, step, a) + d, left, step, 0, hi) == b - a
    ensures d > 0.0 ==> NearestIndex(GridX(left, step, a) + d, left, step, 0, hi) > a
    ensures d < 0.0 ==> NearestIndex(GridX(left, step, a) + d, left, step, 0, hi) < a
  {
    GridXMonotone(left, step, a, b);
    NearestIndexShift(left, step, hi, a, d);
    NearestIndexShift(left, step, hi, b, d);
    RoundAwayFromZero(d, step);
  }

  lemma QuotientPositive(a: real, b: real)
    requires a > 0.0 && b > 0.0
    ensures a / b > 0.0
  {
  }

  /** chartI: the index nearest to x inside the selected window [lo, hi], where the
      window's first index sits at `left`. */
  function WindowIndex(x: real, left: real, step: real, lo: int, hi: int): (r: int)
    requires step > 0.0 && lo <= hi
    ensures lo <= r <= hi
  {
    Max(lo, Min(Round((x - left) / step) + lo, hi))
  }

  /** chartI(chartX(i)) == i for every index of the selected window. */
  lemma WindowIndexRoundTrip(left: real, step: real, lo: int, hi: int, i: int)
    requires step > 0.0 && lo <= i <= hi
    ensures WindowIndex(GridX(left, step, i - lo), left, step, lo, hi) == i
  {
    GridOffset(left, step, i - lo, 0.0);
    RoundOfInt(i - lo);
  }
}
