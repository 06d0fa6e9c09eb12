/** The two quantities the chart animates on every tick: the alpha of each
    series (faded in or out by 10 per tick) and the vertical scale (moved
    toward its target by a fixed step). */
module Animation {
  import opened Geometry

  /** Fully transparent and fully opaque alpha. */
  const Invisible: int := 0
  const Visible: int := 255
  /** Alpha change per tick. */
  const AlphaStep: int := 10

  function Dist(a: int, b: int): nat {
    if a >= b then a - b else b - a
  }

  function RealDist(a: real, b: real): real {
    if a >= b then a - b else b - a
  }

  function NatMinus(a: int, b: int): nat {
    if a >= b then a - b else 0
  }

  function RealMinus(a: real, b: real): real {
    if a >= b then a - b else 0.0
  }

  /** The alpha a series fades toward: opaque when displayed, transparent when hidden. */
  function AlphaTarget(displayed: bool): int {
    if displayed then Visible else Invisible
  }

  predicate IsAlpha(alpha: int) {
    Invisible <= alpha <= Visible
  }

  /** One tick of the fade of one series. */
  function StepAlpha(alpha: int, displayed: bool): (r: int)
    ensures IsAlpha(alpha) ==> IsAlpha(r)
    ensures IsAlpha(alpha) ==> Dist(r, alpha) <= AlphaStep
    ensures IsAlpha(alpha) ==> if displayed then alpha <= r else r <= alpha
    ensures IsAlpha(alpha) ==>
              Dist(r, AlphaTarget(displayed)) == NatMinus(Dist(alpha, AlphaTarget(displayed)), AlphaStep)
    ensures IsAlpha(alpha) ==> (r == alpha <==> alpha == AlphaTarget(displayed))
  {
    if displayed && alpha != Visible then
      if alpha + AlphaStep <= Visible then alpha + AlphaStep else Visible
    else if !displayed && alpha != Invisible then
      if alpha - AlphaStep >= Invisible then alpha - AlphaStep else Invisible
    else
      alpha
  }

  /** The alpha after n ticks. */
  function AlphaAfter(alpha: int, displayed: bool, n: nat): int {
    if n == 0 then alpha else StepAlpha(AlphaAfter(alpha, displayed, n - 1), displayed)
  }

  /** Every tick takes AlphaStep off the distance to the target, until it is reached. */
  lemma {:induction false} AlphaAfterDistance(alpha: int, displayed: bool, n: nat)
    requires IsAlpha(alpha)
    ensures IsAlpha(AlphaAfter(alpha, displayed, n))
    ensures Dist(AlphaAfter(alpha, displayed, n), AlphaTarget(displayed)) ==
            NatMinus(Dist(alpha, AlphaTarget(displayed)), n * AlphaStep)
  {
    if n > 0 {
      AlphaAfterDistance(alpha, displayed, n - 1);
    }
  }

  /** A fade completes within 26 ticks, whatever alpha it starts from. */
  lemma AlphaSettles(alpha: int, displayed: bool, n: nat)
    requires IsAlpha(alpha) && n >= 26
    ensures AlphaAfter(alpha, displayed, n) == AlphaTarget(displayed)
  {
    AlphaAfterDistance(alpha, displayed, n);
  }

  /** One tick of the vertical scale toward its target. */
  function StepScale(current: real, target: real, step: real): (r: real)
    requires step > 0.0
    ensures current <= target ==> current <= r <= target
    ensures target <= current ==> target <= r <= current
    ensures RealDist(r, current) <= step
    ensures RealDist(r, target) == RealMinus(RealDist(current, target), step)
    ensures r == current <==> current == target
  {
    if current < target then
      if current + step <= target then current + step else target
    else if current > target then
      if current - step >= target then current - step else target
    else
      current
  }

  /** The scale after n ticks. */
  function ScaleAfter(current: real, target: real, step: real, n: nat): real
    requires step > 0.0
  {
    if n == 0 then current else StepScale(ScaleAfter(current, target, step, n - 1), target, step)
  }

  /** Every tick takes `step` off the distance to the target, until it is reached. */
  lemma {:induction false} ScaleAfterDistance(current: real, target: real, step: real, n: nat)
    requires step > 0.0
    ensures Steps(n, step) >= 0.0
    ensures RealDist(ScaleAfter(current, target, step, n), target) ==
            RealMinus(RealDist(current, target), Steps(n, step))
  {
    if n > 0 {
      ScaleAfterDistance(current, target, step, n - 1);
    }
  }

  /** The scale reaches its target, and stays there, once n steps cover the distance. */
  lemma ScaleSettles(current: real, target: real, step: real, n: nat)
    requires step > 0.0 && RealDist(current, target) <= n as real * step
    ensures ScaleAfter(current, target, step, n) == target
  {
    ScaleAfterDistance(current, target, step, n);
    StepsIsProduct(n, step);
  }
}
