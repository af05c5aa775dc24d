/** The scalar helpers of `MathUtils` that the game uses: clamp, sat, step and lerp. */
module MathUtils {

  function Min(a: real, b: real): real { if a <= b then a else b }

  function Max(a: real, b: real): real { if a >= b then a else b }

  /** `clamp(x, a, b) = min(max(x, a), b)`: when the bounds are crossed the upper one wins. */
  function Clamp(x: real, a: real, b: real): (r: real)
    ensures r <= b
    ensures a <= b ==> a <= r
    ensures a <= x <= b ==> r == x
    ensures x <= a ==> r == Min(a, b)
    ensures b <= x ==> r == b
  {
    Min(Max(x, a), b)
  }

  /** `sat`: clamp to the unit interval. */
  function Sat(x: real): (r: real)
    ensures 0.0 <= r <= 1.0
    ensures 0.0 <= x <= 1.0 ==> r == x
    ensures x <= 0.0 ==> r == 0.0
    ensures 1.0 <= x ==> r == 1.0
  {
    Clamp(x, 0.0, 1.0)
  }

  /** `step(edge1, edge2, x)`: where `x` lies between the two edges, as a fraction. */
  function Step(edge1: real, edge2: real, x: real): (r: real)
    requires edge1 != edge2
    ensures r * (edge2 - edge1) == x - edge1
    ensures x == edge1 ==> r == 0.0
  {
    (x - edge1) / (edge2 - edge1)
  }

  /** `lerp(x, a, b)`: the point at fraction `x` of the way from `a` to `b`. */
  function Lerp(x: real, a: real, b: real): (r: real)
    ensures x == 0.0 ==> r == a
    ensures x == 1.0 ==> r == b
    ensures r - a == x * (b - a)
  {
    (b - a) * x + a
  }

  /** `step` inverts `lerp`: interpolating at the fraction `step` reports gives the point back. */
  lemma LerpOfStep(edge1: real, edge2: real, x: real)
    requires edge1 != edge2
    ensures Lerp(Step(edge1, edge2, x), edge1, edge2) == x
  {
    var t := Step(edge1, edge2, x);
    assert t * (edge2 - edge1) == x - edge1;
  }

  /** And the other way round: the fraction of `lerp(t)` between the edges is `t`. */
  lemma StepOfLerp(t: real, edge1: real, edge2: real)
    requires edge1 != edge2
    ensures Step(edge1, edge2, Lerp(t, edge1, edge2)) == t
  {
    var p := Lerp(t, edge1, edge2);
    var s := Step(edge1, edge2, p);
    assert s * (edge2 - edge1) == t * (edge2 - edge1);
  }

  /** A fade driven by `sat(step(edge1, edge2, x))` is complete exactly when `x` has reached `edge2`. */
  lemma SatStepDone(edge1: real, edge2: real, x: real)
    requires edge1 < edge2
    ensures Sat(Step(edge1, edge2, x)) >= 1.0 <==> x >= edge2
  {
    var d := edge2 - edge1;
    var sx := Step(edge1, edge2, x);
    assert sx * d == x - edge1;
    if sx < 1.0 {
      MulLt(sx, 1.0, d);
    } else {
      MulLe(1.0, sx, d);
    }
  }

  /** `sat . step` is monotone in `x` when the edges are ordered: fades never run backwards. */
  lemma SatStepMonotone(edge1: real, edge2: real, x: real, y: real)
    requires edge1 < edge2
    requires x <= y
    ensures Sat(Step(edge1, edge2, x)) <= Sat(Step(edge1, edge2, y))
  {
    var d := edge2 - edge1;
    var sx := Step(edge1, edge2, x);
    var sy := Step(edge1, edge2, y);
    assert (sy - sx) * d == y - x;
    if sy < sx {
      assert (sy - sx) * d < 0.0;
    }
  }

  /** Multiplying by a positive number keeps order. */
  lemma MulLe(a: real, b: real, c: real)
    requires a <= b && c > 0.0
    ensures a * c <= b * c
  {
  }

  lemma MulLt(a: real, b: real, c: real)
    requires a < b && c > 0.0
    ensures a * c < b * c
  {
  }
}
