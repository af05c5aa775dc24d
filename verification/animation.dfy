/** `Animation`: a looping list of frames, each shown for `frameRate` milliseconds. */
module Frames {
  import opened Common
  import opened MathUtils

  datatype Animation<T> = Animation(frameRate: real, frames: seq<T>)

  /** `totalTime`: one full loop. */
  function TotalTime<T>(a: Animation<T>): real
  {
    |a.frames| as real * a.frameRate
  }

  /** JavaScript's `Math.trunc`, which its `%` on numbers rounds with. */
  function Trunc(x: real): int
  {
    if x >= 0.0 then x.Floor else -((-x).Floor)
  }

  /** JavaScript `a % b`: the remainder keeps the sign of `a` and is smaller than `b` in size. */
  function JsRem(a: real, b: real): (r: real)
    requires b != 0.0
    ensures b > 0.0 && a >= 0.0 ==> 0.0 <= r < b
    ensures b > 0.0 && a <= 0.0 ==> -b < r <= 0.0
  {
    if b > 0.0 then
      TruncRemBounds(a, b);
      a - b * (Trunc(a / b) as real)
    else
      a - b * (Trunc(a / b) as real)
  }

  /** Truncated division leaves a remainder between the dividend's side of 0 and one divisor away. */
  lemma TruncRemBounds(a: real, b: real)
    requires b > 0.0
    ensures a >= 0.0 ==> 0.0 <= a - b * (Trunc(a / b) as real) < b
    ensures a <= 0.0 ==> -b < a - b * (Trunc(a / b) as real) <= 0.0
  {
    if a >= 0.0 {
      SlotOf(a, b);
      assert a / b >= 0.0;
      var n := (a / b).Floor;
      assert (n + 1) as real * b == n as real * b + b;
    } else {
      SlotOf(-a, b);
      assert -(a / b) == (-a) / b;
      var n := ((-a) / b).Floor;
      assert Trunc(a / b) == -n;
      assert (n + 1) as real * b == n as real * b + b;
    }
  }

  lemma FloorBounds(x: real)
    ensures x.Floor as real <= x < x.Floor as real + 1.0
  {
  }

  /** `floor(t / r) == k` exactly when `t` lies in the `k`-th slot of width `r`. */
  lemma FloorDiv(t: real, r: real, k: int)
    requires r > 0.0
    requires k as real * r <= t < (k + 1) as real * r
    ensures (t / r).Floor == k
  {
    var q := t / r;
    assert q * r == t;
    if q < k as real {
      MulLt(q, k as real, r);
    }
    if q >= (k + 1) as real {
      MulLe((k + 1) as real, q, r);
    }
    assert k as real <= q < k as real + 1.0;
    FloorBounds(q);
    var f := q.Floor;
    assert f as real < k as real + 1.0;
    assert k as real < f as real + 1.0;
    assert f == k;
  }

  /** The slot `t` falls in: `floor(t / p)` slots of width `p` fit below it, and no more. */
  lemma SlotOf(t: real, p: real)
    requires p > 0.0
    ensures (t / p).Floor as real * p <= t < ((t / p).Floor + 1) as real * p
  {
    var q := t / p;
    var n := q.Floor;
    FloorBounds(q);
    assert q * p == t;
    MulLe(n as real, q, p);
    assert q < (n + 1) as real;
    MulLt(q, (n + 1) as real, p);
    assert q * p < (n + 1) as real * p;
    assert t < (n + 1) as real * p;
  }

  lemma RemInRange(t: real, p: real)
    requires t >= 0.0 && p > 0.0
    ensures 0.0 <= JsRem(t, p) < p
    ensures JsRem(t, p) == t - p * ((t / p).Floor as real)
  {
    SlotOf(t, p);
    var n := (t / p).Floor;
    assert (n + 1) as real * p == n as real * p + p;
  }

  /** The frame index `getFrame` computes: `floor(time % totalTime / frameRate)`. */
  function FrameIndex<T>(a: Animation<T>, time: real): (i: int)
    requires a.frameRate != 0.0 && |a.frames| > 0
    ensures a.frameRate > 0.0 ==>
      i as real * a.frameRate <= JsRem(time, TotalTime(a)) < (i + 1) as real * a.frameRate
  {
    var i := (JsRem(time, TotalTime(a)) / a.frameRate).Floor;
    if a.frameRate > 0.0 then
      SlotOf(JsRem(time, TotalTime(a)), a.frameRate);
      i
    else
      i
  }

  /**
   * `getFrame`: the frame for a point in time. JavaScript yields `undefined` when
   * the index falls outside the list (a negative time, or no frames, which makes
   * the remainder `NaN`); that is `None` here.
   */
  function GetFrame<T>(a: Animation<T>, time: real): (r: Option<T>)
    ensures time >= 0.0 && a.frameRate > 0.0 && |a.frames| > 0 ==> r.Some?
  {
    if a.frameRate == 0.0 || |a.frames| == 0 then None
    else
      var i := FrameIndex(a, time);
      if 0 <= i < |a.frames| then
        Some(a.frames[i])
      else
        assert !(time >= 0.0 && a.frameRate > 0.0) by {
          if time >= 0.0 && a.frameRate > 0.0 {
            FrameIndexInRange(a, time);
          }
        }
        None
  }

  /** For non-negative time the index always names a frame. */
  lemma FrameIndexInRange<T>(a: Animation<T>, time: real)
    requires a.frameRate > 0.0 && |a.frames| > 0 && time >= 0.0
    ensures 0 <= FrameIndex(a, time) < |a.frames|
  {
    SlotIndexBelow(FrameIndex(a, time), |a.frames|, a.frameRate, JsRem(time, TotalTime(a)));
  }

  /** A value in `[0, n * r)` lies in one of the slots `0 .. n-1` of width `r`. */
  lemma SlotIndexBelow(i: int, n: nat, r: real, m: real)
    requires r > 0.0 && 0.0 <= m < n as real * r
    requires i as real * r <= m < (i + 1) as real * r
    ensures 0 <= i < n
  {
    if i < 0 {
      MulLe((i + 1) as real, 0.0, r);
    }
    if i >= n {
      MulLe(n as real, i as real, r);
    }
  }

  /** Frame `k` is on screen from `k * frameRate` until `(k + 1) * frameRate` in the first loop. */
  lemma FrameShownDuringItsSlot<T>(a: Animation<T>, k: nat, time: real)
    requires a.frameRate > 0.0 && k < |a.frames|
    requires k as real * a.frameRate <= time < (k + 1) as real * a.frameRate
    ensures GetFrame(a, time) == Some(a.frames[k])
  {
    var p := TotalTime(a);
    assert time >= 0.0;
    assert time < p by {
      assert (k + 1) as real * a.frameRate <= |a.frames| as real * a.frameRate;
    }
    FloorDiv(time, p, 0);
    assert JsRem(time, p) == time;
    FloorDiv(time, a.frameRate, k);
  }

  /** The animation loops: one full `totalTime` later the same frame shows. */
  lemma GetFrameIsPeriodic<T>(a: Animation<T>, time: real)
    requires a.frameRate > 0.0 && |a.frames| > 0 && time >= 0.0
    ensures GetFrame(a, time + TotalTime(a)) == GetFrame(a, time)
  {
    JsRemPeriodic(time, TotalTime(a));
  }

  /** Adding one period to a non-negative dividend leaves JavaScript's `%` unchanged. */
  lemma JsRemPeriodic(t: real, p: real)
    requires t >= 0.0 && p > 0.0
    ensures JsRem(t + p, p) == JsRem(t, p)
  {
    RemInRange(t, p);
    RemInRange(t + p, p);
    var n := (t / p).Floor;
    SlotOf(t, p);
    FloorDiv(t + p, p, n + 1);
  }
}
