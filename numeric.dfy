/** Exact-real versions of the Unity math helpers the controllers use, and the
    crouch-timer arithmetic shared by both crouch implementations. */
module Numeric {

  /** `x` lies between `a` and `b`, whichever of the two is larger. */
  predicate Between(x: real, a: real, b: real) {
    (a <= x <= b) || (b <= x <= a)
  }

  /** Mathf.Clamp: below `lo` gives `lo`, otherwise above `hi` gives `hi`. */
  function Clamp(v: real, lo: real, hi: real): (r: real)
    ensures lo <= hi ==> lo <= r <= hi
    ensures lo <= v <= hi ==> r == v
    ensures lo <= hi && v < lo ==> r == lo
    ensures lo <= hi && hi < v ==> r == hi
  {
    if v < lo then lo else if v > hi then hi else v
  }

  /** Mathf.Clamp01. */
  function Clamp01(t: real): (r: real)
    ensures 0.0 <= r <= 1.0
    ensures 0.0 <= t <= 1.0 ==> r == t
  {
    Clamp(t, 0.0, 1.0)
  }

  /** Mathf.Lerp: the interpolation parameter is clamped to [0, 1]. */
  function Lerp(a: real, b: real, t: real): (r: real)
    ensures Between(r, a, b)
    ensures t <= 0.0 ==> r == a
    ensures t >= 1.0 ==> r == b
  {
    var u := Clamp01(t);
    LerpAt(a, b, u);
    a + (b - a) * u
  }

  /** The unclamped interpolation at a fraction in [0, 1] stays between the
      endpoints. */
  lemma LerpAt(a: real, b: real, u: real)
    requires 0.0 <= u <= 1.0
    ensures Between(a + (b - a) * u, a, b)
  {
    var k := b - a;
    assert k * u + k * (1.0 - u) == k;
    if k >= 0.0 {
      assert k * u >= 0.0 && k * (1.0 - u) >= 0.0;
    } else {
      assert (-k) * u >= 0.0 && (-k) * (1.0 - u) >= 0.0;
    }
  }

  /** Dividing by a positive duration preserves the order against 0 and 1. */
  lemma RatioBounds(x: real, d: real)
    requires d > 0.0
    ensures x <= 0.0 ==> x / d <= 0.0
    ensures x >= 0.0 ==> x / d >= 0.0
    ensures x >= d ==> x / d >= 1.0
    ensures x <= d ==> x / d <= 1.0
  {
    var q := x / d;
    assert q * d == x;
    if q > 1.0 { assert (q - 1.0) * d > 0.0; }
    if q < 1.0 { assert (1.0 - q) * d > 0.0; }
    if q > 0.0 { assert q * d > 0.0; }
    if q < 0.0 { assert (-q) * d > 0.0; }
  }

  /** The complement of a countdown, as a fraction of its duration. */
  lemma ComplementRatio(x: real, d: real)
    requires d > 0.0
    ensures (d - x) / d == 1.0 - x / d
  {
    var q, r := x / d, (d - x) / d;
    assert q * d == x;
    assert r * d == d - x;
    var e := r - (1.0 - q);
    assert e * d == 0.0;
  }

  /** Swapping the endpoints and mirroring the parameter gives the same point. */
  lemma LerpMirror(a: real, b: real, t: real)
    requires 0.0 <= t <= 1.0
    ensures Lerp(b, a, 1.0 - t) == Lerp(a, b, t)
  {
  }

  /** Interpolating two halves is half the interpolation. */
  lemma LerpHalves(a: real, b: real, t: real)
    ensures Lerp(a / 2.0, b / 2.0, t) == Lerp(a, b, t) / 2.0
  {
  }

  /** The interpolation fraction `1 - timer / duration` of a countdown. */
  function Progress(duration: real, timer: real): (t: real)
    requires duration > 0.0
    ensures timer <= 0.0 ==> t >= 1.0
    ensures timer >= duration ==> t <= 0.0
    ensures 0.0 <= timer <= duration ==> 0.0 <= t <= 1.0
  {
    RatioBounds(timer, duration);
    1.0 - timer / duration
  }

  /** Re-arming the countdown: a transition still in flight is reversed from the
      time already spent on it; otherwise the full duration starts again. */
  function Rearm(duration: real, timer: real): (r: real)
    requires duration > 0.0
    ensures timer <= duration ==> 0.0 <= r <= duration
    ensures 0.0 < timer <= duration ==> r < duration || timer == duration
  {
    if timer > 0.0 then duration - timer else duration
  }

  /** Re-arming while reversing the endpoints continues from the very point
      reached: the interpolated value does not jump. */
  lemma RearmContinuity(a: real, b: real, duration: real, timer: real)
    requires duration > 0.0 && timer <= duration
    ensures Lerp(b, a, Progress(duration, Rearm(duration, timer))) == Lerp(a, b, Progress(duration, timer))
  {
    if timer > 0.0 {
      var t := Progress(duration, timer);
      ComplementRatio(timer, duration);
      LerpMirror(a, b, t);
    }
  }
}
