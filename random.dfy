/**
 * Stand-ins for the p5 services the sketch draws on (the noise field, one
 * value of `random`, `map` over the unit interval, `constrain`) and the
 * sketch's own two helpers `rndi` and `pick` (sketch.js lines 16-18).
 *
 * p5's generators are not modelled: a noise field is any deterministic
 * function into the unit interval, and a call to `random` is the value it
 * returned, passed in by the caller and constrained to p5's half-open range.
 */
module NoiseRandom {

  /** A value of p5's `noise`: always in the closed unit interval. */
  type Unit = r: real | 0.0 <= r <= 1.0 witness 0.0

  /** p5's noise field, a deterministic function of its coordinates. */
  type Noise = (real, real) -> Unit

  /** The one-argument call `noise(x)`, which p5 evaluates as `noise(x, 0)`. */
  function Noise1(noise: Noise, x: real): Unit
  {
    noise(x, 0.0)
  }

  /** p5's `map(v, 0, 1, lo, hi)`: linear interpolation, not clamped. */
  function MapUnit(v: Unit, lo: real, hi: real): (r: real)
    ensures lo <= hi ==> lo <= r <= hi
    ensures v == 0.0 ==> r == lo
    ensures v == 1.0 ==> r == hi
  {
    var d := hi - lo;
    if lo <= hi then ScaleWithin(d, v); lo + d * v else lo + d * v
  }

  lemma MulNonnegative(a: real, b: real)
    requires 0.0 <= a && 0.0 <= b
    ensures 0.0 <= a * b
  {
  }

  lemma MulPositive(a: real, b: real)
    requires 0.0 < a && 0.0 < b
    ensures 0.0 < a * b
  {
  }

  /** Scaling a nonnegative `d` by a unit factor stays within `[0, d]`. */
  lemma ScaleWithin(d: real, v: real)
    requires 0.0 <= v <= 1.0 && 0.0 <= d
    ensures 0.0 <= d * v <= d
  {
    MulNonnegative(d, v);
    MulNonnegative(d, 1.0 - v);
  }

  /** p5's `constrain(n, low, high)`, that is `max(min(n, high), low)`. */
  function Constrain(n: real, low: real, high: real): (r: real)
    ensures low <= high ==> low <= r <= high
    ensures low <= n <= high ==> r == n
    ensures low <= high && n <= low ==> r == low
    ensures low <= high && high <= n ==> r == high
  {
    var m := if n < high then n else high;
    if m < low then low else m
  }

  /**
   * `rndi(a, b)`, that is `floor(random(a, b + 1))`, where `r` is the value
   * `random(a, b + 1)` returned (p5 gives a value in `[a, b + 1)`): an integer
   * in `[a, b]`, both ends included.
   */
  function Rndi(a: int, b: int, r: real): (n: int)
    requires a as real <= r < (b + 1) as real
    ensures a <= n <= b
    ensures n as real <= r < (n + 1) as real
  {
    r.Floor
  }

  /** The index `floor(random(len))` that `pick` reads, for the value `r` of `random(len)`. */
  function PickIndex(len: nat, r: real): (i: nat)
    requires 0.0 <= r < len as real
    ensures i < len
    ensures i as real <= r < (i + 1) as real
  {
    r.Floor
  }

  /** `pick(a)`: the element at a uniformly drawn index; `r` is the draw. */
  function Pick<T>(a: seq<T>, r: real): (x: T)
    requires 0.0 <= r < |a| as real
    ensures x in a
  {
    a[PickIndex(|a|, r)]
  }
}
