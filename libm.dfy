/** Numeric vocabulary shared by the four revisions of the oscillator.

    The revisions compute in IEEE doubles; this model computes in exact reals and does not
    model rounding. The library functions are handled as follows:
    - `cos` and `ln` are passed in as values of the subset types below, which state the only
      facts the model relies on (cos lies in [-1, 1]; ln is positive above 1 and at least 1
      from 3 on, past e);
    - `fmod` (C++) and `%` (Rust, Java) on doubles are exact operations, defined here exactly;
    - `fmin`/`fmax` (C++), `f64::min`/`f64::max` (Rust) and `Math.min`/`Math.max` (Java) agree
      on finite values and are `Min`/`Max`. */
module Libm {

  /** The double nearest to pi, the value of std::f64::consts::PI, Math.PI and SuperCollider's pi. */
  const PI: real := 3.141592653589793

  /** The reals in [-1, 1], the range of a cosine. */
  type Bounded = x: real | -1.0 <= x <= 1.0

  /** A cosine, of which only its range is known. */
  type Cosine = real -> Bounded

  /** A natural logarithm, of which only its sign above 1 and its bound 1 from 3 on are known. */
  type Logarithm = f: real -> real | (forall x :: x > 1.0 ==> f(x) > 0.0) && (forall x :: x >= 3.0 ==> f(x) >= 1.0)
    witness (x: real) => 1.0

  function Min(a: real, b: real): (r: real)
    ensures r <= a && r <= b && (r == a || r == b)
  {
    if a <= b then a else b
  }

  function Max(a: real, b: real): (r: real)
    ensures r >= a && r >= b && (r == a || r == b)
  {
    if a >= b then a else b
  }

  /** fabs. */
  function Abs(x: real): (r: real)
    ensures r >= 0.0 && (r == x || r == -x)
  {
    if x < 0.0 then -x else x
  }

  /** C's fmod and the `%` of Rust and Java on doubles: the remainder of x by m, with the
      quotient truncated toward zero. */
  function FMod(x: real, m: real): (r: real)
    requires m > 0.0
    ensures x >= 0.0 ==> 0.0 <= r < m
    ensures (x - r) / m == ((x - r) / m).Floor as real
  {
    var q := x / m;
    var t := if q >= 0.0 then q.Floor else -((-q).Floor);
    if q >= 0.0 then
      FloorRemainder(x, m, t);
      x - m * (t as real)
    else
      assert (m * (t as real)) / m == t as real;
      x - m * (t as real)
  }

  lemma FloorRemainder(x: real, m: real, t: int)
    requires m > 0.0 && t == (x / m).Floor
    ensures m * (t as real) <= x < m * (t as real) + m
    ensures (m * (t as real)) / m == t as real
  {
    var q := x / m;
    assert m * q == x;
    MulStrict(m, t as real, q);
    assert q < (t as real) + 1.0;
    MulStrict(m, q, (t as real) + 1.0);
    assert m * q < m * ((t as real) + 1.0);
    assert m * ((t as real) + 1.0) == m * (t as real) + m;
    assert x < m * (t as real) + m;
  }

  /** The order step x < y <= z, taken apart from the products x and y stand for: inside a
      context full of products the solver does not find this step on its own. */
  lemma Below(x: real, y: real, z: real)
    requires x < y <= z
    ensures x < z
  {
  }

  /** A bound on a product holds for the product in the other order, stated apart from the
      context for the same reason. */
  lemma Commute(a: real, b: real, z: real)
    requires a * b < z
    ensures b * a < z
  {
  }

  lemma MulStrict(m: real, a: real, b: real)
    requires m > 0.0 && a <= b
    ensures m * a <= m * b
    ensures a < b ==> m * a < m * b
  {
    assert m * b - m * a == m * (b - a);
  }

  /** `min(a / b, cap)` as C's fmin and Rust's f64::min compute it when a and b are not
      negative. A zero b gives 0/0 = NaN (a zero) or +infinity (a positive); both
      functions then return cap. */
  function MinRatio(a: real, b: real, cap: real): (r: real)
    requires a >= 0.0 && b >= 0.0
    ensures r <= cap
    ensures b > 0.0 ==> r <= a / b && (r == a / b || r == cap)
    ensures cap >= 0.0 ==> r >= 0.0
  {
    if b == 0.0 then cap else Min(a / b, cap)
  }

  /** The Clamp every revision defines: x when it lies in [minval, maxval], minval below it,
      maxval otherwise (which is also what it returns for a NaN). */
  function Clamp(x: real, minval: real, maxval: real): (r: real)
    ensures minval <= x <= maxval ==> r == x
    ensures x < minval ==> r == minval
    ensures minval <= x && maxval < x ==> r == maxval
    ensures minval <= maxval ==> minval <= r <= maxval
  {
    if x >= minval && x <= maxval then x else if x < minval then minval else maxval
  }
}
