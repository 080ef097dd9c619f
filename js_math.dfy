/** The JavaScript number operations the test relies on, over unbounded integers
    and exact reals. Floating-point rounding is not modelled: every value here is
    the exact mathematical result of the operation JavaScript approximates. */
module JsMath {

  datatype Option<T> = None | Some(value: T)

  /** A JavaScript number as far as this model needs one: a finite value, or the
      NaN that `0 / 0` and arithmetic on NaN produce. */
  datatype JsNum = Num(v: real) | NaN

  /** Truncation toward zero, the rounding JavaScript's `%` is defined with. */
  function Trunc(x: real): (t: int)
    ensures 0.0 <= x ==> t as real <= x < t as real + 1.0
    ensures x < 0.0 ==> t as real - 1.0 < x <= t as real
  {
    if x >= 0.0 then x.Floor else -((-x).Floor)
  }

  /** JavaScript `a % 360` on numbers: the remainder keeps the sign of `a`. */
  function Rem360(a: real): (r: real)
    ensures 0.0 <= a ==> 0.0 <= r < 360.0
    ensures a < 0.0 ==> -360.0 < r <= 0.0
    ensures -360.0 < a < 360.0 ==> r == a
    ensures 360.0 <= a < 720.0 ==> r == a - 360.0
  {
    a - 360.0 * (Trunc(a / 360.0) as real)
  }

  /** JavaScript `a % 360` on integer-valued numbers (Dafny's own `%` is Euclidean). */
  function RemInt360(a: int): (r: int)
    ensures 0 <= a ==> 0 <= r < 360
    ensures a < 0 ==> -360 < r <= 0
    ensures -360 < a < 360 ==> r == a
    ensures (a - r) % 360 == 0
  {
    if a >= 0 then a % 360 else -((-a) % 360)
  }

  /** The representative of `x` modulo 360 in [0, 360): the mathematical reference
      that the JavaScript normalisation pipelines are compared against. */
  function Normalize360(x: real): (r: real)
    ensures 0.0 <= r < 360.0
  {
    x - 360.0 * ((x / 360.0).Floor as real)
  }

  /** A value in [0, 360) that differs from `x` by a multiple of 360 is its normal form. */
  lemma NormalizeUnique(x: real, r: real, k: int)
    requires 0.0 <= r < 360.0
    requires x == r + 360.0 * (k as real)
    ensures Normalize360(x) == r
  {
    assert (x / 360.0).Floor == k;
  }

  function Abs(x: real): real { if x < 0.0 then -x else x }

  function Min(a: real, b: real): real { if a <= b then a else b }

  /** `Math.round`: the nearest integer, a half rounded up (toward +infinity). */
  function Round(x: real): (n: int)
    ensures x - 0.5 < n as real <= x + 0.5
  {
    (x + 0.5).Floor
  }

  /** A whole number of tenths. */
  predicate WholeTenths(r: real)
  {
    (r * 10.0).Floor as real == r * 10.0
  }

  /** `Math.round(x * 10) / 10`: rounding to one decimal place, a half tenth
      rounded up. */
  function RoundTenth(x: real): (r: real)
    ensures x - 0.05 < r <= x + 0.05
    ensures WholeTenths(r)
  {
    (Round(x * 10.0) as real) / 10.0
  }

  /** The contract of `RoundTenth` pins its value: only one whole number of
      tenths lies in (x - 0.05, x + 0.05]. */
  lemma RoundTenthUnique(x: real, r: real)
    requires x - 0.05 < r <= x + 0.05 && WholeTenths(r)
    ensures r == RoundTenth(x)
  {
    var n, m := (r * 10.0).Floor, Round(x * 10.0);
    assert n as real == r * 10.0;
    assert x * 10.0 - 0.5 < n as real <= x * 10.0 + 0.5;
    assert x * 10.0 - 0.5 < m as real <= x * 10.0 + 0.5;
    assert n == m;
  }

  /** Rounding keeps a value inside any interval with integer end points. */
  lemma RoundWithin(x: real, lo: int, hi: int)
    requires lo as real <= x <= hi as real
    ensures lo <= Round(x) <= hi
  {
  }

  /** Rounding to a tenth keeps a value inside any interval with integer end points. */
  lemma RoundTenthWithin(x: real, lo: int, hi: int)
    requires lo as real <= x <= hi as real
    ensures lo as real <= RoundTenth(x) <= hi as real
  {
    RoundWithin(x * 10.0, lo * 10, hi * 10);
  }

  /** `xs.reduce((sum, x) => sum + x, 0)`: a left fold from 0. */
  function Sum(xs: seq<real>): real
  {
    if xs == [] then 0.0 else Sum(xs[..|xs| - 1]) + xs[|xs| - 1]
  }

  ghost predicate AllWithin(xs: seq<real>, lo: real, hi: real)
  {
    forall i :: 0 <= i < |xs| ==> lo <= xs[i] <= hi
  }

  /** A sum of values in [lo, hi] lies between |xs| * lo and |xs| * hi. */
  lemma {:induction false} SumWithin(xs: seq<real>, lo: real, hi: real)
    requires AllWithin(xs, lo, hi)
    ensures (|xs| as real) * lo <= Sum(xs) <= (|xs| as real) * hi
  {
    if xs != [] {
      var init := xs[..|xs| - 1];
      assert AllWithin(init, lo, hi) by {
        forall i | 0 <= i < |init| ensures lo <= init[i] <= hi {
          assert init[i] == xs[i];
        }
      }
      SumWithin(init, lo, hi);
      assert (|xs| as real) * lo == (|init| as real) * lo + lo;
      assert (|xs| as real) * hi == (|init| as real) * hi + hi;
    }
  }

  /** A sum of constant terms. */
  lemma {:induction false} SumConstant(xs: seq<real>, c: real)
    requires forall i :: 0 <= i < |xs| ==> xs[i] == c
    ensures Sum(xs) == (|xs| as real) * c
  {
    if xs != [] {
      var init := xs[..|xs| - 1];
      SumConstant(init, c);
      assert (|xs| as real) * c == (|init| as real) * c + c;
    }
  }

  /** A quotient of a sum bounded as in SumWithin lies in [lo, hi]. */
  lemma MeanWithin(total: real, n: nat, lo: real, hi: real)
    requires n > 0
    requires (n as real) * lo <= total <= (n as real) * hi
    ensures lo <= total / (n as real) <= hi
  {
    var m := total / (n as real);
    assert total == m * (n as real);
  }
}
