/** Small helpers shared by the model: an optional value, the JavaScript
    `Math` functions the layout uses on real numbers, and `Array.find`. */
module Basics {

  datatype Option<+T> = None | Some(value: T)

  /** `Math.floor`: the greatest integer not above `x`. */
  function Floor(x: real): (r: int)
    ensures r as real <= x < r as real + 1.0
  {
    x.Floor
  }

  /** `Math.ceil`: the least integer not below `x`. */
  function Ceil(x: real): (r: int)
    ensures r as real - 1.0 < x <= r as real
  {
    -((-x).Floor)
  }

  /** `Math.min` on two reals. */
  function Min(a: real, b: real): (r: real)
    ensures r <= a && r <= b
    ensures r == a || r == b
  {
    if a <= b then a else b
  }

  /** `Math.max` on two reals. */
  function Max(a: real, b: real): (r: real)
    ensures r >= a && r >= b
    ensures r == a || r == b
  {
    if a >= b then a else b
  }

  /** `Math.max` on two integers. */
  function MaxInt(a: int, b: int): (r: int)
    ensures r >= a && r >= b
    ensures r == a || r == b
  {
    if a >= b then a else b
  }

  /** `Math.abs` on a real. */
  function Abs(x: real): (r: real)
    ensures r >= 0.0
    ensures r == x || r == -x
  {
    if x >= 0.0 then x else -x
  }

  /** `Array.prototype.find`, returning the index of the element found: the
      first position whose element satisfies `p`, or `None` when no element
      does. */
  function FirstIndex<T>(s: seq<T>, p: T -> bool): (r: Option<nat>)
    ensures r.Some? ==> r.value < |s| && p(s[r.value])
    ensures r.Some? ==> forall j :: 0 <= j < r.value ==> !p(s[j])
    ensures r.None? ==> forall j :: 0 <= j < |s| ==> !p(s[j])
    decreases |s|
  {
    if s == [] then None
    else if p(s[0]) then Some(0)
    else match FirstIndex(s[1..], p)
      case None => None
      case Some(i) => Some(i + 1)
  }

  // Steps of real arithmetic that the solver does not take unprompted.

  lemma MulLeft(a: real, b: real, c: real)
    requires a <= b && c >= 0.0
    ensures a * c <= b * c
  {
  }

  lemma MulLeftStrict(a: real, b: real, c: real)
    requires a < b && c > 0.0
    ensures a * c < b * c
  {
  }

  lemma MulPositive(a: real, b: real)
    ensures a > 0.0 && b > 0.0 ==> a * b > 0.0
  {
  }

  lemma DivTimes(a: real, d: real)
    requires d != 0.0
    ensures a / d * d == a
  {
  }

  lemma MulBothLe(a: real, b: real, c: real, d: real)
    requires 0.0 < a <= b && 0.0 < c <= d
    ensures a * c <= b * d
  {
    MulLeft(a, b, c);
    assert b * c <= b * d;
  }

  lemma DivBracket(x: real, d: real, lo: real, hi: real)
    requires d > 0.0
    requires lo <= x / d < hi
    ensures lo * d <= x < hi * d
  {
  }

  lemma DivAntitone(x: real, d1: real, d2: real)
    requires x >= 0.0 && 0.0 < d1 <= d2
    ensures x / d2 <= x / d1
  {
  }

  lemma FloorMonotone(x: real, y: real)
    requires x <= y
    ensures Floor(x) <= Floor(y)
  {
  }

  lemma DivBracketUpper(x: real, d: real, lo: real, hi: real)
    requires d > 0.0
    requires lo < x / d <= hi
    ensures lo * d < x <= hi * d
  {
  }

  lemma RatioBelowOne(a: real, s: real)
    requires s > 0.0 && a < s
    ensures a / s < 1.0
  {
  }

  lemma RatioAtMost(a: real, s: real, t: real)
    requires s > 0.0 && t >= 0.0 && t <= a / s
    ensures t * s <= a
  {
  }

  lemma ToRealMul(a: int, b: int)
    ensures (a * b) as real == a as real * b as real
  {
  }

  lemma MulLeftInt(a: int, b: int, c: int)
    requires a <= b && c >= 0
    ensures a * c <= b * c
  {
  }

  lemma MulRightInt(a: int, b: int, c: int)
    requires a <= b && c >= 0
    ensures c * a <= c * b
  {
  }

  lemma MulCancelInt(a: int, b: int, c: int)
    requires c > 0 && a * c < b * c
    ensures a < b
  {
    if a >= b { MulLeftInt(b, a, c); }
  }

  /** A quotient and remainder that satisfy Euclid's equation are the ones `/`
      and `%` compute. */
  lemma DivModUnique(a: int, c: int, q: int, r: int)
    requires c > 0 && 0 <= r < c && a == q * c + r
    ensures a / c == q && a % c == r
  {
    var q', r' := a / c, a % c;
    assert a == q' * c + r';
    if q' < q {
      MulLeftInt(q' + 1, q, c);
    } else if q' > q {
      MulLeftInt(q + 1, q', c);
    }
  }

  /** Advancing a row-major cursor by one cell: the column steps on, or wraps
      to zero and the row steps on. */
  lemma CursorStep(count: int, cols: int)
    requires count >= 0 && cols >= 1
    ensures count % cols + 1 >= cols ==> (count + 1) % cols == 0 && (count + 1) / cols == count / cols + 1
    ensures count % cols + 1 < cols ==> (count + 1) % cols == count % cols + 1 && (count + 1) / cols == count / cols
  {
    var q, r := count / cols, count % cols;
    assert count == q * cols + r;
    if r + 1 >= cols {
      DivModUnique(count + 1, cols, q + 1, 0);
    } else {
      DivModUnique(count + 1, cols, q, r + 1);
    }
  }
}
