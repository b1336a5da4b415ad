/** Small value types and the JavaScript number operations the engine relies on,
    stated over Dafny's exact `real`s. */
module Base {

  /** A JavaScript optional value: `undefined` (or a missing field) is None. */
  datatype Option<+T> = None | Some(value: T) {
    /** `x ?? d` for a value that is never null. */
    function GetOr(d: T): T {
      match this
      case Some(v) => v
      case None => d
    }
  }

  /** The result of a JavaScript call that may throw. */
  datatype Outcome<+T> = Returned(value: T) | Threw(error: string)

  function Min(a: real, b: real): (r: real)
    ensures r <= a && r <= b && (r == a || r == b)
  {
    if a <= b then a else b
  }

  function Max(a: real, b: real): (r: real)
    ensures r >= a && r >= b && (r == a || r == b)
  {
    if a >= b then a else b
  }

  function Abs(a: real): (r: real)
    ensures r >= 0.0 && (r == a || r == -a)
  {
    if a >= 0.0 then a else -a
  }

  /** `Math.sign` (for finite numbers). */
  function Sign(a: real): (r: real)
    ensures r == 1.0 || r == 0.0 || r == -1.0
    ensures (r > 0.0 <==> a > 0.0) && (r < 0.0 <==> a < 0.0)
  {
    if a > 0.0 then 1.0 else if a < 0.0 then -1.0 else 0.0
  }

  /** `Math.floor`. */
  function Floor(a: real): (r: int)
    ensures r as real <= a < r as real + 1.0
  {
    a.Floor
  }

  /** `Math.round`: halves round towards +infinity. */
  function Round(a: real): (r: int)
    ensures a - 0.5 < r as real <= a + 0.5
  {
    (a + 0.5).Floor
  }

  /** Truncation towards zero, as `x | 0` and `%` use it. */
  function Trunc(a: real): (r: int)
    ensures Abs(r as real) <= Abs(a) < Abs(r as real) + 1.0
    ensures (r >= 0 <==> a > -1.0)
  {
    if a >= 0.0 then a.Floor else -((-a).Floor)
  }

  /** `x | 0` on a finite number: ToInt32, truncation then wrap-around into the
      signed 32-bit range. */
  function ToInt32(a: real): (r: int)
    ensures -0x8000_0000 <= r < 0x8000_0000
    ensures (r - Trunc(a)) % 0x1_0000_0000 == 0
  {
    var m := Trunc(a) % 0x1_0000_0000;
    if m >= 0x8000_0000 then m - 0x1_0000_0000 else m
  }

  /** When the number already fits, `| 0` is plain truncation. */
  lemma ToInt32Small(a: real)
    requires 0.0 <= a < 0x8000_0000 as real
    ensures ToInt32(a) == Floor(a)
  {
    assert Trunc(a) == a.Floor;
  }

  /** `a % b` on numbers: the remainder of truncated division, so it takes the
      sign of `a` (unlike Dafny's Euclidean `%` on integers). */
  function JsMod(a: real, b: real): real
    requires b != 0.0
  {
    a - b * Trunc(a / b) as real
  }

  lemma MulLess(b: real, x: real, y: real)
    requires b > 0.0 && x < y
    ensures b * x < b * y
  {
  }

  lemma MulLessEq(b: real, x: real, y: real)
    requires b > 0.0 && x <= y
    ensures b * x <= b * y
  {
  }

  lemma MulDiv(a: real, b: real)
    requires b > 0.0
    ensures b * (a / b) == a
  {
  }

  lemma MulShift(b: real, k: real)
    ensures b * (k + 1.0) == b * k + b && b * (k - 1.0) == b * k - b
  {
  }

  /** `k <= a / b` and `a / b < k`, each scaled by a positive `b`. */
  lemma ScaleLow(a: real, b: real, k: real)
    requires b > 0.0 && k <= a / b
    ensures b * k <= a
  {
    MulLessEq(b, k, a / b);
    MulDiv(a, b);
  }

  lemma ScaleLowStrict(a: real, b: real, k: real)
    requires b > 0.0 && k < a / b
    ensures b * k < a
  {
    MulLess(b, k, a / b);
    MulDiv(a, b);
  }

  lemma ScaleHigh(a: real, b: real, k: real)
    requires b > 0.0 && a / b <= k
    ensures a <= b * k
  {
    MulLessEq(b, a / b, k);
    MulDiv(a, b);
  }

  lemma ScaleHighStrict(a: real, b: real, k: real)
    requires b > 0.0 && a / b < k
    ensures a < b * k
  {
    MulLess(b, a / b, k);
    MulDiv(a, b);
  }

  /** Bounds of the remainder for a positive divisor, by the sign of the dividend. */
  lemma JsModBounds(a: real, b: real)
    requires b > 0.0
    ensures a >= 0.0 ==> 0.0 <= JsMod(a, b) < b
    ensures a <= 0.0 ==> -b < JsMod(a, b) <= 0.0
  {
    var k := Trunc(a / b) as real;
    if a >= 0.0 {
      ScaleLow(a, b, k);
      ScaleHighStrict(a, b, k + 1.0);
      MulShift(b, k);
    } else {
      ScaleLowStrict(a, b, k - 1.0);
      ScaleHigh(a, b, k);
      MulShift(b, k);
    }
  }
}
