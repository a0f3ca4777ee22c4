/**
 * Shared vocabulary of the model: optional values, results, identifiers,
 * timestamps, and the rounding and division rules of the two languages the
 * application is written in (JavaScript in the browser and the API routes,
 * Python in the embedded calculator scripts).
 */
module Common {

  /** `undefined`/`null` versus a present value. */
  datatype Option<T> = None | Some(value: T) {
    function GetOr(default: T): T {
      match this
      case Some(v) => v
      case None => default
    }
  }

  /** A thrown error versus a returned value. */
  datatype Result<T, E> = Success(value: T) | Failure(error: E)

  /** Firebase user id. */
  type UserId = string

  /** Milliseconds since the epoch; the application's `Date` and Firestore timestamps. */
  type Time = int

  /** One day in milliseconds (daylight-saving changes are not modelled). */
  const DayMs: int := 86_400_000

  /** JavaScript's `Math.round`: the nearest integer, a half rounded towards +infinity. */
  function RoundHalfUp(x: real): (n: int)
    ensures n as real - 0.5 <= x < n as real + 0.5
  {
    (x + 0.5).Floor
  }

  /** Python 3's `round(x)`: the nearest integer, a half rounded to the even neighbour. */
  function RoundHalfEven(x: real): (n: int)
    ensures n as real - 0.5 <= x <= n as real + 0.5
    ensures (x == n as real - 0.5 || x == n as real + 0.5) ==> n % 2 == 0
  {
    var f := x.Floor;
    var frac := x - f as real;
    if frac < 0.5 then f
    else if frac > 0.5 then f + 1
    else if f % 2 == 0 then f
    else f + 1
  }

  /** Python's `int(x)` on a float: truncation towards zero. */
  function Truncate(x: real): (n: int)
    ensures 0.0 <= x ==> 0 <= n && n as real <= x < n as real + 1.0
    ensures x < 0.0 ==> n <= 0 && n as real - 1.0 < x <= n as real
  {
    if x >= 0.0 then x.Floor else -((-x).Floor)
  }

  /** The IEEE values a JavaScript division can produce, over exact reals. */
  datatype JsNumber = Finite(value: real) | PosInfinity | NegInfinity | NaN {
    /** JavaScript truthiness of a number: false for 0 and NaN. */
    predicate Truthy() {
      match this
      case Finite(v) => v != 0.0
      case NaN => false
      case _ => true
    }
  }

  /** JavaScript `a / b` on two finite numbers. */
  function Divide(a: real, b: real): (q: JsNumber)
    ensures b != 0.0 ==> q == Finite(a / b)
    ensures b == 0.0 ==> (q == NaN <==> a == 0.0)
    ensures b == 0.0 && a > 0.0 ==> q == PosInfinity
    ensures b == 0.0 && a < 0.0 ==> q == NegInfinity
  {
    if b != 0.0 then Finite(a / b)
    else if a > 0.0 then PosInfinity
    else if a < 0.0 then NegInfinity
    else NaN
  }

  /** JavaScript `Math.min(x, bound)` for a finite `bound`. */
  function MinWith(x: JsNumber, bound: real): (m: JsNumber)
    ensures m.Finite? ==> m.value <= bound
    ensures x.Finite? ==> m.Finite? && (m.value == x.value || m.value == bound)
    ensures m == NaN <==> x == NaN
    ensures m == NegInfinity <==> x == NegInfinity
  {
    match x
    case Finite(v) => Finite(if v < bound then v else bound)
    case PosInfinity => Finite(bound)
    case NegInfinity => NegInfinity
    case NaN => NaN
  }

  /**
   * `Number.prototype.toFixed(1)` read back with `parseFloat`: a whole number
   * of tenths, the nearest one to `x`, with a tie going away from zero.
   */
  function RoundToTenth(x: real): (r: real)
    ensures (r * 10.0).Floor as real == r * 10.0
    ensures x >= 0.0 ==> r - 0.05 <= x < r + 0.05
    ensures x < 0.0 ==> r - 0.05 < x <= r + 0.05
    ensures -0.05 <= r - x <= 0.05
  {
    if x >= 0.0 then
      var n := RoundHalfUp(x * 10.0);
      TenthOf(x, n);
      n as real / 10.0
    else
      var n := RoundHalfUp(-x * 10.0);
      TenthOf(-x, n);
      NegatedTenth(x, n);
      -(n as real / 10.0)
  }

  /** Scaling the rounding bounds of `10 * y` back to `y`. */
  lemma TenthOf(y: real, n: int)
    requires n as real - 0.5 <= y * 10.0 < n as real + 0.5
    ensures n as real / 10.0 * 10.0 == n as real && (n as real).Floor == n
    ensures n as real / 10.0 - 0.05 <= y < n as real / 10.0 + 0.05
  {
    var r := n as real / 10.0;
    assert r * 10.0 == n as real;
    assert (y - r) * 10.0 == y * 10.0 - n as real;
  }

  /** The same bounds, mirrored for a negative `x`. */
  lemma NegatedTenth(x: real, n: int)
    requires n as real / 10.0 - 0.05 <= -x < n as real / 10.0 + 0.05
    ensures var r := -(n as real / 10.0);
      && (r * 10.0).Floor as real == r * 10.0
      && r - 0.05 < x <= r + 0.05
  {
    var r := -(n as real / 10.0);
    assert r * 10.0 == (-n) as real;
    assert ((-n) as real).Floor == -n;
  }

  /** The sign of a number: 1, -1, or 0 for zero and for NaN. */
  function SignOf(x: JsNumber): int
  {
    match x
    case Finite(v) => if v > 0.0 then 1 else if v < 0.0 then -1 else 0
    case PosInfinity => 1
    case NegInfinity => -1
    case NaN => 0
  }

  function Infinity(sign: int): JsNumber
  {
    if sign >= 0 then PosInfinity else NegInfinity
  }

  /** JavaScript `a * b`; the sign of a zero is not tracked. */
  function Times(a: JsNumber, b: JsNumber): (p: JsNumber)
    ensures a.Finite? && b.Finite? ==> p == Finite(a.value * b.value)
    ensures p == NaN <==> a == NaN || b == NaN || (a == Finite(0.0) && !b.Finite?) || (b == Finite(0.0) && !a.Finite?)
    ensures p != NaN && !(a.Finite? && b.Finite?) ==> p == Infinity(SignOf(a) * SignOf(b))
  {
    if a == NaN || b == NaN then NaN
    else if a.Finite? && b.Finite? then Finite(a.value * b.value)
    else if SignOf(a) == 0 || SignOf(b) == 0 then NaN
    else Infinity(SignOf(a) * SignOf(b))
  }

  /**
   * JavaScript `a / b`, where a zero divisor is taken to be +0 (the divisors
   * the pages use are squares or positive constants).
   */
  function Over(a: JsNumber, b: JsNumber): (q: JsNumber)
    ensures a.Finite? && b.Finite? ==> q == Divide(a.value, b.value)
    ensures q == NaN <==> a == NaN || b == NaN || (!a.Finite? && !b.Finite?) || (a == Finite(0.0) && b == Finite(0.0))
    ensures a.Finite? && (b == PosInfinity || b == NegInfinity) ==> q == Finite(0.0)
    ensures (a == PosInfinity || a == NegInfinity) && b.Finite? ==>
      q == Infinity(if b.value < 0.0 then -SignOf(a) else SignOf(a))
  {
    if a == NaN || b == NaN then NaN
    else if a.Finite? && b.Finite? then Divide(a.value, b.value)
    else if a.Finite? then Finite(0.0)
    else if b.Finite? then Infinity(if b.value < 0.0 then -SignOf(a) else SignOf(a))
    else NaN
  }
}
