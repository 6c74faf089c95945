/** Geometry and formatting helpers of the racing game (js/utils.js), and the
    small vocabulary every other module shares: points, options, and the
    host's Math library taken as a parameter. */
module Utils {

  datatype Option<T> = None | Some(value: T)

  /** A point of the plane, in world units. */
  datatype Point = Point(x: real, y: real)

  /** Math.PI, written as the decimal literal JavaScript prints for it. */
  const PI: real := 3.141592653589793

  /** `Math.PI * 2`, the full turn used by every angle computation. */
  const TwoPi: real := PI * 2.0

  /** The host's transcendental functions (Math.sqrt, Math.sin, Math.cos,
      Math.atan2, Math.pow). Nothing about their values is assumed beyond
      what `Lawful` and `ExactSqrt` state where a property needs it. */
  datatype MathLib = MathLib(
    sqrt: real -> real,
    sin: real -> real,
    cos: real -> real,
    atan2: (real, real) -> real,
    pow: (real, real) -> real)

  /** Real multiplication. Products that proofs reason about go through this
      function, so that the solver treats each product as a term and equal
      factors give equal products. */
  function Mul(a: real, b: real): real
  {
    a * b
  }

  /** A duration in milliseconds, in seconds. Spec terms take the seconds
      through this function, so that the same duration is the same term. */
  function Seconds(ms: real): real
  {
    ms / 1000.0
  }

  /** The square of a real number. */
  function Sq(a: real): real
  {
    Mul(a, a)
  }

  lemma MulPositive(a: real, b: real)
    requires 0.0 < a && 0.0 < b
    ensures 0.0 < Mul(a, b)
  {
  }

  lemma MulNegatives(a: real, b: real)
    requires a < 0.0 && b < 0.0
    ensures 0.0 < Mul(a, b)
  {
  }

  lemma MulMonotone(a: real, b: real, c: real)
    requires a <= b && 0.0 <= c
    ensures Mul(a, c) <= Mul(b, c)
  {
  }

  lemma MulStrict(a: real, b: real, c: real)
    requires a < b && 0.0 < c
    ensures Mul(a, c) < Mul(b, c)
  {
  }

  lemma MulAddOne(a: real, b: real)
    ensures Mul(a + 1.0, b) == Mul(a, b) + b
  {
  }

  lemma MulCommutes(a: real, b: real)
    ensures Mul(a, b) == Mul(b, a)
  {
  }

  lemma MulNegate(a: real, b: real)
    ensures Mul(a, -b) == -Mul(a, b)
  {
  }

  lemma DivThenMul(a: real, b: real)
    requires b != 0.0
    ensures Mul(a / b, b) == a
  {
  }

  /** A square is never negative, and is zero only for zero. */
  lemma {:induction false} SquareSign(a: real)
    ensures 0.0 <= Sq(a)
    ensures Sq(a) == 0.0 <==> a == 0.0
  {
    if 0.0 < a {
      MulPositive(a, a);
    } else if a < 0.0 {
      MulNegatives(a, a);
    }
  }

  lemma SquareOfProduct(a: real, b: real)
    ensures Sq(Mul(a, b)) == Mul(Sq(a), Sq(b))
  {
  }

  lemma MulDistributes(a: real, b: real, c: real)
    ensures Mul(a + b, c) == Mul(a, c) + Mul(b, c)
  {
  }

  lemma UnitFactor(a: real, b: real)
    requires 0.0 < b && Mul(a, b) == b
    ensures a == 1.0
  {
    if a < 1.0 {
      MulStrict(a, 1.0, b);
    } else if a > 1.0 {
      MulStrict(1.0, a, b);
    }
  }

  /** Squaring is strictly increasing on the non-negative numbers. */
  lemma SquareMonotone(a: real, b: real)
    requires 0.0 <= a < b
    ensures Sq(a) < Sq(b)
  {
    MulMonotone(a, b, a);
    MulCommutes(b, a);
    MulStrict(a, b, b);
  }

  /** A vector divided by its length has unit squared length. */
  lemma UnitDirection(dx: real, dy: real, dist: real)
    requires 0.0 < dist && Sq(dist) == Sq(dx) + Sq(dy)
    ensures Sq(dx / dist) + Sq(dy / dist) == 1.0
  {
    var u := dx / dist;
    var v := dy / dist;
    DivThenMul(dx, dist);
    DivThenMul(dy, dist);
    SquareOfProduct(u, dist);
    SquareOfProduct(v, dist);
    MulDistributes(Sq(u), Sq(v), Sq(dist));
    SquareSign(dist);
    UnitFactor(Sq(u) + Sq(v), Sq(dist));
  }

  /** Scaling both coordinates by `k` scales the squared length by `k²`. */
  lemma ScaledLength(u: real, v: real, k: real)
    ensures Sq(Mul(u, k)) + Sq(Mul(v, k)) == Mul(Sq(u) + Sq(v), Sq(k))
  {
    SquareOfProduct(u, k);
    SquareOfProduct(v, k);
    MulDistributes(Sq(u), Sq(v), Sq(k));
  }

  /** The least the model asks of Math.sqrt: it maps 0 to 0 and positive
      numbers to positive numbers. */
  ghost predicate Lawful(m: MathLib)
  {
    && m.sqrt(0.0) == 0.0
    && (forall v: real :: 0.0 < v ==> 0.0 < m.sqrt(v))
  }

  /** Math.sqrt as the exact square root, for properties about lengths. */
  ghost predicate ExactSqrt(m: MathLib)
  {
    forall v: real :: 0.0 <= v ==> 0.0 <= m.sqrt(v) && Sq(m.sqrt(v)) == v
  }

  lemma ExactSqrtIsLawful(m: MathLib)
    requires ExactSqrt(m)
    ensures Lawful(m)
  {
    assert 0.0 <= m.sqrt(0.0) && Sq(m.sqrt(0.0)) == 0.0;
    SquareSign(m.sqrt(0.0));
    forall v: real | 0.0 < v
      ensures 0.0 < m.sqrt(v)
    {
      assert 0.0 <= m.sqrt(v) && Sq(m.sqrt(v)) == v;
      SquareSign(m.sqrt(v));
    }
  }

  /** The exact square root of a square is the non-negative base. */
  lemma RootOfSquare(m: MathLib, a: real)
    requires ExactSqrt(m) && 0.0 <= a
    ensures m.sqrt(Sq(a)) == a
  {
    SquareSign(a);
    var r := m.sqrt(Sq(a));
    assert 0.0 <= r && Sq(r) == Sq(a);
    if r < a {
      SquareMonotone(r, a);
      assert false;
    } else if a < r {
      SquareMonotone(a, r);
      assert false;
    }
  }

  function Min(a: real, b: real): (r: real)
    ensures r <= a && r <= b && (r == a || r == b)
  {
    if b < a then b else a
  }

  function Max(a: real, b: real): (r: real)
    ensures a <= r && b <= r && (r == a || r == b)
  {
    if a < b then b else a
  }

  /** The squared distance `(x2 - x1)² + (y2 - y1)²`. */
  function SqDist(x1: real, y1: real, x2: real, y2: real): (s: real)
    ensures 0.0 <= s
    ensures s == 0.0 <==> x1 == x2 && y1 == y2
  {
    SquareSign(x2 - x1);
    SquareSign(y2 - y1);
    Sq(x2 - x1) + Sq(y2 - y1)
  }

  /** Utils.distance: the Euclidean distance between two points. */
  function Distance(m: MathLib, x1: real, y1: real, x2: real, y2: real): (d: real)
    ensures Lawful(m) ==> 0.0 <= d
    ensures Lawful(m) ==> (d == 0.0 <==> x1 == x2 && y1 == y2)
  {
    m.sqrt(SqDist(x1, y1, x2, y2))
  }

  /** With an exact square root, the square of a distance is the squared
      distance. */
  lemma DistanceSquared(m: MathLib, x1: real, y1: real, x2: real, y2: real)
    requires ExactSqrt(m)
    ensures Sq(Distance(m, x1, y1, x2, y2)) == SqDist(x1, y1, x2, y2)
  {
  }

  /** With an exact square root, a distance is below a positive bound
      exactly when the squared distance is below the bound's square. */
  lemma DistanceBelow(m: MathLib, x1: real, y1: real, x2: real, y2: real, bound: real)
    requires ExactSqrt(m) && 0.0 < bound
    ensures Distance(m, x1, y1, x2, y2) < bound <==> SqDist(x1, y1, x2, y2) < Sq(bound)
  {
    ExactSqrtIsLawful(m);
    DistanceSquared(m, x1, y1, x2, y2);
    var d := Distance(m, x1, y1, x2, y2);
    if d < bound {
      SquareMonotone(d, bound);
    } else if bound < d {
      SquareMonotone(bound, d);
    }
  }

  lemma DistanceSymmetric(m: MathLib, x1: real, y1: real, x2: real, y2: real)
    ensures Distance(m, x1, y1, x2, y2) == Distance(m, x2, y2, x1, y1)
  {
    SquareOfNegation(x2 - x1);
    SquareOfNegation(y2 - y1);
  }

  lemma SquareOfNegation(a: real)
    ensures Sq(-a) == Sq(a)
  {
  }

  lemma DistanceToSelf(m: MathLib, x: real, y: real)
    requires Lawful(m)
    ensures Distance(m, x, y, x, y) == 0.0
  {
  }

  /** True when `a` and `b` differ by a whole number of turns. */
  predicate SameDirection(a: real, b: real)
  {
    ((a - b) / TwoPi).Floor as real == (a - b) / TwoPi
  }

  lemma TurnForward(a: real, b: real)
    requires SameDirection(a, b + TwoPi)
    ensures SameDirection(a, b)
  {
    var q := (a - (b + TwoPi)) / TwoPi;
    assert (a - b) / TwoPi == q + 1.0;
    assert (q + 1.0).Floor == q.Floor + 1;
  }

  lemma TurnBack(a: real, b: real)
    requires SameDirection(a, b - TwoPi)
    ensures SameDirection(a, b)
  {
    var q := (a - (b - TwoPi)) / TwoPi;
    assert (a - b) / TwoPi == q - 1.0;
    assert (q - 1.0).Floor == q.Floor - 1;
  }

  /** The first loop of Utils.normalizeAngle: add full turns while negative. */
  function RaiseAngle(angle: real): (r: real)
    ensures 0.0 <= r
    ensures angle >= 0.0 ==> r == angle
    ensures angle < 0.0 ==> r < TwoPi
    ensures SameDirection(r, angle)
    decreases if angle < 0.0 then (-angle / TwoPi).Floor + 1 else 0
  {
    if angle < 0.0 then
      var r := RaiseAngle(angle + TwoPi);
      TurnForward(r, angle);
      r
    else
      angle
  }

  /** The second loop of Utils.normalizeAngle: subtract full turns while at
      or above one turn. */
  function LowerAngle(angle: real): (r: real)
    requires 0.0 <= angle
    ensures 0.0 <= r < TwoPi
    ensures angle < TwoPi ==> r == angle
    ensures SameDirection(r, angle)
    decreases (angle / TwoPi).Floor
  {
    if angle >= TwoPi then
      var r := LowerAngle(angle - TwoPi);
      TurnBack(r, angle);
      r
    else
      angle
  }

  /** Utils.normalizeAngle: the same direction, as an angle in [0, 2π). */
  function NormalizeAngle(angle: real): (r: real)
    ensures 0.0 <= r < TwoPi
    ensures SameDirection(r, angle)
    ensures 0.0 <= angle < TwoPi ==> r == angle
  {
    LowerAngle(RaiseAngle(angle))
  }

  /** Utils.lerp. */
  function Lerp(start: real, end: real, t: real): (r: real)
    ensures t == 0.0 ==> r == start
    ensures t == 1.0 ==> r == end
    ensures 0.0 <= t <= 1.0 ==> Min(start, end) <= r <= Max(start, end)
  {
    ScaleWithin(end - start, t);
    start + Mul(end - start, t)
  }

  /** A fraction in [0, 1] of a span lies between 0 and the span. */
  lemma ScaleWithin(c: real, t: real)
    ensures 0.0 <= t <= 1.0 && 0.0 <= c ==> 0.0 <= Mul(c, t) <= c
    ensures 0.0 <= t <= 1.0 && c < 0.0 ==> c <= Mul(c, t) <= 0.0
  {
    if 0.0 <= t <= 1.0 {
      MulCommutes(c, t);
      if 0.0 <= c {
        MulMonotone(0.0, t, c);
        MulMonotone(t, 1.0, c);
      } else {
        MulMonotone(0.0, t, -c);
        MulMonotone(t, 1.0, -c);
        MulNegate(t, c);
      }
    }
  }

  /** Utils.clamp: `Math.max(min, Math.min(max, value))`. */
  function Clamp(value: real, min: real, max: real): (r: real)
    ensures min <= r
    ensures min <= max ==> r <= max
    ensures min <= value <= max ==> r == value
    ensures value < min ==> r == min
    ensures min <= max < value ==> r == max
  {
    Max(min, Min(max, value))
  }

  /** Utils.pointInRect: bounds inclusive on all four sides. */
  function PointInRect(px: real, py: real, rx: real, ry: real, rw: real, rh: real): (inside: bool)
    ensures inside ==> rx <= px && ry <= py
    ensures inside <==> rx <= px <= rx + rw && ry <= py <= ry + rh
  {
    px >= rx && px <= rx + rw && py >= ry && py <= ry + rh
  }

  /** The rectangle contains its own corners: every bound is inclusive. */
  lemma RectHoldsCorners(rx: real, ry: real, rw: real, rh: real)
    requires 0.0 <= rw && 0.0 <= rh
    ensures PointInRect(rx, ry, rx, ry, rw, rh)
    ensures PointInRect(rx + rw, ry, rx, ry, rw, rh)
    ensures PointInRect(rx, ry + rh, rx, ry, rw, rh)
    ensures PointInRect(rx + rw, ry + rh, rx, ry, rw, rh)
  {
  }

  /** Utils.random, with the Math.random() draw passed in. */
  function RandomReal(min: real, max: real, draw: real): (r: real)
    ensures 0.0 <= draw < 1.0 && min < max ==> min <= r < max
    ensures draw == 0.0 ==> r == min
  {
    ScaleBelow(draw, max - min);
    Mul(draw, max - min) + min
  }

  /** A draw in [0, 1) scales a positive width to something below it. */
  lemma ScaleBelow(draw: real, width: real)
    ensures 0.0 <= draw < 1.0 && 0.0 < width ==> 0.0 <= Mul(draw, width) < width
  {
    if 0.0 <= draw < 1.0 && 0.0 < width {
      MulMonotone(0.0, draw, width);
      MulStrict(draw, 1.0, width);
    }
  }

  /** Utils.randomInt, with the Math.random() draw passed in: inclusive of
      both bounds. */
  function RandomInt(min: int, max: int, draw: real): (r: int)
    ensures min <= max && 0.0 <= draw < 1.0 ==> min <= r <= max
    ensures draw == 0.0 ==> r == min
  {
    ScaleBelow(draw, (max - min + 1) as real);
    Mul(draw, (max - min + 1) as real).Floor + min
  }

  /** `a - b·floor(a / b)` lies in [0, b) for a positive `b`. */
  lemma FloorDivision(a: real, b: real)
    requires 0.0 < b
    ensures Mul((a / b).Floor as real, b) <= a < Mul((a / b).Floor as real, b) + b
  {
    var q := a / b;
    var f := q.Floor as real;
    DivThenMul(a, b);
    MulMonotone(f, q, b);
    MulStrict(q, f + 1.0, b);
    MulAddOne(f, b);
  }

  /** JavaScript's `%` on numbers: the quotient is truncated toward zero, so
      the remainder takes the sign of the dividend. */
  function JsRemainder(a: real, b: real): (r: real)
    requires b > 0.0
    ensures 0.0 <= a ==> 0.0 <= r < b
    ensures 0.0 <= a ==> r == a - Mul((a / b).Floor as real, b)
  {
    var q := a / b;
    var t := if q >= 0.0 then q.Floor else -((-q).Floor);
    FloorDivision(a, b);
    a - Mul(t as real, b)
  }

  function DigitChar(d: nat): (c: char)
    requires d < 10
    ensures '0' <= c <= '9'
  {
    "0123456789"[d]
  }

  function DigitValue(c: char): (d: nat)
    requires '0' <= c <= '9'
    ensures d < 10
    ensures DigitChar(d) == c
  {
    (c as int - '0' as int)
  }

  predicate AllDigits(s: string)
  {
    forall i :: 0 <= i < |s| ==> '0' <= s[i] <= '9'
  }

  /** The decimal numeral of a natural number, most significant digit first. */
  function NatToString(n: nat): (s: string)
    ensures |s| >= 1 && AllDigits(s)
    ensures n < 10 <==> |s| == 1
  {
    if n < 10 then [DigitChar(n)] else NatToString(n / 10) + [DigitChar(n % 10)]
  }

  /** The value of a string of decimal digits. */
  function DecimalValue(s: string): nat
    requires AllDigits(s)
  {
    if s == [] then 0 else DecimalValue(s[..|s| - 1]) * 10 + DigitValue(s[|s| - 1])
  }

  lemma {:induction false} DecimalRoundTrip(n: nat)
    ensures DecimalValue(NatToString(n)) == n
  {
    if n >= 10 {
      DecimalRoundTrip(n / 10);
      var s := NatToString(n);
      assert s[..|s| - 1] == NatToString(n / 10);
    }
  }

  /** `Number.prototype.toString` on an integer. */
  function IntToString(i: int): (s: string)
    ensures 0 <= i ==> s == NatToString(i)
    ensures i < 0 ==> |s| >= 2 && s[0] == '-' && s[1..] == NatToString(-i)
  {
    if i < 0 then "-" + NatToString(-i) else NatToString(i)
  }

  /** `String.prototype.padStart(2, '0')`. */
  function PadStart2(s: string): (r: string)
    ensures |s| <= 2 ==> |r| == 2
    ensures |s| >= 2 ==> r == s
    ensures |s| <= 2 ==> r[2 - |s|..] == s
    ensures forall i :: 0 <= i < 2 - |s| ==> r[i] == '0'
  {
    if |s| == 0 then "00" else if |s| == 1 then "0" + s else s
  }

  /** A number below 100, padded to two characters, is two digits that read
      back as that number. */
  lemma TwoDigits(n: nat)
    requires n < 100
    ensures var p := PadStart2(NatToString(n));
            |p| == 2 && AllDigits(p) && DecimalValue(p) == n
  {
    DecimalRoundTrip(n);
    var s := NatToString(n);
    var p := PadStart2(s);
    if n < 10 {
      assert p == ['0', DigitChar(n)];
      assert p[..1] == "0";
    } else {
      assert n / 10 < 10;
      assert p == s;
    }
  }

  /** Utils.formatTime: `mins:ss`. */
  function FormatTime(seconds: real): string
  {
    var mins := (seconds / 60.0).Floor;
    var secs := JsRemainder(seconds, 60.0).Floor;
    IntToString(mins) + ":" + PadStart2(IntToString(secs))
  }

  /** The two numeric fields of formatTime, for a non-negative time: whole
      minutes, and the whole seconds left over, 0..59. */
  lemma TimeFields(seconds: real)
    requires 0.0 <= seconds
    ensures var mins := (seconds / 60.0).Floor;
            var secs := JsRemainder(seconds, 60.0).Floor;
            && 0 <= mins && 0 <= secs < 60
            && mins * 60 + secs == seconds.Floor
  {
    var mins := (seconds / 60.0).Floor;
    var rem := JsRemainder(seconds, 60.0);
    assert rem == seconds - mins as real * 60.0;
    assert rem.Floor == seconds.Floor - mins * 60;
  }

  /** For a non-negative time, formatTime gives the minute count in decimal,
      a colon, and exactly two digits giving the seconds 0..59; reading the
      two fields back gives the minutes and seconds. */
  lemma FormatTimeShape(seconds: real)
    requires 0.0 <= seconds
    ensures var r := FormatTime(seconds);
            var mins := (seconds / 60.0).Floor;
            var secs := seconds.Floor - 60 * mins;
            && 0 <= mins && 0 <= secs < 60
            && |r| >= 4 && r[|r| - 3] == ':'
            && AllDigits(r[..|r| - 3]) && AllDigits(r[|r| - 2..])
            && DecimalValue(r[..|r| - 3]) == mins
            && DecimalValue(r[|r| - 2..]) == secs
  {
    TimeFields(seconds);
    var mins := (seconds / 60.0).Floor;
    var secs := JsRemainder(seconds, 60.0).Floor;
    var m := NatToString(mins);
    var p := PadStart2(NatToString(secs));
    TwoDigits(secs);
    DecimalRoundTrip(mins);
    var r := FormatTime(seconds);
    assert r == m + ":" + p;
    assert r[..|r| - 3] == m;
    assert r[|r| - 2..] == p;
  }
}
