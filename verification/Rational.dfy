/** Exact rationals and the rounding of recovery/quantity.go, which is built on division that
    truncates toward zero. */
module Rational {
  import opened Wrappers

  datatype Ratio = Ratio(n: int, d: int)

  /** A quotient of integers over a positive denominator; it need not be in lowest terms. */
  type Rat = r: Ratio | r.d > 0 witness Ratio(0, 1)

  function Val(r: Rat): real {
    r.n as real / r.d as real
  }

  lemma ValTimes(r: Rat)
    ensures Val(r) * r.d as real == r.n as real
  {
  }

  /** The value of `r` is the only solution of `x * d == n`. */
  lemma ValIs(r: Rat, x: real)
    requires x * r.d as real == r.n as real
    ensures x == Val(r)
  {
    assert x * r.d as real / r.d as real == x;
  }

  lemma TimesCast(a: int, b: int)
    ensures (a * b) as real == a as real * b as real
  {
  }

  function Plus(a: Rat, b: Rat): (r: Rat)
    ensures Val(r) == Val(a) + Val(b)
  {
    var r := Ratio(a.n * b.d + b.n * a.d, a.d * b.d);
    PlusVal(a, b);
    r
  }

  lemma PlusVal(a: Rat, b: Rat)
    ensures a.d * b.d > 0 && Val(Ratio(a.n * b.d + b.n * a.d, a.d * b.d)) == Val(a) + Val(b)
  {
    var x, y := Val(a), Val(b);
    var p, q := a.d as real, b.d as real;
    ValTimes(a);
    ValTimes(b);
    TimesCast(a.n, b.d);
    TimesCast(b.n, a.d);
    TimesCast(a.d, b.d);
    assert (x + y) * (p * q) == (x * p) * q + (y * q) * p;
    ValIs(Ratio(a.n * b.d + b.n * a.d, a.d * b.d), x + y);
  }

  function Negate(a: Rat): (r: Rat)
    ensures Val(r) == -Val(a)
  {
    ValTimes(a);
    ValIs(Ratio(-a.n, a.d), -Val(a));
    Ratio(-a.n, a.d)
  }

  function Times(a: Rat, b: Rat): (r: Rat)
    ensures Val(r) == Val(a) * Val(b)
  {
    TimesVal(a, b);
    Ratio(a.n * b.n, a.d * b.d)
  }

  lemma TimesVal(a: Rat, b: Rat)
    ensures a.d * b.d > 0 && Val(Ratio(a.n * b.n, a.d * b.d)) == Val(a) * Val(b)
  {
    var x, y := Val(a), Val(b);
    var p, q := a.d as real, b.d as real;
    ValTimes(a);
    ValTimes(b);
    TimesCast(a.n, b.n);
    TimesCast(a.d, b.d);
    assert (x * y) * (p * q) == (x * p) * (y * q);
    ValIs(Ratio(a.n * b.n, a.d * b.d), x * y);
  }

  function Inverse(a: Rat): (r: Rat)
    requires a.n != 0
    ensures Val(a) != 0.0 && Val(r) == 1.0 / Val(a)
  {
    InverseVal(a);
    if a.n > 0 then Ratio(a.d, a.n) else Ratio(-a.d, -a.n)
  }

  lemma InverseVal(a: Rat)
    requires a.n != 0
    ensures Val(a) != 0.0
    ensures Val(if a.n > 0 then Ratio(a.d, a.n) else Ratio(-a.d, -a.n)) == 1.0 / Val(a)
  {
    var x, p := Val(a), a.d as real;
    ValTimes(a);
    assert x != 0.0;
    var y := 1.0 / x;
    assert y * x == 1.0;
    assert y * (x * p) == (y * x) * p == p;
    if a.n > 0 { ValIs(Ratio(a.d, a.n), y); } else { ValIs(Ratio(-a.d, -a.n), y); }
  }

  lemma SignOfVal(a: Rat)
    ensures a.n == 0 <==> Val(a) == 0.0
  {
    ValTimes(a);
  }

  // ------------------------------------------------------------- what rounding means

  datatype Mode = Exact | Floor | Ceil | NearestEven

  /** `r` is `n / d` rounded by `mode`. */
  predicate Rounds(mode: Mode, r: int, n: int, d: int) {
    match mode
    case Exact => r * d == n
    case Floor => r * d <= n < (r + 1) * d
    case Ceil => (r - 1) * d < n <= r * d
    case NearestEven => 2 * Abs(n - r * d) <= d && (2 * Abs(n - r * d) == d ==> r % 2 == 0)
  }

  function Abs(x: int): nat { if x < 0 then -x else x }

  /** The same, on real numbers. */
  predicate RoundsReal(mode: Mode, r: int, x: real) {
    var v := r as real;
    match mode
    case Exact => v == x
    case Floor => v <= x < v + 1.0
    case Ceil => v - 1.0 < x <= v
    case NearestEven => -0.5 <= x - v <= 0.5 && (x - v in {-0.5, 0.5} ==> r % 2 == 0)
  }

  /** Division that truncates toward zero. */
  function Quotient(n: int, d: int): int
    requires d > 0
  {
    if n >= 0 then n / d else -((-n) / d)
  }

  lemma QuotientMeans(n: int, d: int)
    requires d > 0
    ensures var q := Quotient(n, d); var rem := n - q * d;
      Abs(rem) < d && (n >= 0 ==> rem >= 0) && (n <= 0 ==> rem <= 0)
  {
    if n < 0 {
      var m := -n;
      assert m == m / d * d + m % d;
    } else {
      assert n == n / d * d + n % d;
    }
  }

  ghost predicate Divides(d: int, n: int) {
    exists k: int :: Rounds(Exact, k, n, d)
  }

  /** A remainder that is not zero rules every exact quotient out. */
  lemma Indivisible(n: int, d: int, q: int)
    requires d > 0 && 0 < Abs(n - q * d) < d
    ensures !Divides(d, n)
  {
    forall k: int ensures !Rounds(Exact, k, n, d) {
      if k != q {
        MultipleIsFar(k - q, d);
        assert (k - q) * d == k * d - q * d;
      }
    }
  }

  /** Rounding as it is computed: truncate, then correct by the sign of the remainder. */
  method RoundRational(x: Rat, mode: Mode) returns (r: Option<int>)
    ensures r.None? <==> mode.Exact? && !Divides(x.d, x.n)
    ensures r.Some? ==> Rounds(mode, r.value, x.n, x.d)
  {
    var q := Quotient(x.n, x.d);
    var rem := x.n - q * x.d;
    QuotientMeans(x.n, x.d);
    var sign := if x.n > 0 then 1 else if x.n < 0 then -1 else 0;
    ghost var q0 := q;
    match mode {
      case Exact =>
        if rem != 0 {
          Indivisible(x.n, x.d, q);
          return None;
        }
      case Floor =>
        if rem < 0 {
          q := q - 1;
        }
      case Ceil =>
        if rem > 0 {
          q := q + 1;
        }
      case NearestEven =>
        var twice := 2 * Abs(rem);
        if twice > x.d || (twice == x.d && q % 2 != 0) {
          q := q + sign;
        }
    }
    assert (q0 + 1) * x.d == q0 * x.d + x.d && (q0 - 1) * x.d == q0 * x.d - x.d;
    assert Rounds(mode, q, x.n, x.d);
    r := Some(q);
  }

  lemma MultipleIsFar(k: int, d: int)
    requires k != 0 && d > 0
    ensures Abs(k * d) >= d
  {
    var j := Abs(k) - 1;
    assert j * d >= 0;
    if k > 0 { assert k * d == j * d + d; } else { assert k * d == -(j * d + d); }
  }

  lemma ExactValue(r: int, x: Rat)
    ensures r * x.d == x.n <==> r as real == Val(x)
  {
    ValTimes(x);
    TimesCast(r, x.d);
    if r * x.d == x.n { ValIs(x, r as real); }
  }

  lemma BelowValue(r: int, x: Rat)
    ensures r * x.d <= x.n <==> r as real <= Val(x)
  {
    ValTimes(x);
    TimesCast(r, x.d);
    ScaleOrder(r as real, Val(x), x.d as real);
  }

  lemma HalfOf(e: int, d: int, x: real)
    requires d > 0 && x * d as real == e as real
    ensures 2 * e <= d <==> x <= 0.5
    ensures 2 * e >= d <==> x >= 0.5
  {
    var p := d as real;
    ScaleOrder(x, 0.5, p);
    ScaleOrder(0.5, x, p);
  }

  lemma DistanceValue(r: int, x: Rat)
    ensures 2 * (x.n - r * x.d) <= x.d <==> Val(x) - r as real <= 0.5
    ensures 2 * (x.n - r * x.d) >= x.d <==> Val(x) - r as real >= 0.5
    ensures 2 * (r * x.d - x.n) <= x.d <==> r as real - Val(x) <= 0.5
    ensures 2 * (r * x.d - x.n) >= x.d <==> r as real - Val(x) >= 0.5
  {
    var v, p, y := r as real, x.d as real, Val(x);
    ValTimes(x);
    TimesCast(r, x.d);
    assert (y - v) * p == y * p - v * p && (v - y) * p == v * p - y * p;
    hide Val;
    HalfOf(x.n - r * x.d, x.d, y - v);
    HalfOf(r * x.d - x.n, x.d, v - y);
  }

  /** Rounding a ratio is rounding its real value. */
  lemma RoundsItsValue(mode: Mode, r: int, x: Rat)
    ensures Rounds(mode, r, x.n, x.d) <==> RoundsReal(mode, r, Val(x))
  {
    match mode
    case Exact => ExactValue(r, x);
    case Floor =>
      BelowValue(r, x);
      BelowValue(r + 1, x);
    case Ceil =>
      BelowValue(r - 1, x);
      BelowValue(r, x);
      ExactValue(r, x);
      ExactValue(r - 1, x);
    case NearestEven =>
      DistanceValue(r, x);
  }

  lemma ScaleOrder(a: real, b: real, p: real)
    requires p > 0.0
    ensures a <= b <==> a * p <= b * p
  {
    if a <= b { assert (b - a) * p >= 0.0; } else { assert (a - b) * p > 0.0; }
  }

  /** Each policy determines its result, and orders results as it finds arguments. */
  lemma RoundingIsMonotone(mode: Mode, r: int, x: real, s: int, y: real)
    requires RoundsReal(mode, r, x) && RoundsReal(mode, s, y) && x <= y
    ensures r <= s
  {
  }

  lemma RoundingIsUnique(mode: Mode, r: int, s: int, x: real)
    requires RoundsReal(mode, r, x) && RoundsReal(mode, s, x)
    ensures r == s
  {
    RoundingIsMonotone(mode, r, x, s, x);
    RoundingIsMonotone(mode, s, x, r, x);
  }

  /** Rounding down is rounding the opposite up; rounding to even is symmetric. */
  lemma RoundingIsDual(r: int, x: real)
    ensures RoundsReal(Floor, r, -x) <==> RoundsReal(Ceil, -r, x)
    ensures RoundsReal(NearestEven, r, -x) <==> RoundsReal(NearestEven, -r, x)
  {
  }

  /** Only the value matters, not how the ratio is written. */
  lemma RoundingIgnoresScale(mode: Mode, r: int, x: Rat, y: Rat)
    requires Val(x) == Val(y)
    ensures Rounds(mode, r, x.n, x.d) <==> Rounds(mode, r, y.n, y.d)
  {
    RoundsItsValue(mode, r, x);
    RoundsItsValue(mode, r, y);
  }
}
