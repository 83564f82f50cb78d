/** The text of an exact ratio in lowest terms (recovery/quantity.go, as its `Exact` result). */
module RationalText {
  import opened Decimals
  import opened Rational

  /** Euclid's algorithm. */
  function Gcd(a: nat, b: nat): (g: nat)
    requires a > 0 || b > 0
    ensures g > 0
    decreases b
  {
    if b == 0 then a else Gcd(b, a % b)
  }

  ghost predicate IsTimes(q: int, k: int, n: int) {
    q * k == n
  }

  ghost predicate Multiple(n: int, k: int) {
    exists q :: IsTimes(q, k, n)
  }

  ghost predicate Common(k: int, a: int, b: int) {
    Multiple(a, k) && Multiple(b, k)
  }

  lemma SumOfProducts(x: int, y: int, q: int, k: int)
    ensures (x + y * q) * k == x * k + y * k * q
  {
  }

  lemma MultipleOfSum(k: int, a: int, b: int, q: int)
    requires Common(k, a, b)
    ensures Multiple(a + b * q, k)
  {
    var x :| IsTimes(x, k, a);
    var y :| IsTimes(y, k, b);
    SumOfProducts(x, y, q, k);
    assert IsTimes(x + y * q, k, a + b * q);
  }

  lemma MultipleOfSelf(k: int)
    ensures Multiple(k, k) && Multiple(0, k)
  {
    assert IsTimes(1, k, k) && IsTimes(0, k, 0);
  }

  lemma DividedBy(a: nat, b: nat)
    requires b > 0
    ensures a % b + b * (a / b) == a && a + b * -(a / b) == a % b
  {
  }

  /** It is a common divisor, and every common divisor divides it. */
  lemma {:induction false} GcdIsGreatest(a: nat, b: nat, k: int)
    requires a > 0 || b > 0
    ensures Common(Gcd(a, b), a, b)
    ensures Common(k, a, b) ==> Multiple(Gcd(a, b), k)
    decreases b
  {
    if b == 0 {
      MultipleOfSelf(a);
    } else {
      hide Multiple;
      GcdIsGreatest(b, a % b, k);
      DividedBy(a, b);
      MultipleOfSum(Gcd(a, b), a % b, b, a / b);
      if Common(k, a, b) { MultipleOfSum(k, a, b, -(a / b)); }
    }
  }

  /** Nothing above one divides both sides. */
  ghost predicate InLowestTerms(r: Rat) {
    forall k | k > 1 :: !Common(k, r.n, r.d)
  }

  function Lowest(r: Rat): (q: Rat)
    ensures InLowestTerms(q) && Val(q) == Val(r)
  {
    var g := Gcd(Abs(r.n), r.d);
    LowestIs(r, g);
    Ratio(r.n / g, r.d / g)
  }

  lemma MultipleOfAbs(n: int, k: int)
    ensures Multiple(n, k) <==> Multiple(Abs(n), k)
  {
    var m: int := Abs(n);
    forall q | IsTimes(q, k, n) ensures IsTimes(-q, k, -n) {
    }
    forall q | IsTimes(q, k, m) ensures IsTimes(-q, k, -m) {
    }
    if Multiple(n, k) {
      var q :| IsTimes(q, k, n);
      assert IsTimes(-q, k, -n);
    }
    if Multiple(m, k) {
      var q :| IsTimes(q, k, m);
      assert IsTimes(-q, k, -m);
    }
  }

  lemma QuotientOf(q: int, k: int, n: int)
    requires k > 0 && q * k == n
    ensures n / k == q
  {
    if n / k > q { OneApart(n / k, q, k); }
    if n / k < q { OneApart(q, n / k, k); }
  }

  lemma OneApart(a: int, b: int, k: int)
    requires a > b && k > 0
    ensures a * k >= b * k + k
  {
    Spread(a - b, b, k);
    AtLeastOnce(a - b, k);
  }

  lemma Spread(e: int, b: int, k: int)
    ensures (e + b) * k == e * k + b * k
  {
  }

  lemma AtLeastOnce(e: int, k: int)
    requires e > 0 && k > 0
    ensures e * k >= k
  {
    Spread(e - 1, 1, k);
  }

  lemma DividesOut(n: int, k: int)
    requires k > 0 && Multiple(n, k)
    ensures n / k * k == n
  {
    var q :| IsTimes(q, k, n);
    QuotientOf(q, k, n);
  }

  lemma TimesMultiple(n: int, k: int, g: int)
    requires Multiple(n, k)
    ensures Multiple(n * g, k * g)
  {
    var q :| IsTimes(q, k, n);
    assert q * (k * g) == q * k * g;
    assert IsTimes(q, k * g, n * g);
  }

  lemma PositiveProduct(x: int, y: int)
    requires x * y > 0 && y > 0
    ensures x > 0
  {
  }

  lemma NotSmaller(k: int, g: int)
    requires k > 0 && g > 0 && Multiple(g, k * g)
    ensures k == 1
  {
    var q :| IsTimes(q, k * g, g);
    assert q * (k * g) == q * k * g;
    PositiveProduct(q * k, g);
    if q * k > 1 { OneApart(q * k, 1, g); }
    PositiveProduct(q, k);
  }

  lemma CommonIsOne(a: int, b: int, g: int, n: int, d: int, k: int)
    requires b > 0 && g == Gcd(Abs(a), b) && n * g == a && d * g == b && k > 0 && Common(k, n, d)
    ensures k == 1
  {
    hide Multiple;
    TimesMultiple(n, k, g);
    TimesMultiple(d, k, g);
    MultipleOfAbs(a, k * g);
    GcdIsGreatest(Abs(a), b, k * g);
    NotSmaller(k, g);
  }

  lemma LowestIs(r: Rat, g: nat)
    requires g == Gcd(Abs(r.n), r.d)
    ensures g > 0 && r.d / g > 0
    ensures InLowestTerms(Ratio(r.n / g, r.d / g)) && Val(Ratio(r.n / g, r.d / g)) == Val(r)
  {
    hide Multiple;
    hide Val;
    GcdIsGreatest(Abs(r.n), r.d, 1);
    MultipleOfAbs(r.n, g);
    DividesOut(r.n, g);
    DividesOut(r.d, g);
    var n, d := r.n / g, r.d / g;
    PositiveProduct(d, g);
    forall k | k > 1 ensures !Common(k, n, d) {
      if Common(k, n, d) { CommonIsOne(r.n, r.d, g, n, d, k); }
    }
    SameVal(r, n, d, g);
  }

  lemma SameVal(r: Rat, n: int, d: int, g: int)
    requires g > 0 && d > 0 && n * g == r.n && d * g == r.d
    ensures Val(Ratio(n, d)) == Val(r)
  {
    var x := Val(Ratio(n, d));
    ValTimes(Ratio(n, d));
    TimesCast(n, g);
    TimesCast(d, g);
    hide Val;
    assert x * (d as real * g as real) == x * d as real * g as real;
    ValIs(r, x);
  }

  /** A whole number alone, any other ratio with its denominator. */
  function RatText(r: Rat): string {
    (if r.n < 0 then "-" else "") + Text(Abs(r.n)) + if r.d == 1 then "" else "/" + Text(r.d)
  }

  /** `text` is the number `x`, in lowest terms. */
  ghost predicate Spells(text: string, x: real) {
    exists r: Rat :: InLowestTerms(r) && Val(r) == x && text == RatText(r)
  }

  function RatString(r: Rat): (text: string)
    ensures Spells(text, Val(r))
  {
    var q := Lowest(r);
    assert InLowestTerms(q) && Val(q) == Val(r);
    RatText(q)
  }
}
