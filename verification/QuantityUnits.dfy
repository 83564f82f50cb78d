/** Rewriting a quantity in another unit of its dimension (recovery/quantity.go): the digits of
    its value are multiplied out, and the calculation cannot tell the difference. */
module QuantityUnits {
  import opened Decimals
  import opened Rational
  import opened Quantity
  import opened Wrappers

  // ------------------------------------------------------------- reading back

  lemma {:induction false} PointAfter(a: string, b: string)
    requires '.' !in a && (b == "" || b[0] == '.')
    ensures Point(a + b) == |a|
    decreases |a|
  {
    if a == "" {
      assert a + b == b;
    } else {
      assert (a + b)[1..] == a[1..] + b;
      PointAfter(a[1..], b);
    }
  }

  lemma WholeIsPlain(d: Decimal)
    requires WellFormed(d)
    ensures d.whole != "" && '.' !in d.whole && d.whole[0] != '-'
  {
    DigitsHaveNone(d.whole, '.');
    DigitsHaveNone(d.whole, '-');
    assert d.whole[0] in d.whole;
  }

  lemma CutAtPoint(whole: string, fraction: Option<string>)
    ensures var text := whole + if fraction.Some? then "." + fraction.value else "";
      && text[..|whole|] == whole && (|whole| < |text| <==> fraction.Some?)
      && (fraction.Some? ==> text[|whole| + 1..] == fraction.value)
  {
  }

  /** What is written is taken apart into the same decimal. */
  lemma PartsOfWritten(d: Decimal)
    requires WellFormed(d)
    ensures Parts(Written(d)) == d
  {
    hide *;
    var tail := if d.fraction.Some? then "." + d.fraction.value else "";
    var text := d.whole + tail;
    WholeIsPlain(d);
    PointAfter(d.whole, tail);
    UnsignedWritten(d, text);
    CutAtPoint(d.whole, d.fraction);
    PartsIs(Written(d), text, |d.whole|);
  }

  lemma UnsignedWritten(d: Decimal, text: string)
    requires d.whole != "" && d.whole[0] != '-' && text == d.whole + if d.fraction.Some? then "." + d.fraction.value else ""
    ensures Written(d) != "" && Unsigned(Written(d)) == text && (Written(d)[0] == '-') == d.negative
  {
    var sign := if d.negative then "-" else "";
    assert Written(d) == sign + text;
    if d.negative { assert (sign + text)[1..] == text; } else { assert sign + text == text; }
  }

  // ------------------------------------------------------------- multiplying out

  /** All digits of a decimal, with its point left out. */
  function AllDigits(d: Decimal): (s: string)
    requires WellFormed(d)
    ensures Digits(s)
  {
    d.whole + if d.fraction.Some? then d.fraction.value else ""
  }

  function Places(d: Decimal): nat {
    if d.fraction.Some? then |d.fraction.value| else 0
  }

  lemma Remainder(n: nat, p: int)
    requires p > 0
    ensures 0 <= n / p && 0 <= n % p < p && n / p * p + n % p == n
  {
  }

  /** The decimal `m` times as large, in as many places. */
  function Scaled(d: Decimal, m: nat): (e: Decimal)
    requires WellFormed(d)
    ensures WellFormed(e)
  {
    var n, p := Number(AllDigits(d)) * m, Power10(Places(d));
    Remainder(n, p);
    Decimal(d.negative, Text(n / p), if d.fraction.Some? then Some(Padded(n % p, Places(d))) else None)
  }

  lemma ScaledDigits(d: Decimal, m: nat)
    requires WellFormed(d)
    ensures Number(AllDigits(Scaled(d, m))) == Number(AllDigits(d)) * m && Places(Scaled(d, m)) == Places(d)
  {
    var n, p, e := Number(AllDigits(d)) * m, Power10(Places(d)), Scaled(d, m);
    Remainder(n, p);
    NumberConcat(e.whole, if e.fraction.Some? then e.fraction.value else "");
    if d.fraction.None? { assert p == 1; }
  }

  lemma TimesInteger(n: int, p: int, m: nat)
    requires p > 0
    ensures Val(Ratio(n * m, p)) == Val(Ratio(n, p)) * m as real
  {
    var x, q := Val(Ratio(n, p)), p as real;
    ValTimes(Ratio(n, p));
    TimesCast(n, m);
    assert x * m as real * q == x * q * m as real;
    ValIs(Ratio(n * m, p), x * m as real);
  }

  function Signed(negative: bool, n: int): int {
    if negative then -n else n
  }

  lemma SignedTimes(negative: bool, n: int, m: int)
    ensures Signed(negative, n * m) == Signed(negative, n) * m
  {
  }

  lemma SameSign(d: Decimal, m: nat)
    requires WellFormed(d)
    ensures Scaled(d, m).negative == d.negative
  {
  }

  lemma ScaledDenotes(d: Decimal, m: nat)
    requires WellFormed(d)
    ensures Denotes(Scaled(d, m)) == Denotes(d) * m as real
  {
    hide *;
    ScaledDigits(d, m);
    SameSign(d, m);
    RatioIsExact(d);
    RatioIsExact(Scaled(d, m));
    RatioDigits(d);
    RatioDigits(Scaled(d, m));
    SignedTimes(d.negative, Number(AllDigits(d)), m);
    TimesInteger(Signed(d.negative, Number(AllDigits(d))), Power10(Places(d)), m);
  }

  lemma RatioDigits(d: Decimal)
    requires WellFormed(d)
    ensures RatioOf(d) == Ratio(Signed(d.negative, Number(AllDigits(d))), Power10(Places(d)))
  {
  }

  // ------------------------------------------------------------- other units

  /** How many of `to` make one of `from`, when that is a whole number. */
  function Fold(from: string, to: string): Option<nat> {
    if UnitOf(from).None? || UnitOf(to).None? || UnitOf(from).value.dimension != UnitOf(to).value.dimension then None
    else
      var u, v := UnitOf(from).value, UnitOf(to).value;
      var a, b := u.numerator * v.denominator, u.denominator * v.numerator;
      if b > 0 && a >= 0 && a % b == 0 then Some(a / b) else None
  }

  lemma FoldOfFractions(un: int, ud: int, vn: int, vd: int, m: int)
    requires ud > 0 && vn > 0 && vd > 0 && un * vd == m * (ud * vn)
    ensures un as real / ud as real == m as real * (vn as real / vd as real)
  {
    var x, y := un as real / ud as real, vn as real / vd as real;
    assert x * ud as real == un as real && y * vd as real == vn as real;
    TimesCast(un, vd);
    TimesCast(ud, vn);
    TimesCast(m, ud * vn);
    var q := ud as real * vd as real;
    assert x * q == (x * ud as real) * vd as real;
    assert m as real * y * q == m as real * (ud as real * (y * vd as real));
    assert q != 0.0;
    SameTimes(x, m as real * y, q);
  }

  lemma SameTimes(x: real, y: real, q: real)
    requires x * q == y * q && q != 0.0
    ensures x == y
  {
    assert x == x * q / q && y == y * q / q;
  }

  lemma FoldIsRatio(from: string, to: string)
    requires Fold(from, to).Some?
    ensures UnitOf(from).Some? && UnitOf(to).Some? && UnitOf(from).value.dimension == UnitOf(to).value.dimension
    ensures Factor(from) == Fold(from, to).value as real * Factor(to)
  {
    hide UnitOf;
    var u, v := UnitOf(from).value, UnitOf(to).value;
    var a, b := u.numerator * v.denominator, u.denominator * v.numerator;
    Remainder(a, b);
    FoldOfFractions(u.numerator, u.denominator, v.numerator, v.denominator, a / b);
  }

  /** The same quantity in the finer unit. */
  function InUnit(q: Quantity, unit: string): Quantity
    requires Measurable(q) && Fold(q.unit, unit).Some?
  {
    PassingIsWritten(q.value);
    q.(value := Written(Scaled(Parts(q.value), Fold(q.unit, unit).value)), unit := unit)
  }

  lemma InUnitIs(q: Quantity, unit: string)
    requires Measurable(q) && Fold(q.unit, unit).Some?
    ensures Passes(q.value) && WellFormed(Parts(q.value))
    ensures InUnit(q, unit) == q.(value := Written(Scaled(Parts(q.value), Fold(q.unit, unit).value)), unit := unit)
  {
    PassingIsWritten(q.value);
    hide Fold;
    hide Passes;
    hide Scaled;
    hide Parts;
    hide Written;
    hide UnitOf;
  }

  lemma ValueIs(value: string)
    requires Passes(value)
    ensures WellFormed(Parts(value)) && Value(value) == Denotes(Parts(value))
  {
    PassingIsWritten(value);
    hide Passes;
    hide Parts;
    hide Denotes;
  }

  lemma IsMeasurable(q: Quantity)
    requires Passes(q.value) && UnitOf(q.unit).Some?
    ensures Measurable(q)
  {
    hide Passes;
    hide UnitOf;
  }

  lemma MeasureUnfolds(q: Quantity)
    requires Measurable(q)
    ensures Passes(q.value) && UnitOf(q.unit).Some? && DimensionOf(q) == UnitOf(q.unit).value.dimension
    ensures Measure(q) == Value(q.value) * Factor(q.unit)
  {
    hide Passes;
    hide UnitOf;
    hide Value;
    hide Factor;
  }

  lemma MeasureIs(q: Quantity)
    requires Passes(q.value) && UnitOf(q.unit).Some?
    ensures Measurable(q) && WellFormed(Parts(q.value)) && DimensionOf(q) == UnitOf(q.unit).value.dimension
    ensures Measure(q) == Denotes(Parts(q.value)) * Factor(q.unit)
  {
    hide *;
    IsMeasurable(q);
    MeasureUnfolds(q);
    ValueIs(q.value);
  }

  lemma HasUnit(q: Quantity)
    requires Measurable(q)
    ensures UnitOf(q.unit).Some?
  {
    hide UnitOf;
    hide Passes;
  }

  /** It is a quantity of the same kind and the same measure, if it is not too long to write. */
  lemma InUnitIsSame(q: Quantity, unit: string)
    requires Measurable(q) && Fold(q.unit, unit).Some? && |InUnit(q, unit).value| <= MAX_LENGTH
    ensures var r := InUnit(q, unit); Measurable(r) && r.unit == unit && DimensionOf(r) == DimensionOf(q) && Measure(r) == Measure(q)
  {
    hide *;
    InUnitIs(q, unit);
    HasUnit(q);
    var d, m := Parts(q.value), Fold(q.unit, unit).value;
    FoldIsRatio(q.unit, unit);
    ScaledDenotes(d, m);
    WrittenPasses(Scaled(d, m));
    PartsOfWritten(Scaled(d, m));
    MeasureIs(q);
    MeasureIs(InUnit(q, unit));
    SameProduct(Denotes(d), m as real, Factor(unit));
  }

  lemma SameProduct(x: real, m: real, f: real)
    ensures x * m * f == x * (m * f)
  {
  }

  /** Rewriting both operands in finer units of their dimensions, or either, changes no answer;
      read from right to left, neither does rewriting them in coarser ones. */
  lemma UnitsDoNotMatter(c: Calculation, left: string, right: string, n: int)
    requires Measurable(c.left) && Fold(c.left.unit, left).Some? && |InUnit(c.left, left).value| <= MAX_LENGTH
    requires Measurable(c.right) && Fold(c.right.unit, right).Some? && |InUnit(c.right, right).value| <= MAX_LENGTH
    ensures Answers(c, n) <==> Answers(c.(left := InUnit(c.left, left), right := InUnit(c.right, right)), n)
  {
    InUnitIsSame(c.left, left);
    InUnitIsSame(c.right, right);
    hide InUnit;
    hide Measurable;
    hide Fold;
    MeasuresDecide(c, InUnit(c.left, left), InUnit(c.right, right), n);
  }
}
