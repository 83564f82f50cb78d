/** Decimal strings, units and two-operand arithmetic of recovery/quantity.go. */
module Quantity {
  import opened Decimals
  import opened Rational
  import opened RationalText
  import opened Wrappers

  // ------------------------------------------------------------- decimals

  const MAX_LENGTH := 64

  function Count(s: string, c: char): nat {
    if s == "" then 0 else (if s[0] == c then 1 else 0) + Count(s[1..], c)
  }

  /** A decimal taken apart: `whole` digits, and `fraction` digits after a point. */
  datatype Decimal = Decimal(negative: bool, whole: string, fraction: Option<string>)

  /** An optional minus, digits, and an optional point with digits. */
  predicate WellFormed(d: Decimal) {
    && d.whole != "" && Digits(d.whole)
    && (d.fraction.Some? ==> d.fraction.value != "" && Digits(d.fraction.value))
  }

  function Written(d: Decimal): string {
    (if d.negative then "-" else "") + d.whole + if d.fraction.Some? then "." + d.fraction.value else ""
  }

  /** The number that a decimal denotes. */
  function Denotes(d: Decimal): real
    requires WellFormed(d)
  {
    var size := Number(d.whole) as real
      + if d.fraction.Some? then Number(d.fraction.value) as real / Power10(|d.fraction.value|) as real else 0.0;
    if d.negative then -size else size
  }

  predicate Allowed(c: char) { Digit(c) || c == '-' || c == '.' }

  /** The tests that a value must pass, in the order in which they are made. */
  predicate Passes(value: string) {
    && 0 < |value| <= MAX_LENGTH && (forall c <- value :: Allowed(c))
    && Count(value, '.') <= 1 && Count(value, '-') <= 1 && '-' !in value[1..]
    && var text := Unsigned(value);
       text != "" && text[0] != '.' && text[|text| - 1] != '.'
  }

  function Unsigned(value: string): string {
    if value != "" && value[0] == '-' then value[1..] else value
  }

  /** Where the point is, or the length of a text without one. */
  function Point(s: string): (k: nat)
    ensures k <= |s| && '.' !in s[..k] && (k < |s| ==> s[k] == '.')
  {
    if s == "" || s[0] == '.' then 0 else 1 + Point(s[1..])
  }

  lemma CountZero(s: string, c: char)
    ensures Count(s, c) == 0 <==> c !in s
  {
  }

  lemma CountConcat(a: string, b: string, c: char)
    ensures Count(a + b, c) == Count(a, c) + Count(b, c)
  {
    if a == "" {
      assert a + b == b;
    } else {
      assert (a + b)[1..] == a[1..] + b;
      CountConcat(a[1..], b, c);
    }
  }

  /** The parts that the parser splits a text into. */
  function Parts(value: string): Decimal {
    var text := Unsigned(value);
    var k := Point(text);
    Decimal(value != "" && value[0] == '-', text[..k], if k < |text| then Some(text[k + 1..]) else None)
  }

  lemma UnsignedHasNoMinus(value: string)
    requires Passes(value)
    ensures '-' !in Unsigned(value) && Count(Unsigned(value), '.') == Count(value, '.')
    ensures forall c <- Unsigned(value) :: Allowed(c)
  {
    assert value == [value[0]] + value[1..];
    assert Count(value, '.') == (if value[0] == '.' then 1 else 0) + Count(value[1..], '.');
  }

  lemma OnePoint(text: string)
    requires Count(text, '.') <= 1
    ensures var k := Point(text); '.' !in text[..k] && (k < |text| ==> '.' !in text[k + 1..])
  {
    var k := Point(text);
    if k < |text| {
      CountConcat(text[..k], text[k..], '.');
      assert text == text[..k] + text[k..] && text[k..][1..] == text[k + 1..];
      CountZero(text[k + 1..], '.');
    }
  }

  predicate Plain(s: string) {
    forall i | 0 <= i < |s| :: s[i] == '.' || Digit(s[i])
  }

  lemma NoPointIsDigits(text: string, lo: nat, hi: nat)
    requires lo <= hi <= |text| && '.' !in text[lo..hi]
    requires Plain(text)
    ensures Digits(text[lo..hi])
  {
    forall c <- text[lo..hi] ensures Digit(c) {
      var i :| 0 <= i < hi - lo && text[lo..hi][i] == c;
      assert text[lo + i] == c;
    }
  }

  /** A text of digits and points, split at its only point. */
  lemma SplitText(text: string)
    requires text != "" && text[0] != '.' && text[|text| - 1] != '.' && Count(text, '.') <= 1
    requires Plain(text)
    ensures var k := Point(text);
      && 0 < k && Digits(text[..k])
      && (k < |text| ==> k + 1 < |text| && Digits(text[k + 1..]) && text == text[..k] + ("." + text[k + 1..]))
  {
    hide Count;
    hide Digits;
    hide Plain;
    var k := Point(text);
    assert k > 0;
    hide Point;
    OnePoint(text);
    assert text[0..k] == text[..k];
    NoPointIsDigits(text, 0, k);
    if k < |text| {
      assert text[k + 1..|text|] == text[k + 1..];
      NoPointIsDigits(text, k + 1, |text|);
      JoinPoint(text, k);
    }
  }

  lemma JoinPoint(text: string, k: nat)
    requires k < |text| && text[k] == '.'
    ensures text == text[..k] + ("." + text[k + 1..])
  {
  }

  lemma PassingIsPlain(value: string)
    requires Passes(value)
    ensures value != "" && Plain(Unsigned(value)) && Count(Unsigned(value), '.') <= 1
    ensures var text := Unsigned(value); text != "" && text[0] != '.' && text[|text| - 1] != '.'
  {
    UnsignedHasNoMinus(value);
    var text := Unsigned(value);
    assert forall i | 0 <= i < |text| :: text[i] in text;
    hide Count;
  }

  lemma SignedText(value: string)
    requires value != ""
    ensures value == (if value[0] == '-' then "-" else "") + Unsigned(value)
  {
  }

  lemma PassingIsWellFormed(value: string)
    requires Passes(value)
    ensures WellFormed(Parts(value))
  {
    hide Passes;
    hide Count;
    hide Point;
    hide Digits;
    hide Plain;
    PassingIsPlain(value);
    SplitText(Unsigned(value));
    hide Unsigned;
  }

  lemma PartsIs(value: string, text: string, k: nat)
    requires value != "" && text == Unsigned(value) && k == Point(text)
    ensures Parts(value) == Decimal(value[0] == '-', text[..k], if k < |text| then Some(text[k + 1..]) else None)
  {
    hide Unsigned;
    hide Point;
  }

  lemma WrittenIs(sign: string, whole: string, fraction: Option<string>, negative: bool)
    requires sign == if negative then "-" else ""
    ensures Written(Decimal(negative, whole, fraction)) == sign + whole + if fraction.Some? then "." + fraction.value else ""
  {
  }

  lemma PartsAreWritten(value: string, text: string, k: nat)
    requires value != "" && text == Unsigned(value) && k == Point(text)
    requires k < |text| ==> text == text[..k] + ("." + text[k + 1..])
    ensures Written(Parts(value)) == value
  {
    hide *;
    SignedText(value);
    PartsIs(value, text, k);
    var sign := if value[0] == '-' then "-" else "";
    if k < |text| {
      WrittenIs(sign, text[..k], Some(text[k + 1..]), value[0] == '-');
      Glue(sign, text[..k], "." + text[k + 1..], text, value);
    } else {
      WrittenIs(sign, text[..k], None, value[0] == '-');
      assert text[..k] == text && text + "" == text;
      Glue(sign, text, "", text, value);
    }
  }

  lemma PassingIsWritten(value: string)
    requires Passes(value)
    ensures WellFormed(Parts(value)) && Written(Parts(value)) == value
  {
    hide Passes;
    hide Written;
    hide WellFormed;
    hide Count;
    hide Digits;
    hide Plain;
    PassingIsWellFormed(value);
    PassingIsPlain(value);
    SplitText(Unsigned(value));
    hide Point;
    PartsAreWritten(value, Unsigned(value), Point(Unsigned(value)));
  }

  lemma Glue(sign: string, whole: string, tail: string, text: string, value: string)
    requires text == whole + tail && value == sign + text
    ensures value == sign + whole + tail
  {
  }

  /** The number that an accepted value denotes. */
  function Value(value: string): real
    requires Passes(value)
  {
    PassingIsWritten(value);
    Denotes(Parts(value))
  }

  lemma DigitsHaveNone(s: string, c: char)
    requires Digits(s) && !Digit(c)
    ensures Count(s, c) == 0 && c !in s
  {
    CountZero(s, c);
  }

  /** What `Passes` asks, of the three parts of a text. */
  lemma PassesParts(sign: string, whole: string, tail: string, value: string)
    requires sign in {"", "-"} && value == sign + (whole + tail) && |value| <= MAX_LENGTH
    requires whole != "" && Digits(whole)
    requires tail != "" ==> |tail| > 1 && tail[0] == '.' && Digits(tail[1..])
    ensures forall c <- value :: Allowed(c)
    ensures Unsigned(value) == whole + tail && '-' !in value[1..]
    ensures (whole + tail)[0] != '.' && (whole + tail)[|whole + tail| - 1] != '.'
  {
    hide Count;
    assert whole[0] in whole && whole[|whole| - 1] in whole;
    if tail != "" {
      assert tail == ['.'] + tail[1..];
      assert tail[1..][|tail| - 2] in tail[1..];
    }
    assert '-' !in whole && '-' !in tail && '-' !in whole + tail;
    if sign == "-" {
      assert value[1..] == whole + tail;
    } else {
      assert value == whole + tail && value[0] != '-';
      assert forall c <- value[1..] :: c in value;
    }
  }

  lemma TailCounts(tail: string)
    requires tail != "" ==> |tail| > 1 && tail[0] == '.' && Digits(tail[1..])
    ensures Count(tail, '.') <= 1 && Count(tail, '-') == 0
  {
    if tail != "" {
      DigitsHaveNone(tail[1..], '.');
      DigitsHaveNone(tail[1..], '-');
    }
  }

  lemma WrittenPasses(d: Decimal)
    requires WellFormed(d) && |Written(d)| <= MAX_LENGTH
    ensures Passes(Written(d))
  {
    var sign := if d.negative then "-" else "";
    var tail := if d.fraction.Some? then "." + d.fraction.value else "";
    var value := Written(d);
    assert value == sign + (d.whole + tail);
    assert d.fraction.Some? ==> tail[1..] == d.fraction.value;
    hide Written;
    DigitsHaveNone(d.whole, '.');
    DigitsHaveNone(d.whole, '-');
    TailCounts(tail);
    CountConcat(sign, d.whole + tail, '.');
    CountConcat(d.whole, tail, '.');
    CountConcat(sign, d.whole + tail, '-');
    CountConcat(d.whole, tail, '-');
    assert Count(sign, '.') == 0 && Count(sign, '-') <= 1;
    hide Count;
    PassesParts(sign, d.whole, tail, value);
    hide Unsigned;
    hide Digits;
    hide Allowed;
  }

  /** A value is accepted exactly when it is a decimal of at most 64 characters. */
  lemma DecimalsAreAccepted(value: string)
    ensures Passes(value) <==> |value| <= MAX_LENGTH && exists d :: WellFormed(d) && Written(d) == value
  {
    if Passes(value) {
      PassingIsWritten(value);
    }
    if |value| <= MAX_LENGTH {
      forall d | WellFormed(d) && Written(d) == value ensures Passes(value) {
        WrittenPasses(d);
      }
    }
  }

  /** The ratio that the parser builds: all digits over a power of ten. */
  function RatioOf(d: Decimal): Rat
    requires WellFormed(d)
  {
    var fraction := if d.fraction.Some? then d.fraction.value else "";
    var n: int := Number(d.whole + fraction);
    Ratio(if d.negative then -n else n, Power10(|fraction|))
  }

  lemma ShiftOne(a: int, p: int, f: int, c: int)
    ensures (a * p + f) * 10 + c == a * (10 * p) + (f * 10 + c)
  {
  }

  lemma NumberLast(s: string)
    requires Digits(s) && s != ""
    ensures Digits(s[..|s| - 1]) && Digit(s[|s| - 1])
    ensures Number(s) == Number(s[..|s| - 1]) * 10 + (s[|s| - 1] as int - '0' as int)
  {
    assert s[|s| - 1] in s && forall c <- s[..|s| - 1] :: c in s;
  }

  lemma {:induction false} NumberConcat(a: string, b: string)
    requires Digits(a) && Digits(b)
    ensures Digits(a + b) && Number(a + b) == Number(a) * Power10(|b|) + Number(b)
    decreases |b|
  {
    if b == "" {
      assert a + b == a;
    } else {
      var front := b[..|b| - 1];
      assert (a + b)[..|a + b| - 1] == a + front && (a + b)[|a + b| - 1] == b[|b| - 1];
      NumberLast(b);
      assert Power10(|b|) == 10 * Power10(|front|);
      hide Number;
      hide Power10;
      NumberConcat(a, front);
      NumberLast(a + b);
      ShiftOne(Number(a), Power10(|front|), Number(front), b[|b| - 1] as int - '0' as int);
    }
  }

  lemma SizeIsExact(whole: nat, part: nat, p: int)
    requires p > 0
    ensures Val(Ratio(whole * p + part, p)) == whole as real + part as real / p as real
    ensures Val(Ratio(-(whole * p + part), p)) == -(whole as real + part as real / p as real)
  {
    var x, q, y := whole as real, p as real, part as real / p as real;
    TimesCast(whole, p);
    assert y * q == part as real;
    assert (x + y) * q == x * q + y * q;
    assert (-(x + y)) * q == -((x + y) * q);
    ValIs(Ratio(whole * p + part, p), x + y);
    ValIs(Ratio(-(whole * p + part), p), -(x + y));
  }

  /** It is the number that the decimal denotes. */
  lemma RatioIsExact(d: Decimal)
    requires WellFormed(d)
    ensures Val(RatioOf(d)) == Denotes(d)
  {
    var fraction := if d.fraction.Some? then d.fraction.value else "";
    NumberConcat(d.whole, fraction);
    SizeIsExact(Number(d.whole), Number(fraction), Power10(|fraction|));
    hide Val;
    assert d.fraction.None? ==> Number(fraction) as real / Power10(|fraction|) as real == 0.0;
  }

  method ParseDecimal(value: string) returns (r: Option<Rat>)
    ensures r.Some? <==> Passes(value)
    ensures r.Some? ==> Val(r.value) == Value(value)
  {
    if !Passes(value) {
      return None;
    }
    PassingIsWritten(value);
    var d := Parts(value);
    var digits, scale := d.whole, 0;
    if d.fraction.Some? {
      digits, scale := digits + d.fraction.value, |d.fraction.value|;
    } else {
      assert d.whole + "" == d.whole;
    }
    RatioIsExact(d);
    var n: int := Number(digits);
    if d.negative {
      n := -n;
    }
    r := Some(Ratio(n, Power10(scale)));
  }

  // ------------------------------------------------------------- units

  datatype Dimension = Scalar | Bytes | Time

  datatype Unit = Unit(dimension: Dimension, numerator: int, denominator: int)

  function UnitOf(name: string): (u: Option<Unit>)
    ensures u.Some? ==> u.value.numerator > 0 && u.value.denominator > 0
  {
    match name
    case "count" => Some(Unit(Scalar, 1, 1))
    case "%" => Some(Unit(Scalar, 1, 100))
    case "B" => Some(Unit(Bytes, 1, 1))
    case "kB" => Some(Unit(Bytes, 1000, 1))
    case "MB" => Some(Unit(Bytes, 1000000, 1))
    case "GB" => Some(Unit(Bytes, 1000000000, 1))
    case "KiB" => Some(Unit(Bytes, 1024, 1))
    case "MiB" => Some(Unit(Bytes, 1048576, 1))
    case "GiB" => Some(Unit(Bytes, 1073741824, 1))
    case "TiB" => Some(Unit(Bytes, 1099511627776, 1))
    case "ms" => Some(Unit(Time, 1, 1000))
    case "s" => Some(Unit(Time, 1, 1))
    case "min" => Some(Unit(Time, 60, 1))
    case "h" => Some(Unit(Time, 3600, 1))
    case _ => None
  }

  datatype Quantity = Quantity(value: string, unit: string)

  function Factor(name: string): real
    requires UnitOf(name).Some?
  {
    UnitOf(name).value.numerator as real / UnitOf(name).value.denominator as real
  }

  predicate Measurable(q: Quantity) {
    Passes(q.value) && UnitOf(q.unit).Some?
  }

  /** How much a quantity is, in the base unit of its dimension. */
  function Measure(q: Quantity): real
    requires Measurable(q)
  {
    Value(q.value) * Factor(q.unit)
  }

  function DimensionOf(q: Quantity): Dimension
    requires Measurable(q)
  {
    UnitOf(q.unit).value.dimension
  }

  method QuantityBase(q: Quantity) returns (x: Option<Rat>, dimension: Dimension)
    ensures x.Some? <==> Measurable(q)
    ensures x.Some? ==> Val(x.value) == Measure(q) && dimension == DimensionOf(q)
  {
    hide UnitOf;
    dimension := Scalar;
    x := ParseDecimal(q.value);
    if x.None? {
      return;
    }
    var u := UnitOf(q.unit);
    if u.None? {
      return None, dimension;
    }
    x, dimension := Some(Times(x.value, Ratio(u.value.numerator, u.value.denominator))), u.value.dimension;
  }

  // ------------------------------------------------------------- calculation

  datatype Operation = Add | Subtract | Multiply | Divide

  datatype Calculation = Calculation(
    operation: Operation, left: Quantity, right: Quantity, outputUnit: string, rounding: Mode, expected: string)

  /** The dimension of a result, when the operation makes sense. */
  function ResultDimension(op: Operation, a: Dimension, b: Dimension): Option<Dimension> {
    match op
    case Multiply => if a.Scalar? then Some(b) else if b.Scalar? then Some(a) else None
    case Divide => if a == b then Some(Scalar) else if b.Scalar? then Some(a) else None
    case _ => if a == b then Some(a) else None
  }

  /** Dimensions fit, nothing is divided by zero, and the output unit is of the result's kind. */
  predicate Defined(c: Calculation) {
    && Measurable(c.left) && Measurable(c.right) && UnitOf(c.outputUnit).Some?
    && ResultDimension(c.operation, DimensionOf(c.left), DimensionOf(c.right)) == Some(UnitOf(c.outputUnit).value.dimension)
    && (c.operation.Divide? ==> Measure(c.right) != 0.0)
  }

  function Result(op: Operation, a: real, b: real): real
    requires op.Divide? ==> b != 0.0
  {
    match op
    case Add => a + b
    case Subtract => a - b
    case Multiply => a * b
    case Divide => a / b
  }

  /** The result in real arithmetic, in the output unit. */
  function Exactly(c: Calculation): real
    requires Defined(c)
  {
    FactorIsPositive(c.outputUnit);
    Result(c.operation, Measure(c.left), Measure(c.right)) / Factor(c.outputUnit)
  }

  lemma FactorIsVal(name: string, scale: Rat)
    requires UnitOf(name).Some? && scale == Ratio(UnitOf(name).value.numerator, UnitOf(name).value.denominator)
    ensures Val(scale) == Factor(name)
  {
    hide UnitOf;
  }

  lemma FactorIsPositive(name: string)
    requires UnitOf(name).Some?
    ensures Factor(name) > 0.0
  {
    hide UnitOf;
    var u := UnitOf(name).value;
    var x := Factor(name);
    assert x * u.denominator as real == u.numerator as real;
  }

  predicate Fits64(n: int) { -0x8000_0000_0000_0000 <= n < 0x8000_0000_0000_0000 }

  predicate Expected(c: Calculation, n: int) {
    c.expected == "" || (Passes(c.expected) && Value(c.expected) == n as real)
  }

  /** The result is `n`: it rounds the real result as asked, fits, and is what was expected. */
  predicate Answers(c: Calculation, n: int) {
    Defined(c) && RoundsReal(c.rounding, n, Exactly(c)) && Fits64(n) && Expected(c, n)
  }

  method Combine(op: Operation, a: Rat, ad: Dimension, b: Rat, bd: Dimension) returns (x: Option<Rat>, dimension: Dimension)
    ensures x.Some? <==> ResultDimension(op, ad, bd).Some? && (op.Divide? ==> Val(b) != 0.0)
    ensures x.Some? ==> Some(dimension) == ResultDimension(op, ad, bd)
    ensures x.Some? ==> Val(x.value) == Result(op, Val(a), Val(b))
  {
    dimension := ad;
    match op {
      case Add =>
        if ad != bd {
          return None, dimension;
        }
        x := Some(Plus(a, b));
      case Subtract =>
        if ad != bd {
          return None, dimension;
        }
        x := Some(Plus(a, Negate(b)));
      case Multiply =>
        if !ad.Scalar? && !bd.Scalar? {
          return None, dimension;
        }
        if ad.Scalar? {
          dimension := bd;
        }
        x := Some(Times(a, b));
      case Divide =>
        SignOfVal(b);
        if b.n == 0 {
          return None, dimension;
        }
        if ad == bd {
          dimension := Scalar;
        } else if !bd.Scalar? {
          return None, dimension;
        }
        x := Some(Times(a, Inverse(b)));
    }
  }

  /** The exact result is spelled out whenever there is one, the rounded one when it is fit. */
  method Calculate(c: Calculation) returns (r: Option<int>, exact: Option<string>)
    ensures exact.Some? <==> Defined(c)
    ensures exact.Some? ==> Spells(exact.value, Exactly(c))
    ensures r.Some? <==> exists n :: Answers(c, n)
    ensures r.Some? ==> Answers(c, r.value)
  {
    hide UnitOf;
    hide Passes;
    hide Value;
    hide Measure;
    hide Parts;
    hide Exactly;
    hide RoundsReal;
    hide Rounds;
    hide Val;
    exact := None;
    var a, ad := QuantityBase(c.left);
    if a.None? {
      return None, exact;
    }
    var b, bd := QuantityBase(c.right);
    if b.None? {
      return None, exact;
    }
    var x, dimension := Combine(c.operation, a.value, ad, b.value, bd);
    if x.None? {
      return None, exact;
    }
    var u := UnitOf(c.outputUnit);
    if u.None? || dimension != u.value.dimension {
      return None, exact;
    }
    FactorIsPositive(c.outputUnit);
    var scale: Rat := Ratio(u.value.numerator, u.value.denominator);
    SignOfVal(scale);
    FactorIsVal(c.outputUnit, scale);
    var result := Times(x.value, Inverse(scale));
    ResultIs(c, Val(x.value), Val(scale), Val(result));
    hide Result;
    hide Spells;
    exact := Some(RatString(result));
    var rounded := RoundRational(result, c.rounding);
    RoundedOnly(c, result, rounded);
    if rounded.None? {
      return None, exact;
    }
    if !Fits64(rounded.value) {
      return None, exact;
    }
    if c.expected != "" {
      var expected := ParseDecimal(c.expected);
      if expected.None? {
        return None, exact;
      }
      // Comparing two ratios is comparing their cross products.
      ExactValue(rounded.value, expected.value);
      if expected.value.n != rounded.value * expected.value.d {
        return None, exact;
      }
    }
    r := rounded;
  }

  lemma ResultIs(c: Calculation, x: real, scale: real, y: real)
    requires Defined(c) && scale != 0.0 && scale == Factor(c.outputUnit)
    requires x == Result(c.operation, Measure(c.left), Measure(c.right)) && y == x * (1.0 / scale)
    ensures y == Exactly(c)
  {
    hide UnitOf;
    hide Passes;
    hide Measure;
    hide Result;
    hide Factor;
  }

  /** What rounding returns is the only candidate for an answer. */
  lemma RoundedOnly(c: Calculation, result: Rat, rounded: Option<int>)
    requires Defined(c) && Val(result) == Exactly(c)
    requires rounded.None? <==> c.rounding.Exact? && !Divides(result.d, result.n)
    requires rounded.Some? ==> Rounds(c.rounding, rounded.value, result.n, result.d)
    ensures rounded.Some? ==> RoundsReal(c.rounding, rounded.value, Exactly(c))
    ensures forall n | Answers(c, n) :: rounded == Some(n)
  {
    if rounded.Some? { RoundsItsValue(c.rounding, rounded.value, result); }
    forall n | Answers(c, n) ensures rounded == Some(n) {
      RoundsItsValue(c.rounding, n, result);
      if rounded.Some? { RoundingIsUnique(c.rounding, n, rounded.value, Exactly(c)); }
    }
  }

  /** Only the measures of the operands decide. */
  lemma MeasuresDecide(c: Calculation, left: Quantity, right: Quantity, n: int)
    requires Measurable(c.left) && Measurable(c.right) && Measurable(left) && Measurable(right)
    requires DimensionOf(left) == DimensionOf(c.left) && DimensionOf(right) == DimensionOf(c.right)
    requires Measure(left) == Measure(c.left) && Measure(right) == Measure(c.right)
    ensures Answers(c, n) <==> Answers(c.(left := left, right := right), n)
  {
    hide UnitOf;
    hide Passes;
    hide RoundsReal;
    hide Measure;
    hide Result;
    var other := c.(left := left, right := right);
    assert Defined(other) == Defined(c);
  }
}
