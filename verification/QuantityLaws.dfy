/** What the units of recovery/quantity.go stand for, and how its operations relate. */
module QuantityLaws {
  import opened Decimals
  import opened Rational
  import opened Quantity
  import opened QuantityUnits
  import opened Wrappers

  /** The units by one another: decimal and binary bytes, time, and per cent. */
  lemma UnitLadder()
    ensures Factor("count") == 1.0 && 100.0 * Factor("%") == Factor("count")
    ensures Factor("B") == 1.0 && Factor("kB") == 1000.0 * Factor("B")
    ensures Factor("MB") == 1000.0 * Factor("kB") && Factor("GB") == 1000.0 * Factor("MB")
    ensures Factor("KiB") == 1024.0 * Factor("B") && Factor("MiB") == 1024.0 * Factor("KiB")
    ensures Factor("GiB") == 1024.0 * Factor("MiB") && Factor("TiB") == 1024.0 * Factor("GiB")
    ensures Factor("s") == 1.0 && 1000.0 * Factor("ms") == Factor("s")
    ensures Factor("min") == 60.0 * Factor("s") && Factor("h") == 60.0 * Factor("min")
  {
  }

  /** There are no other units, and each measures one kind of thing. */
  lemma UnitKinds(name: string)
    ensures UnitOf(name).Some? <==>
            name in {"count", "%"} || name in {"B", "kB", "MB", "GB", "KiB", "MiB", "GiB", "TiB"} || name in {"ms", "s", "min", "h"}
    ensures UnitOf(name).Some? ==>
              && (UnitOf(name).value.dimension == Scalar <==> name in {"count", "%"})
              && (UnitOf(name).value.dimension == Time <==> name in {"ms", "s", "min", "h"})
  {
  }

  function Opposite(op: Operation): Operation {
    match op
    case Add => Subtract
    case Subtract => Add
    case Multiply => Divide
    case Divide => Multiply
  }

  /** A rounded answer as an operand. */
  function Numeral(n: int): string {
    Written(Decimal(n < 0, Text(if n < 0 then -n else n), None))
  }

  lemma NumeralIsRead(n: int)
    requires |Numeral(n)| <= MAX_LENGTH
    ensures Passes(Numeral(n)) && Value(Numeral(n)) == n as real
  {
    var d := Decimal(n < 0, Text(if n < 0 then -n else n), None);
    assert WellFormed(d);
    WrittenPasses(d);
    PartsOfWritten(d);
    ValueIs(Numeral(n));
    hide Passes;
    hide Parts;
    hide Written;
    hide Value;
  }

  lemma TimesThenBy(x: real, y: real)
    requires y != 0.0
    ensures x * y / y == x && x / y * y == x
  {
  }

  /** Each operation is undone by its opposite. */
  lemma OppositeUndoes(op: Operation, x: real, y: real)
    requires op in {Multiply, Divide} ==> y != 0.0
    ensures Result(Opposite(op), Result(op, x, y), y) == x
  {
    match op
    case Add =>
    case Subtract =>
    case Multiply => TimesThenBy(x, y);
    case Divide => TimesThenBy(x, y);
  }

  lemma Distributes(x: real, y: real, z: real)
    ensures (x + y) * z == x * z + y * z && x * y == y * x
  {
  }

  /** Addition and multiplication do not mind the order of their operands, and one distributes
      over the other. */
  lemma OperationLaws(x: real, y: real, z: real)
    ensures Result(Add, x, y) == Result(Add, y, x) && Result(Add, x, 0.0) == x
    ensures Result(Multiply, x, y) == Result(Multiply, y, x) && Result(Multiply, x, 1.0) == x
    ensures Result(Multiply, Result(Add, x, y), z) == Result(Add, Result(Multiply, x, z), Result(Multiply, y, z))
  {
    Distributes(x, y, z);
  }

  /** Kinds are undone as values are. */
  lemma KindLaws(op: Operation, a: Dimension, b: Dimension)
    requires ResultDimension(op, a, b).Some?
    ensures ResultDimension(Opposite(op), ResultDimension(op, a, b).value, b) == Some(a)
  {
  }

  lemma TimesFactor(x: real, f: real)
    requires f != 0.0
    ensures x / f * f == x && x * f / f == x
  {
  }

  lemma MeasureOfNumeral(n: int, unit: string, x: real)
    requires |Numeral(n)| <= MAX_LENGTH && UnitOf(unit).Some? && Factor(unit) != 0.0 && n as real == x / Factor(unit)
    ensures var q := Quantity(Numeral(n), unit); Measurable(q) && Measure(q) == x && DimensionOf(q) == UnitOf(unit).value.dimension
  {
    hide *;
    NumeralIsRead(n);
    IsMeasurable(Quantity(Numeral(n), unit));
    MeasureUnfolds(Quantity(Numeral(n), unit));
    TimesFactor(x, Factor(unit));
  }

  /** Taken up again as an operand, an exact answer is undone: added and then subtracted,
      multiplied and then divided, and the other way round, gives back the first operand. */
  lemma AnswerUndone(c: Calculation, n: int)
    requires c.rounding == Exact && Answers(c, n) && |Numeral(n)| <= MAX_LENGTH
    requires c.operation == Multiply ==> Measure(c.right) != 0.0
    ensures var back := Calculation(Opposite(c.operation), Quantity(Numeral(n), c.outputUnit), c.right, c.left.unit, c.rounding, "");
      Defined(back) && Exactly(back) == Value(c.left.value)
  {
    hide *;
    var q := Quantity(Numeral(n), c.outputUnit);
    var back := Calculation(Opposite(c.operation), q, c.right, c.left.unit, c.rounding, "");
    AnswerIs(c, n);
    var x, y := Measure(c.left), Measure(c.right);
    HasUnit(c.left);
    FactorIsPositive(c.outputUnit);
    FactorIsPositive(c.left.unit);
    MeasureUnfolds(c.left);
    MeasureOfNumeral(n, c.outputUnit, Result(c.operation, x, y));
    KindLaws(c.operation, DimensionOf(c.left), DimensionOf(c.right));
    OppositeUndoes(c.operation, x, y);
    OppositeDivides(c.operation);
    TimesFactor(Value(c.left.value), Factor(c.left.unit));
    BackIs(c, back, q, x, y);
  }

  lemma OppositeDivides(op: Operation)
    ensures Opposite(op) == Divide ==> op == Multiply
  {
  }

  lemma AnswerIs(c: Calculation, n: int)
    requires c.rounding == Exact && Answers(c, n)
    ensures Measurable(c.left) && Measurable(c.right) && UnitOf(c.outputUnit).Some? && Factor(c.outputUnit) != 0.0
    ensures c.operation.Divide? ==> Measure(c.right) != 0.0
    ensures n as real == Result(c.operation, Measure(c.left), Measure(c.right)) / Factor(c.outputUnit)
    ensures ResultDimension(c.operation, DimensionOf(c.left), DimensionOf(c.right)) == Some(UnitOf(c.outputUnit).value.dimension)
  {
    FactorIsPositive(c.outputUnit);
    hide UnitOf;
    hide Passes;
    hide Measure;
    hide Factor;
    hide Result;
    hide ResultDimension;
    hide Expected;
  }

  lemma BackIs(c: Calculation, back: Calculation, q: Quantity, x: real, y: real)
    requires Measurable(c.left) && Measurable(c.right) && Measurable(q) && UnitOf(c.left.unit).Some?
    requires back == Calculation(Opposite(c.operation), q, c.right, c.left.unit, c.rounding, "")
    requires UnitOf(c.left.unit).value.dimension == DimensionOf(c.left) && Factor(c.left.unit) != 0.0
    requires ResultDimension(back.operation, DimensionOf(q), DimensionOf(c.right)) == Some(DimensionOf(c.left))
    requires y == Measure(c.right) && (back.operation.Divide? ==> y != 0.0)
    requires Result(back.operation, Measure(q), y) == x && x / Factor(c.left.unit) == Value(c.left.value)
    ensures Defined(back) && Exactly(back) == Value(c.left.value)
  {
    hide UnitOf;
    hide Passes;
    hide Value;
    hide Measure;
    hide Factor;
    hide Result;
    hide ResultDimension;
  }
}
