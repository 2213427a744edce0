/**
 The `gte` comparison: the primary group is chosen when the condition is at
 least the target value, both read as doubles. Unlike truthiness, every value
 that is null or cannot be converted decides for the secondary group.
 */
module Comparison {
  import opened Wrappers
  import opened Values
  import opened Truthiness

  /** A non-null operand that the conversion accepts. */
  predicate Convertible(toDouble: Conversion, v: Value) {
    !v.Null? && toDouble(v).Some?
  }

  /** Whether `condition >= targetValue`, with a null operand or a failed
      conversion deciding false. */
  function GteSatisfied(toDouble: Conversion, condition: Value, targetValue: Value): (r: bool)
    ensures r ==> Convertible(toDouble, condition) && Convertible(toDouble, targetValue)
    ensures Convertible(toDouble, condition) && Convertible(toDouble, targetValue) ==>
              (r <==> toDouble(condition).value >= toDouble(targetValue).value)
  {
    if condition.Null? || targetValue.Null? then
      false
    else
      match (toDouble(condition), toDouble(targetValue))
      case (Some(x), Some(y)) => x >= y
      case _ => false
  }

  lemma NullOperandIsFalse(toDouble: Conversion, v: Value)
    ensures !GteSatisfied(toDouble, Null, v)
    ensures !GteSatisfied(toDouble, v, Null)
  {
  }

  /** A failed conversion of either operand decides false, so no error escapes. */
  lemma ConversionFailureIsFalse(toDouble: Conversion, condition: Value, targetValue: Value)
    requires toDouble(condition).None? || toDouble(targetValue).None?
    ensures !GteSatisfied(toDouble, condition, targetValue)
  {
  }

  /** Comparing a value with itself succeeds exactly when it converts. */
  lemma ReflexiveExactlyOnConvertible(toDouble: Conversion, v: Value)
    ensures GteSatisfied(toDouble, v, v) <==> Convertible(toDouble, v)
  {
  }

  /** Any two convertible values are comparable one way or the other. */
  lemma TotalOnConvertible(toDouble: Conversion, a: Value, b: Value)
    requires Convertible(toDouble, a) && Convertible(toDouble, b)
    ensures GteSatisfied(toDouble, a, b) || GteSatisfied(toDouble, b, a)
  {
  }

  lemma Transitive(toDouble: Conversion, a: Value, b: Value, c: Value)
    requires GteSatisfied(toDouble, a, b) && GteSatisfied(toDouble, b, c)
    ensures GteSatisfied(toDouble, a, c)
  {
  }

  /** The two evaluators default in opposite directions: a value that reaches
      conversion and converts under neither conversion is truthy as a
      condition, yet fails every `gte` comparison on either side. */
  lemma FallbackAsymmetry(conv: Converters, v: Value, other: Value)
    requires ReachesConversion(v)
    requires conv.toDecimal(v).None? && conv.toDouble(v).None?
    ensures IsTruthy(conv.toDecimal, v)
    ensures !GteSatisfied(conv.toDouble, v, other)
    ensures !GteSatisfied(conv.toDouble, other, v)
  {
  }

  /** The comparisons worked through for the runtime's conversions. */
  lemma Examples(conv: Converters)
    requires StandardConverters(conv)
    ensures GteSatisfied(conv.toDouble, Num(5.0), Num(3.0))
    ensures !GteSatisfied(conv.toDouble, Num(3.0), Num(5.0))
    ensures GteSatisfied(conv.toDouble, Num(3.0), Num(3.0))
    ensures !GteSatisfied(conv.toDouble, Null, Num(3.0))
    ensures GteSatisfied(conv.toDouble, Bool(true), Num(1.0))
    ensures !GteSatisfied(conv.toDouble, Chr('5'), Num(3.0))
  {
    assert IsIntegral(5.0) && IsIntegral(3.0) && IsIntegral(1.0);
  }
}
