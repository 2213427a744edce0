/**
 The truthiness test of the condition tag family: the ordered cascade that
 decides whether a `condition` argument selects the primary group.
 */
module Truthiness {
  import opened Wrappers
  import opened Values

  /** The falsy values, listed form by form: null, the empty collection, the
      empty string, the NUL character, and any other value that converts to
      the number zero. */
  predicate FalsyForm(toDecimal: Conversion, v: Value) {
    || v == Null
    || v == Coll([])
    || v == Str("")
    || v == Chr('\0')
    || (ReachesConversion(v) && toDecimal(v) == Some(0.0))
  }

  /** Whether a condition value counts as true. The rules are tried in order:
      null, then enumerable (non-empty), then char (not NUL), then numeric
      conversion (non-zero), and a failed conversion counts as true. */
  function IsTruthy(toDecimal: Conversion, v: Value): (r: bool)
    ensures !r <==> FalsyForm(toDecimal, v)
  {
    match v
    case Null => false
    case Coll(items) => |items| > 0
    case Str(chars) => |chars| > 0
    case Chr(c) => c != '\0'
    case _ =>
      match toDecimal(v)
      case Some(number) => number != 0.0
      case None => true
  }

  /** How many elements enumerating `v` yields (zero for a non-enumerable). */
  function ElementCount(v: Value): nat {
    match v
    case Coll(items) => |items|
    case Str(chars) => |chars|
    case _ => 0
  }

  lemma NullIsFalsy(toDecimal: Conversion)
    ensures !IsTruthy(toDecimal, Null)
  {
  }

  /** An enumerable is truthy exactly when it yields an element; what the
      elements are is never looked at. */
  lemma EnumerableTruthyIffNonEmpty(toDecimal: Conversion, v: Value)
    requires IsEnumerable(v)
    ensures IsTruthy(toDecimal, v) <==> ElementCount(v) > 0
  {
  }

  lemma ElementsNotInspected(toDecimal: Conversion, xs: seq<Value>, ys: seq<Value>)
    requires |xs| == |ys|
    ensures IsTruthy(toDecimal, Coll(xs)) == IsTruthy(toDecimal, Coll(ys))
  {
  }

  /** A string is decided by the enumerable rule before conversion is tried. */
  lemma StringExamples(toDecimal: Conversion)
    ensures IsTruthy(toDecimal, Str("0"))
    ensures IsTruthy(toDecimal, Str("false"))
    ensures !IsTruthy(toDecimal, Str(""))
    ensures IsTruthy(toDecimal, Coll([Null]))
    ensures !IsTruthy(toDecimal, Coll([]))
  {
  }

  lemma CharTruthyIffNotNul(toDecimal: Conversion, c: char)
    ensures IsTruthy(toDecimal, Chr(c)) <==> c != '\0'
  {
  }

  lemma ConvertibleTruthyIffNonZero(toDecimal: Conversion, v: Value, number: real)
    requires ReachesConversion(v)
    requires toDecimal(v) == Some(number)
    ensures IsTruthy(toDecimal, v) <==> number != 0.0
  {
  }

  /** With the runtime's conversions: zero and false are falsy, minus one and
      true are truthy. */
  lemma NumberExamples(conv: Converters)
    requires StandardConverters(conv)
    ensures !IsTruthy(conv.toDecimal, Num(0.0))
    ensures IsTruthy(conv.toDecimal, Num(-1.0))
    ensures IsTruthy(conv.toDecimal, Num(5.0))
    ensures !IsTruthy(conv.toDecimal, Bool(false))
    ensures IsTruthy(conv.toDecimal, Bool(true))
  {
    assert IsIntegral(0.0) && IsIntegral(-1.0) && IsIntegral(5.0);
  }

  /** Conversion is consulted only for values that get past the first three
      rules, so for every other value the choice of conversion is irrelevant. */
  lemma ConversionOnlyReachedByScalars(d1: Conversion, d2: Conversion, v: Value)
    requires !ReachesConversion(v)
    ensures IsTruthy(d1, v) == IsTruthy(d2, v)
  {
  }

  /** A value that reaches conversion and cannot be converted is truthy. */
  lemma UnconvertibleIsTruthy(toDecimal: Conversion, v: Value)
    requires ReachesConversion(v)
    requires toDecimal(v).None?
    ensures IsTruthy(toDecimal, v)
  {
  }
}
