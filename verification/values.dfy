/**
 The closed universe of runtime values a tag argument can hold once it has been
 looked up in the data context, and the two fallible numeric conversions the
 evaluators apply to them.
 */
module Values {
  import opened Wrappers

  /** A runtime argument value. `Coll` is any enumerable other than a string,
      whose enumeration completes; `Str` is kept apart because a string is
      enumerable too (over its chars); `Num` is a boxed primitive number that
      the runtime can convert: an integer type, `float`, `double`, or a
      `decimal` whose unscaled integer is at most 2^53 in magnitude and whose
      scale is at most 22 (so that its value alone fixes its conversions).
      Any other object is `Opaque`, named by a string that identifies the
      object itself (type and value), so that different objects may convert
      differently; this takes in every other `decimal` and numeric structs
      such as a big integer. */
  datatype Value =
    | Null
    | Coll(items: seq<Value>)
    | Str(chars: string)
    | Chr(c: char)
    | Num(n: real)
    | Bool(b: bool)
    | Opaque(identity: string)

  /** A numeric conversion of the runtime: `None` stands for the exception it
      would raise (invalid cast, format error, overflow). */
  type Conversion = Value -> Option<real>

  /** The two conversions the evaluators use: `Convert.ChangeType(v, decimal)`
      for truthiness and `Convert.ToDouble(v)` for the `gte` comparison. */
  datatype Converters = Converters(toDecimal: Conversion, toDouble: Conversion)

  /** Enumerable values: the ones an `as IEnumerable` cast keeps. */
  predicate IsEnumerable(v: Value) {
    v.Coll? || v.Str?
  }

  /** The values the truthiness cascade hands on to numeric conversion:
      not null, not enumerable, not a char. */
  predicate ReachesConversion(v: Value) {
    v.Num? || v.Bool? || v.Opaque?
  }

  /** Bound below which every integer converts to `decimal` exactly from any
      boxed primitive number: a `float` keeps 7 significant digits on the way. */
  const DecimalExactMax: int := 10000000

  /** Largest magnitude up to which every integer held by a `Num` (scale 0
      for a decimal) converts to an exact `double`. */
  const DoubleExactMax: int := 9007199254740992

  /** Whether a real has no fractional part. */
  predicate IsIntegral(n: real) {
    n.Floor as real == n
  }

  /** The facts about the runtime's conversions that the examples rely on:
      integers small enough to survive the narrowest boxed type convert exactly,
      booleans convert to 1 and 0, and characters cannot be cast to either
      numeric type. */
  ghost predicate StandardConverters(conv: Converters) {
    && (forall n: real :: IsIntegral(n) && -DecimalExactMax as real < n < DecimalExactMax as real ==>
          conv.toDecimal(Num(n)) == Some(n))
    && (forall n: real :: IsIntegral(n) && -DoubleExactMax as real <= n <= DoubleExactMax as real ==>
          conv.toDouble(Num(n)) == Some(n))
    && conv.toDecimal(Bool(true)) == Some(1.0) && conv.toDecimal(Bool(false)) == Some(0.0)
    && conv.toDouble(Bool(true)) == Some(1.0) && conv.toDouble(Bool(false)) == Some(0.0)
    && (forall c :: conv.toDecimal(Chr(c)) == None)
    && (forall c :: conv.toDouble(Chr(c)) == None)
  }
}
