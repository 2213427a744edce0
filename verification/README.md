# Conditional tags of mustache#, modelled in Dafny

mustache# is a C# text-templating engine. Its conditional tags (`if`, `elif`,
`gte`, …) decide, once per occurrence, whether to render their *primary* group
(the body up to the first `elif`/`else`) or their *secondary* group. This
project models that decision and the static metadata each conditional tag
declares to the parser:

- `Values` — the closed universe of argument values (`Null`, a collection, a
  string, a char, a boxed primitive number, a boolean, any other object) and
  the two numeric
  conversions of the runtime, `Convert.ChangeType(v, decimal)` and
  `Convert.ToDouble(v)`, each as a fallible function `Value -> Option<real>`
  whose `None` stands for the exception it would raise. `StandardConverters`
  fixes only the behaviour the examples need: integers below ten million
  convert to `decimal` exactly (from any boxed primitive number, `float`
  included), integers up to 2^53 convert to `double` exactly (from the integer
  types, `float`, `double` and a `decimal` held by `Num`), booleans become 1
  and 0, and chars cannot be cast. A number is `Num` only if it is an integer
  type, `float`, `double`, or a `decimal` whose unscaled integer is at most 2^53
  in magnitude and whose scale is at most 22. Every other object, including the
  remaining decimals and numeric structs such as a big integer, is an opaque
  object identified by its type and value, and both evaluators leave its
  conversion to the conversion parameter.
- `Truthiness` — the ordered cascade of `ConditionTagDefinition`: null is
  false; anything enumerable (every string included) is true iff non-empty; a
  char is true iff not NUL; otherwise the decimal conversion decides (non-zero),
  and a failed conversion counts as **true**.
- `Comparison` — the `gte` test: false when either operand is null; otherwise
  both are converted to double and compared with `>=`; a failed conversion
  counts as **false**. `FallbackAsymmetry` states the two opposite defaults side
  by side.
- `TagDefinitions` — the family as one datatype (`Condition` for any subclass
  that keeps the truthiness test, `Gte` for the comparison tag, which inherits
  body and child-tag behaviour from the condition base); declared parameters,
  body, child tags, secondary-group test, child-context parameters, and the
  group decision over a dictionary of bound arguments. Reading a key that is not
  bound raises in the source (the dictionary indexer); the model returns
  `Failure(key)` and proves that this happens exactly when a required declared
  parameter is unbound, naming the first such parameter in declaration order.

The two source files come from different versions of the library (namespaces
`mustache` and `Mustache`); they are modelled as one family. The class comment
of `GteTagDefinition` speaks of equality, but the code compares with `>=`; the
model follows the code.

## Model

| member | source | states |
|---|---|---|
| Truthiness.IsTruthy | mustache-sharp/ConditionTagDefinition.cs:78-102 | a value is falsy exactly when it is null, an empty collection, the empty string, the NUL char, or a value past the first three rules that converts to zero |
| Truthiness.NullIsFalsy | mustache-sharp/ConditionTagDefinition.cs:80-83 | a null condition is never truthy, whatever the conversion |
| Truthiness.EnumerableTruthyIffNonEmpty | mustache-sharp/ConditionTagDefinition.cs:84-88 | a collection or string is truthy iff enumerating it yields at least one element |
| Truthiness.ElementsNotInspected | mustache-sharp/ConditionTagDefinition.cs:87 | two collections of equal length are equally truthy, whatever their elements |
| Truthiness.StringExamples | mustache-sharp/ConditionTagDefinition.cs:84-88 | `"0"`, `"false"` and `[null]` are truthy; `""` and `[]` are falsy, because strings never reach numeric conversion |
| Truthiness.CharTruthyIffNotNul | mustache-sharp/ConditionTagDefinition.cs:89-92 | a char is truthy iff it is not `'\0'` |
| Truthiness.ConvertibleTruthyIffNonZero | mustache-sharp/ConditionTagDefinition.cs:93-96 | a number, boolean or other object that converts to a decimal is truthy iff that decimal is non-zero |
| Truthiness.NumberExamples | mustache-sharp/ConditionTagDefinition.cs:93-96 | with the runtime's conversions `0` and `false` are falsy, `-1`, `5` and `true` truthy |
| Truthiness.UnconvertibleIsTruthy | mustache-sharp/ConditionTagDefinition.cs:97-101 | a value that reaches conversion and fails it is truthy: the conversion failure is absorbed, never raised |
| Truthiness.ConversionOnlyReachedByScalars | mustache-sharp/ConditionTagDefinition.cs:80-95 | for null, enumerables and chars the result does not depend on the decimal conversion at all |
| Comparison.GteSatisfied | MustacheSharp/GteTagDefinition.cs:53-67 | true only when both operands are non-null and convertible to double, and then exactly when the condition's number is at least the target's |
| Comparison.NullOperandIsFalse | MustacheSharp/GteTagDefinition.cs:53-56 | a null condition or a null target value gives false |
| Comparison.ConversionFailureIsFalse | MustacheSharp/GteTagDefinition.cs:58-62 | if either conversion fails the result is false and nothing is raised |
| Comparison.ReflexiveExactlyOnConvertible | MustacheSharp/GteTagDefinition.cs:53-62 | `gte(v, v)` holds iff `v` is non-null and convertible |
| Comparison.TotalOnConvertible | MustacheSharp/GteTagDefinition.cs:58-59 | for two convertible operands `gte(a, b)` or `gte(b, a)` holds |
| Comparison.Transitive | MustacheSharp/GteTagDefinition.cs:58-59 | `gte(a, b)` and `gte(b, c)` give `gte(a, c)` |
| Comparison.FallbackAsymmetry | MustacheSharp/GteTagDefinition.cs:58-62 | a value no conversion accepts is truthy as a condition yet fails every `gte` comparison, on either side |
| Comparison.Examples | MustacheSharp/GteTagDefinition.cs:53-62 | `gte(5,3)`, `gte(3,3)`, `gte(true,1)` hold; `gte(3,5)`, `gte(null,3)`, `gte('5',3)` do not |
| TagDefinitions.Name | MustacheSharp/GteTagDefinition.cs:17-18 | the `gte` tag is named `gte`; a truthiness subclass carries the name it hands to the base constructor |
| TagDefinitions.Parameters | mustache-sharp/ConditionTagDefinition.cs:28-31 | every variant declares `condition` first, all parameters are required, names are distinct; `gte` declares exactly `condition` then `targetValue` |
| TagDefinitions.GteParameters | MustacheSharp/GteTagDefinition.cs:31-36 | the `gte` tag declares exactly two parameters, `condition` and `targetValue`, both required |
| TagDefinitions.HasBody | mustache-sharp/ConditionTagDefinition.cs:36-39 | every conditional tag has a body |
| TagDefinitions.IsContextSensitive | MustacheSharp/GteTagDefinition.cs:23-25 | `gte` is not context-sensitive; a truthiness subclass is as it declares |
| TagDefinitions.ChildTags | mustache-sharp/ConditionTagDefinition.cs:45-52 | the tags in scope inside the body are exactly an `elif` and an `else` definition |
| TagDefinitions.ShouldCreateSecondaryGroup | mustache-sharp/ConditionTagDefinition.cs:59-62 | a child starts a secondary group iff it is one of the child tags in scope, i.e. an `elif` or `else` definition; any other definition, whatever its name, does not |
| TagDefinitions.ChildContextParameters | MustacheSharp/GteTagDefinition.cs:73-75 | no bound argument is exposed to the body as a new context |
| TagDefinitions.ShouldGeneratePrimaryGroup | mustache-sharp/ConditionTagDefinition.cs:72-76 | the lookup fails exactly when some required declared parameter is unbound, and then names the first such parameter in declaration order |
| TagDefinitions.ConditionPrimaryIffTruthy | mustache-sharp/ConditionTagDefinition.cs:72-76 | with `condition` bound, a truthiness tag chooses the primary group iff that value is truthy |
| TagDefinitions.GtePrimaryIff | MustacheSharp/GteTagDefinition.cs:47-62 | with both keys bound, `gte` chooses the primary group iff both values are non-null and convertible and the condition is at least the target |
| TagDefinitions.ReadsOnlyDeclaredKeys | MustacheSharp/GteTagDefinition.cs:47-51 | the decision, error included, is unchanged when every entry other than the declared parameters is dropped |

## Left out

- Numeric conversion itself: IEEE double rounding, NaN (for which `>=` is false), decimal overflow, rounding of tiny values, and rounding of large values to 15 (`double`) or 7 (`float`) significant digits on the way to `decimal`, and culture-dependent string parsing are not modelled; each conversion is a parameter, and the properties hold for every choice of it.
- `Num` does not keep a `decimal`'s scale. That is exact only for the decimals it holds: `Convert.ToDouble` rounds the unscaled integer to a double and then divides by the power of ten, and for an unscaled integer of at most 2^53 and a scale of at most 22 both operands are exact, so the result depends only on the value. Decimals outside that range, where equal values of different scale can give different doubles, are opaque objects for both evaluators; the model states nothing about their conversion beyond what the conversion parameter says.
- A C# `Char` is a UTF-16 code unit, and a Dafny `char` is a Unicode scalar value, so a boxed lone surrogate has no `Chr`; it would be truthy by the char rule, and strings are unaffected because only their emptiness is read.
- Enumeration is assumed to succeed: in the source an enumerator that throws while the enumerable rule asks for a first element is outside the try/catch and escapes from the group decision; `Coll` models only enumerables whose enumeration completes.
- `StandardConverters` describes only integers below ten million (decimal) or 2^53 (double), booleans and chars; what the runtime does with other numbers, strings and arbitrary objects is left to the conversion parameter.
- The runtime type tests (`as IEnumerable`, `is Char`, `Cast<object>()`) become pattern matching on `Value`; a user type that is both enumerable and convertible is treated as enumerable, as the cascade's order dictates.
- The `TagDefinition` base class, `ElifTagDefinition`, `ElseTagDefinition` and the generator that partitions bodies and renders the chosen group are not part of this model, so no property of elif/else chains is stated.
- ChildContextParameters: only the `gte` override is in the modelled code; the truthiness variants, whose value comes from the base class outside this model, are given the same empty list.
- IsContextSensitive: the truthiness base does not decide it, so it is carried as a field chosen by the subclass.
- The constructor arguments handed to the base class (the tag name and the built-in flag) are kept only as the tag name.
- The tokenizer, tag registry, argument binding and its errors, context lookup and the output writer sit outside the modelled code.
- The unreachable `return false` after the try/catch in `GteTagDefinition` has no counterpart.
