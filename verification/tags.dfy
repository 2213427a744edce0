/**
 The condition tag family as tag definitions: what each variant declares to the
 parser (parameters, body, child tags, context sensitivity, child-context
 parameters) and how it picks the primary or secondary group from its bound
 arguments.
 */
module TagDefinitions {
  import opened Wrappers
  import opened Values
  import opened Truthiness
  import opened Comparison

  /** A declared parameter: its name and whether an occurrence must supply it. */
  datatype TagParameter = TagParameter(name: string, required: bool)

  /** The variants of the condition family. `Condition` is any subclass that
      keeps the truthiness test (its name and context sensitivity are the
      subclass's choice); `Gte` is the `gte` comparison tag. */
  datatype ConditionTag =
    | Condition(tagName: string, contextSensitive: bool)
    | Gte

  /** A tag definition as seen from inside a condition tag's body. The
      secondary-group test is on the definition's kind, not on its name. The
      `elif` and `else` definitions are represented only as `Elif` and `Else`:
      `Conditional` and `Other` never carry them, whatever name they hold. */
  datatype TagDefinition =
    | Elif
    | Else
    | Conditional(tag: ConditionTag)
    | Other(tagName: string)

  const ConditionParameter: string := "condition"
  const TargetValueParameter: string := "targetValue"

  /** The tag name each variant hands to the base class. */
  function Name(t: ConditionTag): (n: string)
    ensures t.Gte? ==> n == "gte"
    ensures t.Condition? ==> n == t.tagName
  {
    match t
    case Condition(tagName, _) => tagName
    case Gte => "gte"
  }

  /** The names of a parameter list, in order. */
  function Names(ps: seq<TagParameter>): (names: seq<string>)
    ensures |names| == |ps|
    ensures forall i :: 0 <= i < |ps| ==> names[i] == ps[i].name
  {
    if ps == [] then [] else [ps[0].name] + Names(ps[1..])
  }

  /** No name is declared twice. */
  predicate DistinctNames(ps: seq<TagParameter>) {
    forall i, j :: 0 <= i < j < |ps| ==> ps[i].name != ps[j].name
  }

  /** The declared parameters: `condition` for the family, followed by
      `targetValue` for `gte`; all of them required. */
  function Parameters(t: ConditionTag): (ps: seq<TagParameter>)
    ensures |ps| >= 1 && ps[0].name == ConditionParameter
    ensures forall p :: p in ps ==> p.required
    ensures DistinctNames(ps)
    ensures Names(ps) == if t.Gte? then [ConditionParameter, TargetValueParameter] else [ConditionParameter]
  {
    match t
    case Condition(_, _) => [TagParameter(ConditionParameter, true)]
    case Gte => [TagParameter(ConditionParameter, true), TagParameter(TargetValueParameter, true)]
  }

  /** The `gte` tag's two parameters, in declaration order. */
  lemma GteParameters()
    ensures Parameters(Gte) == [TagParameter(ConditionParameter, true), TagParameter(TargetValueParameter, true)]
    ensures ConditionParameter != TargetValueParameter
  {
  }

  /** Every variant has a body: it must be closed and holds nested content. */
  function HasBody(t: ConditionTag): (r: bool)
    ensures r
  {
    true
  }

  function IsContextSensitive(t: ConditionTag): (r: bool)
    ensures t.Gte? ==> !r
    ensures t.Condition? ==> r == t.contextSensitive
  {
    match t
    case Condition(_, contextSensitive) => contextSensitive
    case Gte => false
  }

  /** Whether a child definition found in the body starts a secondary group. */
  function ShouldCreateSecondaryGroup(t: ConditionTag, child: TagDefinition): (r: bool)
    ensures r <==> child in ChildTags(t)
    ensures child.Other? ==> !r
  {
    child.Elif? || child.Else?
  }

  /** The tag definitions that come into scope inside the body. */
  function ChildTags(t: ConditionTag): (cs: seq<TagDefinition>)
    ensures |cs| == 2
    ensures forall c :: c in cs <==> c.Elif? || c.Else?
  {
    [Elif, Else]
  }

  /** The bound arguments exposed to the body as a new context: none. */
  function ChildContextParameters(t: ConditionTag): (ps: seq<TagParameter>)
    ensures forall p :: p !in ps
  {
    []
  }

  /** Every required parameter in `ps` has a value in `args`. */
  predicate RequiredBound(ps: seq<TagParameter>, args: map<string, Value>) {
    forall i :: 0 <= i < |ps| && ps[i].required ==> ps[i].name in args
  }

  /** The position of the first required parameter of `ps` with no value in
      `args`, or `|ps|` when there is none. */
  function FirstMissing(ps: seq<TagParameter>, args: map<string, Value>): (i: nat)
    ensures i <= |ps|
    ensures forall k :: 0 <= k < i && ps[k].required ==> ps[k].name in args
    ensures i < |ps| ==> ps[i].required && ps[i].name !in args
  {
    if ps == [] then
      0
    else if ps[0].required && ps[0].name !in args then
      0
    else
      1 + FirstMissing(ps[1..], args)
  }

  /** Which group to render: `Success(true)` for the primary group,
      `Success(false)` for the secondary one. Reading an argument that was not
      bound raises; that is `Failure` with the key read. Keys are read in the
      order the parameters are declared. */
  function ShouldGeneratePrimaryGroup(conv: Converters, t: ConditionTag, args: map<string, Value>)
    : (r: Result<bool, string>)
    ensures r.Failure? <==> !RequiredBound(Parameters(t), args)
    ensures r.Failure? ==> r.error == Parameters(t)[FirstMissing(Parameters(t), args)].name
  {
    match t
    case Condition(_, _) =>
      if ConditionParameter !in args then
        Failure(ConditionParameter)
      else
        Success(IsTruthy(conv.toDecimal, args[ConditionParameter]))
    case Gte =>
      if ConditionParameter !in args then
        Failure(ConditionParameter)
      else if TargetValueParameter !in args then
        assert Parameters(t)[1].name == TargetValueParameter;
        Failure(TargetValueParameter)
      else
        Success(GteSatisfied(conv.toDouble, args[ConditionParameter], args[TargetValueParameter]))
  }

  /** A truthiness tag renders its primary group exactly when its bound
      `condition` is truthy. */
  lemma ConditionPrimaryIffTruthy(conv: Converters, tagName: string, cs: bool, args: map<string, Value>)
    requires ConditionParameter in args
    ensures ShouldGeneratePrimaryGroup(conv, Condition(tagName, cs), args)
            == Success(IsTruthy(conv.toDecimal, args[ConditionParameter]))
  {
  }

  /** `gte` renders its primary group exactly when both operands are bound,
      non-null and convertible, and the condition is at least the target. */
  lemma GtePrimaryIff(conv: Converters, args: map<string, Value>)
    requires ConditionParameter in args && TargetValueParameter in args
    ensures var c, t := args[ConditionParameter], args[TargetValueParameter];
            ShouldGeneratePrimaryGroup(conv, Gte, args) == Success(
              Convertible(conv.toDouble, c) && Convertible(conv.toDouble, t)
              && conv.toDouble(c).value >= conv.toDouble(t).value)
  {
  }

  /** The map restricted to the given keys. */
  function Restrict(args: map<string, Value>, keys: seq<string>): map<string, Value> {
    map k | k in args && k in keys :: args[k]
  }

  /** The decision reads only the declared parameters' entries: dropping
      every other key changes nothing, errors included. */
  lemma ReadsOnlyDeclaredKeys(conv: Converters, t: ConditionTag, args: map<string, Value>)
    ensures ShouldGeneratePrimaryGroup(conv, t, args)
            == ShouldGeneratePrimaryGroup(conv, t, Restrict(args, Names(Parameters(t))))
  {
  }
}
