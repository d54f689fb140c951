/**
 * The entry points of the library: the expected type and default value a property specification
 * implies, `isExpression`, `createExpression` and the `StyleExpression` it returns (evaluation with
 * default-value fallback and one warning per message), and `createPropertyExpression`, which
 * classifies a parsed expression as constant, source, camera or composite by its zoom curve.
 */
module StyleExpressions {
  import opened Wrappers
  import opened Types
  import opened Values
  import opened Ast
  import opened Parsing
  import opened Properties
  import opened ZoomCurves
  import Text
  import Definitions
  import Parser
  import Context
  import Evaluation = Evaluate
  import Curves
  import IsConstant

  // ---------------------------------------------------------------- getExpectedType, getDefaultValue

  /** The specification type names with an expected type of their own. */
  const SpecTypeNames: set<string> := {"color", "string", "number", "enum", "boolean", "formatted"}

  /** The table of `getExpectedType`: a specification type name's expression type; an enum is a string. */
  function SpecType(name: string): (t: Option<Type>)
    ensures t.Some? <==> name in SpecTypeNames
    ensures t.Some? ==> !t.value.ArrayType? && Kind(t.value) == (if name == "enum" then "string" else name)
  {
    if name == "color" then Some(ColorType)
    else if name == "string" || name == "enum" then Some(StringType)
    else if name == "number" then Some(NumberType)
    else if name == "boolean" then Some(BooleanType)
    else if name == "formatted" then Some(FormattedType)
    else None
  }

  /**
   * `getExpectedType(spec)`: an array specification expects an array of its item type (any value when
   * the item type has no entry) and of its length; any other the entry for its type, if there is one.
   */
  function GetExpectedType(spec: PropertySpec): (t: Option<Type>)
    ensures t.Some? <==> spec.typeName == "array" || spec.typeName in SpecTypeNames
    ensures t.Some? ==> Kind(t.value) == (if spec.typeName == "enum" then "string" else spec.typeName)
    ensures t.Some? && t.value.ArrayType? ==> t.value.n == spec.length && !t.value.itemType.ArrayType?
    ensures spec.typeName == "array" && spec.itemTypeName.Some? && spec.itemTypeName.value in SpecTypeNames ==>
      t.value.itemType == SpecType(spec.itemTypeName.value).value
    ensures spec.typeName == "array" && (spec.itemTypeName.None? || spec.itemTypeName.value !in SpecTypeNames) ==>
      t.value.itemType == ValueType
  {
    if spec.typeName == "array" then
      var item := if spec.itemTypeName.Some? && SpecType(spec.itemTypeName.value).Some?
                  then SpecType(spec.itemTypeName.value).value else ValueType;
      Some(ArrayType(item, spec.length))
    else SpecType(spec.typeName)
  }

  /** The transparent black `getDefaultValue` gives a colour property whose default is a function. */
  const Transparent: Color := Color(0.0, 0.0, 0.0, 0.0)

  /**
   * `getDefaultValue(spec)`: the value evaluation falls back to. A colour property's default is
   * parsed (transparent black for a function default, null when it does not parse); a missing
   * default is null. `isFunction` is the test for legacy function objects, which is not part of this
   * model.
   */
  function GetDefaultValue(spec: PropertySpec, parseColor: string -> Option<Color>, isFunction: Value -> bool): (v: Value)
    ensures v != Undefined
    ensures spec.typeName == "color" ==> v.ColorVal? || v.Null?
    ensures spec.typeName == "color" && isFunction(spec.default) ==> v == ColorVal(Transparent)
    ensures spec.typeName == "color" && !isFunction(spec.default) ==>
      (v.ColorVal? <==> spec.default.Str? && parseColor(spec.default.s).Some?)
    ensures v.ColorVal? && spec.typeName == "color" && !isFunction(spec.default) ==> v == ColorVal(parseColor(spec.default.s).value)
    ensures spec.typeName != "color" ==> v == (if spec.default.Undefined? then Null else spec.default)
  {
    if spec.typeName == "color" && isFunction(spec.default) then ColorVal(Transparent)
    else if spec.typeName == "color" then
      (if spec.default.Str? && parseColor(spec.default.s).Some? then ColorVal(parseColor(spec.default.s).value) else Null)
    else if spec.default.Undefined? then Null
    else spec.default
  }

  /** The values an enum property's result must be one of; none for other properties. */
  function EnumValues(spec: PropertySpec): Option<seq<Value>> {
    if spec.typeName == "enum" then spec.values else None
  }

  // ---------------------------------------------------------------- evaluation with fallback

  /** The outcome of `StyleExpression.evaluate`: the value returned and the message of the error caught, if any. */
  datatype Settled = Settled(value: Value, error: Option<string>)

  function EnumMessage(js: Js, values: seq<Value>, v: Value): string {
    "Expected value to be one of " + Text.Join(seq(|values|, i requires 0 <= i < |values| => js.json(values[i])), ", ")
    + ", but found " + js.json(v) + " instead."
  }

  /**
   * What `evaluate` makes of the expression's result: an error, a null or undefined result, or a
   * result outside an enum property's values yields the default value; any other result is returned.
   */
  function Settle(result: Result<Value>, enumValues: Option<seq<Value>>, default: Value, js: Js): (s: Settled)
    ensures s.value == default || (result.Ok? && s.value == result.value)
    ensures result.Ok? && !result.value.Null? && !result.value.Undefined? &&
            (enumValues.None? || Includes(enumValues.value, result.value))
            ==> s == Settled(result.value, None)
    ensures result.Err? ==> s == Settled(default, Some(result.message))
    ensures s.error.Some? && result.Ok? ==>
      enumValues.Some? && !Includes(enumValues.value, result.value) && s.error.value == EnumMessage(js, enumValues.value, result.value)
    ensures enumValues.Some? && s.value != default ==> Includes(enumValues.value, s.value)
    ensures !default.Undefined? ==> !s.value.Undefined?
    ensures !default.Null? && !default.Undefined? ==> !s.value.Null? && !s.value.Undefined?
  {
    match result
    case Err(m) => Settled(default, Some(m))
    case Ok(v) =>
      if v.Null? || v.Undefined? then Settled(default, None)
      else if enumValues.Some? && !Includes(enumValues.value, v) then Settled(default, Some(EnumMessage(js, enumValues.value, v)))
      else Settled(v, None)
  }

  /** Whether a caught error's message is warned about: only the first time it is seen. */
  predicate Warns(history: set<string>, message: string) {
    message !in history
  }

  /** The warning history as the plain object it is written as: each warned message maps to `true`. */
  function HistoryObject(history: set<string>): map<string, Value> {
    map m | m in history :: Bool(true)
  }

  /** As written, `!this._warningHistory[e.message]`: a read of a plain object, which also finds `Object.prototype`'s members. */
  predicate WarnsAsWritten(history: set<string>, message: string) {
    !Truthy(Values.Lookup(HistoryObject(history), message))
  }

  /** Both readings agree on every message that is not the name of an `Object.prototype` member. */
  lemma WarnsAgreeOffPrototype(history: set<string>, message: string)
    requires message !in ObjectPrototypeKeys
    ensures WarnsAsWritten(history, message) <==> Warns(history, message)
  {
    if message in history {
      assert HistoryObject(history)[message] == Bool(true);
    }
  }

  /**
   * The expression `["error", "toString"]` fails with the message `toString`; as written that message
   * is never warned about, even the first time, because the empty history object inherits a
   * `toString` function.
   */
  lemma PrototypeMessageNeverWarnedAsWritten(ctx: Context.EvaluationContext, host: Context.Host)
    ensures Evaluation.Eval(Compound("error", ErrorType, 0, [Literal(StringType, Str("toString"))]), ctx, host) == Err("toString")
    ensures !WarnsAsWritten({}, "toString")
    ensures Warns({}, "toString")
  {
    var e := Compound("error", ErrorType, 0, [Literal(StringType, Str("toString"))]);
    assert Evaluation.EvalArg(e, 0, ctx, host) == Ok(Str("toString"));
    assert Evaluation.Eval(e, ctx, host) == Evaluation.EvalLookup(e, ctx, host);
    assert Values.Lookup(HistoryObject({}), "toString") == Inherited("toString");
  }

  /** A parsed expression with the property specification's default value, enum values and warning history. */
  class StyleExpression {
    const expression: Expr
    const evaluator: Context.EvaluationContext
    const defaultValue: Value
    const enumValues: Option<seq<Value>>
    var warningHistory: set<string>

    constructor (expression: Expr, spec: PropertySpec, parseColor: string -> Option<Color>, isFunction: Value -> bool)
      ensures this.expression == expression
      ensures defaultValue == GetDefaultValue(spec, parseColor, isFunction) && enumValues == EnumValues(spec)
      ensures warningHistory == {}
      ensures fresh(evaluator) && evaluator.globals.None? && evaluator.feature.None? && evaluator.featureState.None?
    {
      this.expression := expression;
      evaluator := new Context.EvaluationContext();
      defaultValue := GetDefaultValue(spec, parseColor, isFunction);
      enumValues := EnumValues(spec);
      warningHistory := {};
    }

    /** `evaluateWithoutErrorHandling`: the expression's result, errors included, under the inputs given. */
    method EvaluateWithoutErrorHandling(globals: Option<Context.Globals>, feature: Option<Context.Feature>,
                                        featureState: Option<map<string, Value>>, host: Context.Host)
      returns (r: Result<Value>)
      modifies evaluator`globals, evaluator`feature, evaluator`featureState
      ensures evaluator.globals == globals && evaluator.feature == feature && evaluator.featureState == featureState
      ensures r == Evaluation.Eval(expression, evaluator, host)
    {
      evaluator.SetInputs(globals, feature, featureState);
      r := Evaluation.Eval(expression, evaluator, host);
    }

    /**
     * `evaluate`: the settled value under the inputs given. A caught error's message is recorded in the
     * warning history and reported in `warned` (the `console.warn`) the first time it is seen.
     */
    method Evaluate(globals: Option<Context.Globals>, feature: Option<Context.Feature>,
                    featureState: Option<map<string, Value>>, host: Context.Host)
      returns (v: Value, warned: Option<string>)
      modifies this`warningHistory, evaluator`globals, evaluator`feature, evaluator`featureState
      ensures evaluator.globals == globals && evaluator.feature == feature && evaluator.featureState == featureState
      ensures var s := Settle(Evaluation.Eval(expression, evaluator, host), enumValues, defaultValue, host.js);
        && v == s.value
        && (s.error.None? ==> warned.None? && warningHistory == old(warningHistory))
        && (s.error.Some? ==> warningHistory == old(warningHistory) + {s.error.value})
        && (s.error.Some? ==> (warned == Some(s.error.value) <==> Warns(old(warningHistory), s.error.value)))
        && (s.error.Some? && !Warns(old(warningHistory), s.error.value) ==> warned.None?)
    {
      evaluator.SetInputs(globals, feature, featureState);
      var s := Settle(Evaluation.Eval(expression, evaluator, host), enumValues, defaultValue, host.js);
      v := s.value;
      warned := None;
      if s.error.Some? {
        if Warns(warningHistory, s.error.value) {
          warned := Some(s.error.value);
        }
        warningHistory := warningHistory + {s.error.value};
      }
    }
  }

  // ---------------------------------------------------------------- isExpression, createExpression

  /** `isExpression`: a non-empty array whose first element is a string naming a registered form. */
  predicate IsExpression(v: Value) {
    v.Array? && |v.items| > 0 && v.items[0].Str? && v.items[0].s in Definitions.Registry()
  }

  /** As written: `expression[0] in definitions`, which also holds for the names `Object.prototype` has. */
  predicate IsExpressionAsWritten(v: Value) {
    v.Array? && |v.items| > 0 && v.items[0].Str? && (v.items[0].s in Definitions.Registry() || v.items[0].s in ObjectPrototypeKeys)
  }

  /** `["constructor"]` passes the test as written, yet names no form: parsing it cannot succeed. */
  lemma ConstructorIsExpressionAsWritten()
    ensures IsExpressionAsWritten(Value.Array([Str("constructor")]))
    ensures !IsExpression(Value.Array([Str("constructor")]))
  {
    ConstructorNotRegistered();
  }

  /** The annotation `createExpression` parses the top level with: `coerce` for a string property. */
  function TopLevelAnnotation(spec: PropertySpec): Annotation {
    if spec.typeName == "string" then Coerce else Default
  }

  /**
   * For a string property a runtime-typed top-level node is coerced to a string rather than asserted;
   * an enum property, which also expects a string, asserts it.
   */
  lemma StringPropertyCoercesAtTopLevel(spec: PropertySpec, node: Expr)
    requires spec.typeName in {"string", "enum"} && Kind(TypeOfNode(node)) == "value"
    ensures GetExpectedType(spec) == Some(StringType)
    ensures spec.typeName == "string" ==> TypeChecked(node, GetExpectedType(spec), TopLevelAnnotation(spec)) == Ok(Coercion(StringType, [node]))
    ensures spec.typeName == "enum" ==> TypeChecked(node, GetExpectedType(spec), TopLevelAnnotation(spec)) == Ok(Assertion(StringType, [node]))
  {
  }

  /** The outcome of `createExpression`. */
  datatype Creation = Success(value: StyleExpression) | Failure(errors: seq<ParsingError>)

  /** Whether a literal scalar `v` is accepted unchanged where `expected` is expected. */
  predicate LiteralFitsType(expected: Option<Type>, v: Value)
    requires Parser.IsScalar(v)
  {
    expected.None? || IsSubtype(expected.value, Parser.ScalarType(v))
  }

  /**
   * `createExpression(expression, spec)`: parses against the specification's expected type (coercing
   * at the top level for string properties) with the registry of definitions/index.js.
   */
  method CreateExpression(expression: Value, spec: PropertySpec, host: Context.Host, isFunction: Value -> bool)
    returns (r: Creation)
    ensures r.Failure? ==> |r.errors| > 0
    ensures r.Success? ==> fresh(r.value) && fresh(r.value.evaluator) && r.value.warningHistory == {}
    ensures r.Success? ==> r.value.defaultValue == GetDefaultValue(spec, host.parseColor, isFunction) && r.value.enumValues == EnumValues(spec)
    ensures r.Success? && GetExpectedType(spec).Some? ==> IsSubtype(GetExpectedType(spec).value, TypeOfNode(r.value.expression))
    ensures Parser.LiteralOperand(expression).Some? && LiteralFitsType(GetExpectedType(spec), Parser.LiteralOperand(expression).value) ==>
      r.Success? && r.value.expression == Literal(Parser.ScalarType(Parser.LiteralOperand(expression).value), Parser.LiteralOperand(expression).value)
    ensures expression.Array? && |expression.items| > 0 && expression.items[0].Str? && !IsExpression(expression) ==>
      r == Failure([ParsingError(Key([0]), UnknownExpression(expression.items[0].s))])
    // the top level is type-checked with `coerce` for a string property and by default otherwise
    ensures r.Success? && !r.value.expression.Literal? ==>
      Parser.TypeCheckResult(r.value.expression, GetExpectedType(spec), TopLevelAnnotation(spec))
  {
    Parser.LiteralIsRegistered();
    var parsed, errors := ParseStyle(expression, spec, host, Definitions.Registry(), Definitions.CompoundDefinitions());
    if parsed.None? {
      r := Failure(errors);
    } else {
      var se := new StyleExpression(parsed.value, spec, host.parseColor, isFunction);
      r := Success(se);
    }
  }

  /** The parse in `createExpression`: a fresh top-level context over the registry given. */
  method ParseStyle(expression: Value, spec: PropertySpec, host: Context.Host,
                    registry: map<string, Definitions.NodeKind>, definitions: map<string, Definitions.Definition>)
    returns (parsed: Option<Expr>, errors: seq<ParsingError>)
    requires "literal" in registry && registry["literal"] == Definitions.LiteralKind
    ensures parsed.None? <==> |errors| > 0
    ensures parsed.Some? && GetExpectedType(spec).Some? ==> IsSubtype(GetExpectedType(spec).value, TypeOfNode(parsed.value))
    ensures Parser.LiteralOperand(expression).Some? && LiteralFitsType(GetExpectedType(spec), Parser.LiteralOperand(expression).value) ==>
      parsed == Some(Literal(Parser.ScalarType(Parser.LiteralOperand(expression).value), Parser.LiteralOperand(expression).value))
    ensures expression.Array? && |expression.items| > 0 && expression.items[0].Str? && expression.items[0].s !in registry ==>
      errors == [ParsingError(Key([0]), UnknownExpression(expression.items[0].s))]
    ensures parsed.Some? && !parsed.value.Literal? ==>
      Parser.TypeCheckResult(parsed.value, GetExpectedType(spec), TopLevelAnnotation(spec))
  {
    var sink := new ErrorSink();
    var ctx := ParsingContext(registry, definitions, [], GetExpectedType(spec), sink);
    assert Key([]) + Key([0]) == Key([0]);
    parsed := Parser.Parse(ctx, expression, None, None, TopLevelAnnotation(spec), host);
    errors := sink.errors;
  }

  // ---------------------------------------------------------------- createPropertyExpression

  datatype ExpressionKind = Constant | Source | Camera | Composite

  const DataMessage: string := "data expressions not supported"
  const ZoomMessage: string := "zoom expressions not supported"
  const InterpolateMessage: string := "\"interpolate\" expressions cannot be used with this property"

  /** The verdict `createPropertyExpression` reaches on a parsed expression: its kind and zoom curve, or an error message. */
  datatype Classification = Classified(kind: ExpressionKind, curve: ZoomCurve) | Rejected(message: string)

  /**
   * The checks of `createPropertyExpression` in order: feature-dependent expressions need a
   * data-driven property, zoom-dependent ones a property with a zoom parameter and a curve at the top,
   * and an `interpolate` curve a property that interpolates.
   */
  function Classify(e: Expr, spec: PropertySpec): (c: Classification)
    ensures c.Classified? ==> c.curve == ZoomCurveOf(e) && !c.curve.CurveError?
    ensures c.Classified? ==> (c.kind in {Constant, Camera} <==> IsConstant.IsFeatureConstant(e))
    ensures c.Classified? ==> (c.kind in {Camera, Composite} <==> c.curve.Curve?)
    ensures c.Classified? && !IsConstant.IsFeatureConstant(e) ==> SupportsPropertyExpression(spec)
    ensures c.Classified? && !IsConstant.IsGlobalPropertyConstant(e, ["zoom"]) ==> SupportsZoomExpression(spec) && c.curve.Curve?
    ensures c.Classified? && c.curve.Curve? ==> IsZoomCurveNode(c.curve.node)
    ensures c.Classified? && c.curve.Curve? && c.curve.node.Interpolate? ==> SupportsInterpolation(spec)
    ensures !IsConstant.IsFeatureConstant(e) && !SupportsPropertyExpression(spec) ==> c == Rejected(DataMessage)
    ensures ZoomCurveOf(e).CurveError? ==> c.Rejected?
  {
    FoundCurveIsZoomCurve(e);
    var featureConstant := IsConstant.IsFeatureConstant(e);
    var zoomConstant := IsConstant.IsGlobalPropertyConstant(e, ["zoom"]);
    var curve := ZoomCurveOf(e);
    if !featureConstant && !SupportsPropertyExpression(spec) then Rejected(DataMessage)
    else if !zoomConstant && !SupportsZoomExpression(spec) then Rejected(ZoomMessage)
    else if curve.NoCurve? && !zoomConstant then Rejected(NotTopLevelMessage)
    else if curve.CurveError? then Rejected(curve.message)
    else if curve.Curve? && curve.node.Interpolate? && !SupportsInterpolation(spec) then Rejected(InterpolateMessage)
    else if curve.NoCurve? then Classified(if featureConstant then Constant else Source, curve)
    else Classified(if featureConstant then Camera else Composite, curve)
  }

  /** A zoom curve anywhere below the top level, outside `let` and `coalesce`, gets the expression rejected. */
  lemma {:induction false} NestedZoomCurveRejected(e: Expr, spec: PropertySpec, k: nat)
    requires !e.Let? && !e.Coalesce?
    requires k < |Children(e)| && HasZoomCurve(Children(e)[k])
    ensures Classify(e, spec).Rejected?
  {
    NestedCurveIsError(e, k);
  }

  /** What `createPropertyExpression` returns on success. */
  datatype PropertyExpression =
    | ZoomConstantExpression(kind: ExpressionKind, styleExpression: StyleExpression, isStateDependent: bool)
    | ZoomDependentExpression(kind: ExpressionKind, styleExpression: StyleExpression, zoomStops: seq<Label>,
                              interpolationType: Option<Interpolation>, isStateDependent: bool)

  /** The `labels` of a zoom curve: a step's labels, an interpolation's stops. */
  function CurveLabels(node: Expr): (labels: seq<Label>)
    requires node.Step? || node.Interpolate?
    ensures node.Interpolate? ==> |labels| == |node.stops| && forall i :: 0 <= i < |labels| ==> labels[i] == Finite(node.stops[i])
  {
    if node.Step? then node.labels else Curves.Finites(node.stops)
  }

  /**
   * The constructors of `ZoomConstantExpression` and `ZoomDependentExpression`: a curve makes the
   * expression zoom-dependent, with the curve's labels as zoom stops and an interpolation type only
   * for an `interpolate` curve; an expression is state-dependent when it reads feature state and
   * is not of the kind that cannot (constant, camera).
   */
  function PropertyExpressionOf(kind: ExpressionKind, se: StyleExpression, curve: ZoomCurve): (p: PropertyExpression)
    requires curve.Curve? ==> IsZoomCurveNode(curve.node)
    ensures p.kind == kind && p.styleExpression == se
    ensures p.ZoomDependentExpression? <==> curve.Curve?
    ensures p.isStateDependent <==> kind != (if curve.Curve? then Camera else Constant) && !IsConstant.IsStateConstant(se.expression)
    ensures p.ZoomDependentExpression? ==> p.zoomStops == CurveLabels(curve.node)
    ensures p.ZoomDependentExpression? ==> (p.interpolationType.Some? <==> curve.node.Interpolate?)
    ensures p.ZoomDependentExpression? && p.interpolationType.Some? ==> p.interpolationType.value == curve.node.interpolation
  {
    var stateConstant := IsConstant.IsStateConstant(se.expression);
    if curve.Curve? then
      ZoomDependentExpression(kind, se, CurveLabels(curve.node),
                              if curve.node.Interpolate? then Some(curve.node.interpolation) else None,
                              kind != Camera && !stateConstant)
    else ZoomConstantExpression(kind, se, kind != Constant && !stateConstant)
  }

  /** The outcome of `createPropertyExpression`. */
  datatype PropertyCreation = PropertySuccess(value: PropertyExpression) | PropertyFailure(errors: seq<ParsingError>)

  /** `createPropertyExpression(expression, spec)`: `createExpression`, then the classification of its result. */
  method CreatePropertyExpression(expression: Value, spec: PropertySpec, host: Context.Host, isFunction: Value -> bool)
    returns (r: PropertyCreation)
    ensures r.PropertyFailure? ==> |r.errors| > 0
    ensures r.PropertySuccess? ==> fresh(r.value.styleExpression)
    ensures r.PropertySuccess? ==>
      var c := Classify(r.value.styleExpression.expression, spec);
      c.Classified? && r.value == PropertyExpressionOf(c.kind, r.value.styleExpression, c.curve)
    ensures r.PropertySuccess? && GetExpectedType(spec).Some? ==>
      IsSubtype(GetExpectedType(spec).value, TypeOfNode(r.value.styleExpression.expression))
    ensures expression.Array? && |expression.items| > 0 && expression.items[0].Str? && !IsExpression(expression) ==>
      r == PropertyFailure([ParsingError(Key([0]), UnknownExpression(expression.items[0].s))])
  {
    var created := CreateExpression(expression, spec, host, isFunction);
    if created.Failure? {
      return PropertyFailure(created.errors);
    }
    r := ClassifyExpression(created.value, spec);
  }

  /** The second half of `createPropertyExpression`: the checks on the parsed expression, with the zoom curve search. */
  method ClassifyExpression(se: StyleExpression, spec: PropertySpec) returns (r: PropertyCreation)
    ensures Classify(se.expression, spec).Rejected? ==>
      r == PropertyFailure([ParsingError("", Classify(se.expression, spec).message)])
    ensures Classify(se.expression, spec).Classified? ==>
      r == PropertySuccess(PropertyExpressionOf(Classify(se.expression, spec).kind, se, Classify(se.expression, spec).curve))
  {
    var parsed := se.expression;
    var featureConstant := IsConstant.IsFeatureConstant(parsed);
    if !featureConstant && !SupportsPropertyExpression(spec) {
      return PropertyFailure([ParsingError("", DataMessage)]);
    }
    var zoomConstant := IsConstant.IsGlobalPropertyConstant(parsed, ["zoom"]);
    if !zoomConstant && !SupportsZoomExpression(spec) {
      return PropertyFailure([ParsingError("", ZoomMessage)]);
    }
    var curve := FindZoomCurve(parsed);
    if curve.NoCurve? && !zoomConstant {
      return PropertyFailure([ParsingError("", NotTopLevelMessage)]);
    }
    if curve.CurveError? {
      return PropertyFailure([ParsingError("", curve.message)]);
    }
    if curve.Curve? && curve.node.Interpolate? && !SupportsInterpolation(spec) {
      return PropertyFailure([ParsingError("", InterpolateMessage)]);
    }
    FoundCurveIsZoomCurve(parsed);
    var kind := if curve.NoCurve? then (if featureConstant then Constant else Source)
                else (if featureConstant then Camera else Composite);
    r := PropertySuccess(PropertyExpressionOf(kind, se, curve));
  }

  // ---------------------------------------------------------------- interpolationFactor

  /** An interpolation that is linear in its input. */
  predicate IsLinear(i: Interpolation) {
    i.name == "linear" || (i.name == "exponential" && i.base == 1.0)
  }

  /**
   * `ZoomDependentExpression.interpolationFactor(input, lower, upper)`: the curve's interpolation
   * factor, 0 for a step curve; a linear factor runs from 0 at `lower` to 1 at `upper`.
   */
  function InterpolationFactor(p: PropertyExpression, host: Context.Host, input: real, lower: real, upper: real): (t: real)
    requires p.ZoomDependentExpression?
    ensures p.interpolationType.None? ==> t == 0.0
    ensures p.interpolationType.Some? && IsLinear(p.interpolationType.value) && lower < upper && lower <= input <= upper ==>
      0.0 <= t <= 1.0 && (input == lower ==> t == 0.0) && (input == upper ==> t == 1.0)
  {
    if p.interpolationType.None? then 0.0
    else
      var t := Curves.InterpolationFactor(host.ratio, host.bezier, p.interpolationType.value, input, lower, upper);
      if IsLinear(p.interpolationType.value) && lower < upper && lower <= input <= upper then
        Curves.LinearFactorBounds(host.ratio, input, lower, upper);
        t
      else t
  }

  /** A step curve does not interpolate: its factor is 0 whatever the zoom. */
  lemma StepCurveFactorIsZero(kind: ExpressionKind, se: StyleExpression, curve: ZoomCurve, host: Context.Host,
                              input: real, lower: real, upper: real)
    requires curve.Curve? && IsZoomCurveNode(curve.node) && curve.node.Step?
    ensures InterpolationFactor(PropertyExpressionOf(kind, se, curve), host, input, lower, upper) == 0.0
  {
  }
}
