/**
 * Evaluation of a parsed expression against an evaluation context: the compound builtins'
 * evaluators and the `evaluate` of assertions, coercions, `length`, `global-state`, `match`,
 * `step` and `interpolate`. A thrown `RuntimeError` (or a host `TypeError`) is an `Err` carrying
 * its message; arguments are evaluated lazily, in the order the source evaluates them.
 */
module Evaluate {
  import opened Wrappers
  import opened Types
  import opened Values
  import opened Ast
  import opened Context
  import opened Definitions
  import opened Curves
  import MatchForm
  import GetOwn
  import Formatted
  import Text

  /** The message for a node kind whose `evaluate` is not part of this model (`coalesce`, `case`, `at`, ...). */
  const NotModelled: string := "evaluation of this node kind is not part of this model"

  /** The message for a node shape no parse produces (an argument missing, unordered stops). */
  const Malformed: string := "node shape the parser does not build"

  /** The `assert(false)` after `Assertion.evaluate`'s loop, reached only with no arguments. */
  const AssertionExhausted: string := "AssertionError: false == true"

  /** A host `TypeError` for reading a property of null. */
  function NullRead(property: string): string {
    "Cannot read properties of null (reading '" + property + "')"
  }

  /** A host `TypeError` for reading a property of undefined. */
  function UndefinedRead(property: string): string {
    "Cannot read properties of undefined (reading '" + property + "')"
  }

  /** `expression.evaluate(ctx)`. */
  function Eval(e: Expr, ctx: EvaluationContext, host: Host): Result<Value>
    reads ctx
    decreases e, 4
  {
    match e
    case Literal(_, v) => Ok(v)
    case Var(_, bound) => Eval(bound, ctx, host)
    case Compound(_, _, _, _) => EvalCompound(e, ctx, host)
    case Assertion(_, _) => EvalAssertion(e, 0, ctx, host)
    case Coercion(_, _) => EvalCoercion(e, ctx, host)
    case Length(input) =>
      (match Eval(input, ctx, host)
       case Err(m) => Err(m)
       case Ok(v) => LengthOf(v))
    case GlobalState(key) => Ok(GlobalStateValue(ctx.globals, key))
    case Match(_, _, _, _, _, _) => EvalMatch(e, ctx, host)
    case Step(_, _, _, _) => EvalStep(e, ctx, host)
    case Interpolate(_, _, _, _, _, _) => EvalInterpolate(e, ctx, host)
    case Let(_, _, result) => Eval(result, ctx, host)
    case _ => Err(NotModelled)
  }

  // ---------------------------------------------------------------- Length and GlobalState

  /**
   * `Length.evaluate` on the input's value: the length of a string (in UTF-16 code units) or of an
   * array, an error naming the type otherwise.
   */
  function LengthOf(v: Value): (r: Result<Value>)
    ensures v.Str? ==> r.Ok? && r.value.Num? && |v.s| as real <= r.value.n <= 2.0 * |v.s| as real
    ensures v.Str? && (forall i :: 0 <= i < |v.s| ==> v.s[i] as int <= 0xFFFF) ==> r == Ok(Num(|v.s| as real))
    ensures v.Array? ==> r == Ok(Num(|v.items| as real))
    ensures !v.Str? && !v.Array? && TypeOf(v).Ok? ==>
      r == Err("Expected value to be of type string or array, but found " + TypeToString(TypeOf(v).value) + " instead.")
    ensures r.Ok? <==> v.Str? || v.Array?
  {
    match v
    case Str(s) =>
      Text.Utf16LengthOfBasicPlane(s);
      Ok(Num(Text.Utf16Length(s) as real))
    case Array(items) => Ok(Num(|items| as real))
    case _ =>
      match TypeOf(v)
      case Err(m) => Err(m)
      case Ok(t) => Err("Expected value to be of type string or array, but found " + TypeToString(t) + " instead.")
  }

  /** A character above U+FFFF counts twice, as the surrogate pair JavaScript stores: `["length", "😀"]` is 2. */
  lemma AstralCharacterCountsTwice()
    ensures LengthOf(Str("\U{1F600}")) == Ok(Num(2.0))
  {
    assert "\U{1F600}"[1..] == [];
  }


  /**
   * `GlobalState.evaluate`: null without globals, without a global state, or with an empty one;
   * otherwise the own property `key` of the global state, undefined when it has none.
   */
  function GlobalStateValue(globals: Option<Globals>, key: string): (v: Value)
    ensures globals.None? || globals.value.globalState.None? || globals.value.globalState.value == map[] ==> v == Null
    ensures globals.Some? && globals.value.globalState.Some? && globals.value.globalState.value != map[] ==>
      v == (if key in globals.value.globalState.value then globals.value.globalState.value[key] else Undefined)
  {
    if globals.None? || globals.value.globalState.None? || |globals.value.globalState.value| == 0 then Null
    else GetOwn.GetOwn(globals.value.globalState.value, key)
  }

  // ---------------------------------------------------------------- Assertion

  /** `Assertion.evaluate`'s loop from argument `i`: the first value whose type fits, else the last mismatch. */
  function EvalAssertion(e: Expr, i: nat, ctx: EvaluationContext, host: Host): Result<Value>
    requires e.Assertion?
    reads ctx
    decreases e, 3, |e.args| - i
  {
    if i >= |e.args| then Err(AssertionExhausted)
    else
      match Eval(e.args[i], ctx, host)
      case Err(m) => Err(m)
      case Ok(v) =>
        match TypeOf(v)
        case Err(m) => Err(m)
        case Ok(t) =>
          if IsSubtype(e.ty, t) then Ok(v)
          else if i == |e.args| - 1 then Err(AssertionMismatch(e.ty, t))
          else EvalAssertion(e, i + 1, ctx, host)
  }

  function AssertionMismatch(expected: Type, actual: Type): string {
    "Expected value to be of type " + TypeToString(expected) + ", but found " + TypeToString(actual) + " instead."
  }

  // ---------------------------------------------------------------- Coercion

  function EvalCoercion(e: Expr, ctx: EvaluationContext, host: Host): Result<Value>
    requires e.Coercion?
    reads ctx
    decreases e, 3
  {
    if Kind(e.ty) == "color" then EvalToColor(e, 0, Undefined, None, ctx, host)
    else if Kind(e.ty) == "number" then EvalToNumber(e, 0, Null, ctx, host)
    else if |e.args| == 0 then Err(Malformed)
    else
      match Eval(e.args[0], ctx, host)
      case Err(m) => Err(m)
      case Ok(v) => Ok(CoerceFirst(host.js, e.ty, v))
  }

  /** The single-argument coercions: truthiness for boolean, formatted text, and `toString` for string. */
  function CoerceFirst(js: Js, t: Type, v: Value): (r: Value)
    ensures Kind(t) == "boolean" ==> r == Bool(Truthy(v))
    ensures Kind(t) == "formatted" ==> r.FormattedVal? && Formatted.ToString(r.formatted) == ToString(js, v)
    ensures Kind(t) != "boolean" && Kind(t) != "formatted" ==> r == Str(ToString(js, v))
  {
    if Kind(t) == "boolean" then Bool(Truthy(v))
    else if Kind(t) == "formatted" then
      Formatted.FromStringRoundTrip(ToString(js, v));
      FormattedVal(Formatted.FromString(ToString(js, v)))
    else Str(ToString(js, v))
  }

  /** The outcome of one colour-coercion attempt: a colour, or a failure with the message it leaves in `error`. */
  datatype Attempt = Coerced(color: Color) | Failed(error: Option<string>)

  /**
   * One attempt of colour coercion on a value: a colour is kept, a string goes to the colour parser,
   * an array of three or four channels is validated and scaled (a missing alpha taken as 1); only an
   * array leaves a message behind.
   */
  function ColorAttempt(js: Js, parseColor: string -> Option<Color>, v: Value): (a: Attempt)
    ensures v.ColorVal? ==> a == Coerced(v.color)
    ensures v.Str? ==> a == (if parseColor(v.s).Some? then Coerced(parseColor(v.s).value) else Failed(None))
    ensures a.Failed? && a.error.Some? ==> v.Array?
  {
    match v
    case ColorVal(c) => Coerced(c)
    case Str(s) => if parseColor(s).Some? then Coerced(parseColor(s).value) else Failed(None)
    case Array(items) =>
      if |items| < 3 || |items| > 4 then
        Failed(Some("Invalid rbga value " + js.json(v) + ": expected an array containing either three or four numeric values."))
      else
        var alpha := if |items| == 4 then items[3] else Undefined;
        (match ValidateRGBA(js, items[0], items[1], items[2], alpha)
         case Some(m) => Failed(Some(m))
         case None => Coerced(Color(items[0].n / 255.0, items[1].n / 255.0, items[2].n / 255.0, if alpha.Num? then alpha.n else 1.0)))
    case _ => Failed(None)
  }

  /** The message thrown when no argument coerces: the last attempt's message, else the last input quoted. */
  function ColorFailure(js: Js, lastInput: Value, lastError: Option<string>): string {
    if lastError.Some? then lastError.value
    else "Could not parse color from value '" + (if lastInput.Str? then lastInput.s else js.json(lastInput)) + "'"
  }

  /** The colour branch of `Coercion.evaluate` from argument `i`, with the last input and the message it left. */
  function EvalToColor(e: Expr, i: nat, lastInput: Value, lastError: Option<string>, ctx: EvaluationContext, host: Host): Result<Value>
    requires e.Coercion?
    reads ctx
    decreases e, 3, |e.args| - i
  {
    if i >= |e.args| then Err(ColorFailure(host.js, lastInput, lastError))
    else
      match Eval(e.args[i], ctx, host)
      case Err(m) => Err(m)
      case Ok(v) =>
        match ColorAttempt(host.js, host.parseColor, v)
        case Coerced(c) => Ok(ColorVal(c))
        case Failed(err) => EvalToColor(e, i + 1, v, err, ctx, host)
  }

  /** The number branch of `Coercion.evaluate` from argument `i`: null gives 0, the first convertible value its number. */
  function EvalToNumber(e: Expr, i: nat, last: Value, ctx: EvaluationContext, host: Host): Result<Value>
    requires e.Coercion?
    reads ctx
    decreases e, 3, |e.args| - i
  {
    if i >= |e.args| then Err("Could not convert " + host.js.json(last) + " to number.")
    else
      match Eval(e.args[i], ctx, host)
      case Err(m) => Err(m)
      case Ok(v) =>
        if v == Null then Ok(Num(0.0))
        else
          match ToNumber(host.js, v)
          case Some(x) => Ok(Num(x))
          case None => EvalToNumber(e, i + 1, v, ctx, host)
  }

  // ---------------------------------------------------------------- Match, Step, Interpolate

  /** `Match.evaluate`: the branch the input's label selects, else `otherwise`. */
  function EvalMatch(e: Expr, ctx: EvaluationContext, host: Host): Result<Value>
    requires e.Match?
    reads ctx
    decreases e, 3
  {
    match Eval(e.input, ctx, host)
    case Err(m) => Err(m)
    case Ok(v) =>
      match MatchForm.MatchBranch(host.js, e.inputType, e.cases, |e.outputs|, v)
      case Err(m) => Err(m)
      case Ok(Some(k)) => Eval(e.outputs[k], ctx, host)
      case Ok(None) => Eval(e.otherwise, ctx, host)
  }

  /** The shape every parsed `step` has: one output per label, at least one stop, labels strictly ascending. */
  predicate WellFormedStops(labels: seq<Label>, outputs: seq<Expr>) {
    |labels| == |outputs| && |labels| > 0 && StrictlyAscending(labels)
  }

  /** `Step.evaluate`: one stop is returned without evaluating the input; otherwise the selected stop's output. */
  function EvalStep(e: Expr, ctx: EvaluationContext, host: Host): Result<Value>
    requires e.Step?
    reads ctx
    decreases e, 3
  {
    if !WellFormedStops(e.labels, e.outputs) then Err(Malformed)
    else if |e.labels| == 1 then Eval(e.outputs[0], ctx, host)
    else
      match Eval(e.input, ctx, host)
      case Err(m) => Err(m)
      case Ok(Num(x)) => Eval(e.outputs[SelectStop(e.labels, x)], ctx, host)
      case Ok(_) => Err(IllTyped)
  }

  /**
   * `Interpolate.evaluate`: the outer outputs at and beyond the first and last stop; in between,
   * the two bracketing outputs (lower first) blended by the interpolation factor.
   */
  function EvalInterpolate(e: Expr, ctx: EvaluationContext, host: Host): Result<Value>
    requires e.Interpolate?
    reads ctx
    decreases e, 3
  {
    var labels := Finites(e.stops);
    var n := |e.stops|;
    if !WellFormedStops(labels, e.outputs) then Err(Malformed)
    else if n == 1 then Eval(e.outputs[0], ctx, host)
    else
      match Eval(e.input, ctx, host)
      case Err(m) => Err(m)
      case Ok(Num(x)) => InterpolateAt(e, x, ctx, host)
      case Ok(_) => Err(IllTyped)
  }

  /** `interpolate` at the numeric input `x`, over two or more well-formed stops. */
  function InterpolateAt(e: Expr, x: real, ctx: EvaluationContext, host: Host): Result<Value>
    requires e.Interpolate? && WellFormedStops(Finites(e.stops), e.outputs) && |e.stops| >= 2
    reads ctx
    decreases e, 2
  {
    var n := |e.stops|;
    if x <= e.stops[0] then Eval(e.outputs[0], ctx, host)
    else if x >= e.stops[n - 1] then Eval(e.outputs[n - 1], ctx, host)
    else
      EvalBracket(e, FindStopIn(Finites(e.stops), x, 0, n - 1), x, ctx, host)
  }

  /** The outputs of stops `k` and `k + 1` blended by the factor of `x` between those stops. */
  function EvalBracket(e: Expr, k: nat, x: real, ctx: EvaluationContext, host: Host): Result<Value>
    requires e.Interpolate? && k + 1 < |e.stops| == |e.outputs|
    reads ctx
    decreases e, 1
  {
    var t := InterpolationFactor(host.ratio, host.bezier, e.interpolation, x, e.stops[k], e.stops[k + 1]);
    match Eval(e.outputs[k], ctx, host)
    case Err(m) => Err(m)
    case Ok(lower) =>
      match Eval(e.outputs[k + 1], ctx, host)
      case Err(m) => Err(m)
      case Ok(upper) => host.blend(e.operator, e.ty, lower, upper, t)
  }

  // ---------------------------------------------------------------- Compound builtins

  const ArithmeticNames: set<string> := {
    "+", "*", "-", "/", "%", "ln2", "pi", "e", "^", "sqrt", "log10", "ln", "log2", "sin", "cos", "tan",
    "asin", "acos", "atan", "min", "max", "abs", "round", "floor", "ceil"
  }

  const LogicNames: set<string> := {"all", "any", "!"}

  /** `CompoundExpression.evaluate`: the evaluator registered under the node's name, for its overload. */
  function EvalCompound(e: Expr, ctx: EvaluationContext, host: Host): Result<Value>
    requires e.Compound?
    reads ctx
    decreases e, 3
  {
    if |e.name| >= 7 && e.name[..7] == "filter-" then EvalFilter(e, ctx, host)
    else if e.name in LogicNames then EvalLogic(e, ctx, host)
    else if e.name in ArithmeticNames then EvalArithmetic(e, ctx, host)
    else EvalLookup(e, ctx, host)
  }

  /** Argument `i` of an n-ary node, evaluated. */
  function EvalArg(e: Expr, i: nat, ctx: EvaluationContext, host: Host): Result<Value>
    requires e.Compound?
    reads ctx
    decreases e, 0, 0
  {
    if i < |e.args| then Eval(e.args[i], ctx, host) else Err(Malformed)
  }

  /** Argument `i`, which must be a string. */
  function EvalStringArg(e: Expr, i: nat, ctx: EvaluationContext, host: Host): Result<string>
    requires e.Compound?
    reads ctx
    decreases e, 0, 1
  {
    match EvalArg(e, i, ctx, host)
    case Err(m) => Err(m)
    case Ok(Str(s)) => Ok(s)
    case Ok(_) => Err(IllTyped)
  }

  /** The numbers of arguments `i..`, evaluated left to right; the first failure wins. */
  function EvalNumbers(e: Expr, i: nat, ctx: EvaluationContext, host: Host): (r: Result<seq<real>>)
    requires e.Compound? && i <= |e.args|
    reads ctx
    ensures r.Ok? ==> |r.value| == |e.args| - i
    decreases e, 0, |e.args| - i
  {
    if i == |e.args| then Ok([])
    else
      match Eval(e.args[i], ctx, host)
      case Err(m) => Err(m)
      case Ok(Num(x)) =>
        (match EvalNumbers(e, i + 1, ctx, host)
         case Err(m) => Err(m)
         case Ok(xs) => Ok([x] + xs))
      case Ok(_) => Err(IllTyped)
  }

  /** The values of arguments `i..`, evaluated left to right. */
  function EvalValues(e: Expr, i: nat, ctx: EvaluationContext, host: Host): (r: Result<seq<Value>>)
    requires e.Compound? && i <= |e.args|
    reads ctx
    ensures r.Ok? ==> |r.value| == |e.args| - i
    decreases e, 0, |e.args| - i
  {
    if i == |e.args| then Ok([])
    else
      match Eval(e.args[i], ctx, host)
      case Err(m) => Err(m)
      case Ok(v) =>
        match EvalValues(e, i + 1, ctx, host)
        case Err(m) => Err(m)
        case Ok(vs) => Ok([v] + vs)
  }

  /** The arithmetic builtins: exact folds, negation, rounding; the `Math` functions go to the host. */
  function EvalArithmetic(e: Expr, ctx: EvaluationContext, host: Host): Result<Value>
    requires e.Compound?
    reads ctx
    decreases e, 2
  {
    match EvalNumbers(e, 0, ctx, host)
    case Err(m) => Err(m)
    case Ok(xs) => Arithmetic(host, e.name, e.overload, xs)
  }

  /** An arithmetic builtin applied to its evaluated operands. */
  function Arithmetic(host: Host, name: string, overload: nat, xs: seq<real>): (r: Result<Value>)
    ensures name == "+" ==> r == Ok(Num(Sum(xs)))
    ensures name == "*" ==> r == Ok(Num(Product(xs)))
    ensures name == "-" && overload == 0 && |xs| == 2 ==> r == Ok(Num(xs[0] - xs[1]))
    ensures name == "-" && overload == 1 && |xs| == 1 ==> r == Ok(Num(-xs[0]))
    ensures name == "round" && |xs| == 1 ==> r == Ok(Num(Round(xs[0])))
  {
    if name == "+" then Ok(Num(Sum(xs)))
    else if name == "*" then Ok(Num(Product(xs)))
    else if name in {"-", "abs", "floor", "ceil", "round"} then
      (if name == "-" && overload == 0 && |xs| == 2 then Ok(Num(xs[0] - xs[1]))
       else if |xs| != 1 then Err(Malformed)
       else if name == "-" then Ok(Num(-xs[0]))
       else if name == "abs" then Ok(Num(if xs[0] < 0.0 then -xs[0] else xs[0]))
       else if name == "floor" then Ok(Num(xs[0].Floor as real))
       else if name == "ceil" then Ok(Num(-((-xs[0]).Floor as real)))
       else Ok(Num(Round(xs[0]))))
    else Ok(host.math(name, xs))
  }

  /** `all`, `any` and `!`. */
  function EvalLogic(e: Expr, ctx: EvaluationContext, host: Host): Result<Value>
    requires e.Compound?
    reads ctx
    decreases e, 2
  {
    if e.name == "!" then
      (match EvalArg(e, 0, ctx, host)
       case Err(m) => Err(m)
       case Ok(v) => Ok(Bool(!Truthy(v))))
    else if e.overload == 0 then
      // `a && b` and `a || b`: the first operand when it decides, else the second.
      match EvalArg(e, 0, ctx, host)
      case Err(m) => Err(m)
      case Ok(a) =>
        if (e.name == "all") != Truthy(a) then Ok(a) else EvalArg(e, 1, ctx, host)
    else if e.name == "all" then AllFrom(e, 0, ctx, host)
    else AnyFrom(e, 0, ctx, host)
  }

  /** The variadic `all` loop from argument `i`: false at the first falsy argument, true after the last. */
  function AllFrom(e: Expr, i: nat, ctx: EvaluationContext, host: Host): Result<Value>
    requires e.Compound?
    reads ctx
    decreases e, 1, |e.args| - i
  {
    if i >= |e.args| then Ok(Bool(true))
    else
      match Eval(e.args[i], ctx, host)
      case Err(m) => Err(m)
      case Ok(v) => if !Truthy(v) then Ok(Bool(false)) else AllFrom(e, i + 1, ctx, host)
  }

  /** The variadic `any` loop from argument `i`: true at the first truthy argument, false after the last. */
  function AnyFrom(e: Expr, i: nat, ctx: EvaluationContext, host: Host): Result<Value>
    requires e.Compound?
    reads ctx
    decreases e, 1, |e.args| - i
  {
    if i >= |e.args| then Ok(Bool(false))
    else
      match Eval(e.args[i], ctx, host)
      case Err(m) => Err(m)
      case Ok(v) => if Truthy(v) then Ok(Bool(true)) else AnyFrom(e, i + 1, ctx, host)
  }

  /** `k.value` of a `filter-*` operand: a literal's value, and undefined for any other node. */
  function LitArg(e: Expr, i: nat): Value
    requires e.Compound?
  {
    if i < |e.args| && e.args[i].Literal? then e.args[i].value else Undefined
  }

  /** The `filter-*` builtins, which read their operands' literal values without evaluating them. */
  function EvalFilter(e: Expr, ctx: EvaluationContext, host: Host): Result<Value>
    requires e.Compound?
    reads ctx
    decreases e, 2
  {
    var js := host.js;
    var props := ctx.Properties();
    var name := e.name;
    var keyed := Lookup(props, JsString(js, LitArg(e, 0)));
    if name == "filter-==" then Ok(Bool(StrictEquals(keyed, LitArg(e, 1))))
    else if name == "filter-id-==" then Ok(Bool(StrictEquals(ctx.Id(), LitArg(e, 0))))
    else if name == "filter-type-==" then Ok(Bool(StrictEquals(ctx.GeometryType(), LitArg(e, 0))))
    else if name in {"filter-<", "filter->", "filter-<=", "filter->="} then
      Ok(Bool(FilterCompare(js, name[7..], keyed, LitArg(e, 1))))
    else if name in {"filter-id-<", "filter-id->", "filter-id-<=", "filter-id->="} then
      Ok(Bool(FilterCompare(js, name[10..], ctx.Id(), LitArg(e, 0))))
    else if name == "filter-has" then Ok(Bool(HasProperty(props, JsString(js, LitArg(e, 0)))))
    else if name == "filter-has-id" then Ok(Bool(!StrictEquals(ctx.Id(), Null)))
    else if name == "filter-type-in" then InList(LitArg(e, 0), ctx.GeometryType())
    else if name == "filter-id-in" then InList(LitArg(e, 0), ctx.Id())
    else if name == "filter-in-small" then InList(LitArg(e, 1), keyed)
    else if name == "filter-in-large" then
      match LitArg(e, 1)
      case Array(items) => Ok(Bool(InLargeSearch(js, keyed, items, 0, |items| - 1)))
      case Undefined => Err(UndefinedRead("length"))
      case _ => Err(IllTyped)
    else Err(Malformed)
  }

  /** `list.indexOf(x) >= 0` for a literal list operand. */
  function InList(list: Value, x: Value): (r: Result<Value>)
    ensures list.Array? ==> r == Ok(Bool(Includes(list.items, x)))
  {
    match list
    case Array(items) => Ok(Bool(Includes(items, x)))
    case Undefined => Err(UndefinedRead("indexOf"))
    case _ => Err(IllTyped)
  }

  /** The remaining builtins: errors, types, colours, feature and global accessors, strings. */
  function EvalLookup(e: Expr, ctx: EvaluationContext, host: Host): Result<Value>
    requires e.Compound?
    reads ctx
    decreases e, 2
  {
    var name := e.name;
    if name in {"error", "typeof", "to-rgba", "upcase", "downcase", "resolved-locale"} then
      match EvalArg(e, 0, ctx, host)
      case Err(m) => Err(m)
      case Ok(v) => UnaryBuiltin(host, name, v)
    else if name == "rgb" || name == "rgba" then EvalRgba(e, ctx, host)
    else if name in {"has", "get", "feature-state"} then EvalMember(e, ctx, host)
    else if name == "properties" then Ok(Object(ctx.Properties()))
    else if name == "geometry-type" then Ok(ctx.GeometryType())
    else if name == "id" then Ok(ctx.Id())
    else if name in {"zoom", "heatmap-density", "line-progress"} then GlobalNumber(ctx.globals, name)
    else if name == "is-supported-script" then
      (if ctx.globals.Some? && ctx.globals.value.isSupportedScript.Some? then
         match EvalStringArg(e, 0, ctx, host)
         case Err(m) => Err(m)
         case Ok(s) => Ok(Bool(ctx.globals.value.isSupportedScript.value(s)))
       else Ok(Bool(true)))
    else if name == "concat" then
      match EvalValues(e, 0, ctx, host)
      case Err(m) => Err(m)
      case Ok(vs) => Ok(Str(Text.Join(seq(|vs|, k requires 0 <= k < |vs| => ToString(host.js, vs[k])), "")))
    else Err(Malformed)
  }

  /** The one-operand builtins applied to their evaluated operand. */
  function UnaryBuiltin(host: Host, name: string, v: Value): (r: Result<Value>)
    ensures name == "error" ==> r == Err(JsString(host.js, v))
    ensures name == "typeof" && TypeOf(v).Ok? ==> r == Ok(Str(TypeToString(TypeOf(v).value)))
  {
    if name == "error" then Err(JsString(host.js, v))
    else if name == "typeof" then
      match TypeOf(v)
      case Err(m) => Err(m)
      case Ok(t) => Ok(Str(TypeToString(t)))
    else
      match v
      case ColorVal(c) => if name == "to-rgba" then Ok(host.colorToArray(c)) else Err(IllTyped)
      case Str(s) => if name == "upcase" || name == "downcase" then Ok(Str(host.caseMap(name, s))) else Err(IllTyped)
      case CollatorVal(locale) => if name == "resolved-locale" then Ok(Str(host.resolvedLocale(locale))) else Err(IllTyped)
      case _ => Err(IllTyped)
  }

  /** `zoom`, `heatmap-density` and `line-progress` read off the globals; the last two default to 0 when falsy. */
  function GlobalNumber(globals: Option<Globals>, name: string): (r: Result<Value>)
    ensures globals.Some? && name == "zoom" ==> r == Ok(globals.value.zoom)
    ensures globals.Some? && name == "heatmap-density" ==>
      r == Ok(if Truthy(globals.value.heatmapDensity) then globals.value.heatmapDensity else Num(0.0))
    ensures globals.None? ==> r.Err?
  {
    var property := if name == "zoom" then "zoom" else if name == "heatmap-density" then "heatmapDensity" else "lineProgress";
    match globals
    case None => Err(NullRead(property))
    case Some(g) =>
      var v := if name == "zoom" then g.zoom else if name == "heatmap-density" then g.heatmapDensity else g.lineProgress;
      Ok(if name == "zoom" || Truthy(v) then v else Num(0.0))
  }

  /** `rgb` and `rgba`: r, g, b (and a) evaluated in order, then validated; `rgb` takes alpha 1. */
  function EvalRgba(e: Expr, ctx: EvaluationContext, host: Host): Result<Value>
    requires e.Compound?
    reads ctx
    decreases e, 1
  {
    match EvalArg(e, 0, ctx, host)
    case Err(m) => Err(m)
    case Ok(r) =>
      match EvalArg(e, 1, ctx, host)
      case Err(m) => Err(m)
      case Ok(g) =>
        match EvalArg(e, 2, ctx, host)
        case Err(m) => Err(m)
        case Ok(b) =>
          match (if |e.args| > 3 then EvalArg(e, 3, ctx, host) else Ok(Num(1.0)))
          case Err(m) => Err(m)
          case Ok(alpha) =>
            match Rgba(host.js, r, g, b, alpha)
            case Err(m) => Err(m)
            case Ok(c) => Ok(ColorVal(c))
  }

  /** `has`, `get` and `feature-state`: the key, then the object (the feature's properties or state when implicit). */
  function EvalMember(e: Expr, ctx: EvaluationContext, host: Host): Result<Value>
    requires e.Compound?
    reads ctx
    decreases e, 1
  {
    match EvalArg(e, 0, ctx, host)
    case Err(m) => Err(m)
    case Ok(key) =>
      var obj :=
        if e.name == "feature-state" then Ok(Object(if ctx.featureState.Some? then ctx.featureState.value else map[]))
        else if e.overload == 0 then Ok(Object(ctx.Properties()))
        else EvalArg(e, 1, ctx, host);
      match obj
      case Err(m) => Err(m)
      case Ok(o) =>
        if e.name == "has" then
          (match Has(key, o)
           case Err(m) => Err(m)
           case Ok(b) => Ok(Bool(b)))
        else Get(key, o)
  }

  // ---------------------------------------------------------------- The source's loops

  /** `Assertion.evaluate` as written: an early-return loop over the arguments. */
  method EvaluateAssertion(e: Expr, ctx: EvaluationContext, host: Host) returns (r: Result<Value>)
    requires e.Assertion?
    ensures r == Eval(e, ctx, host)
  {
    var i := 0;
    while i < |e.args|
      invariant 0 <= i <= |e.args|
      invariant EvalAssertion(e, i, ctx, host) == Eval(e, ctx, host)
      decreases |e.args| - i
    {
      var value := Eval(e.args[i], ctx, host);
      if value.Err? {
        return Err(value.message);
      }
      var t := TypeOf(value.value);
      if t.Err? {
        return Err(t.message);
      }
      if CheckSubtype(e.ty, t.value).None? {
        return value;
      }
      if i == |e.args| - 1 {
        return Err(AssertionMismatch(e.ty, t.value));
      }
      i := i + 1;
    }
    return Err(AssertionExhausted);
  }

  /** The colour branch of `Coercion.evaluate` as written: `input` and `error` updated on every pass. */
  method EvaluateToColor(e: Expr, ctx: EvaluationContext, host: Host) returns (r: Result<Value>)
    requires e.Coercion? && Kind(e.ty) == "color"
    ensures r == Eval(e, ctx, host)
  {
    var input := Undefined;
    var error: Option<string> := None;
    for i := 0 to |e.args|
      invariant EvalToColor(e, i, input, error, ctx, host) == Eval(e, ctx, host)
    {
      var value := Eval(e.args[i], ctx, host);
      if value.Err? {
        return Err(value.message);
      }
      input := value.value;
      error := None;
      match ColorAttempt(host.js, host.parseColor, input)
      case Coerced(c) =>
        return Ok(ColorVal(c));
      case Failed(err) =>
        error := err;
    }
    return Err(ColorFailure(host.js, input, error));
  }

  /** The number branch of `Coercion.evaluate` as written: `value` updated on every pass. */
  method EvaluateToNumber(e: Expr, ctx: EvaluationContext, host: Host) returns (r: Result<Value>)
    requires e.Coercion? && Kind(e.ty) == "number"
    ensures r == Eval(e, ctx, host)
  {
    var value := Null;
    for i := 0 to |e.args|
      invariant EvalToNumber(e, i, value, ctx, host) == Eval(e, ctx, host)
    {
      var v := Eval(e.args[i], ctx, host);
      if v.Err? {
        return Err(v.message);
      }
      value := v.value;
      if value == Null {
        return Ok(Num(0.0));
      }
      var num := ToNumber(host.js, value);
      if num.Some? {
        return Ok(Num(num.value));
      }
    }
    return Err("Could not convert " + host.js.json(value) + " to number.");
  }

  /** The variadic `all` and `any` as written: early-exit loops over the arguments. */
  method EvaluateAllAny(e: Expr, ctx: EvaluationContext, host: Host) returns (r: Result<Value>)
    requires e.Compound? && (e.name == "all" || e.name == "any") && e.overload == 1
    ensures r == Eval(e, ctx, host)
  {
    var isAll := e.name == "all";
    assert Eval(e, ctx, host) == EvalCompound(e, ctx, host) == EvalLogic(e, ctx, host);
    for i := 0 to |e.args|
      invariant Eval(e, ctx, host) == if isAll then AllFrom(e, i, ctx, host) else AnyFrom(e, i, ctx, host)
    {
      var v := Eval(e.args[i], ctx, host);
      if v.Err? {
        return Err(v.message);
      }
      if isAll && !Truthy(v.value) {
        return Ok(Bool(false));
      }
      if !isAll && Truthy(v.value) {
        return Ok(Bool(true));
      }
    }
    return Ok(Bool(isAll));
  }
}
