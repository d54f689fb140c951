/**
 * What evaluation promises, node kind by node kind: the assertion and coercion fallback chains,
 * the short-circuits of `all` and `any`, the folds of `+` and `*`, `rgb`'s opaque alpha, the
 * typed `filter-*` comparisons, and branch and stop selection of `match`, `step` and `interpolate`.
 */
module EvaluateLaws {
  import opened Wrappers
  import opened Types
  import opened Values
  import opened Ast
  import opened Context
  import opened Definitions
  import opened Curves
  import opened Evaluate
  import MatchForm

  /** The first `|vs|` expressions evaluate, in this context, to `vs`. */
  predicate EvaluateTo(es: seq<Expr>, vs: seq<Value>, ctx: EvaluationContext, host: Host)
    reads ctx
  {
    |vs| <= |es| && forall j :: 0 <= j < |vs| ==> Eval(es[j], ctx, host) == Ok(vs[j])
  }

  // ---------------------------------------------------------------- Assertion

  /** A value that `typeOf` types and whose type does not fit `t`. */
  predicate Misfit(t: Type, v: Value) {
    TypeOf(v).Ok? && !IsSubtype(t, TypeOf(v).value)
  }

  lemma {:induction false} AssertionSkipsMisfits(e: Expr, ctx: EvaluationContext, host: Host, vs: seq<Value>, i: nat, k: nat)
    requires e.Assertion? && i <= k < |e.args| && EvaluateTo(e.args, vs, ctx, host) && k <= |vs|
    requires forall j :: i <= j < k ==> Misfit(e.ty, vs[j])
    ensures EvalAssertion(e, i, ctx, host) == EvalAssertion(e, k, ctx, host)
    decreases k - i
  {
    if i < k {
      assert Eval(e.args[i], ctx, host) == Ok(vs[i]);
      AssertionSkipsMisfits(e, ctx, host, vs, i + 1, k);
    }
  }

  /**
   * An assertion returns the first argument value whose type fits the asserted type; the
   * arguments after it are not evaluated, so nothing is required of them.
   */
  lemma {:induction false} AssertionReturnsFirstFit(e: Expr, ctx: EvaluationContext, host: Host, vs: seq<Value>)
    requires e.Assertion? && 0 < |vs| && EvaluateTo(e.args, vs, ctx, host)
    requires forall j :: 0 <= j < |vs| - 1 ==> Misfit(e.ty, vs[j])
    requires TypeOf(vs[|vs| - 1]).Ok? && IsSubtype(e.ty, TypeOf(vs[|vs| - 1]).value)
    ensures Eval(e, ctx, host) == Ok(vs[|vs| - 1])
  {
    var k := |vs| - 1;
    AssertionSkipsMisfits(e, ctx, host, vs, 0, k);
    assert Eval(e.args[k], ctx, host) == Ok(vs[k]);
  }

  /** When no argument fits, the assertion throws the mismatch message for the last argument. */
  lemma {:induction false} AssertionThrowsForLast(e: Expr, ctx: EvaluationContext, host: Host, vs: seq<Value>)
    requires e.Assertion? && 0 < |vs| == |e.args| && EvaluateTo(e.args, vs, ctx, host)
    requires forall j :: 0 <= j < |vs| - 1 ==> Misfit(e.ty, vs[j])
    requires Misfit(e.ty, vs[|vs| - 1])
    ensures Eval(e, ctx, host) ==
      Err("Expected value to be of type " + TypeToString(e.ty) + ", but found " + TypeToString(TypeOf(vs[|vs| - 1]).value) + " instead.")
  {
    var k := |vs| - 1;
    AssertionSkipsMisfits(e, ctx, host, vs, 0, k);
    assert Eval(e.args[k], ctx, host) == Ok(vs[k]);
  }

  // ---------------------------------------------------------------- Coercion

  /** A value `Number` cannot convert and that is not null. */
  predicate NotNumeric(js: Js, v: Value) {
    v != Null && ToNumber(js, v).None?
  }

  lemma {:induction false} NumberCoercionSkips(e: Expr, ctx: EvaluationContext, host: Host, vs: seq<Value>, i: nat, k: nat, last: Value)
    requires e.Coercion? && 0 < i <= k <= |e.args| && EvaluateTo(e.args, vs, ctx, host) && k <= |vs|
    requires forall j :: i - 1 <= j < k ==> NotNumeric(host.js, vs[j])
    requires last == vs[i - 1]
    ensures EvalToNumber(e, i, last, ctx, host) == EvalToNumber(e, k, vs[k - 1], ctx, host)
    decreases k - i
  {
    if i < k {
      assert Eval(e.args[i], ctx, host) == Ok(vs[i]);
      NumberCoercionSkips(e, ctx, host, vs, i + 1, k, vs[i]);
    }
  }

  /**
   * Number coercion returns 0 for a null argument and otherwise the number of the first argument
   * that converts; the arguments after it are not evaluated.
   */
  lemma {:induction false} NumberCoercionFirstConvertible(e: Expr, ctx: EvaluationContext, host: Host, vs: seq<Value>)
    requires e.Coercion? && Kind(e.ty) == "number" && 0 < |vs| && EvaluateTo(e.args, vs, ctx, host)
    requires forall j :: 0 <= j < |vs| - 1 ==> NotNumeric(host.js, vs[j])
    requires !NotNumeric(host.js, vs[|vs| - 1])
    ensures var v := vs[|vs| - 1];
      Eval(e, ctx, host) == Ok(Num(if v == Null then 0.0 else ToNumber(host.js, v).value))
  {
    var k := |vs| - 1;
    assert Eval(e, ctx, host) == EvalCoercion(e, ctx, host) == EvalToNumber(e, 0, Null, ctx, host);
    assert Eval(e.args[0], ctx, host) == Ok(vs[0]);
    if k > 0 {
      NumberCoercionSkips(e, ctx, host, vs, 1, k, vs[0]);
      assert Eval(e.args[k], ctx, host) == Ok(vs[k]);
    }
  }

  /** When no argument converts, number coercion throws naming the last argument. */
  lemma {:induction false} NumberCoercionThrowsForLast(e: Expr, ctx: EvaluationContext, host: Host, vs: seq<Value>)
    requires e.Coercion? && Kind(e.ty) == "number" && 0 < |vs| == |e.args| && EvaluateTo(e.args, vs, ctx, host)
    requires forall j :: 0 <= j < |vs| ==> NotNumeric(host.js, vs[j])
    ensures Eval(e, ctx, host) == Err("Could not convert " + host.js.json(vs[|vs| - 1]) + " to number.")
  {
    assert Eval(e, ctx, host) == EvalCoercion(e, ctx, host) == EvalToNumber(e, 0, Null, ctx, host);
    assert Eval(e.args[0], ctx, host) == Ok(vs[0]);
    NumberCoercionSkips(e, ctx, host, vs, 1, |vs|, vs[0]);
  }

  /** A value colour coercion cannot turn into a colour. */
  predicate Uncoercible(host: Host, v: Value) {
    ColorAttempt(host.js, host.parseColor, v).Failed?
  }

  /** The message a failed colour attempt on `v` leaves behind. */
  function LeftError(host: Host, v: Value): Option<string> {
    match ColorAttempt(host.js, host.parseColor, v)
    case Failed(m) => m
    case Coerced(_) => None
  }

  /** How the colour-coercion message shows a value: a string as is, anything else as JSON. */
  function Quoted(host: Host, v: Value): string {
    if v.Str? then v.s else host.js.json(v)
  }

  lemma {:induction false} ColorCoercionSkips(e: Expr, ctx: EvaluationContext, host: Host, vs: seq<Value>, i: nat, k: nat)
    requires e.Coercion? && 0 < i <= k <= |e.args| && EvaluateTo(e.args, vs, ctx, host) && k <= |vs|
    requires forall j :: i - 1 <= j < k ==> Uncoercible(host, vs[j])
    ensures EvalToColor(e, i, vs[i - 1], LeftError(host, vs[i - 1]), ctx, host)
         == EvalToColor(e, k, vs[k - 1], LeftError(host, vs[k - 1]), ctx, host)
    decreases k - i
  {
    if i < k {
      assert Eval(e.args[i], ctx, host) == Ok(vs[i]);
      ColorCoercionSkips(e, ctx, host, vs, i + 1, k);
    }
  }

  /**
   * When no argument yields a colour, colour coercion throws the message the last argument left:
   * an earlier array's validation message is forgotten once a later argument fails without one.
   */
  lemma {:induction false} ColorCoercionThrowsForLast(e: Expr, ctx: EvaluationContext, host: Host, vs: seq<Value>)
    requires e.Coercion? && Kind(e.ty) == "color" && 0 < |vs| == |e.args| && EvaluateTo(e.args, vs, ctx, host)
    requires forall j :: 0 <= j < |vs| ==> Uncoercible(host, vs[j])
    ensures var last := vs[|vs| - 1];
      Eval(e, ctx, host) == Err(ColorFailure(host.js, last, LeftError(host, last)))
    ensures !vs[|vs| - 1].Array? ==> Eval(e, ctx, host) == Err("Could not parse color from value '" + Quoted(host, vs[|vs| - 1]) + "'")
  {
    ColorCoercionReachesEnd(e, ctx, host, vs);
    var last := vs[|vs| - 1];
    if !last.Array? {
      assert LeftError(host, last) == None;
    }
  }

  /** Colour coercion over arguments none of which coerces ends where the arguments run out. */
  lemma {:induction false} ColorCoercionReachesEnd(e: Expr, ctx: EvaluationContext, host: Host, vs: seq<Value>)
    requires e.Coercion? && Kind(e.ty) == "color" && 0 < |vs| == |e.args| && EvaluateTo(e.args, vs, ctx, host)
    requires forall j :: 0 <= j < |vs| ==> Uncoercible(host, vs[j])
    ensures Eval(e, ctx, host) == EvalToColor(e, |vs|, vs[|vs| - 1], LeftError(host, vs[|vs| - 1]), ctx, host)
  {
    assert Eval(e, ctx, host) == EvalCoercion(e, ctx, host) == EvalToColor(e, 0, Undefined, None, ctx, host);
    assert Eval(e.args[0], ctx, host) == Ok(vs[0]);
    ColorCoercionSkips(e, ctx, host, vs, 1, |vs|);
  }

  /** Colour coercion returns the colour of the first argument that yields one. */
  lemma {:induction false} ColorCoercionFirstColor(e: Expr, ctx: EvaluationContext, host: Host, vs: seq<Value>)
    requires e.Coercion? && Kind(e.ty) == "color" && 0 < |vs| && EvaluateTo(e.args, vs, ctx, host)
    requires forall j :: 0 <= j < |vs| - 1 ==> Uncoercible(host, vs[j])
    requires !Uncoercible(host, vs[|vs| - 1])
    ensures Eval(e, ctx, host) == Ok(ColorVal(ColorAttempt(host.js, host.parseColor, vs[|vs| - 1]).color))
  {
    var k := |vs| - 1;
    assert Eval(e, ctx, host) == EvalCoercion(e, ctx, host) == EvalToColor(e, 0, Undefined, None, ctx, host);
    assert Eval(e.args[0], ctx, host) == Ok(vs[0]);
    if k > 0 {
      ColorCoercionSkips(e, ctx, host, vs, 1, k);
      assert Eval(e.args[k], ctx, host) == Ok(vs[k]);
    }
  }

  // ---------------------------------------------------------------- all / any

  lemma {:induction false} AllSkipsTruthy(e: Expr, ctx: EvaluationContext, host: Host, vs: seq<Value>, i: nat, k: nat)
    requires e.Compound? && i <= k <= |vs| && EvaluateTo(e.args, vs, ctx, host)
    requires forall j :: i <= j < k ==> Truthy(vs[j])
    ensures AllFrom(e, i, ctx, host) == AllFrom(e, k, ctx, host)
    decreases k - i
  {
    if i < k {
      assert Eval(e.args[i], ctx, host) == Ok(vs[i]);
      AllSkipsTruthy(e, ctx, host, vs, i + 1, k);
    }
  }

  lemma {:induction false} AnySkipsFalsy(e: Expr, ctx: EvaluationContext, host: Host, vs: seq<Value>, i: nat, k: nat)
    requires e.Compound? && i <= k <= |vs| && EvaluateTo(e.args, vs, ctx, host)
    requires forall j :: i <= j < k ==> !Truthy(vs[j])
    ensures AnyFrom(e, i, ctx, host) == AnyFrom(e, k, ctx, host)
    decreases k - i
  {
    if i < k {
      assert Eval(e.args[i], ctx, host) == Ok(vs[i]);
      AnySkipsFalsy(e, ctx, host, vs, i + 1, k);
    }
  }

  /**
   * Variadic `all` is false at the first falsy argument, whatever the later arguments would do,
   * and true when every argument is truthy.
   */
  lemma {:induction false} AllShortCircuits(e: Expr, ctx: EvaluationContext, host: Host, vs: seq<Value>)
    requires e.Compound? && e.name == "all" && e.overload == 1 && EvaluateTo(e.args, vs, ctx, host)
    requires forall j :: 0 <= j < |vs| - 1 ==> Truthy(vs[j])
    ensures 0 < |vs| && !Truthy(vs[|vs| - 1]) ==> Eval(e, ctx, host) == Ok(Bool(false))
    ensures |vs| == |e.args| && (|vs| == 0 || Truthy(vs[|vs| - 1])) ==> Eval(e, ctx, host) == Ok(Bool(true))
  {
    assert Eval(e, ctx, host) == EvalCompound(e, ctx, host) == EvalLogic(e, ctx, host) == AllFrom(e, 0, ctx, host);
    if 0 < |vs| {
      var k := |vs| - 1;
      AllSkipsTruthy(e, ctx, host, vs, 0, k);
      assert Eval(e.args[k], ctx, host) == Ok(vs[k]);
      if Truthy(vs[k]) {
        AllSkipsTruthy(e, ctx, host, vs, k, |vs|);
      }
    }
  }

  /**
   * Variadic `any` is true at the first truthy argument, whatever the later arguments would do,
   * and false when every argument is falsy.
   */
  lemma {:induction false} AnyShortCircuits(e: Expr, ctx: EvaluationContext, host: Host, vs: seq<Value>)
    requires e.Compound? && e.name == "any" && e.overload == 1 && EvaluateTo(e.args, vs, ctx, host)
    requires forall j :: 0 <= j < |vs| - 1 ==> !Truthy(vs[j])
    ensures 0 < |vs| && Truthy(vs[|vs| - 1]) ==> Eval(e, ctx, host) == Ok(Bool(true))
    ensures |vs| == |e.args| && (|vs| == 0 || !Truthy(vs[|vs| - 1])) ==> Eval(e, ctx, host) == Ok(Bool(false))
  {
    assert Eval(e, ctx, host) == EvalCompound(e, ctx, host) == EvalLogic(e, ctx, host) == AnyFrom(e, 0, ctx, host);
    if 0 < |vs| {
      var k := |vs| - 1;
      AnySkipsFalsy(e, ctx, host, vs, 0, k);
      assert Eval(e.args[k], ctx, host) == Ok(vs[k]);
      if !Truthy(vs[k]) {
        AnySkipsFalsy(e, ctx, host, vs, k, |vs|);
      }
    }
  }

  // ---------------------------------------------------------------- Arithmetic, rgb, filters

  lemma {:induction false} NumbersOfNumbers(e: Expr, ctx: EvaluationContext, host: Host, xs: seq<real>, i: nat)
    requires e.Compound? && |xs| == |e.args| && i <= |e.args|
    requires forall j :: 0 <= j < |xs| ==> Eval(e.args[j], ctx, host) == Ok(Num(xs[j]))
    ensures EvalNumbers(e, i, ctx, host) == Ok(xs[i..])
    decreases |e.args| - i
  {
    if i < |e.args| {
      assert Eval(e.args[i], ctx, host) == Ok(Num(xs[i]));
      NumbersOfNumbers(e, ctx, host, xs, i + 1);
      assert EvalNumbers(e, i, ctx, host) == Ok([xs[i]] + xs[i + 1..]);
      assert xs[i..] == [xs[i]] + xs[i + 1..];
    } else {
      assert EvalNumbers(e, i, ctx, host) == Ok([]);
      assert xs[i..] == [];
    }
  }

  /** `+` evaluates to the sum of its operands folded from 0, and `*` to their product folded from 1. */
  lemma {:induction false} SumAndProductFold(e: Expr, ctx: EvaluationContext, host: Host, xs: seq<real>)
    requires e.Compound? && (e.name == "+" || e.name == "*") && |xs| == |e.args|
    requires forall j :: 0 <= j < |xs| ==> Eval(e.args[j], ctx, host) == Ok(Num(xs[j]))
    ensures e.name == "+" ==> Eval(e, ctx, host) == Ok(Num(Sum(xs)))
    ensures e.name == "*" ==> Eval(e, ctx, host) == Ok(Num(Product(xs)))
  {
    NumbersOfNumbers(e, ctx, host, xs, 0);
    assert xs[0..] == xs;
    assert Eval(e, ctx, host) == EvalCompound(e, ctx, host) == EvalArithmetic(e, ctx, host);
  }

  /** `rgb` is `rgba` with alpha 1: it throws exactly when the channels fail validation, and is opaque otherwise. */
  lemma {:induction false} RgbIsOpaque(e: Expr, ctx: EvaluationContext, host: Host, r: Value, g: Value, b: Value)
    requires e.Compound? && e.name == "rgb" && |e.args| == 3 && EvaluateTo(e.args, [r, g, b], ctx, host)
    ensures Eval(e, ctx, host).Err? <==> ValidateRGBA(host.js, r, g, b, Num(1.0)).Some?
    ensures Eval(e, ctx, host).Ok? ==>
      r.Num? && g.Num? && b.Num? && Eval(e, ctx, host) == Ok(ColorVal(Color(r.n / 255.0, g.n / 255.0, b.n / 255.0, 1.0)))
  {
    assert Eval(e.args[0], ctx, host) == Ok(r);
    assert Eval(e.args[1], ctx, host) == Ok(g);
    assert Eval(e.args[2], ctx, host) == Ok(b);
    assert "rgb" !in ArithmeticNames && "rgb" !in LogicNames;
    assert EvalArg(e, 0, ctx, host) == Ok(r) && EvalArg(e, 1, ctx, host) == Ok(g) && EvalArg(e, 2, ctx, host) == Ok(b);
    assert EvalRgba(e, ctx, host) == (match Rgba(host.js, r, g, b, Num(1.0)) case Err(m) => Err(m) case Ok(c) => Ok(ColorVal(c)));
    if Rgba(host.js, r, g, b, Num(1.0)).Ok? {
      var c := Rgba(host.js, r, g, b, Num(1.0)).value;
      assert r.Num? && g.Num? && b.Num?;
      assert c == Color(r.n / 255.0 * 1.0, g.n / 255.0 * 1.0, b.n / 255.0 * 1.0, 1.0);
      assert r.n / 255.0 * 1.0 == r.n / 255.0 && g.n / 255.0 * 1.0 == g.n / 255.0 && b.n / 255.0 * 1.0 == b.n / 255.0;
      assert Rgba(host.js, r, g, b, Num(1.0)) == Ok(c);
      assert EvalRgba(e, ctx, host) == Ok(ColorVal(c));
    }
    assert Eval(e, ctx, host) == EvalCompound(e, ctx, host) == EvalLookup(e, ctx, host) == EvalRgba(e, ctx, host);
  }

  /**
   * The ordered `filter-*` comparisons read the feature property named by the first operand's
   * literal and are false whenever it and the second literal differ in `typeof`.
   */
  lemma {:induction false} FilterComparisonNeedsSameTypeof(e: Expr, ctx: EvaluationContext, host: Host)
    requires e.Compound? && e.name in {"filter-<", "filter->", "filter-<=", "filter->="}
    requires TypeofName(Lookup(ctx.Properties(), JsString(host.js, LitArg(e, 0)))) != TypeofName(LitArg(e, 1))
    ensures Eval(e, ctx, host) == Ok(Bool(false))
  {
    assert e.name[..7] == "filter-";
    assert Eval(e, ctx, host) == EvalCompound(e, ctx, host) == EvalFilter(e, ctx, host);
  }

  // ---------------------------------------------------------------- match, step, interpolate

  /** An input equal to a label of the table selects that label's branch; anything else selects `otherwise`. */
  lemma {:induction false} MatchSelectsBranch(e: Expr, ctx: EvaluationContext, host: Host, v: Value)
    requires e.Match? && Eval(e.input, ctx, host) == Ok(v) && TypeOf(v).Ok?
    ensures MatchForm.ValidLabel(v, e.inputType) && JsString(host.js, v) in e.cases && e.cases[JsString(host.js, v)] < |e.outputs| ==>
      Eval(e, ctx, host) == Eval(e.outputs[e.cases[JsString(host.js, v)]], ctx, host)
    ensures JsString(host.js, v) !in e.cases || !Identical(TypeOf(v).value, e.inputType) ==>
      Eval(e, ctx, host) == Eval(e.otherwise, ctx, host)
  {
    if MatchForm.ValidLabel(v, e.inputType) && JsString(host.js, v) in e.cases && e.cases[JsString(host.js, v)] < |e.outputs| {
      MatchForm.LabelSelectsItsBranch(host.js, e.inputType, e.cases, |e.outputs|, v);
    }
  }

  /** A `step` with one stop is its single output; the input is not evaluated. */
  lemma {:induction false} StepSingleStop(e: Expr, ctx: EvaluationContext, host: Host)
    requires e.Step? && WellFormedStops(e.labels, e.outputs) && |e.labels| == 1
    ensures Eval(e, ctx, host) == Eval(e.outputs[0], ctx, host)
  {
    assert Eval(e, ctx, host) == EvalStep(e, ctx, host);
  }

  /**
   * The boundary law of `step`: with the implicit -Infinity first label, an input selects the
   * output of the last label at or below it.
   */
  lemma {:induction false} StepSelectsLastStopAtOrBelow(e: Expr, ctx: EvaluationContext, host: Host, x: real, j: nat)
    requires e.Step? && WellFormedStops(e.labels, e.outputs) && |e.labels| >= 2 && e.labels[0] == NegInf
    requires Eval(e.input, ctx, host) == Ok(Num(x))
    requires j < |e.labels| && LabelLessEq(e.labels[j], Finite(x))
    requires j + 1 == |e.labels| || LabelLess(Finite(x), e.labels[j + 1])
    ensures Eval(e, ctx, host) == Eval(e.outputs[j], ctx, host)
  {
    var labels := e.labels;
    var k := SelectStop(labels, x);
    StepFirstLabelBelowEverything(labels, x);
    SelectStopIsLastAtOrBelow(labels, x, j);
    if j + 1 < |labels| {
      SelectStopIsLastAtOrBelow(labels, x, j + 1);
    }
    assert k == j;
  }

  /** `interpolate` returns its first output at or below the first stop and its last output at or beyond the last. */
  lemma {:induction false} InterpolateBoundaries(e: Expr, ctx: EvaluationContext, host: Host, x: real)
    requires e.Interpolate? && WellFormedStops(Finites(e.stops), e.outputs) && |e.stops| >= 2
    requires Eval(e.input, ctx, host) == Ok(Num(x))
    ensures x <= e.stops[0] ==> Eval(e, ctx, host) == Eval(e.outputs[0], ctx, host)
    ensures e.stops[0] < x && e.stops[|e.stops| - 1] <= x ==>
      Eval(e, ctx, host) == Eval(e.outputs[|e.stops| - 1], ctx, host)
  {
    InterpolateAtNumber(e, ctx, host, x);
  }

  /**
   * Between two stops `interpolate` blends the bracketing outputs, lower first, by the factor of the
   * bracketing labels; for linear interpolation that factor lies in [0, 1].
   */
  lemma {:induction false} InterpolateBetweenStops(e: Expr, ctx: EvaluationContext, host: Host, x: real, k: nat, lower: Value, upper: Value)
    requires e.Interpolate? && WellFormedStops(Finites(e.stops), e.outputs)
    requires Eval(e.input, ctx, host) == Ok(Num(x))
    requires k + 1 < |e.stops| && e.stops[0] < x && e.stops[k] <= x < e.stops[k + 1] && x < e.stops[|e.stops| - 1]
    requires Eval(e.outputs[k], ctx, host) == Ok(lower) && Eval(e.outputs[k + 1], ctx, host) == Ok(upper)
    ensures var t := InterpolationFactor(host.ratio, host.bezier, e.interpolation, x, e.stops[k], e.stops[k + 1]);
      Eval(e, ctx, host) == host.blend(e.operator, e.ty, lower, upper, t) &&
      (e.interpolation.name == "linear" ==> 0.0 <= t <= 1.0)
  {
    InterpolateBlendsBracket(e, ctx, host, x, k, lower, upper);
    LinearFactorBounds(host.ratio, x, e.stops[k], e.stops[k + 1]);
  }

  /** Strictly inside the stops, `interpolate` blends the outputs of the stops that bracket the input. */
  lemma {:induction false} InterpolateBlendsBracket(e: Expr, ctx: EvaluationContext, host: Host, x: real, k: nat, lower: Value, upper: Value)
    requires e.Interpolate? && WellFormedStops(Finites(e.stops), e.outputs)
    requires Eval(e.input, ctx, host) == Ok(Num(x))
    requires k + 1 < |e.stops| && e.stops[0] < x && e.stops[k] <= x < e.stops[k + 1] && x < e.stops[|e.stops| - 1]
    requires Eval(e.outputs[k], ctx, host) == Ok(lower) && Eval(e.outputs[k + 1], ctx, host) == Ok(upper)
    ensures Eval(e, ctx, host)
         == host.blend(e.operator, e.ty, lower, upper, InterpolationFactor(host.ratio, host.bezier, e.interpolation, x, e.stops[k], e.stops[k + 1]))
  {
    InterpolateSelectsBracket(e, ctx, host, x, k);
  }

  /** Strictly inside the stops, `interpolate` evaluates the bracket of the stops around the input. */
  lemma {:induction false} InterpolateSelectsBracket(e: Expr, ctx: EvaluationContext, host: Host, x: real, k: nat)
    requires e.Interpolate? && WellFormedStops(Finites(e.stops), e.outputs)
    requires Eval(e.input, ctx, host) == Ok(Num(x))
    requires k + 1 < |e.stops| && e.stops[0] < x && e.stops[k] <= x < e.stops[k + 1] && x < e.stops[|e.stops| - 1]
    ensures Eval(e, ctx, host) == EvalBracket(e, k, x, ctx, host)
  {
    InterpolateAtNumber(e, ctx, host, x);
    InterpolateAtInterior(e, ctx, host, x, k);
  }

  /** Over two or more stops, a numeric input is where `interpolate` is taken. */
  lemma {:induction false} InterpolateAtNumber(e: Expr, ctx: EvaluationContext, host: Host, x: real)
    requires e.Interpolate? && WellFormedStops(Finites(e.stops), e.outputs) && |e.stops| >= 2
    requires Eval(e.input, ctx, host) == Ok(Num(x))
    ensures Eval(e, ctx, host) == InterpolateAt(e, x, ctx, host)
  {
    assert Eval(e, ctx, host) == EvalInterpolate(e, ctx, host);
  }

  /** Strictly inside the stops, the bracket taken is the one whose stops surround the input. */
  lemma {:induction false} InterpolateAtInterior(e: Expr, ctx: EvaluationContext, host: Host, x: real, k: nat)
    requires e.Interpolate? && WellFormedStops(Finites(e.stops), e.outputs)
    requires k + 1 < |e.stops| && e.stops[0] < x && e.stops[k] <= x < e.stops[k + 1] && x < e.stops[|e.stops| - 1]
    ensures InterpolateAt(e, x, ctx, host) == EvalBracket(e, k, x, ctx, host)
  {
    InterpolateAtSearch(e, ctx, host, x);
    FindStopAt(e.stops, x, k);
  }

  /** Strictly inside the stops, `interpolate` takes the bracket its stop search finds. */
  lemma {:induction false} InterpolateAtSearch(e: Expr, ctx: EvaluationContext, host: Host, x: real)
    requires e.Interpolate? && WellFormedStops(Finites(e.stops), e.outputs) && |e.stops| >= 2
    requires e.stops[0] < x < e.stops[|e.stops| - 1]
    ensures LabelLessEq(Finites(e.stops)[0], Finite(x)) && LabelLess(Finite(x), Finites(e.stops)[|e.stops| - 1])
    ensures InterpolateAt(e, x, ctx, host) == EvalBracket(e, FindStopIn(Finites(e.stops), x, 0, |e.stops| - 1), x, ctx, host)
  {
  }
}
