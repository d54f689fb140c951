/**
 * The stop machinery shared by `step` and `interpolate`: the stop search callers rely on,
 * the boundary law of stop selection, the interpolation kinds with their parsing and
 * serialisation, and the interpolation factor.
 */
module Curves {
  import opened Wrappers
  import opened Types
  import opened Values
  import opened Ast

  /** Labels in strictly ascending order. */
  predicate StrictlyAscending(labels: seq<Label>) {
    forall i, j :: 0 <= i < j < |labels| ==> LabelLess(labels[i], labels[j])
  }

  /** Numeric stops as labels. */
  function Finites(stops: seq<real>): (labels: seq<Label>)
    ensures |labels| == |stops| && forall i :: 0 <= i < |stops| ==> labels[i] == Finite(stops[i])
  {
    seq(|stops|, i requires 0 <= i < |stops| => Finite(stops[i]))
  }

  lemma FinitesAscending(stops: seq<real>)
    requires forall i, j :: 0 <= i < j < |stops| ==> stops[i] < stops[j]
    ensures StrictlyAscending(Finites(stops))
  {
  }

  /**
   * The stop search (`findStopLessThanOrEqualTo`, whose source is not part of this model) as a
   * bisection of [lo, hi]: the index of the stop at or below `v` whose successor is above `v`.
   */
  function FindStopIn(labels: seq<Label>, v: real, lo: nat, hi: nat): (i: nat)
    requires lo < hi < |labels| && StrictlyAscending(labels)
    requires LabelLessEq(labels[lo], Finite(v)) && LabelLess(Finite(v), labels[hi])
    ensures lo <= i < hi
    ensures LabelLessEq(labels[i], Finite(v)) && LabelLess(Finite(v), labels[i + 1])
    decreases hi - lo
  {
    if hi == lo + 1 then lo
    else
      var mid := (lo + hi) / 2;
      if LabelLessEq(labels[mid], Finite(v)) then FindStopIn(labels, v, mid, hi)
      else FindStopIn(labels, v, lo, mid)
  }

  /** Under strictly ascending labels the bracketing stop is unique, so any search meeting the contract agrees. */
  lemma StopIndexUnique(labels: seq<Label>, v: real, i: nat, j: nat)
    requires StrictlyAscending(labels) && i + 1 < |labels| && j + 1 < |labels|
    requires LabelLessEq(labels[i], Finite(v)) && LabelLess(Finite(v), labels[i + 1])
    requires LabelLessEq(labels[j], Finite(v)) && LabelLess(Finite(v), labels[j + 1])
    ensures i == j
  {
    if i < j {
      assert LabelLessEq(labels[i + 1], labels[j]);
    } else if j < i {
      assert LabelLessEq(labels[j + 1], labels[i]);
    }
  }

  /** Over numeric stops, the only index meeting the search's contract is the one whose stops bracket `x`. */
  lemma FinitesStopIndex(stops: seq<real>, x: real, k: nat, i: nat)
    requires StrictlyAscending(Finites(stops))
    requires k + 1 < |stops| && stops[k] <= x < stops[k + 1]
    requires i + 1 < |stops| && LabelLessEq(Finites(stops)[i], Finite(x)) && LabelLess(Finite(x), Finites(stops)[i + 1])
    ensures i == k
  {
    var labels := Finites(stops);
    assert labels[k] == Finite(stops[k]) && labels[k + 1] == Finite(stops[k + 1]);
    StopIndexUnique(labels, x, i, k);
  }

  /** Strictly inside numeric stops, the search finds the stop at or below `x` whose successor is above it. */
  lemma FindStopAt(stops: seq<real>, x: real, k: nat)
    requires StrictlyAscending(Finites(stops))
    requires k + 1 < |stops| && stops[0] < x && stops[k] <= x < stops[k + 1] && x < stops[|stops| - 1]
    ensures FindStopIn(Finites(stops), x, 0, |stops| - 1) == k
  {
    var labels := Finites(stops);
    assert labels[0] == Finite(stops[0]) && labels[|stops| - 1] == Finite(stops[|stops| - 1]);
    FinitesStopIndex(stops, x, k, FindStopIn(labels, x, 0, |stops| - 1));
  }

  /**
   * Stop selection of `step` and `interpolate` for `n` >= 2 stops: the first stop at or below the
   * first label, the last stop from the last label on, the bracketing stop in between.
   */
  function SelectStop(labels: seq<Label>, v: real): (k: nat)
    requires |labels| >= 2 && StrictlyAscending(labels)
    ensures k < |labels|
  {
    var n := |labels|;
    if LabelLessEq(Finite(v), labels[0]) then 0
    else if LabelLessEq(labels[n - 1], Finite(v)) then n - 1
    else FindStopIn(labels, v, 0, n - 1)
  }

  /**
   * The boundary law: the selected stop is the last whose label is at or below `v`, or the first
   * stop when `v` is at or below every label.
   */
  lemma SelectStopLaw(labels: seq<Label>, v: real)
    requires |labels| >= 2 && StrictlyAscending(labels)
    ensures var k := SelectStop(labels, v);
      (LabelLessEq(Finite(v), labels[0]) ==> k == 0) &&
      (!LabelLessEq(Finite(v), labels[0]) ==>
         LabelLessEq(labels[k], Finite(v)) && (k + 1 < |labels| ==> LabelLess(Finite(v), labels[k + 1])))
  {
  }

  /** Every label at or below `v` is at or before the selected stop, and every later label is above `v`. */
  lemma SelectStopIsLastAtOrBelow(labels: seq<Label>, v: real, j: nat)
    requires |labels| >= 2 && StrictlyAscending(labels) && j < |labels|
    requires !LabelLessEq(Finite(v), labels[0])
    ensures LabelLessEq(labels[j], Finite(v)) <==> j <= SelectStop(labels, v)
  {
    var k := SelectStop(labels, v);
    SelectStopLaw(labels, v);
    if j < k {
      assert LabelLess(labels[j], labels[k]);
    } else if j > k {
      assert k + 1 < |labels|;
      assert LabelLessEq(labels[k + 1], labels[j]);
    }
  }

  /** The implicit first label of `step` is below every input, so no input selects stop 0 through the lower boundary. */
  lemma StepFirstLabelBelowEverything(labels: seq<Label>, v: real)
    requires |labels| >= 2 && labels[0] == NegInf && StrictlyAscending(labels)
    ensures !LabelLessEq(Finite(v), labels[0])
    ensures SelectStop(labels, v) == 0 <==> LabelLess(Finite(v), labels[1])
  {
    var k := SelectStop(labels, v);
    SelectStopLaw(labels, v);
    if k > 0 {
      assert LabelLessEq(labels[1], labels[k]);
    }
  }

  /** The interpolation kinds and `interpolate`'s first argument. */
  predicate IsValidInterpolation(i: Interpolation) {
    (i.name == "linear" && i.base == 1.0 && i.controlPoints == [])
    || (i.name == "exponential" && i.controlPoints == [])
    || (i.name == "cubic-bezier" && i.base == 1.0 && |i.controlPoints| == 4
        && forall k :: 0 <= k < 4 ==> 0.0 <= i.controlPoints[k] <= 1.0)
  }

  /** The outcome of reading an interpolation kind: the kind, or a message with the keys it is reported under. */
  datatype InterpolationParse = Parsed(interpolation: Interpolation) | Invalid(message: string, keys: seq<nat>)

  predicate IsUnitNumber(v: Value) {
    v.Num? && 0.0 <= v.n <= 1.0
  }

  predicate ValidControlPoints(cps: seq<Value>) {
    |cps| == 4 && forall k :: 0 <= k < 4 ==> IsUnitNumber(cps[k])
  }

  function Numbers(vs: seq<Value>): (xs: seq<real>)
    requires forall k :: 0 <= k < |vs| ==> vs[k].Num?
    ensures |xs| == |vs| && forall k :: 0 <= k < |vs| ==> xs[k] == vs[k].n
  {
    seq(|vs|, k requires 0 <= k < |vs| => vs[k].n)
  }

  const ExpectedInterpolationMessage: string := "Expected an interpolation type expression."
  const ExponentialBaseMessage: string := "Exponential interpolation requires a numeric base."
  const CubicBezierMessage: string := "Cubic bezier interpolation requires four numeric arguments with values between 0 and 1."

  /**
   * The interpolation-kind part of `Interpolate.parse`: `['linear']`, `['exponential', base]` with any
   * numeric base, or `['cubic-bezier', p0, p1, p2, p3]` with four numbers in [0, 1].
   */
  function ParseInterpolation(js: Js, v: Value): (r: InterpolationParse)
    ensures r.Parsed? ==> IsValidInterpolation(r.interpolation)
    // one of the three forms is read, or parsing fails
    ensures r.Parsed? <==> (v.Array? && |v.items| > 0 &&
      (v.items[0] == Str("linear")
       || (v.items[0] == Str("exponential") && |v.items| >= 2 && v.items[1].Num?)
       || (v.items[0] == Str("cubic-bezier") && ValidControlPoints(v.items[1..]))))
    ensures !v.Array? || v.items == [] ==> r == Invalid(ExpectedInterpolationMessage, [1])
    ensures v.Array? && |v.items| > 0 && v.items[0] == Str("linear") ==> r == Parsed(Interpolation("linear", 1.0, []))
    ensures v.Array? && |v.items| > 0 && v.items[0] == Str("exponential") ==> r == ParseExponential(v.items)
    ensures v.Array? && |v.items| > 0 && v.items[0] == Str("cubic-bezier") ==> r == ParseCubicBezier(v.items)
    ensures v.Array? && |v.items| > 0 && v.items[0] != Str("linear") && v.items[0] != Str("exponential") && v.items[0] != Str("cubic-bezier") ==>
      r == Invalid(UnknownInterpolationMessage(js, v.items[0]), [1, 0])
  {
    if !v.Array? || v.items == [] then Invalid(ExpectedInterpolationMessage, [1])
    else
      var items := v.items;
      if items[0] == Str("linear") then Parsed(Interpolation("linear", 1.0, []))
      else if items[0] == Str("exponential") then ParseExponential(items)
      else if items[0] == Str("cubic-bezier") then ParseCubicBezier(items)
      else Invalid(UnknownInterpolationMessage(js, items[0]), [1, 0])
  }

  /** `['exponential', base]`: any numeric base. */
  function ParseExponential(items: seq<Value>): (r: InterpolationParse)
    ensures r.Parsed? ==> IsValidInterpolation(r.interpolation)
    ensures r.Parsed? <==> |items| >= 2 && items[1].Num?
    ensures r.Parsed? ==> r.interpolation == Interpolation("exponential", items[1].n, [])
    ensures r.Invalid? ==> r == Invalid(ExponentialBaseMessage, [1, 1])
  {
    if |items| < 2 || !items[1].Num? then Invalid(ExponentialBaseMessage, [1, 1])
    else Parsed(Interpolation("exponential", items[1].n, []))
  }

  /** `['cubic-bezier', p0, p1, p2, p3]`: four numbers in [0, 1]. */
  function ParseCubicBezier(items: seq<Value>): (r: InterpolationParse)
    requires |items| > 0
    ensures r.Parsed? ==> IsValidInterpolation(r.interpolation)
    ensures r.Parsed? <==> ValidControlPoints(items[1..])
    ensures ValidControlPoints(items[1..]) ==>
      r.Parsed? && r.interpolation.name == "cubic-bezier" && r.interpolation.controlPoints == Numbers(items[1..])
    ensures !ValidControlPoints(items[1..]) ==> r == Invalid(CubicBezierMessage, [1])
  {
    var controlPoints := items[1..];
    if !ValidControlPoints(controlPoints) then
      Invalid(CubicBezierMessage, [1])
    else Parsed(Interpolation("cubic-bezier", 1.0, Numbers(controlPoints)))
  }

  function UnknownInterpolationMessage(js: Js, name: Value): string {
    "Unknown interpolation type " + JsString(js, name)
  }

  /** `serialize`'s interpolation part: an exponential kind with base 1 is written as linear. */
  function SerializeInterpolation(i: Interpolation): Value {
    if i.name == "linear" then Array([Str("linear")])
    else if i.name == "exponential" then
      if i.base == 1.0 then Array([Str("linear")]) else Array([Str("exponential"), Num(i.base)])
    else Array([Str("cubic-bezier")] + seq(|i.controlPoints|, k requires 0 <= k < |i.controlPoints| => Num(i.controlPoints[k])))
  }

  /** Reading back a serialised kind gives the kind again, except that base-1 exponential comes back as linear. */
  lemma InterpolationRoundTrip(js: Js, i: Interpolation)
    requires IsValidInterpolation(i)
    ensures i.name == "exponential" && i.base == 1.0 ==> ParseInterpolation(js, SerializeInterpolation(i)) == Parsed(Interpolation("linear", 1.0, []))
    ensures !(i.name == "exponential" && i.base == 1.0) ==> ParseInterpolation(js, SerializeInterpolation(i)) == Parsed(i)
  {
    if i.name == "cubic-bezier" {
      CubicBezierRoundTrip(js, i);
    }
  }

  /** A cubic-bezier kind is written as its name followed by its four control points, and read back as itself. */
  lemma CubicBezierRoundTrip(js: Js, i: Interpolation)
    requires IsValidInterpolation(i) && i.name == "cubic-bezier"
    ensures ParseInterpolation(js, SerializeInterpolation(i)) == Parsed(i)
  {
    var items := SerializeInterpolation(i).items;
    assert items[0] == Str("cubic-bezier");
    CubicBezierDispatch(js, items);
    assert items[1..] == seq(4, k requires 0 <= k < 4 => Num(i.controlPoints[k]));
    assert Numbers(items[1..]) == i.controlPoints;
  }

  /** An array headed by `"cubic-bezier"` is read as a cubic-bezier kind. */
  lemma CubicBezierDispatch(js: Js, items: seq<Value>)
    requires |items| > 0 && items[0] == Str("cubic-bezier")
    ensures ParseInterpolation(js, Array(items)) == ParseCubicBezier(items)
  {
    assert "cubic-bezier"[0] != "linear"[0] && "cubic-bezier"[0] != "exponential"[0];
  }

  /** The factor for two stops, the source's `exponentialInterpolation`; bases other than 1 use the host's `**`. */
  function ExponentialInterpolation(ratio: (real, real, real) -> real, input: real, base: real, lower: real, upper: real): real {
    var difference := upper - lower;
    var progress := input - lower;
    if difference == 0.0 then 0.0
    else if base == 1.0 then progress / difference
    else ratio(base, progress, difference)
  }

  /** The linear factor between two stops lies in [0, 1], is 0 at the lower stop and 1 at the upper one. */
  lemma LinearFactorBounds(ratio: (real, real, real) -> real, x: real, lower: real, upper: real)
    requires lower < upper && lower <= x <= upper
    ensures 0.0 <= ExponentialInterpolation(ratio, x, 1.0, lower, upper) <= 1.0
    ensures x == lower ==> ExponentialInterpolation(ratio, x, 1.0, lower, upper) == 0.0
    ensures x == upper ==> ExponentialInterpolation(ratio, x, 1.0, lower, upper) == 1.0
  {
    var d := upper - lower;
    var p := x - lower;
    assert 0.0 <= p <= d;
    assert p / d <= 1.0 by { assert p / d * d == p; }
  }

  /** The linear factor grows with the input. */
  lemma LinearFactorMonotone(ratio: (real, real, real) -> real, x: real, y: real, lower: real, upper: real)
    requires lower < upper && x <= y
    ensures ExponentialInterpolation(ratio, x, 1.0, lower, upper) <= ExponentialInterpolation(ratio, y, 1.0, lower, upper)
  {
    var d := upper - lower;
    assert (x - lower) / d * d == x - lower;
    assert (y - lower) / d * d == y - lower;
  }

  /**
   * `interpolationFactor`: by kind name: exponential with its base, linear as base 1, cubic-bezier through
   * the host's unit-bezier solver applied to the linear factor, and 0 for any other name.
   */
  function InterpolationFactor(ratio: (real, real, real) -> real, bezier: (seq<real>, real) -> real,
                               i: Interpolation, input: real, lower: real, upper: real): (t: real)
    ensures i.name !in {"exponential", "linear", "cubic-bezier"} ==> t == 0.0
    ensures i.name == "linear" || (i.name == "exponential" && i.base == 1.0) ==>
      t == ExponentialInterpolation(ratio, input, 1.0, lower, upper)
  {
    if i.name == "exponential" then ExponentialInterpolation(ratio, input, i.base, lower, upper)
    else if i.name == "linear" then ExponentialInterpolation(ratio, input, 1.0, lower, upper)
    else if i.name == "cubic-bezier" then bezier(i.controlPoints, ExponentialInterpolation(ratio, input, 1.0, lower, upper))
    else 0.0
  }

  /** The output types `interpolate` accepts: number, color, and `array<number, N>` with a fixed length. */
  predicate IsInterpolatable(t: Type) {
    t == NumberType || t == ColorType || (t.ArrayType? && t.itemType == NumberType && t.n.Some?)
  }
}
