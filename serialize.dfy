/**
 * `serialize` of the node kinds of the core: a node is written back as the JSON-like array the
 * parser reads, its operator first. Nodes outside the core (literals, `var`, `let`, `coalesce`,
 * `collator`, the other special forms) and formatted coercion, which is written through a
 * `format` expression, are serialised by the `leaf` parameter.
 */
module Serialize {
  import opened Wrappers
  import opened Types
  import opened Values
  import opened Ast
  import opened Curves
  import Definitions
  import Text
  import MatchForm
  import Parser

  /** `[k0, o0, k1, o1, ...]`: each key followed by its output. */
  function Interleave(keys: seq<Value>, outs: seq<Value>): (r: seq<Value>)
    requires |keys| == |outs|
    ensures |r| == 2 * |keys|
    ensures forall i :: 0 <= i < |keys| ==> r[2 * i] == keys[i] && r[2 * i + 1] == outs[i]
    decreases |keys|
  {
    if keys == [] then []
    else
      var rest := Interleave(keys[1..], outs[1..]);
      assert forall i :: 1 <= i < |keys| ==> rest[2 * (i - 1)] == keys[i] && rest[2 * (i - 1) + 1] == outs[i];
      [keys[0], outs[0]] + rest
  }

  /** The items at even positions. */
  function Evens(s: seq<Value>): (r: seq<Value>)
    ensures |r| == (|s| + 1) / 2
    decreases |s|
  {
    if |s| == 0 then [] else if |s| == 1 then [s[0]] else [s[0]] + Evens(s[2..])
  }

  /** The items at odd positions. */
  function Odds(s: seq<Value>): (r: seq<Value>)
    ensures |r| == |s| / 2
    decreases |s|
  {
    if |s| < 2 then [] else [s[1]] + Odds(s[2..])
  }

  /** Reading an interleaved list back by position gives the keys and the outputs again. */
  lemma {:induction false} InterleaveRoundTrip(keys: seq<Value>, outs: seq<Value>)
    requires |keys| == |outs|
    ensures Evens(Interleave(keys, outs)) == keys
    ensures Odds(Interleave(keys, outs)) == outs
    decreases |keys|
  {
    if keys != [] {
      var r := Interleave(keys, outs);
      InterleaveRoundTrip(keys[1..], outs[1..]);
      assert r[2..] == Interleave(keys[1..], outs[1..]);
      assert keys == [keys[0]] + keys[1..];
      assert outs == [outs[0]] + outs[1..];
    }
  }

  /** How a stop label is written; only the implicit first label of `step` is -Infinity, and it is never written. */
  function LabelValue(l: Label): Value {
    match l
    case Finite(x) => Num(x)
    case NegInf => Null
  }

  /**
   * `Assertion.serialize`'s head: the kind, then for a primitive array the item kind and, when known or
   * with several arguments, `N`. An assertion with several arguments was parsed with a length operand,
   * so an unknown `N` there is the `null` that was written.
   */
  function AssertionHead(t: Type, argCount: nat): seq<Value> {
    if t.ArrayType? && Kind(t.itemType) in {"string", "number", "boolean"} then
      if t.n.Some? || argCount > 1 then
        [Str(Kind(t)), Str(Kind(t.itemType)), if t.n.Some? then Num(t.n.value as real) else Null]
      else [Str(Kind(t)), Str(Kind(t.itemType))]
    else [Str(Kind(t))]
  }

  /** The serialised form of a node: its children serialised, then assembled by the node's kind. */
  function Serialize(js: Js, leaf: Expr -> Value, e: Expr): Value
    decreases Size(e), 1
  {
    Assemble(js, leaf, e, Parts(js, leaf, e))
  }

  /** The children of a node serialised, in `eachChild` order. */
  function Parts(js: Js, leaf: Expr -> Value, e: Expr): (ps: seq<Value>)
    ensures |ps| == |Children(e)|
    ensures forall i :: 0 <= i < |ps| ==> ps[i] == Serialize(js, leaf, Children(e)[i])
    decreases Size(e), 0
  {
    var cs := Children(e);
    seq(|cs|, i requires 0 <= i < |cs| => Serialize(js, leaf, cs[i]))
  }

  /** One node's `serialize`, given its children's serialised forms in `eachChild` order. */
  function Assemble(js: Js, leaf: Expr -> Value, e: Expr, parts: seq<Value>): Value
    requires |parts| == |Children(e)|
  {
    match e
    case Compound(name, _, _, _) => Value.Array([Str(name)] + parts)
    case Assertion(t, args) => Value.Array(AssertionHead(t, |args|) + parts)
    case Coercion(t, _) => if Kind(t) == "formatted" then leaf(e) else Value.Array([Str("to-" + Kind(t))] + parts)
    case Match(inputType, _, _, cases, outputs, _) =>
      Value.Array([Str("match"), parts[0]] + MatchTail(js, inputType, SortedGroups(cases), parts[1..|parts| - 1]) + [parts[|parts| - 1]])
    case Step(_, _, labels, outputs) =>
      if |labels| != |outputs| || |labels| == 0 then leaf(e) else StepArray(labels, parts)
    case Interpolate(_, operator, interpolation, _, stops, outputs) =>
      if |stops| != |outputs| then leaf(e) else InterpolateArray(operator, interpolation, stops, parts)
    case _ => leaf(e)
  }

  /** `Step.serialize` given the input and outputs serialised: the first output, then each later label and its output. */
  function StepArray(labels: seq<Label>, parts: seq<Value>): Value
    requires 0 < |labels| && |parts| == 1 + |labels|
  {
    var keys := seq(|labels| - 1, i requires 0 <= i < |labels| - 1 => LabelValue(labels[i + 1]));
    Value.Array([Str("step"), parts[0], parts[1]] + Interleave(keys, parts[2..]))
  }

  /** `Interpolate.serialize` given the input and outputs serialised: each stop followed by its output. */
  function InterpolateArray(operator: string, interpolation: Interpolation, stops: seq<real>, parts: seq<Value>): Value
    requires |parts| == 1 + |stops|
  {
    var keys := seq(|stops|, i requires 0 <= i < |stops| => Num(stops[i]));
    Value.Array([Str(operator), SerializeInterpolation(interpolation), parts[0]] + Interleave(keys, parts[1..]))
  }

  /** `CompoundExpression.serialize`: the name, then each argument serialised, in order. */
  lemma {:induction false} CompoundLayout(js: Js, leaf: Expr -> Value, e: Expr)
    requires e.Compound?
    ensures var v := Serialize(js, leaf, e);
      v.Array? && |v.items| == 1 + |e.args| && v.items[0] == Str(e.name) &&
      forall i :: 0 <= i < |e.args| ==> v.items[i + 1] == Serialize(js, leaf, e.args[i])
  {
    var parts := Parts(js, leaf, e);
    var v := Serialize(js, leaf, e);
    assert v == Assemble(js, leaf, e, parts);
    assert Children(e) == e.args;
    assert v == Value.Array([Str(e.name)] + parts);
    forall i | 0 <= i < |e.args| ensures v.items[i + 1] == Serialize(js, leaf, e.args[i]) {
      assert v.items[i + 1] == parts[i];
    }
  }

  /** `Assertion.serialize`: the arguments follow the head, and an array's known length is written. */
  lemma {:induction false} AssertionLayout(js: Js, leaf: Expr -> Value, e: Expr)
    requires e.Assertion?
    ensures var v := Serialize(js, leaf, e);
      var h := |AssertionHead(e.ty, |e.args|)|;
      v.Array? && |v.items| == h + |e.args| && v.items[0] == Str(Kind(e.ty)) &&
      (forall i :: 0 <= i < |e.args| ==> v.items[h + i] == Serialize(js, leaf, e.args[i]))
    ensures e.ty.ArrayType? && Kind(e.ty.itemType) in {"string", "number", "boolean"} && e.ty.n.Some? ==>
      Serialize(js, leaf, e).items[1..3] == [Str(Kind(e.ty.itemType)), Num(e.ty.n.value as real)]
    ensures e.ty.ArrayType? && Kind(e.ty.itemType) in {"string", "number", "boolean"} ==>
      Serialize(js, leaf, e).items[1] == Str(Kind(e.ty.itemType)) &&
      (e.ty.n.None? && |e.args| > 1 ==> |AssertionHead(e.ty, |e.args|)| == 3 && Serialize(js, leaf, e).items[2] == Null) &&
      (e.ty.n.None? && |e.args| <= 1 ==> |AssertionHead(e.ty, |e.args|)| == 2)
    ensures !(e.ty.ArrayType? && Kind(e.ty.itemType) in {"string", "number", "boolean"}) ==> |AssertionHead(e.ty, |e.args|)| == 1
  {
  }

  /** The assertion types `Assertion.parse` builds from `argCount` inputs. */
  predicate Assertable(t: Type, argCount: nat) {
    t in {StringType, NumberType, BooleanType, ObjectType} ||
    (t.ArrayType? && t.itemType in {StringType, NumberType, BooleanType}) ||
    (t == ArrayType(ValueType, None) && argCount == 1)
  }

  /** The head `serialize` writes for an assertion parses back, before the same inputs, to the same type. */
  lemma AssertionHeadRoundTrip(t: Type, inputs: seq<Value>)
    requires |inputs| > 0 && Assertable(t, |inputs|)
    ensures var args := AssertionHead(t, |inputs|) + inputs;
      args[0].Str? && (args[0].s == "array" || args[0].s in Parser.AssertionTypes) &&
      Parser.AssertionHeader(args) == Parser.Header(t, |AssertionHead(t, |inputs|)|)
  {
    var head := AssertionHead(t, |inputs|);
    var args := head + inputs;
    if !t.ArrayType? {
      assert head == [Str(Kind(t))];
      assert args[0] == Str(Kind(t)) && |args| >= 2;
      assert Parser.AssertionTypes[Kind(t)] == t;
    } else if t.itemType == ValueType {
      assert head == [Str("array")] && |args| == 2;
      assert args[0] == Str("array");
    } else {
      var item := Str(Kind(t.itemType));
      assert Parser.ArrayItemTypes[Kind(t.itemType)] == t.itemType;
      if |head| == 2 {
        assert args[0] == Str("array") && args[1] == item && |args| == 3;
      } else {
        assert head[2] == (if t.n.Some? then Num(t.n.value as real) else Null);
        assert args[0] == Str("array") && args[1] == item && args[2] == head[2] && |args| > 3;
        if t.n.Some? {
          assert Parser.IsLength(args[2]);
        }
      }
    }
  }

  /** The array `StepArray` builds, position by position. */
  lemma StepArrayLayout(labels: seq<Label>, parts: seq<Value>)
    requires 0 < |labels| && |parts| == 1 + |labels|
    ensures var v := StepArray(labels, parts);
      v.Array? && |v.items| == 1 + 2 * |labels| && v.items[0] == Str("step") && v.items[1] == parts[0] && v.items[2] == parts[1] &&
      forall i :: 1 <= i < |labels| ==> v.items[1 + 2 * i] == LabelValue(labels[i]) && v.items[2 + 2 * i] == parts[i + 1]
  {
    var v := StepArray(labels, parts);
    var keys := seq(|labels| - 1, i requires 0 <= i < |labels| - 1 => LabelValue(labels[i + 1]));
    var tail := Interleave(keys, parts[2..]);
    assert v.items == [Str("step"), parts[0], parts[1]] + tail;
    forall i | 1 <= i < |labels|
      ensures v.items[1 + 2 * i] == LabelValue(labels[i]) && v.items[2 + 2 * i] == parts[i + 1]
    {
      assert tail[2 * (i - 1)] == keys[i - 1] && tail[2 * (i - 1) + 1] == parts[2..][i - 1];
    }
  }

  /**
   * `Step.serialize`: the input, the first output, then each later stop's label and output; the
   * implicit first label is not written, so positions `3 + 2i` and `4 + 2i` hold stop `i + 1`.
   */
  lemma {:induction false} StepLayout(js: Js, leaf: Expr -> Value, e: Expr)
    requires e.Step? && 0 < |e.labels| == |e.outputs|
    ensures var v := Serialize(js, leaf, e);
      v.Array? && |v.items| == 1 + 2 * |e.labels| &&
      v.items[0] == Str("step") && v.items[1] == Serialize(js, leaf, e.input) && v.items[2] == Serialize(js, leaf, e.outputs[0]) &&
      forall i :: 1 <= i < |e.labels| ==>
        v.items[1 + 2 * i] == LabelValue(e.labels[i]) && v.items[2 + 2 * i] == Serialize(js, leaf, e.outputs[i])
  {
    CurveParts(js, leaf, e);
    var parts := Parts(js, leaf, e);
    assert Serialize(js, leaf, e) == Assemble(js, leaf, e, parts) == StepArray(e.labels, parts);
    StepArrayLayout(e.labels, parts);
  }

  /** The array `InterpolateArray` builds, position by position. */
  lemma InterpolateArrayLayout(operator: string, interpolation: Interpolation, stops: seq<real>, parts: seq<Value>)
    requires |parts| == 1 + |stops|
    ensures var v := InterpolateArray(operator, interpolation, stops, parts);
      v.Array? && |v.items| == 3 + 2 * |stops| &&
      v.items[0] == Str(operator) && v.items[1] == SerializeInterpolation(interpolation) && v.items[2] == parts[0] &&
      forall i :: 0 <= i < |stops| ==> v.items[3 + 2 * i] == Num(stops[i]) && v.items[4 + 2 * i] == parts[i + 1]
  {
    var v := InterpolateArray(operator, interpolation, stops, parts);
    var keys := seq(|stops|, i requires 0 <= i < |stops| => Num(stops[i]));
    var tail := Interleave(keys, parts[1..]);
    assert v.items == [Str(operator), SerializeInterpolation(interpolation), parts[0]] + tail;
    forall i | 0 <= i < |stops|
      ensures v.items[3 + 2 * i] == Num(stops[i]) && v.items[4 + 2 * i] == parts[i + 1]
    {
      assert tail[2 * i] == keys[i] && tail[2 * i + 1] == parts[1..][i];
    }
  }

  /** `Interpolate.serialize`: the operator, the interpolation, the input, then each stop and its output. */
  lemma {:induction false} InterpolateLayout(js: Js, leaf: Expr -> Value, e: Expr)
    requires e.Interpolate? && |e.stops| == |e.outputs|
    ensures var v := Serialize(js, leaf, e);
      v.Array? && |v.items| == 3 + 2 * |e.stops| &&
      v.items[0] == Str(e.operator) && v.items[1] == SerializeInterpolation(e.interpolation) &&
      v.items[2] == Serialize(js, leaf, e.input) &&
      forall i :: 0 <= i < |e.stops| ==>
        v.items[3 + 2 * i] == Num(e.stops[i]) && v.items[4 + 2 * i] == Serialize(js, leaf, e.outputs[i])
  {
    CurveParts(js, leaf, e);
    var parts := Parts(js, leaf, e);
    assert Serialize(js, leaf, e) == Assemble(js, leaf, e, parts) == InterpolateArray(e.operator, e.interpolation, e.stops, parts);
    InterpolateArrayLayout(e.operator, e.interpolation, e.stops, parts);
  }

  /** A curve node's children serialised: the input, then each output. */
  lemma CurveParts(js: Js, leaf: Expr -> Value, e: Expr)
    requires e.Step? || e.Interpolate?
    ensures var parts := Parts(js, leaf, e);
      |parts| == 1 + |e.outputs| && parts[0] == Serialize(js, leaf, e.input) &&
      forall i :: 0 <= i < |e.outputs| ==> parts[i + 1] == Serialize(js, leaf, e.outputs[i])
  {
    var cs := Children(e);
    assert cs == [e.input] + e.outputs;
    forall i | 0 <= i < |e.outputs| ensures cs[i + 1] == e.outputs[i] {}
  }

  /** `Match.serialize` after the input: each group's labels followed by its output, given the outputs serialised. */
  function MatchTail(js: Js, inputType: Type, groups: seq<MatchForm.Group>, outs: seq<Value>): seq<Value> {
    Interleave(
      seq(|groups|, j requires 0 <= j < |groups| => MatchForm.GroupLabels(js, inputType, groups[j])),
      seq(|groups|, j requires 0 <= j < |groups| => if groups[j].output < |outs| then outs[groups[j].output] else Null))
  }

  /** The label groups of a table: its keys in sorted order, grouped by output in order of first appearance. */
  function SortedGroups(cases: map<string, nat>): seq<MatchForm.Group> {
    MatchForm.Grouped(Text.SortedElements(cases.Keys), cases)
  }

  /**
   * The body of `Match.serialize`: for every group, the group's labels (one bare, several as a
   * list) and then that group's output.
   */
  lemma {:induction false} MatchTailLayout(js: Js, inputType: Type, groups: seq<MatchForm.Group>, outs: seq<Value>)
    requires forall j :: 0 <= j < |groups| ==> groups[j].output < |outs|
    ensures var r := MatchTail(js, inputType, groups, outs);
      |r| == 2 * |groups| &&
      forall j :: 0 <= j < |groups| ==>
        r[2 * j] == MatchForm.GroupLabels(js, inputType, groups[j]) && r[2 * j + 1] == outs[groups[j].output]
  {
  }

  /** Every group's output is the output of some key of the table. */
  lemma {:induction false} MatchGroupsInRange(cases: map<string, nat>, n: nat)
    requires forall k :: k in cases ==> cases[k] < n
    ensures forall j :: 0 <= j < |SortedGroups(cases)| ==> SortedGroups(cases)[j].output < n
  {
    var keys := Text.SortedElements(cases.Keys);
    var groups := MatchForm.Grouped(keys, cases);
    MatchForm.GroupedMembers(keys, cases);
    forall j | 0 <= j < |groups| ensures groups[j].output < n {
      assert MatchForm.GroupSound(groups[j], keys, cases);
      assert groups[j].labels[0] in cases;
    }
  }

  /**
   * The groups `Match.serialize` writes: every key of the table is in a group whose output is the
   * key's, no group is empty or holds a label leading elsewhere, and no output is written twice.
   */
  lemma {:induction false} MatchGroupsPartition(cases: map<string, nat>)
    ensures var groups := SortedGroups(cases);
      (forall i, j :: 0 <= i < j < |groups| ==> groups[i].output != groups[j].output) &&
      (forall k :: k in cases ==> MatchForm.Placed(groups, k, cases[k])) &&
      (forall j :: 0 <= j < |groups| ==> MatchForm.GroupSound(groups[j], Text.SortedElements(cases.Keys), cases))
  {
    var keys := Text.SortedElements(cases.Keys);
    var groups := MatchForm.Grouped(keys, cases);
    MatchForm.GroupedOutputs(keys, cases);
    MatchForm.GroupedMembers(keys, cases);
    MatchForm.GroupedCovers(keys, cases);
    forall i, j | 0 <= i < j < |groups| ensures groups[i].output != groups[j].output {
      assert MatchForm.Outputs(groups)[i] == groups[i].output;
      assert MatchForm.Outputs(groups)[j] == groups[j].output;
    }
    forall k | k in cases ensures MatchForm.Placed(groups, k, cases[k]) {
      var i :| 0 <= i < |keys| && keys[i] == k;
    }
  }

  /** `Match.serialize`: "match", the input, the grouped labels and outputs, and `otherwise` last. */
  lemma {:induction false} MatchLayout(js: Js, leaf: Expr -> Value, e: Expr)
    requires e.Match?
    ensures var v := Serialize(js, leaf, e);
      var outs := seq(|e.outputs|, i requires 0 <= i < |e.outputs| => Serialize(js, leaf, e.outputs[i]));
      v.Array? && v.items == [Str("match"), Serialize(js, leaf, e.input)] + MatchTail(js, e.inputType, SortedGroups(e.cases), outs) + [Serialize(js, leaf, e.otherwise)]
  {
    var cs := Children(e);
    var parts := Parts(js, leaf, e);
    assert parts[1..|parts| - 1] == seq(|e.outputs|, i requires 0 <= i < |e.outputs| => Serialize(js, leaf, e.outputs[i]));
  }

  /** A node of the core that `serialize` writes itself. */
  predicate Written(e: Expr) {
    (e.Compound? || e.Assertion? || e.Coercion? || e.Match? || e.Step? || e.Interpolate?) &&
    (e.Coercion? ==> Kind(e.ty) != "formatted") &&
    (e.Step? ==> 0 < |e.labels| == |e.outputs|) &&
    (e.Interpolate? ==> |e.stops| == |e.outputs|)
  }

  /** The operator a written node is serialised under. */
  function HeadName(e: Expr): string
    requires Written(e)
  {
    match e
    case Compound(name, _, _, _) => name
    case Assertion(t, _) => Kind(t)
    case Coercion(t, _) => "to-" + Kind(t)
    case Match(_, _, _, _, _, _) => "match"
    case Step(_, _, _, _) => "step"
    case Interpolate(_, operator, _, _, _, _) => operator
  }

  /** A written node's serialised form is a list headed by its operator. */
  lemma {:induction false} SerializeHead(js: Js, leaf: Expr -> Value, e: Expr)
    requires Written(e)
    ensures var v := Serialize(js, leaf, e); v.Array? && |v.items| > 0 && v.items[0] == Str(HeadName(e))
  {
    var cs := Children(e);
    var parts := Parts(js, leaf, e);
    assert Serialize(js, leaf, e) == Assemble(js, leaf, e, parts);
  }

  /**
   * The operator a node is serialised under reads back as the same node kind: the special-form
   * table sends it to the node's kind, and a compound node's name is its builtin's.
   */
  lemma {:induction false} HeadNamesItsKind(e: Expr)
    requires Written(e)
    requires e.Compound? ==> e.name in Definitions.CompoundDefinitions()
    requires e.Assertion? ==> Kind(e.ty) in {"array", "boolean", "number", "object", "string"}
    requires e.Coercion? ==> Kind(e.ty) in {"boolean", "color", "number", "string"}
    requires e.Interpolate? ==> e.operator in {"interpolate", "interpolate-hcl", "interpolate-lab"}
    ensures e.Compound? ==> HeadName(e) in Definitions.CompoundDefinitions()
    ensures !e.Compound? ==> Definitions.FormIs(HeadName(e), NodeKindOf(e))
  {
    if e.Assertion? {
      Definitions.AssertionForms();
    } else if e.Coercion? {
      Definitions.CoercionForms();
      var k := Kind(e.ty);
      if k == "boolean" { assert "to-" + k == "to-boolean"; }
      else if k == "color" { assert "to-" + k == "to-color"; }
      else if k == "number" { assert "to-" + k == "to-number"; }
      else { assert "to-" + k == "to-string"; }
    } else if !e.Compound? {
      Definitions.CurveForms();
    }
  }

  /** The node kind a core node is built by. */
  function NodeKindOf(e: Expr): Definitions.NodeKind {
    match e
    case Assertion(_, _) => Definitions.AssertionKind
    case Coercion(_, _) => Definitions.CoercionKind
    case Match(_, _, _, _, _, _) => Definitions.MatchKind
    case Step(_, _, _, _) => Definitions.StepKind
    case Interpolate(_, _, _, _, _, _) => Definitions.InterpolateKind
    case Length(_) => Definitions.LengthKind
    case _ => Definitions.CompoundKind
  }
}
