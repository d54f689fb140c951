/**
 * The pure parts of the `match` form: label validation, the case table a label group adds to,
 * the branch an input selects, and the grouping and label conversion of serialisation.
 */
module MatchForm {
  import opened Wrappers
  import opened Types
  import opened Values
  import Text

  /** The label checks, in the order they run: a number or a string, no larger than the safe range, an integer. */
  function LabelError(lab: Value): (msg: Option<string>)
    ensures msg.None? <==> lab.Str? || (lab.Num? && IsSafeInteger(lab.n))
    ensures !lab.Num? && !lab.Str? ==> msg == Some("Branch labels must be numbers or strings.")
  {
    if !lab.Num? && !lab.Str? then Some("Branch labels must be numbers or strings.")
    else if lab.Num? && (lab.n > MaxSafeInteger || lab.n < -MaxSafeInteger) then
      Some("Branch labels must be integers no larger than 9007199254740991.")
    else if lab.Num? && lab.n.Floor as real != lab.n then Some("Numeric branch labels must be integer values.")
    else None
  }

  /** A label group as written: a list of labels, or one bare label standing for a list of one. */
  function LabelGroup(v: Value): (labels: seq<Value>)
    ensures v.Array? ==> labels == v.items
    ensures !v.Array? ==> labels == [v]
  {
    if v.Array? then v.items else [v]
  }

  /**
   * The uniqueness test as written, `typeof cases[key] !== 'undefined'` on a plain object: a key is
   * taken when a branch has it, and also when `Object.prototype` has a member of that name.
   */
  predicate TakenAsWritten(cases: map<string, nat>, key: string) {
    key in cases || key in ObjectPrototypeKeys
  }

  /** The uniqueness test as intended: a key is taken when a branch already has it. */
  predicate Taken(cases: map<string, nat>, key: string) {
    key in cases
  }

  /** The outcome of the label loop for one group: the grown case table and the label type, or a message. */
  datatype GroupOutcome = Accepted(cases: map<string, nat>, inputType: Type) | Rejected(message: string)

  /**
   * The label loop of one group: each label is validated, must have the label type fixed by the first
   * label (once there is one), must not be `taken`, and then sends `String(label)` to the group's `index`.
   */
  function AddLabels(js: Js, taken: (map<string, nat>, string) -> bool, cases: map<string, nat>,
                     inputType: Option<Type>, labels: seq<Value>, index: nat): (r: GroupOutcome)
    requires |labels| > 0 || inputType.Some?
    decreases |labels|
  {
    if labels == [] then Accepted(cases, inputType.value)
    else
      var lab := labels[0];
      match LabelError(lab)
      case Some(m) => Rejected(m)
      case None =>
        var t := TypeOf(lab).value;
        var mismatch := if inputType.None? then None else CheckSubtype(inputType.value, t);
        if mismatch.Some? then Rejected(mismatch.value)
        else
          var key := JsString(js, lab);
          if taken(cases, key) then Rejected("Branch labels must be unique.")
          else AddLabels(js, taken, cases[key := index], if inputType.None? then Some(t) else inputType, labels[1..], index)
  }

  /** One label group of `Match.parse`: an empty group is an error, otherwise the label loop. */
  function AddGroup(js: Js, taken: (map<string, nat>, string) -> bool, cases: map<string, nat>,
                    inputType: Option<Type>, group: seq<Value>, index: nat): (r: GroupOutcome)
    ensures group == [] ==> r == Rejected("Expected at least one branch label.")
  {
    if group == [] then Rejected("Expected at least one branch label.")
    else AddLabels(js, taken, cases, inputType, group, index)
  }

  /** As written, a string label naming a member of `Object.prototype` is rejected as a duplicate on an empty table. */
  lemma PrototypeLabelRejectedAsWritten(js: Js)
    ensures AddGroup(js, TakenAsWritten, map[], None, [Str("constructor")], 0) == Rejected("Branch labels must be unique.")
    ensures AddGroup(js, Taken, map[], None, [Str("constructor")], 0) == Accepted(map["constructor" := 0], StringType)
  {
    assert "constructor" in ObjectPrototypeKeys;
    assert [Str("constructor")][1..] == [];
  }

  /** A label that passes validation and has the scalar type `t`. */
  predicate ValidLabel(lab: Value, t: Type) {
    LabelError(lab).None? && TypeOf(lab) == Ok(t)
  }

  /** Valid labels that all have the scalar type `t`. */
  predicate LabelsOfType(labels: seq<Value>, t: Type) {
    forall i :: 0 <= i < |labels| ==> ValidLabel(labels[i], t)
  }

  /** Two valid labels of one type with the same key are the same label. */
  lemma KeyInjective(js: Js, a: Value, b: Value, t: Type)
    requires ValidLabel(a, t) && ValidLabel(b, t)
    requires JsString(js, a) == JsString(js, b)
    ensures a == b
  {
    if a.Num? {
      Text.IntToStringInjective(a.n.Floor, b.n.Floor);
    }
  }

  predicate Distinct(labels: seq<Value>) {
    forall i, j :: 0 <= i < j < |labels| ==> labels[i] != labels[j]
  }

  /** No label's key is in the table yet. */
  predicate Fresh(js: Js, labels: seq<Value>, cases: map<string, nat>) {
    forall i :: 0 <= i < |labels| ==> JsString(js, labels[i]) !in cases
  }

  /**
   * With the intended test, a group of valid labels of the label type is accepted exactly when its labels
   * are pairwise distinct and none already labels a branch.
   */
  lemma {:induction false} AddLabelsAcceptsIff(js: Js, cases: map<string, nat>, t: Type, labels: seq<Value>, index: nat)
    requires LabelsOfType(labels, t)
    ensures AddLabels(js, Taken, cases, Some(t), labels, index).Accepted? <==> Distinct(labels) && Fresh(js, labels, cases)
    decreases |labels|
  {
    if labels != [] {
      var lab := labels[0];
      assert ValidLabel(lab, t);
      assert CheckSubtype(t, t).None? by { Types.SubtypeReflexive(t); }
      var key := JsString(js, lab);
      var rest := labels[1..];
      LabelsOfTypeTail(labels, t);
      FreshCons(js, labels, cases);
      if key !in cases {
        var cases' := cases[key := index];
        AddLabelsAcceptsIff(js, cases', t, rest, index);
        assert AddLabels(js, Taken, cases, Some(t), labels, index) == AddLabels(js, Taken, cases', Some(t), rest, index);
        FreshAfterAdd(js, lab, rest, cases, index, t);
        DistinctCons(labels);
      }
    }
  }

  lemma LabelsOfTypeTail(labels: seq<Value>, t: Type)
    requires labels != [] && LabelsOfType(labels, t)
    ensures LabelsOfType(labels[1..], t)
  {
    var rest := labels[1..];
    forall i | 0 <= i < |rest| ensures ValidLabel(rest[i], t) {
      assert rest[i] == labels[i + 1];
    }
  }

  /** A group is distinct when its tail is and no later label repeats the first. */
  lemma DistinctCons(labels: seq<Value>)
    requires labels != []
    ensures Distinct(labels) <==> Distinct(labels[1..]) && forall i :: 0 <= i < |labels[1..]| ==> labels[1..][i] != labels[0]
  {
    var rest := labels[1..];
    if Distinct(rest) && forall i :: 0 <= i < |rest| ==> rest[i] != labels[0] {
      forall i, j | 0 <= i < j < |labels| ensures labels[i] != labels[j] {
        assert labels[j] == rest[j - 1];
        if i > 0 { assert labels[i] == rest[i - 1]; }
      }
    }
    if Distinct(labels) {
      forall i | 0 <= i < |rest| ensures rest[i] != labels[0] { assert labels[i + 1] == rest[i]; }
      forall i, j | 0 <= i < j < |rest| ensures rest[i] != rest[j] { assert labels[i + 1] == rest[i] && labels[j + 1] == rest[j]; }
    }
  }

  /** A group is fresh when its first key is and its tail is. */
  lemma FreshCons(js: Js, labels: seq<Value>, cases: map<string, nat>)
    requires labels != []
    ensures Fresh(js, labels, cases) <==> JsString(js, labels[0]) !in cases && Fresh(js, labels[1..], cases)
  {
    var rest := labels[1..];
    if JsString(js, labels[0]) !in cases && Fresh(js, rest, cases) {
      forall i | 0 <= i < |labels| ensures JsString(js, labels[i]) !in cases {
        if i > 0 { assert labels[i] == rest[i - 1]; }
      }
    }
    if Fresh(js, labels, cases) {
      forall i | 0 <= i < |rest| ensures JsString(js, rest[i]) !in cases { assert labels[i + 1] == rest[i]; }
    }
  }

  /** Once a label's key is in the table, a later valid label of its type is fresh exactly when it is fresh before and differs from it. */
  lemma FreshAfterAdd(js: Js, lab: Value, rest: seq<Value>, cases: map<string, nat>, index: nat, t: Type)
    requires ValidLabel(lab, t) && LabelsOfType(rest, t)
    ensures Fresh(js, rest, cases[JsString(js, lab) := index]) <==>
      Fresh(js, rest, cases) && forall i :: 0 <= i < |rest| ==> rest[i] != lab
  {
    var key := JsString(js, lab);
    forall i | 0 <= i < |rest|
      ensures JsString(js, rest[i]) !in cases[key := index] <==> JsString(js, rest[i]) !in cases && rest[i] != lab
    {
      if JsString(js, rest[i]) == key {
        assert ValidLabel(rest[i], t);
        KeyInjective(js, lab, rest[i], t);
      }
    }
  }

  /** An accepted group sends each of its labels' keys to `index`, keeps every earlier entry and adds nothing else. */
  lemma {:induction false} AddLabelsTable(js: Js, taken: (map<string, nat>, string) -> bool, cases: map<string, nat>,
                                          inputType: Option<Type>, labels: seq<Value>, index: nat)
    requires |labels| > 0 || inputType.Some?
    requires AddLabels(js, taken, cases, inputType, labels, index).Accepted?
    ensures var r := AddLabels(js, taken, cases, inputType, labels, index).cases;
      (forall i :: 0 <= i < |labels| ==> JsString(js, labels[i]) in r && r[JsString(js, labels[i])] == index) &&
      (forall k :: k in cases && k !in r ==> false) &&
      (forall k :: k in r ==> (k in cases && r[k] == cases[k]) || r[k] == index)
    decreases |labels|
  {
    if labels != [] {
      var lab := labels[0];
      var t := TypeOf(lab).value;
      var key := JsString(js, lab);
      var rest := labels[1..];
      var inputType' := if inputType.None? then Some(t) else inputType;
      AddLabelsTable(js, taken, cases[key := index], inputType', rest, index);
      var r := AddLabels(js, taken, cases, inputType, labels, index).cases;
      assert r == AddLabels(js, taken, cases[key := index], inputType', rest, index).cases;
      forall i | 0 <= i < |labels| ensures JsString(js, labels[i]) in r && r[JsString(js, labels[i])] == index {
        if i > 0 { assert labels[i] == rest[i - 1]; }
      }
    }
  }

  /**
   * The branch a runtime input selects: the output index for `String(input)` when the input's type is the
   * label type and the table has that key, none (the `otherwise` branch) when not; a failed type
   * inference is an error.
   */
  function MatchBranch(js: Js, inputType: Type, cases: map<string, nat>, outputCount: nat, input: Value): (r: Result<Option<nat>>)
    ensures r.Ok? && r.value.Some? ==>
      (r.value.value < outputCount && JsString(js, input) in cases && cases[JsString(js, input)] == r.value.value)
    ensures TypeOf(input).Err? <==> r.Err?
  {
    match TypeOf(input)
    case Err(m) => Err(m)
    case Ok(t) =>
      var key := JsString(js, input);
      Ok(if Identical(t, inputType) && key in cases && cases[key] < outputCount then Some(cases[key]) else None)
  }

  /** A label the table sends to `index` selects that output when it is the input. */
  lemma LabelSelectsItsBranch(js: Js, inputType: Type, cases: map<string, nat>, outputCount: nat, lab: Value)
    requires ValidLabel(lab, inputType)
    requires JsString(js, lab) in cases && cases[JsString(js, lab)] < outputCount
    ensures MatchBranch(js, inputType, cases, outputCount, lab) == Ok(Some(cases[JsString(js, lab)]))
  {
  }

  /** One group of serialisation: an output index and the sorted labels that lead to it. */
  datatype Group = Group(output: nat, labels: seq<string>)

  function Outputs(groups: seq<Group>): (os: seq<nat>)
    ensures |os| == |groups| && forall j :: 0 <= j < |groups| ==> os[j] == groups[j].output
  {
    seq(|groups|, j requires 0 <= j < |groups| => groups[j].output)
  }

  /** The outputs the labels lead to, in label order. */
  function LabelOutputs(labels: seq<string>, cases: map<string, nat>): (os: seq<nat>)
    requires forall i :: 0 <= i < |labels| ==> labels[i] in cases
    ensures |os| == |labels| && forall i :: 0 <= i < |labels| ==> os[i] == cases[labels[i]]
  {
    seq(|labels|, i requires 0 <= i < |labels| => cases[labels[i]])
  }

  /** The distinct elements of `xs` in order of first appearance. */
  function Dedup(xs: seq<nat>): (d: seq<nat>)
    ensures forall x :: x in d <==> x in xs
    ensures forall i, j :: 0 <= i < j < |d| ==> d[i] != d[j]
    decreases |xs|
  {
    if xs == [] then []
    else
      var n := |xs| - 1;
      assert xs == xs[..n] + [xs[n]];
      var d := Dedup(xs[..n]);
      if xs[n] in d then d else d + [xs[n]]
  }

  /** The position of the first group for `output`. */
  function FindGroup(groups: seq<Group>, output: nat): (r: Option<nat>)
    ensures r.Some? ==> r.value < |groups| && groups[r.value].output == output
    ensures r.None? <==> forall j :: 0 <= j < |groups| ==> groups[j].output != output
    decreases |groups|
  {
    if groups == [] then None
    else if groups[0].output == output then Some(0)
    else
      match FindGroup(groups[1..], output)
      case None => None
      case Some(j) => Some(j + 1)
  }

  /** Adds `label` to the group of `output`, or opens a new group for it at the end. */
  function AddToGroups(groups: seq<Group>, output: nat, lab: string): seq<Group> {
    match FindGroup(groups, output)
    case None => groups + [Group(output, [lab])]
    case Some(j) => groups[j := Group(output, groups[j].labels + [lab])]
  }

  /** `groupedByOutput`: the labels gathered by the output they lead to. */
  function Grouped(labels: seq<string>, cases: map<string, nat>): seq<Group>
    requires forall i :: 0 <= i < |labels| ==> labels[i] in cases
    decreases |labels|
  {
    if labels == [] then []
    else
      var n := |labels| - 1;
      AddToGroups(Grouped(labels[..n], cases), cases[labels[n]], labels[n])
  }

  /** The groups come in the order their outputs first appear among the labels. */
  lemma {:induction false} GroupedOutputs(labels: seq<string>, cases: map<string, nat>)
    requires forall i :: 0 <= i < |labels| ==> labels[i] in cases
    ensures Outputs(Grouped(labels, cases)) == Dedup(LabelOutputs(labels, cases))
    decreases |labels|
  {
    if labels != [] {
      var n := |labels| - 1;
      var prefix := labels[..n];
      GroupedOutputs(prefix, cases);
      var g0 := Grouped(prefix, cases);
      var output := cases[labels[n]];
      var os := LabelOutputs(labels, cases);
      assert os[..n] == LabelOutputs(prefix, cases);
      assert os[n] == output;
      var g := Grouped(labels, cases);
      match FindGroup(g0, output)
      case None =>
        assert output !in Outputs(g0);
        assert Outputs(g) == Outputs(g0) + [output];
      case Some(j) =>
        assert Outputs(g0)[j] == output;
        assert Outputs(g) == Outputs(g0);
    }
  }

  /** A non-empty group of labels, each drawn from `labels` and leading to the group's output. */
  predicate GroupSound(grp: Group, labels: seq<string>, cases: map<string, nat>) {
    |grp.labels| > 0 &&
    forall k :: 0 <= k < |grp.labels| ==> grp.labels[k] in labels && grp.labels[k] in cases && cases[grp.labels[k]] == grp.output
  }

  /** Some group for the label's output holds the label. */
  predicate Placed(groups: seq<Group>, lab: string, output: nat) {
    exists j :: 0 <= j < |groups| && groups[j].output == output && lab in groups[j].labels
  }

  /** No group is empty, and every label in a group leads to the group's output. */
  lemma {:induction false} GroupedMembers(labels: seq<string>, cases: map<string, nat>)
    requires forall i :: 0 <= i < |labels| ==> labels[i] in cases
    ensures forall j :: 0 <= j < |Grouped(labels, cases)| ==> GroupSound(Grouped(labels, cases)[j], labels, cases)
    decreases |labels|
  {
    if labels != [] {
      var n := |labels| - 1;
      var prefix := labels[..n];
      GroupedMembers(prefix, cases);
      var g0 := Grouped(prefix, cases);
      var g := Grouped(labels, cases);
      var output := cases[labels[n]];
      assert forall x :: x in prefix ==> x in labels;
      forall j | 0 <= j < |g| ensures GroupSound(g[j], labels, cases) {
        match FindGroup(g0, output)
        case None =>
          if j < |g0| {
            assert g[j] == g0[j] && GroupSound(g0[j], prefix, cases);
          } else {
            assert g[j] == Group(output, [labels[n]]);
          }
        case Some(m) =>
          assert GroupSound(g0[j], prefix, cases);
          if j == m {
            assert g[j] == Group(output, g0[m].labels + [labels[n]]);
          } else {
            assert g[j] == g0[j];
          }
      }
    }
  }

  /** Every label is in the group of its output. */
  lemma {:induction false} GroupedCovers(labels: seq<string>, cases: map<string, nat>)
    requires forall i :: 0 <= i < |labels| ==> labels[i] in cases
    ensures forall i :: 0 <= i < |labels| ==> Placed(Grouped(labels, cases), labels[i], cases[labels[i]])
    decreases |labels|
  {
    if labels != [] {
      var n := |labels| - 1;
      var prefix := labels[..n];
      GroupedCovers(prefix, cases);
      var g0 := Grouped(prefix, cases);
      var g := Grouped(labels, cases);
      var output := cases[labels[n]];
      forall i | 0 <= i < |labels| ensures Placed(g, labels[i], cases[labels[i]]) {
        if i < n {
          assert labels[i] == prefix[i];
          assert Placed(g0, prefix[i], cases[prefix[i]]);
          var j :| 0 <= j < |g0| && g0[j].output == cases[labels[i]] && labels[i] in g0[j].labels;
          match FindGroup(g0, output)
          case None =>
            assert g[j] == g0[j];
          case Some(m) =>
            if m == j {
              assert g[j].labels == g0[j].labels + [labels[n]];
            } else {
              assert g[j] == g0[j];
            }
        } else {
          match FindGroup(g0, output)
          case None => assert g[|g0|].labels == [labels[n]];
          case Some(j) => assert g[j].labels == g0[j].labels + [labels[n]];
        }
      }
    }
  }

  /** `serialize`'s grouping loop, with the `outputLookup` table from output index to group position. */
  method GroupByOutput(labels: seq<string>, cases: map<string, nat>) returns (groups: seq<Group>)
    requires forall i :: 0 <= i < |labels| ==> labels[i] in cases
    ensures groups == Grouped(labels, cases)
  {
    groups := [];
    var outputLookup: map<nat, nat> := map[];
    for i := 0 to |labels|
      invariant groups == Grouped(labels[..i], cases)
      invariant forall o :: o !in outputLookup ==> forall j :: 0 <= j < |groups| ==> groups[j].output != o
      invariant forall o :: o in outputLookup ==> outputLookup[o] < |groups| && groups[outputLookup[o]].output == o
      invariant forall j, k :: 0 <= j < k < |groups| ==> groups[j].output != groups[k].output
    {
      var lab := labels[i];
      var output := cases[lab];
      assert labels[..i + 1][..i] == labels[..i];
      if output !in outputLookup {
        assert FindGroup(groups, output).None?;
        outputLookup := outputLookup[output := |groups|];
        groups := groups + [Group(output, [lab])];
      } else {
        var j := outputLookup[output];
        assert FindGroup(groups, output) == Some(j);
        groups := groups[j := Group(output, groups[j].labels + [lab])];
      }
    }
    assert labels[..|labels|] == labels;
  }

  /** `coerceLabel`: a sorted key turned back into a label, with `Number(key)` for numeric input (NaN serialises as null). */
  function CoerceLabel(js: Js, inputType: Type, key: string): Value {
    if Kind(inputType) == "number" then
      match ToNumber(js, Str(key))
      case Some(x) => Num(x)
      case None => Null
    else Str(key)
  }

  /** A valid label comes back from its key unchanged. */
  lemma CoerceLabelRoundTrip(js: Js, t: Type, lab: Value)
    requires ValidLabel(lab, t)
    ensures CoerceLabel(js, t, JsString(js, lab)) == lab
  {
    if lab.Num? {
      Text.IntToStringRoundTrip(lab.n.Floor);
    }
  }

  /** A group's label position: one label bare, several as a list. */
  function GroupLabels(js: Js, inputType: Type, g: Group): (v: Value)
    ensures |g.labels| == 1 ==> v == CoerceLabel(js, inputType, g.labels[0])
    ensures |g.labels| != 1 ==> v.Array? && |v.items| == |g.labels|
  {
    if |g.labels| == 1 then CoerceLabel(js, inputType, g.labels[0])
    else Array(seq(|g.labels|, k requires 0 <= k < |g.labels| => CoerceLabel(js, inputType, g.labels[k])))
  }
}
