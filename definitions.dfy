/**
 * The builtin registry: the name -> node-kind table of the special forms, the compound
 * definitions (result type and overloads) with their one-time registration, and the small
 * evaluators the compound builtins share.
 */
module Definitions {
  import opened Wrappers
  import opened Types
  import opened Values
  import Text

  /** The node kinds a registry entry can name. */
  datatype NodeKind =
    | EqualsKind | NotEqualsKind | GreaterThanKind | LessThanKind | GreaterThanOrEqualKind | LessThanOrEqualKind
    | AssertionKind | AtKind | CaseKind | CoalesceKind | CollatorKind | FormatKind | InterpolateKind
    | LengthKind | LetKind | LiteralKind | MatchKind | StepKind | CoercionKind | VarKind
    | CompoundKind

  /** The special forms' table. */
  const SpecialForms: map<string, NodeKind> := map[
    "==" := EqualsKind, "!=" := NotEqualsKind, ">" := GreaterThanKind, "<" := LessThanKind,
    ">=" := GreaterThanOrEqualKind, "<=" := LessThanOrEqualKind,
    "array" := AssertionKind, "at" := AtKind, "boolean" := AssertionKind, "case" := CaseKind,
    "coalesce" := CoalesceKind, "collator" := CollatorKind, "format" := FormatKind,
    "interpolate" := InterpolateKind, "interpolate-hcl" := InterpolateKind, "interpolate-lab" := InterpolateKind,
    "length" := LengthKind, "let" := LetKind, "literal" := LiteralKind, "match" := MatchKind,
    "number" := AssertionKind, "object" := AssertionKind, "step" := StepKind, "string" := AssertionKind,
    "to-boolean" := CoercionKind, "to-color" := CoercionKind, "to-number" := CoercionKind,
    "to-string" := CoercionKind, "var" := VarKind
  ]

  /** A signature: a fixed parameter list, or any number of arguments of one type. */
  datatype Signature = Fixed(params: seq<Type>) | Variadic(item: Type)

  /** A compound builtin: its result type and its overloads, in declaration order. */
  datatype Definition = Definition(ty: Type, overloads: seq<Signature>)

  function Unary(result: Type, param: Type): Definition {
    Definition(result, [Fixed([param])])
  }

  function Nullary(result: Type): Definition {
    Definition(result, [Fixed([])])
  }

  /** The filter operands' shared signatures. */
  const FilterOperands: Definition := Definition(BooleanType, [Fixed([StringType, ValueType])])
  const FilterIdOperands: Definition := Definition(BooleanType, [Fixed([ValueType])])

  /** The builtins for errors, types, colours and the feature and global accessors. */
  function LookupDefinitions(): map<string, Definition> {
    map[
      "error" := Unary(ErrorType, StringType),
      "typeof" := Unary(StringType, ValueType),
      "to-rgba" := Unary(ArrayType(NumberType, Some(4)), ColorType),
      "rgb" := Definition(ColorType, [Fixed([NumberType, NumberType, NumberType])]),
      "rgba" := Definition(ColorType, [Fixed([NumberType, NumberType, NumberType, NumberType])]),
      "has" := Definition(BooleanType, [Fixed([StringType]), Fixed([StringType, ObjectType])]),
      "get" := Definition(ValueType, [Fixed([StringType]), Fixed([StringType, ObjectType])]),
      "feature-state" := Unary(ValueType, StringType),
      "properties" := Nullary(ObjectType),
      "geometry-type" := Nullary(StringType),
      "id" := Nullary(ValueType),
      "zoom" := Nullary(NumberType),
      "heatmap-density" := Nullary(NumberType),
      "line-progress" := Nullary(NumberType)
    ]
  }

  /** The arithmetic builtins and constants. */
  function ArithmeticDefinitions(): map<string, Definition> {
    var num := NumberType;
    map[
      "+" := Definition(num, [Variadic(num)]),
      "*" := Definition(num, [Variadic(num)]),
      "-" := Definition(num, [Fixed([num, num]), Fixed([num])]),
      "/" := Definition(num, [Fixed([num, num])]),
      "%" := Definition(num, [Fixed([num, num])]),
      "ln2" := Nullary(num),
      "pi" := Nullary(num),
      "e" := Nullary(num),
      "^" := Definition(num, [Fixed([num, num])]),
      "min" := Definition(num, [Variadic(num)]),
      "max" := Definition(num, [Variadic(num)])
    ]
  }

  /** The one-operand `Math` builtins. */
  function MathDefinitions(): map<string, Definition> {
    var num := NumberType;
    map[
      "sqrt" := Unary(num, num), "log10" := Unary(num, num), "ln" := Unary(num, num), "log2" := Unary(num, num),
      "sin" := Unary(num, num), "cos" := Unary(num, num), "tan" := Unary(num, num),
      "asin" := Unary(num, num), "acos" := Unary(num, num), "atan" := Unary(num, num),
      "abs" := Unary(num, num), "round" := Unary(num, num), "floor" := Unary(num, num), "ceil" := Unary(num, num)
    ]
  }

  /** The legacy-filter builtins. */
  function FilterDefinitions(): map<string, Definition> {
    map[
      "filter-==" := FilterOperands,
      "filter-id-==" := FilterIdOperands,
      "filter-type-==" := Unary(BooleanType, StringType),
      "filter-<" := FilterOperands, "filter-id-<" := FilterIdOperands,
      "filter->" := FilterOperands, "filter-id->" := FilterIdOperands,
      "filter-<=" := FilterOperands, "filter-id-<=" := FilterIdOperands,
      "filter->=" := FilterOperands, "filter-id->=" := FilterIdOperands,
      "filter-has" := Unary(BooleanType, ValueType),
      "filter-has-id" := Nullary(BooleanType),
      "filter-type-in" := Unary(BooleanType, ArrayType(StringType, None)),
      "filter-id-in" := Unary(BooleanType, ArrayType(ValueType, None)),
      "filter-in-small" := Definition(BooleanType, [Fixed([StringType, ArrayType(ValueType, None)])]),
      "filter-in-large" := Definition(BooleanType, [Fixed([StringType, ArrayType(ValueType, None)])])
    ]
  }

  /** The logic and string builtins. */
  function LogicAndStringDefinitions(): map<string, Definition> {
    map[
      "all" := Definition(BooleanType, [Fixed([BooleanType, BooleanType]), Variadic(BooleanType)]),
      "any" := Definition(BooleanType, [Fixed([BooleanType, BooleanType]), Variadic(BooleanType)]),
      "!" := Unary(BooleanType, BooleanType),
      "is-supported-script" := Unary(BooleanType, StringType),
      "upcase" := Unary(StringType, StringType),
      "downcase" := Unary(StringType, StringType),
      "concat" := Definition(StringType, [Variadic(ValueType)]),
      "resolved-locale" := Unary(StringType, CollatorType)
    ]
  }

  /** The compound builtins, each with its signatures, in the source's groups. */
  function CompoundDefinitions(): map<string, Definition> {
    LookupDefinitions() + ArithmeticDefinitions() + MathDefinitions() + FilterDefinitions() + LogicAndStringDefinitions()
  }

  /** The registry after registration: the special forms, and every compound name mapped to the compound kind. */
  function Registry(): map<string, NodeKind> {
    SpecialForms + CompoundEntries(CompoundDefinitions())
  }

  /** The registry entries `CompoundExpression.register` adds: every defined name to the compound kind. */
  function CompoundEntries(defs: map<string, Definition>): (entries: map<string, NodeKind>)
    ensures entries.Keys == defs.Keys
    ensures forall name :: name in entries ==> entries[name] == CompoundKind
  {
    map name | name in defs :: CompoundKind
  }

  /** Whether the special-form table sends `name` to `kind`. */
  predicate FormIs(name: string, kind: NodeKind) {
    name in SpecialForms && SpecialForms[name] == kind
  }

  /** The table sends the type names to the assertion form. */
  lemma AssertionForms()
    ensures FormIs("array", AssertionKind) && FormIs("boolean", AssertionKind) && FormIs("number", AssertionKind)
    ensures FormIs("object", AssertionKind) && FormIs("string", AssertionKind)
  {
  }

  /** The table sends the `to-*` names to the coercion form. */
  lemma CoercionForms()
    ensures FormIs("to-boolean", CoercionKind) && FormIs("to-color", CoercionKind)
    ensures FormIs("to-number", CoercionKind) && FormIs("to-string", CoercionKind)
  {
  }

  /** The table sends the three interpolation operators to `Interpolate`, and `match` and `step` to their forms. */
  lemma CurveForms()
    ensures FormIs("interpolate", InterpolateKind) && FormIs("interpolate-hcl", InterpolateKind) && FormIs("interpolate-lab", InterpolateKind)
    ensures FormIs("match", MatchKind) && FormIs("step", StepKind)
  {
  }

  /** `global-state` is not one of the special forms of definitions/index.js. */
  lemma GlobalStateNotRegistered()
    ensures "global-state" !in SpecialForms
  {
  }

  /** The static `definitions` slot of the compound node kind and the registry it registers into. */
  class CompoundRegistry {
    var definitions: Option<map<string, Definition>>
    var registry: map<string, NodeKind>

    constructor (table: map<string, NodeKind>)
      ensures definitions.None? && registry == table
    {
      definitions := None;
      registry := table;
    }

    /** `register`: allowed once; stores the definitions and maps each of their names to the compound kind. */
    method Register(defs: map<string, Definition>)
      requires definitions.None?
      modifies this
      ensures definitions == Some(defs)
      ensures registry == old(registry) + CompoundEntries(defs)
      ensures registry.Keys == old(registry).Keys + defs.Keys
      ensures forall name :: name in defs ==> registry[name] == CompoundKind
      ensures forall name :: name in old(registry) && name !in defs ==> registry[name] == old(registry)[name]
    {
      definitions := Some(defs);
      registry := registry + CompoundEntries(defs);
    }
  }

  /** Registering the compound builtins into the special forms' table yields `Registry()`. */
  method RegisterBuiltins() returns (r: CompoundRegistry)
    ensures r.registry == Registry() && r.definitions == Some(CompoundDefinitions())
  {
    r := new CompoundRegistry(SpecialForms);
    r.Register(CompoundDefinitions());
  }

  /** The message for an operand outside its declared type, which no parsed expression produces. */
  const IllTyped: string := "operand outside its declared type"

  /**
   * `rgba`/`rgb`: the validator's message as a runtime error, or the colour with the channels
   * scaled to the unit range and premultiplied by alpha.
   */
  function Rgba(js: Js, r: Value, g: Value, b: Value, alpha: Value): (c: Result<Color>)
    ensures c.Err? <==> ValidateRGBA(js, r, g, b, alpha).Some? || alpha == Undefined
    ensures ValidateRGBA(js, r, g, b, alpha).Some? ==> c == Err(ValidateRGBA(js, r, g, b, alpha).value)
    ensures c.Ok? ==> c.value == Color(r.n / 255.0 * alpha.n, g.n / 255.0 * alpha.n, b.n / 255.0 * alpha.n, alpha.n)
  {
    match ValidateRGBA(js, r, g, b, alpha)
    case Some(msg) => Err(msg)
    case None =>
      if alpha == Undefined then Err(IllTyped)
      else Ok(Color(r.n / 255.0 * alpha.n, g.n / 255.0 * alpha.n, b.n / 255.0 * alpha.n, alpha.n))
  }

  /** A validated colour has every channel in the unit range and never exceeds its alpha. */
  lemma RgbaInRange(js: Js, r: Value, g: Value, b: Value, alpha: Value)
    requires Rgba(js, r, g, b, alpha).Ok?
    ensures var c := Rgba(js, r, g, b, alpha).value;
      0.0 <= c.a <= 1.0 && 0.0 <= c.r <= c.a && 0.0 <= c.g <= c.a && 0.0 <= c.b <= c.a
  {
    var a := alpha.n;
    assert 0.0 <= r.n / 255.0 <= 1.0 && 0.0 <= g.n / 255.0 <= 1.0 && 0.0 <= b.n / 255.0 <= 1.0;
    ScaledBelow(r.n / 255.0, a);
    ScaledBelow(g.n / 255.0, a);
    ScaledBelow(b.n / 255.0, a);
  }

  lemma ScaledBelow(x: real, a: real)
    requires 0.0 <= x <= 1.0 && 0.0 <= a
    ensures 0.0 <= x * a <= a
  {
    assert x * a <= 1.0 * a;
  }

  /** An object operand of `get`/`has`: a plain object, or `Object.prototype` itself (reached through `__proto__`). */
  function ObjectFields(obj: Value): Option<map<string, Value>> {
    match obj
    case Object(fields) => Some(fields)
    case Inherited(name) => if name == "__proto__" then Some(map[]) else None
    case _ => None
  }

  /** `has(key, obj)`: `key in obj`, own and inherited names alike. */
  function Has(key: Value, obj: Value): (r: Result<bool>)
    ensures key.Str? && obj.Object? ==> r == Ok(HasProperty(obj.fields, key.s))
  {
    if !key.Str? || ObjectFields(obj).None? then Err(IllTyped)
    else Ok(HasProperty(ObjectFields(obj).value, key.s))
  }

  /** `get(key, obj)`: the member, with undefined turned into null. */
  function Get(key: Value, obj: Value): (r: Result<Value>)
    ensures key.Str? && obj.Object? && key.s in obj.fields && obj.fields[key.s] != Undefined ==> r == Ok(obj.fields[key.s])
    ensures key.Str? && obj.Object? && !HasProperty(obj.fields, key.s) ==> r == Ok(Null)
    ensures r.Ok? ==> r.value != Undefined
  {
    if !key.Str? || ObjectFields(obj).None? then Err(IllTyped)
    else
      var v := Lookup(ObjectFields(obj).value, key.s);
      Ok(if v == Undefined then Null else v)
  }

  /** `has` agrees with `get`: a name is present exactly when `get` finds something other than undefined (an own undefined aside). */
  lemma HasAgreesWithGet(key: string, fields: map<string, Value>)
    requires key !in fields || fields[key] != Undefined
    ensures Has(Str(key), Object(fields)) == Ok(Lookup(fields, key) != Undefined)
  {
  }

  /** `binarySearch(v, a, i, j)` as a recursion on the window [i, j]: the loop, one halving per call. */
  function InLargeSearch(js: Js, v: Value, a: seq<Value>, i: int, j: int): bool
    requires 0 <= i && j < |a|
    decreases j - i + 1
  {
    if i > j then false
    else
      var m := (i + j) / 2;
      if StrictEquals(a[m], v) then true
      else if Relation(js, ">", a[m], v) then InLargeSearch(js, v, a, i, m - 1)
      else InLargeSearch(js, v, a, m + 1, j)
  }

  /** `binarySearch` as the source writes it: a loop narrowing [i, j]. */
  method BinarySearch(js: Js, v: Value, a: seq<Value>, i0: int, j0: int) returns (found: bool)
    requires 0 <= i0 && j0 < |a|
    ensures found == InLargeSearch(js, v, a, i0, j0)
  {
    var i, j := i0, j0;
    while i <= j
      invariant 0 <= i && j < |a|
      invariant InLargeSearch(js, v, a, i, j) == InLargeSearch(js, v, a, i0, j0)
      decreases j - i + 1
    {
      var m := (i + j) / 2;
      if StrictEquals(a[m], v) { return true; }
      if Relation(js, ">", a[m], v) { j := m - 1; } else { i := m + 1; }
    }
    return false;
  }

  /** A list of numbers in ascending order. */
  predicate AscendingNumbers(a: seq<Value>) {
    (forall k :: 0 <= k < |a| ==> a[k].Num?) &&
    (forall k, l :: 0 <= k < l < |a| ==> a[k].n <= a[l].n)
  }

  /** Only an element strictly equal to `v` is ever reported. */
  lemma {:induction false} InLargeSearchSound(js: Js, v: Value, a: seq<Value>, i: int, j: int)
    requires 0 <= i && j < |a| && InLargeSearch(js, v, a, i, j)
    ensures exists k :: i <= k <= j && StrictEquals(a[k], v)
    decreases j - i + 1
  {
    var m := (i + j) / 2;
    if !StrictEquals(a[m], v) {
      if Relation(js, ">", a[m], v) { InLargeSearchSound(js, v, a, i, m - 1); }
      else { InLargeSearchSound(js, v, a, m + 1, j); }
    }
  }

  /** A list of strings in ascending order. */
  predicate AscendingStrings(a: seq<Value>) {
    (forall k :: 0 <= k < |a| ==> a[k].Str?) &&
    (forall k, l :: 0 <= k < l < |a| ==> Text.LessEq(a[k].s, a[l].s))
  }

  /** What `filter-in-large` takes: values of a single type, numbers or strings, in ascending order. */
  predicate AscendingOfOneType(a: seq<Value>) {
    AscendingNumbers(a) || AscendingStrings(a)
  }

  /** In an ascending list of strings, a probed element other than `a[k]` is greater exactly when it lies after `k`. */
  lemma StringProbe(js: Js, a: seq<Value>, m: int, k: int)
    requires 0 <= m < |a| && 0 <= k < |a| && AscendingStrings(a) && a[m] != a[k]
    ensures Relation(js, ">", a[m], a[k]) <==> k < m
  {
    var x, y := a[m].s, a[k].s;
    Text.LessTotal(x, y);
    Text.LessIrreflexive(x);
    if Text.Less(y, x) && Text.Less(x, y) {
      Text.LessTransitive(x, y, x);
    }
    if k < m {
      assert Text.LessEq(y, x);
    } else if m < k {
      assert Text.LessEq(x, y);
    }
  }

  /** On an ascending list of numbers or of strings, a value present in [i, j] is found. */
  lemma {:induction false} InLargeSearchComplete(js: Js, v: Value, a: seq<Value>, i: int, j: int, k: int)
    requires 0 <= i <= k <= j < |a| && AscendingOfOneType(a) && a[k] == v
    ensures InLargeSearch(js, v, a, i, j)
    decreases j - i + 1
  {
    var m := (i + j) / 2;
    if !StrictEquals(a[m], v) {
      if AscendingNumbers(a) {
        assert a[m].n != v.n;
        if a[m].n > v.n {
          assert Relation(js, ">", a[m], v);
          assert k < m;
          InLargeSearchComplete(js, v, a, i, m - 1, k);
        } else {
          assert !Relation(js, ">", a[m], v);
          assert m < k;
          InLargeSearchComplete(js, v, a, m + 1, j, k);
        }
      } else {
        assert a[m] != a[k];
        StringProbe(js, a, m, k);
        if Relation(js, ">", a[m], v) {
          InLargeSearchComplete(js, v, a, i, m - 1, k);
        } else {
          InLargeSearchComplete(js, v, a, m + 1, j, k);
        }
      }
    }
  }

  /** `Math.round(x)`: the nearest integer, halves rounded up. */
  function MathRound(x: real): (r: real)
    ensures r.Floor as real == r
    ensures x - 0.5 < r <= x + 0.5
    ensures x - x.Floor as real == 0.5 ==> r == x + 0.5
  {
    FloorOfHalfUp(x);
    (x + 0.5).Floor as real
  }

  lemma FloorOfHalfUp(x: real)
    ensures x - 0.5 < (x + 0.5).Floor as real <= x + 0.5
    ensures x - x.Floor as real == 0.5 ==> (x + 0.5).Floor == x.Floor + 1
  {
    var f := (x + 0.5).Floor;
    assert f as real <= x + 0.5 < f as real + 1.0;
    if x - x.Floor as real == 0.5 {
      assert x + 0.5 == (x.Floor + 1) as real;
    }
  }

  /** A value exactly halfway between integers stays halfway when negated. */
  lemma HalfwayNegated(v: real)
    ensures v - v.Floor as real == 0.5 ==> -v - (-v).Floor as real == 0.5
  {
    if v - v.Floor as real == 0.5 {
      var f := v.Floor;
      assert (-v).Floor == -f - 1 by {
        assert (-f - 1) as real <= -v < (-f) as real;
      }
    }
  }

  /** `round`: to the nearest integer, halves away from zero. */
  function Round(v: real): (r: real)
    ensures r.Floor as real == r
    ensures -0.5 <= r - v <= 0.5
    ensures v - v.Floor as real == 0.5 ==> (if v < 0.0 then r == v - 0.5 else r == v + 0.5)
  {
    if v < 0.0 then
      var m := MathRound(-v);
      assert (-m).Floor as real == -m by { assert (-m).Floor == -(m.Floor); }
      HalfwayNegated(v);
      -m
    else MathRound(v)
  }

  /** Rounding is odd: a negative value rounds to the negation of its magnitude's rounding. */
  lemma RoundOdd(v: real)
    ensures Round(-v) == -Round(v)
  {
  }

  /** `+`: the sum of the operands, folded from 0 left to right. */
  function Sum(xs: seq<real>): real {
    if xs == [] then 0.0 else Sum(xs[..|xs| - 1]) + xs[|xs| - 1]
  }

  /** `*`: the product of the operands, folded from 1 left to right. */
  function Product(xs: seq<real>): real {
    if xs == [] then 1.0 else Product(xs[..|xs| - 1]) * xs[|xs| - 1]
  }

  /** The fold of `+` splits over any division of the operands, so its grouping does not matter. */
  lemma {:induction false} SumAppend(xs: seq<real>, ys: seq<real>)
    ensures Sum(xs + ys) == Sum(xs) + Sum(ys)
    decreases |ys|
  {
    if ys == [] {
      assert xs + ys == xs;
    } else {
      assert (xs + ys)[..|xs + ys| - 1] == xs + ys[..|ys| - 1];
      SumAppend(xs, ys[..|ys| - 1]);
    }
  }

  /** The fold of `*` splits the same way. */
  lemma {:induction false} ProductAppend(xs: seq<real>, ys: seq<real>)
    ensures Product(xs + ys) == Product(xs) * Product(ys)
    decreases |ys|
  {
    if ys == [] {
      assert xs + ys == xs;
    } else {
      assert (xs + ys)[..|xs + ys| - 1] == xs + ys[..|ys| - 1];
      ProductAppend(xs, ys[..|ys| - 1]);
    }
  }

  /** The loop of `+`: an accumulator starting at 0. */
  method AddAll(xs: seq<real>) returns (result: real)
    ensures result == Sum(xs)
  {
    result := 0.0;
    for k := 0 to |xs|
      invariant result == Sum(xs[..k])
    {
      assert xs[..k + 1][..k] == xs[..k];
      result := result + xs[k];
    }
    assert xs[..|xs|] == xs;
  }

  /** The loop of `*`: an accumulator starting at 1. */
  method MultiplyAll(xs: seq<real>) returns (result: real)
    ensures result == Product(xs)
  {
    result := 1.0;
    for k := 0 to |xs|
      invariant result == Product(xs[..k])
    {
      assert xs[..k + 1][..k] == xs[..k];
      result := result * xs[k];
    }
    assert xs[..|xs|] == xs;
  }

  /** The ordered `filter-*` comparisons: false unless both operands have the same `typeof`, then JavaScript's relation. */
  predicate FilterCompare(js: Js, op: string, a: Value, b: Value) {
    TypeofName(a) == TypeofName(b) && Relation(js, op, a, b)
  }

  /** Operands of different `typeof` never compare, whatever the operator; two numbers compare as numbers. */
  lemma FilterCompareTypes(js: Js, op: string, a: Value, b: Value)
    ensures TypeofName(a) != TypeofName(b) ==> !FilterCompare(js, op, a, b)
    ensures a.Num? && b.Num? && op == "<" ==> (FilterCompare(js, op, a, b) <==> a.n < b.n)
    ensures a.Num? && b.Num? && op == ">=" ==> (FilterCompare(js, op, a, b) <==> a.n >= b.n)
  {
  }
}
