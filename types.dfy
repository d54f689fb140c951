/**
 * The static type system of the expression language: the closed set of type kinds, the
 * subtype check used by the parser and by `Assertion`, and the rendering of types in messages.
 * (The repository's types.js is not part of this model; this module states the rules its callers use.)
 */
module Types {
  import opened Wrappers
  import Text

  datatype Type =
    | NullType
    | NumberType
    | StringType
    | BooleanType
    | ColorType
    | ObjectType
    | ValueType
    | ErrorType
    | CollatorType
    | FormattedType
    | ArrayType(itemType: Type, n: Option<nat>)

  /** The `kind` tag of a type. */
  function Kind(t: Type): string {
    match t
    case NullType => "null"
    case NumberType => "number"
    case StringType => "string"
    case BooleanType => "boolean"
    case ColorType => "color"
    case ObjectType => "object"
    case ValueType => "value"
    case ErrorType => "error"
    case CollatorType => "collator"
    case FormattedType => "formatted"
    case ArrayType(_, _) => "array"
  }

  lemma KindDeterminesScalarType(s: Type, t: Type)
    requires !s.ArrayType? && !t.ArrayType? && Kind(s) == Kind(t)
    ensures s == t
  {
  }

  /** `array(itemType, N)`. */
  function Array(itemType: Type, n: Option<nat>): Type {
    ArrayType(itemType, n)
  }

  /** Type rendering for diagnostics: `number`, `array`, `array<string>`, `array<number, 4>`. */
  function TypeToString(t: Type): (s: string)
    decreases t
  {
    match t
    case ArrayType(item, n) =>
      if n.Some? then "array<" + TypeToString(item) + ", " + Text.NatToString(n.value) + ">"
      else if item == ValueType then "array"
      else "array<" + TypeToString(item) + ">"
    case _ => Kind(t)
  }

  /** The subtype relation: `t` may be used where `expected` is required. */
  predicate IsSubtype(expected: Type, t: Type)
    decreases expected
  {
    if t == ErrorType then true
    else if expected.ArrayType? then
      t.ArrayType? && IsSubtype(expected.itemType, t.itemType)
      && (expected.n.None? || expected.n == t.n)
    else expected == ValueType || expected == t
  }

  /** `checkSubtype(expected, t)`: no message when `t` is a subtype of `expected`, the mismatch message otherwise. */
  function CheckSubtype(expected: Type, t: Type): (r: Option<string>)
    ensures r.None? <==> IsSubtype(expected, t)
    ensures r.Some? ==> r.value == "Expected " + TypeToString(expected) + ", but found " + TypeToString(t) + " instead."
  {
    if IsSubtype(expected, t) then None
    else Some("Expected " + TypeToString(expected) + ", but found " + TypeToString(t) + " instead.")
  }

  /** Every type is a subtype of `value`. */
  lemma ValueIsUniversal(t: Type)
    ensures IsSubtype(ValueType, t)
  {
  }

  lemma {:induction false} SubtypeReflexive(t: Type)
    ensures IsSubtype(t, t)
    decreases t
  {
    if t.ArrayType? { SubtypeReflexive(t.itemType); }
  }

  lemma {:induction false} SubtypeTransitive(a: Type, b: Type, c: Type)
    requires IsSubtype(a, b) && IsSubtype(b, c)
    ensures IsSubtype(a, c)
    decreases a
  {
    if c != ErrorType && b != ErrorType && a.ArrayType? {
      SubtypeTransitive(a.itemType, b.itemType, c.itemType);
    }
  }
}
