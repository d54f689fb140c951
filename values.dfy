/**
 * The runtime value model: the tagged values an expression evaluates to (and the JSON-like
 * values an expression is written in), the `rgba` channel validator, the validity predicate,
 * runtime type inference and stringification.
 */
module Values {
  import opened Wrappers
  import opened Types
  import Formatted
  import Text

  /** An RGBA colour with channels in the unit range (premultiplied by alpha). */
  datatype Color = Color(r: real, g: real, b: real, a: real)

  /**
   * A JavaScript value as this language sees it. `Inherited(name)` is what reading a member of
   * `Object.prototype` off a plain object yields: a function, or the prototype object itself for `__proto__`.
   */
  datatype Value =
    | Undefined
    | Null
    | Bool(b: bool)
    | Num(n: real)
    | Str(s: string)
    | ColorVal(color: Color)
    | CollatorVal(locale: string)
    | FormattedVal(formatted: Formatted.Formatted)
    | Array(items: seq<Value>)
    | Object(fields: map<string, Value>)
    | Inherited(name: string)

  /** Conversions the language borrows from its JavaScript host and that this model does not define. */
  datatype Js = Js(
    numberToString: real -> string,        // String(x) for a number other than a safe integer
    stringOf: Value -> string,             // String(v) for an array or object
    json: Value -> string,                 // JSON.stringify(v)
    colorToString: Color -> string,        // Color#toString
    stringToNumber: string -> Option<real>, // Number(s) beyond plain decimal integers; None when the result is NaN
    objectToNumber: Value -> Option<real>,  // Number(v) for an array, object, colour, ...; None for NaN
    objectRelation: (string, Value, Value) -> bool // a < b (op "<") etc. once an operand is not primitive
  )

  /** The names every plain object inherits from `Object.prototype`. */
  const ObjectPrototypeKeys: set<string> := {
    "constructor", "__proto__", "__defineGetter__", "__defineSetter__", "__lookupGetter__",
    "__lookupSetter__", "hasOwnProperty", "isPrototypeOf", "propertyIsEnumerable",
    "toLocaleString", "toString", "valueOf"
  }

  /** `key in object` for a plain object: own keys and inherited ones. */
  predicate HasProperty(fields: map<string, Value>, key: string) {
    key in fields || key in ObjectPrototypeKeys
  }

  /** `object[key]` for a plain object: the own value, else the inherited member, else undefined. */
  function Lookup(fields: map<string, Value>, key: string): (v: Value)
    ensures key in fields ==> v == fields[key]
    ensures v == Undefined <==> !HasProperty(fields, key) || (key in fields && fields[key] == Undefined)
  {
    if key in fields then fields[key]
    else if key in ObjectPrototypeKeys then Inherited(key)
    else Undefined
  }

  /** `typeof v`. */
  function TypeofName(v: Value): string {
    match v
    case Undefined => "undefined"
    case Bool(_) => "boolean"
    case Num(_) => "number"
    case Str(_) => "string"
    case Inherited(name) => if name == "__proto__" then "object" else "function"
    case _ => "object"
  }

  /** JavaScript truthiness, `Boolean(v)`. */
  predicate Truthy(v: Value) {
    match v
    case Undefined => false
    case Null => false
    case Bool(b) => b
    case Num(x) => x != 0.0
    case Str(s) => s != ""
    case _ => true
  }

  /** `Number.MAX_SAFE_INTEGER`. */
  const MaxSafeInteger: real := 9007199254740991.0

  /** An integer no larger in magnitude than `Number.MAX_SAFE_INTEGER`. */
  predicate IsSafeInteger(x: real) {
    x.Floor as real == x && -MaxSafeInteger <= x <= MaxSafeInteger
  }

  /** `String(x)` for a number: plain decimal digits for a safe integer, the host's rendering otherwise. */
  function NumberToString(js: Js, x: real): string {
    if IsSafeInteger(x) then Text.IntToString(x.Floor) else js.numberToString(x)
  }

  /** `String(v)`. */
  function JsString(js: Js, v: Value): string {
    match v
    case Undefined => "undefined"
    case Null => "null"
    case Bool(b) => if b then "true" else "false"
    case Num(x) => NumberToString(js, x)
    case Str(s) => s
    case _ => js.stringOf(v)
  }

  /** `Number(v)`; `None` stands for NaN. */
  function ToNumber(js: Js, v: Value): (r: Option<real>)
    ensures v.Num? ==> r == Some(v.n)
    ensures v == Null ==> r == Some(0.0)
    ensures v == Undefined ==> r.None?
  {
    match v
    case Undefined => None
    case Null => Some(0.0)
    case Bool(b) => Some(if b then 1.0 else 0.0)
    case Num(x) => Some(x)
    case Str(s) =>
      (match Text.DecimalIntegerValue(s)
       case Some(i) => Some(i as real)
       case None => js.stringToNumber(s))
    case _ => js.objectToNumber(v)
  }

  /** A primitive in the JavaScript sense: compared and converted without calling into the object. */
  predicate IsPrimitive(v: Value) {
    v.Undefined? || v.Null? || v.Bool? || v.Num? || v.Str?
  }

  /**
   * `a < b` (op "<"), `a > b`, `a <= b`, `a >= b`: strings compare lexicographically by character,
   * other primitives as numbers (NaN compares false). JavaScript compares strings by UTF-16 code
   * unit; the two orders differ only between a character above U+FFFF and one in U+E000 to U+FFFF.
   */
  predicate Relation(js: Js, op: string, a: Value, b: Value) {
    if a.Str? && b.Str? then
      (op == "<" && Text.Less(a.s, b.s)) || (op == ">" && Text.Less(b.s, a.s))
      || (op == "<=" && Text.LessEq(a.s, b.s)) || (op == ">=" && Text.LessEq(b.s, a.s))
    else if IsPrimitive(a) && IsPrimitive(b) then
      var x := ToNumber(js, a);
      var y := ToNumber(js, b);
      x.Some? && y.Some? &&
      ((op == "<" && x.value < y.value) || (op == ">" && x.value > y.value)
       || (op == "<=" && x.value <= y.value) || (op == ">=" && x.value >= y.value))
    else js.objectRelation(op, a, b)
  }

  /**
   * `a === b`: primitives by value; two members read off `Object.prototype` when they are the same member;
   * arrays, objects, colours, collators and formatted values are distinct objects here, never identical.
   */
  predicate StrictEquals(a: Value, b: Value) {
    (IsPrimitive(a) && a == b) || (a.Inherited? && a == b)
  }

  /** `Array.prototype.indexOf(x) >= 0`: some element is strictly equal to `x`. */
  predicate Includes(items: seq<Value>, x: Value) {
    exists i :: 0 <= i < |items| && StrictEquals(items[i], x)
  }

  /** How `Array.prototype.join` renders one element: null and undefined become ''. */
  function JoinElement(js: Js, v: Value): string {
    if v == Undefined || v == Null then "" else JsString(js, v)
  }

  function JoinValues(js: Js, vs: seq<Value>, sep: string): string {
    Text.Join(seq(|vs|, i requires 0 <= i < |vs| => JoinElement(js, vs[i])), sep)
  }

  predicate InChannelRange(v: Value) {
    v.Num? && 0.0 <= v.n <= 255.0
  }

  predicate InAlphaRange(v: Value) {
    v == Undefined || (v.Num? && 0.0 <= v.n <= 1.0)
  }

  /**
   * `validateRGBA(r, g, b, a)`: no message exactly when r, g and b are numbers in [0, 255] and a is
   * undefined or a number in [0, 1]; a bad r, g or b is reported before a bad alpha.
   */
  function ValidateRGBA(js: Js, r: Value, g: Value, b: Value, a: Value): (msg: Option<string>)
    ensures msg.None? <==> InChannelRange(r) && InChannelRange(g) && InChannelRange(b) && InAlphaRange(a)
    ensures !(InChannelRange(r) && InChannelRange(g) && InChannelRange(b)) ==>
      msg == Some("Invalid rgba value [" + JoinValues(js, if a.Num? then [r, g, b, a] else [r, g, b], ", ")
                  + "]: 'r', 'g', and 'b' must be between 0 and 255.")
    ensures InChannelRange(r) && InChannelRange(g) && InChannelRange(b) && !InAlphaRange(a) ==>
      msg == Some("Invalid rgba value [" + JoinValues(js, [r, g, b, a], ", ") + "]: 'a' must be between 0 and 1.")
  {
    if !(InChannelRange(r) && InChannelRange(g) && InChannelRange(b)) then
      var parts := if a.Num? then [r, g, b, a] else [r, g, b];
      Some("Invalid rgba value [" + JoinValues(js, parts, ", ") + "]: 'r', 'g', and 'b' must be between 0 and 255.")
    else if !InAlphaRange(a) then
      Some("Invalid rgba value [" + JoinValues(js, [r, g, b, a], ", ") + "]: 'a' must be between 0 and 1.")
    else None
  }

  /** `isValue(v)`: scalars, colours, collators and formatted text are values; arrays and objects when all their members are. */
  predicate IsValue(v: Value)
    decreases v
  {
    match v
    case Undefined => false
    case Inherited(name) => name == "__proto__"
    case Array(items) => forall i :: 0 <= i < |items| ==> IsValue(items[i])
    case Object(fields) => forall k :: k in fields ==> IsValue(fields[k])
    case _ => true
  }

  /** The loop of `isValue`: checks items (for an array) or fields (for an object) one at a time, stopping at the first non-value. */
  method IsValueOf(v: Value) returns (ok: bool)
    ensures ok == IsValue(v)
    decreases v
  {
    match v {
      case Undefined => return false;
      case Inherited(name) => return name == "__proto__";
      case Array(items) =>
        var i := 0;
        while i < |items|
          invariant 0 <= i <= |items|
          invariant forall j :: 0 <= j < i ==> IsValue(items[j])
        {
          var itemOk := IsValueOf(items[i]);
          if !itemOk { return false; }
          i := i + 1;
        }
        return true;
      case Object(fields) =>
        var unseen := fields.Keys;
        while unseen != {}
          invariant unseen <= fields.Keys
          invariant forall k :: k in fields && k !in unseen ==> IsValue(fields[k])
          decreases unseen
        {
          var k :| k in unseen;
          var fieldOk := IsValueOf(fields[k]);
          if !fieldOk { return false; }
          unseen := unseen - {k};
        }
        return true;
      case _ => return true;
    }
  }

  /** The message of the failed `assert(typeof value === 'object')` in `typeOf`. */
  const TypeOfAssertion: string := "AssertionError: typeof value === 'object'"

  /**
   * `itemType === t` on type objects: scalar types are shared singletons, while every array
   * type inferred by `typeOf` is a fresh object, never identical to another.
   */
  predicate Identical(s: Type, t: Type) {
    s == t && !s.ArrayType?
  }

  /** `typeOf(v)`; `Err` when the host assertion fails (undefined, or an inherited function). */
  function TypeOf(v: Value): Result<Type>
    decreases v, 1, 0
  {
    match v
    case Undefined => Err(TypeOfAssertion)
    case Null => Ok(NullType)
    case Str(_) => Ok(StringType)
    case Bool(_) => Ok(BooleanType)
    case Num(_) => Ok(NumberType)
    case ColorVal(_) => Ok(ColorType)
    case CollatorVal(_) => Ok(CollatorType)
    case FormattedVal(_) => Ok(FormattedType)
    case Array(items) =>
      (match ScanItemTypes(v, 0, None)
       case Ok(itemType) => Ok(ArrayType(if itemType.Some? then itemType.value else ValueType, Some(|items|)))
       case Err(m) => Err(m))
    case Object(_) => Ok(ObjectType)
    case Inherited(name) => if name == "__proto__" then Ok(ObjectType) else Err(TypeOfAssertion)
  }

  /**
   * The item loop of `typeOf` from item `i` on, with the accumulator `itemType`: keeps the first
   * item's type while each next one is identical to it, and stops at `value` on the first mismatch.
   */
  function ScanItemTypes(v: Value, i: nat, itemType: Option<Type>): Result<Option<Type>>
    requires v.Array? && i <= |v.items|
    decreases v, 0, |v.items| - i
  {
    if i == |v.items| then Ok(itemType)
    else
      match TypeOf(v.items[i])
      case Err(m) => Err(m)
      case Ok(t) =>
        if itemType.None? then ScanItemTypes(v, i + 1, Some(t))
        else if Identical(itemType.value, t) then ScanItemTypes(v, i + 1, itemType)
        else Ok(Some(ValueType))
  }

  /** `typeOf` as the source writes it: a loop over the items with a mutable accumulator and a `break`. */
  method TypeOfValue(v: Value) returns (r: Result<Type>)
    ensures r == TypeOf(v)
    decreases v
  {
    if !v.Array? {
      return TypeOf(v);
    }
    var items := v.items;
    var itemType: Option<Type> := None;
    var i := 0;
    while i < |items|
      invariant 0 <= i <= |items|
      invariant ScanItemTypes(v, 0, None) == ScanItemTypes(v, i, itemType)
    {
      var t := TypeOfValue(items[i]);
      if t.Err? {
        return Err(t.message);
      }
      if itemType.None? {
        itemType := Some(t.value);
      } else if Identical(itemType.value, t.value) {
      } else {
        itemType := Some(ValueType);
        break;
      }
      i := i + 1;
    }
    r := Ok(ArrayType(if itemType.Some? then itemType.value else ValueType, Some(|items|)));
  }

  /** Every item has the one shared scalar type `t`. */
  predicate AllItemsOfType(items: seq<Value>, t: Type) {
    forall i :: 0 <= i < |items| ==> TypeOf(items[i]) == Ok(t)
  }

  /**
   * `typeOf` of an array whose items all have the same scalar type `t`: `array<t, N>` with N the length.
   */
  lemma {:induction false} TypeOfUniformArray(items: seq<Value>, t: Type)
    requires items != [] && !t.ArrayType? && AllItemsOfType(items, t)
    ensures TypeOf(Array(items)) == Ok(ArrayType(t, Some(|items|)))
  {
    var v := Array(items);
    ScanUniform(v, 1, t);
  }

  lemma {:induction false} ScanUniform(v: Value, i: nat, t: Type)
    requires v.Array? && 1 <= i <= |v.items| && !t.ArrayType? && AllItemsOfType(v.items, t)
    ensures ScanItemTypes(v, i, Some(t)) == Ok(Some(t))
    decreases |v.items| - i
  {
    if i < |v.items| { ScanUniform(v, i + 1, t); }
  }

  /** `typeOf` of an empty array is `array<value, 0>`. */
  lemma TypeOfEmptyArray()
    ensures TypeOf(Array([])) == Ok(ArrayType(ValueType, Some(0)))
  {
  }

  /**
   * Once two items' types differ (or the first is itself an array type), `typeOf` widens the item
   * type to `value`, whatever the later items are.
   */
  lemma {:induction false} TypeOfMismatchedArray(items: seq<Value>, j: nat, s: Type, t: Type)
    requires 0 < j < |items| && AllItemsOfType(items[..j], s) && TypeOf(items[j]) == Ok(t) && !Identical(s, t)
    ensures TypeOf(Array(items)) == Ok(ArrayType(ValueType, Some(|items|)))
  {
    var v := Array(items);
    assert TypeOf(items[0]) == Ok(s) by { assert items[..j][0] == items[0]; }
    ScanMismatch(v, 1, j, s, t);
  }

  lemma {:induction false} ScanMismatch(v: Value, i: nat, j: nat, s: Type, t: Type)
    requires v.Array? && 1 <= i <= j < |v.items|
    requires AllItemsOfType(v.items[..j], s) && TypeOf(v.items[j]) == Ok(t) && !Identical(s, t)
    ensures ScanItemTypes(v, i, Some(s)) == Ok(Some(ValueType))
    decreases j - i
  {
    if i < j {
      assert v.items[..j][i] == v.items[i];
      if !s.ArrayType? {
        ScanMismatch(v, i + 1, j, s, t);
      }
    }
  }

  /** The length `N` of an inferred array type is the array's actual length. */
  lemma TypeOfArrayLength(items: seq<Value>)
    requires TypeOf(Array(items)).Ok?
    ensures TypeOf(Array(items)).value.ArrayType?
    ensures TypeOf(Array(items)).value.n == Some(|items|)
  {
  }

  /** `toString(v)` of values.js. */
  function ToString(js: Js, v: Value): (s: string)
    ensures v == Null ==> s == ""
    ensures v.Str? ==> s == v.s
    ensures v.FormattedVal? ==> s == Formatted.ToString(v.formatted)
  {
    match v
    case Null => ""
    case Str(_) => JsString(js, v)
    case Num(_) => JsString(js, v)
    case Bool(_) => JsString(js, v)
    case ColorVal(c) => js.colorToString(c)
    case FormattedVal(f) => Formatted.ToString(f)
    case _ => js.json(v)
  }
}
