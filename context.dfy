/**
 * The evaluation context an expression is evaluated against: the current globals, feature and
 * feature state, which callers overwrite before each evaluation, the feature accessors, and the
 * memoising colour parser. Also the host services evaluation borrows.
 */
module Context {
  import opened Wrappers
  import opened Types
  import opened Values

  /**
   * Services of the JavaScript host that this model leaves abstract: the value conversions,
   * `Color.parse`, the `Math` builtins, colour and number blending, the exponential ratio
   * `(base ** progress - 1) / (base ** difference - 1)`, the unit-bezier solver,
   * `toUpperCase`/`toLowerCase`, `Color#toArray` and the collator's resolved locale.
   */
  datatype Host = Host(
    js: Js,
    parseColor: string -> Option<Color>,
    math: (string, seq<real>) -> Value,
    ratio: (real, real, real) -> real,
    bezier: (seq<real>, real) -> real,
    blend: (string, Type, Value, Value, real) -> Result<Value>,
    caseMap: (string, string) -> string,
    colorToArray: Color -> Value,
    resolvedLocale: string -> string
  )

  /** A feature: its `id` when it has that key, its geometry `type`, and its `properties` when present and truthy. */
  datatype Feature = Feature(id: Option<Value>, geometryType: Value, properties: Option<map<string, Value>>)

  /**
   * The globals object: `zoom`, `heatmapDensity` and `lineProgress` as given (possibly undefined),
   * `globalState` when present and truthy, and the `isSupportedScript` callback when present.
   */
  datatype Globals = Globals(
    zoom: Value,
    heatmapDensity: Value,
    lineProgress: Value,
    globalState: Option<map<string, Value>>,
    isSupportedScript: Option<string -> bool>
  )

  /** The names numeric geometry types index. */
  const GeometryTypes: seq<string> := ["Unknown", "Point", "LineString", "Polygon"]

  /** `geometryTypes[n]` for a number `n`: the name at an integer index in range, undefined otherwise. */
  function GeometryTypeName(n: real): (v: Value)
    ensures v != Undefined <==> n.Floor as real == n && 0 <= n.Floor < 4
  {
    if n.Floor as real == n && 0 <= n.Floor < |GeometryTypes| then Str(GeometryTypes[n.Floor]) else Undefined
  }

  class EvaluationContext {
    var globals: Option<Globals>
    var feature: Option<Feature>
    var featureState: Option<map<string, Value>>
    var parseColorCache: map<string, Option<Color>>
    /** The inputs handed to the colour parser so far, in order. */
    ghost var parses: seq<string>

    /** A fresh context: no globals, no feature, no feature state and an empty colour cache. */
    constructor ()
      ensures globals.None? && feature.None? && featureState.None?
      ensures parseColorCache == map[] && parses == []
    {
      globals := None;
      feature := None;
      featureState := None;
      parseColorCache := map[];
      parses := [];
    }

    /** `id()`: the feature's `id` when there is a feature with that key, null otherwise. */
    function Id(): (v: Value)
      reads this
      ensures feature.None? || feature.value.id.None? ==> v == Null
      ensures feature.Some? && feature.value.id.Some? ==> v == feature.value.id.value
    {
      if feature.Some? && feature.value.id.Some? then feature.value.id.value else Null
    }

    /** `geometryType()`: null without a feature; a numeric type names a geometry; any other type is returned as it is. */
    function GeometryType(): (v: Value)
      reads this
      ensures feature.None? ==> v == Null
      ensures feature.Some? && !feature.value.geometryType.Num? ==> v == feature.value.geometryType
      ensures feature.Some? && feature.value.geometryType.Num? ==> v == GeometryTypeName(feature.value.geometryType.n)
    {
      if feature.None? then Null
      else if feature.value.geometryType.Num? then GeometryTypeName(feature.value.geometryType.n)
      else feature.value.geometryType
    }

    /** `properties()`: the feature's properties, or an empty object when the feature or its properties are missing. */
    function Properties(): (props: map<string, Value>)
      reads this
      ensures feature.Some? && feature.value.properties.Some? ==> props == feature.value.properties.value
      ensures feature.None? || feature.value.properties.None? ==> props == map[]
    {
      if feature.Some? && feature.value.properties.Some? then feature.value.properties.value else map[]
    }

    /** Every cached entry is what the parser gives for its key. */
    ghost predicate CacheAgrees(parse: string -> Option<Color>)
      reads this
    {
      forall k :: k in parseColorCache ==> parseColorCache[k] == parse(k)
    }

    /**
     * `parseColor(input)`: the cached colour when the cache holds a colour for `input`; otherwise
     * parses, stores the outcome (a failed parse too) under `input` and returns it. A cache that agrees
     * with the parser keeps agreeing, so the result is always what parsing gives.
     */
    method ParseColor(parse: string -> Option<Color>, input: string) returns (c: Option<Color>)
      requires CacheAgrees(parse)
      modifies this`parseColorCache, this`parses
      ensures c == parse(input)
      ensures CacheAgrees(parse)
      ensures parseColorCache == old(parseColorCache)[input := c]
      ensures old(input in parseColorCache && parseColorCache[input].Some?) ==> parses == old(parses)
      ensures !old(input in parseColorCache && parseColorCache[input].Some?) ==> parses == old(parses) + [input]
    {
      var cached := if input in parseColorCache then parseColorCache[input] else None;
      if cached.None? {
        cached := parse(input);
        parses := parses + [input];
        parseColorCache := parseColorCache[input := cached];
      }
      c := cached;
    }

    /** The fields `StyleExpression.evaluate` overwrites before each evaluation; the cache is kept. */
    method SetInputs(g: Option<Globals>, f: Option<Feature>, s: Option<map<string, Value>>)
      modifies this`globals, this`feature, this`featureState
      ensures globals == g && feature == f && featureState == s
    {
      globals := g;
      feature := f;
      featureState := s;
    }
  }

  /**
   * The cache read as written: `_parseColorCache[input]` is a plain-object read, so for a name
   * `Object.prototype` provides (`constructor`, `toString`, ...) and no own entry, it finds the
   * inherited member, which is truthy and is returned in place of a parsed colour.
   */
  function CachedAsWritten(cache: map<string, Option<Color>>, input: string): (v: Value)
  {
    if input in cache then (if cache[input].Some? then ColorVal(cache[input].value) else Null)
    else if input in ObjectPrototypeKeys then Inherited(input)
    else Undefined
  }

  /** The string "toString" on a fresh context: as written, the inherited method is returned and the parser is never asked. */
  lemma CachedAsWrittenReturnsPrototypeMember()
    ensures Truthy(CachedAsWritten(map[], "toString"))
    ensures !CachedAsWritten(map[], "toString").ColorVal?
  {
  }
}
