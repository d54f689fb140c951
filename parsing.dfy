/**
 * The state a parse works in: the error list every context of one parse shares, the position
 * of a sub-expression (its path and the key rendered from it), the type expected there, the
 * rule that wraps or checks a parsed node against that type, the constantness test that decides
 * folding, and the lookup of an operator name in the registry.
 */
module Parsing {
  import opened Wrappers
  import opened Types
  import opened Values
  import opened Ast
  import opened Definitions
  import Text
  import IsConstant

  /** A parse error: the key of the position it is reported at, and its message. */
  datatype ParsingError = ParsingError(key: string, message: string)

  /** The error list of one parse, shared by reference between a context and every context derived from it. */
  class ErrorSink {
    var errors: seq<ParsingError>

    constructor ()
      ensures errors == []
    {
      errors := [];
    }

    method Push(e: ParsingError)
      modifies this
      ensures errors == old(errors) + [e]
    {
      errors := errors + [e];
    }

    /** `errors.push.apply(errors, more)`. */
    method PushAll(more: seq<ParsingError>)
      modifies this
      ensures errors == old(errors) + more
    {
      errors := errors + more;
    }
  }

  /**
   * A parsing context: the registry of expression forms, the compound definitions
   * `CompoundExpression.register` installed, the path of child indices from the root, the type the
   * parent expects here (`null` as `None`), and the shared error list. Let-scopes are not part of
   * this model.
   */
  datatype ParsingContext = ParsingContext(
    registry: map<string, NodeKind>,
    definitions: map<string, Definition>,
    path: seq<nat>,
    expectedType: Option<Type>,
    sink: ErrorSink)

  /** A context over the registry and definitions of definitions/index.js. */
  predicate Installed(ctx: ParsingContext) {
    ctx.registry == Registry() && ctx.definitions == CompoundDefinitions()
  }

  /** One path step as it appears in a key: `[3]`. */
  function Part(p: nat): (s: string)
    ensures |s| >= 3 && s[0] == '[' && s[|s| - 1] == ']'
  {
    "[" + Text.NatToString(p) + "]"
  }

  /** `path.map(part => '[' + part + ']').join('')`. */
  function Key(path: seq<nat>): string
    decreases |path|
  {
    if path == [] then "" else Key(path[..|path| - 1]) + Part(path[|path| - 1])
  }

  /** Rendering a path splits over any division of it: a child's key extends its parent's. */
  lemma {:induction false} KeyAppend(path: seq<nat>, more: seq<nat>)
    ensures Key(path + more) == Key(path) + Key(more)
    decreases |more|
  {
    if more == [] {
      assert path + more == path;
    } else {
      var last := more[|more| - 1];
      var init := more[..|more| - 1];
      assert (path + more)[..|path + more| - 1] == path + init;
      assert (path + more)[|path + more| - 1] == last;
      calc {
        Key(path + more);
        Key(path + init) + Part(last);
        { KeyAppend(path, init); }
        Key(path) + Key(init) + Part(last);
        Key(path) + (Key(init) + Part(last));
        Key(path) + Key(more);
      }
    }
  }

  /** Every error recorded between `before` and `after` lies at or below the key of `path`. */
  predicate ReportedUnder(before: seq<ParsingError>, after: seq<ParsingError>, path: seq<nat>) {
    |before| <= |after| && after[..|before|] == before &&
    forall k :: |before| <= k < |after| ==> Key(path) <= after[k].key
  }

  /** Errors collected in a list of their own, all below `path`, stay below it once appended to another. */
  lemma ReportedUnderAppend(before: seq<ParsingError>, more: seq<ParsingError>, path: seq<nat>)
    requires ReportedUnder([], more, path)
    ensures ReportedUnder(before, before + more, path)
  {
    forall k | |before| <= k < |before + more|
      ensures Key(path) <= (before + more)[k].key
    {
      assert (before + more)[k] == more[k - |before|];
    }
  }

  /** What is reported below a child is reported below its parent. */
  lemma ReportedUnderParent(b: seq<ParsingError>, c: seq<ParsingError>, path: seq<nat>, index: nat)
    requires ReportedUnder(b, c, path + [index])
    ensures ReportedUnder(b, c, path)
  {
    KeyAppend(path, [index]);
  }

  /**
   * The effect of one parse on the error list: errors are only ever appended, each at or below the
   * parsed position's key, and the parse succeeds exactly when it appends none.
   */
  predicate Outcome(before: seq<ParsingError>, after: seq<ParsingError>, path: seq<nat>, succeeded: bool) {
    ReportedUnder(before, after, path) && (succeeded <==> after == before)
  }

  /** Two reports at the same path chain. */
  lemma ReportedUnderChain(a: seq<ParsingError>, b: seq<ParsingError>, c: seq<ParsingError>, path: seq<nat>)
    requires ReportedUnder(a, b, path) && ReportedUnder(b, c, path)
    ensures ReportedUnder(a, c, path)
  {
    assert c[..|b|][..|a|] == c[..|a|];
  }

  /** `concat(index, expectedType)`: one step deeper, a new expected type (absent as null), the same error list. */
  function Concat(ctx: ParsingContext, index: nat, expected: Option<Type>): (child: ParsingContext)
    ensures child.sink == ctx.sink && child.expectedType == expected
    ensures child.registry == ctx.registry && child.definitions == ctx.definitions
    ensures Key(child.path) == Key(ctx.path) + Part(index)
  {
    KeyAppend(ctx.path, [index]);
    assert Key([index]) == Part(index) by { assert [index][..0] == []; }
    ParsingContext(ctx.registry, ctx.definitions, ctx.path + [index], expected, ctx.sink)
  }

  /** `error(message, ...keys)`: one error, at this context's key extended by `keys`. */
  method Error(ctx: ParsingContext, message: string, keys: seq<nat>)
    modifies ctx.sink
    ensures ctx.sink.errors == old(ctx.sink.errors) + [ParsingError(Key(ctx.path) + Key(keys), message)]
    ensures keys == [] ==> ctx.sink.errors == old(ctx.sink.errors) + [ParsingError(Key(ctx.path), message)]
    ensures ReportedUnder(old(ctx.sink.errors), ctx.sink.errors, ctx.path)
  {
    assert keys == [] ==> Key(ctx.path) + Key(keys) == Key(ctx.path);
    ctx.sink.Push(ParsingError(Key(ctx.path) + Key(keys), message));
  }

  /** `checkSubtype(expected, t)`: the mismatch message, also recorded at this context's key; nothing when `t` fits. */
  method CheckSubtypeIn(ctx: ParsingContext, expected: Type, t: Type) returns (error: Option<string>)
    modifies ctx.sink
    ensures error.None? <==> IsSubtype(expected, t)
    ensures error == CheckSubtype(expected, t)
    ensures ctx.sink.errors == old(ctx.sink.errors) + (if error.Some? then [ParsingError(Key(ctx.path), error.value)] else [])
  {
    error := CheckSubtype(expected, t);
    if error.Some? {
      ctx.sink.Push(ParsingError(Key(ctx.path), error.value));
    }
  }

  // ---------------------------------------------------------------- Type annotations

  /** The `typeAnnotation` option: absent, 'assert', 'coerce' or 'omit'. */
  datatype Annotation = Default | Assert | Coerce | Omit

  /** `annotate(parsed, type, typeAnnotation)`. */
  function Annotated(parsed: Expr, t: Type, ann: Annotation): (r: Expr)
    ensures ann == Assert ==> r == Assertion(t, [parsed])
    ensures ann == Coerce ==> r == Coercion(t, [parsed])
    ensures ann == Default || ann == Omit ==> r == parsed
  {
    match ann
    case Assert => Assertion(t, [parsed])
    case Coerce => Coercion(t, [parsed])
    case _ => parsed
  }

  /** The kinds a runtime-typed (`value`) node is asserted into. */
  predicate AssertedKind(expected: Type) {
    Kind(expected) in {"string", "number", "boolean", "object", "array"}
  }

  /** The kinds a string or runtime-typed node is coerced into. */
  predicate CoercedKind(expected: Type) {
    Kind(expected) in {"color", "formatted"}
  }

  /**
   * The expected-type step of `_parse`: a `value` node where a string, number, boolean, object or
   * array is expected gets an assertion; a string or `value` node where a colour or formatted text is
   * expected gets a coercion (either default overridable by the option); anything else is checked.
   */
  function TypeChecked(parsed: Expr, expected: Option<Type>, ann: Annotation): (r: Result<Expr>)
    ensures expected.None? ==> r == Ok(parsed)
    ensures r.Ok? && expected.Some? && ann != Omit ==> IsSubtype(expected.value, TypeOfNode(r.value))
    ensures expected.Some? && IsSubtype(expected.value, TypeOfNode(parsed)) ==> r == Ok(parsed)
    ensures r.Err? <==> (expected.Some? && !IsSubtype(expected.value, TypeOfNode(parsed))
      && !(AssertedKind(expected.value) && Kind(TypeOfNode(parsed)) == "value")
      && !(CoercedKind(expected.value) && Kind(TypeOfNode(parsed)) in {"value", "string"}))
    ensures r.Err? ==> r.message == CheckSubtype(expected.value, TypeOfNode(parsed)).value
    // a runtime-typed node where a string, number, boolean, object or array is expected is asserted
    ensures expected.Some? && AssertedKind(expected.value) && Kind(TypeOfNode(parsed)) == "value" ==>
      r == Ok(Annotated(parsed, expected.value, if ann == Default then Assert else ann))
    // a string or runtime-typed node where a colour or formatted text is expected is coerced
    ensures expected.Some? && CoercedKind(expected.value) && Kind(TypeOfNode(parsed)) in {"value", "string"} ==>
      r == Ok(Annotated(parsed, expected.value, if ann == Default then Coerce else ann))
  {
    if expected.None? then Ok(parsed)
    else
      var t := expected.value;
      var actual := TypeOfNode(parsed);
      if AssertedKind(t) && Kind(actual) == "value" then
        SubtypeReflexive(t);
        Ok(Annotated(parsed, t, if ann == Default then Assert else ann))
      else if CoercedKind(t) && Kind(actual) in {"value", "string"} then
        SubtypeReflexive(t);
        Ok(Annotated(parsed, t, if ann == Default then Coerce else ann))
      else if !IsSubtype(t, actual) then Err(CheckSubtype(t, actual).value)
      else Ok(parsed)
  }

  // ---------------------------------------------------------------- Constant folding

  /** The globals whose readers keep a node from being folded. */
  const GlobalReaders: seq<string> := ["zoom", "heatmap-density", "line-progress", "is-supported-script"]

  /**
   * `isConstant` of the parser: a variable as its bound expression; never `error` or a collator;
   * otherwise every child literal (or, below a type annotation, itself constant), and the node
   * reading neither the feature nor any global.
   */
  predicate IsConstantNode(e: Expr)
    decreases Size(e)
  {
    if e.Var? then IsConstantNode(e.bound)
    else if e.Compound? && e.name == "error" then false
    else if e.Collator? then false
    else
      var cs := Children(e);
      (forall i :: 0 <= i < |cs| ==> if e.Assertion? || e.Coercion? then IsConstantNode(cs[i]) else cs[i].Literal?)
      && IsConstant.IsFeatureConstant(e) && IsConstant.IsGlobalPropertyConstant(e, GlobalReaders)
  }

  /**
   * A node that is folded reads no feature data and no zoom, at the root or anywhere below; a type
   * annotation over literals is folded exactly when its literals are.
   */
  lemma ConstantNodeReadsNothing(e: Expr)
    requires IsConstantNode(e) && !e.Var?
    ensures IsConstant.IsFeatureConstant(e)
    ensures !IsConstant.ContainsCompound(e, GlobalReaders)
    ensures !(e.Compound? && e.name == "error")
  {
    IsConstant.GlobalPropertyConstantIff(e, GlobalReaders);
  }

  /** The `error` builtin is never folded, so its message is raised at evaluation time, not at parse time. */
  lemma ErrorIsNeverConstant(ty: Type, overload: nat, args: seq<Expr>)
    ensures !IsConstantNode(Compound("error", ty, overload, args))
  {
  }

  /** A type annotation over literals that read nothing is folded. */
  lemma AnnotatedLiteralIsConstant(t: Type, lit: Expr, assert_: bool)
    requires lit.Literal?
    ensures IsConstantNode(if assert_ then Assertion(t, [lit]) else Coercion(t, [lit]))
  {
    var e := if assert_ then Assertion(t, [lit]) else Coercion(t, [lit]);
    assert Children(e) == [lit];
    assert IsConstant.IsFeatureConstant(lit) && IsConstant.IsGlobalPropertyConstant(lit, GlobalReaders);
    assert IsConstantNode(lit);
  }

  // ---------------------------------------------------------------- The registry lookup

  /** What `registry[op]` finds on the registry object. */
  datatype RegistryEntry = Form(kind: NodeKind) | PrototypeMember(name: string) | Absent

  /**
   * `registry[op]` as written: the registry is a plain object, so a name it does not have but
   * that `Object.prototype` has (`constructor`, `toString`, ...) finds that inherited member.
   */
  function LookupAsWritten(registry: map<string, NodeKind>, op: string): (r: RegistryEntry)
    ensures op in registry ==> r == Form(registry[op])
    ensures op !in registry ==> (r.PrototypeMember? <==> op in ObjectPrototypeKeys)
  {
    if op in registry then Form(registry[op])
    else if op in ObjectPrototypeKeys then PrototypeMember(op)
    else Absent
  }

  /** The lookup as intended: the registry's own entries only. */
  function Lookup(registry: map<string, NodeKind>, op: string): (r: Option<NodeKind>)
    ensures r.Some? <==> op in registry
    ensures r.Some? ==> r.value == registry[op]
  {
    if op in registry then Some(registry[op]) else None
  }

  /**
   * `["constructor"]`: as written the lookup in the registry of definitions/index.js finds `Object`,
   * whose missing `parse` makes `_parse` throw a TypeError instead of recording "Unknown expression";
   * the intended lookup finds nothing.
   */
  lemma PrototypeNameFoundAsWritten()
    ensures LookupAsWritten(Registry(), "constructor") == PrototypeMember("constructor")
    ensures Lookup(Registry(), "constructor") == None
  {
    ConstructorNotRegistered();
  }

  lemma ConstructorNotRegistered()
    ensures "constructor" !in Registry()
  {
    ConstructorNotDefined();
    assert "constructor" !in SpecialForms;
  }

  lemma ConstructorNotDefined()
    ensures "constructor" !in CompoundDefinitions()
  {
    assert "constructor" !in LookupDefinitions();
    assert "constructor" !in ArithmeticDefinitions();
    assert "constructor" !in MathDefinitions();
    assert "constructor" !in FilterDefinitions();
    assert "constructor" !in LogicAndStringDefinitions();
  }

  /** Both lookups agree on every name `Object.prototype` does not have. */
  lemma LookupsAgreeOffPrototype(registry: map<string, NodeKind>, op: string)
    requires op !in ObjectPrototypeKeys
    ensures LookupAsWritten(registry, op) == (if Lookup(registry, op).Some? then Form(Lookup(registry, op).value) else Absent)
  {
  }

  /** `Unknown expression` message of `_parse` and `CompoundExpression.parse`. */
  function UnknownExpression(op: string): string {
    "Unknown expression \"" + op + "\". If you wanted a literal array, use [\"literal\", [...]]."
  }
}
