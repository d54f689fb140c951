/**
 * The parser: `ParsingContext.parse`/`_parse` and the `parse` of every node kind of the core
 * (`CompoundExpression`, `Assertion`, `Coercion`, `Length`, `GlobalState`, `Match`, `Step`,
 * `Interpolate`), as mutually recursive methods over the JSON-like input that record their
 * errors in the shared error list.
 */
module Parser {
  import opened Wrappers
  import opened Types
  import opened Values
  import opened Ast
  import opened Definitions
  import opened Parsing
  import Text
  import Context
  import Evaluate
  import MatchForm
  import Curves

  /** The message recorded for the special forms whose `parse` is not part of this model. */
  const NotModelledForm: string := "parsing of this special form is not part of this model"

  const EmptyArrayMessage: string :=
    "Expected an array with at least one element. If you wanted a literal array, use [\"literal\", []]."
  const UndefinedMessage: string := "'undefined' value invalid. Use null instead."
  const BareObjectMessage: string := "Bare objects invalid. Use [\"literal\", {...}] instead."

  function NameMessage(op: Value): string {
    "Expression name must be a string, but found " + TypeofName(op) + " instead. If you wanted a literal array, use [\"literal\", [...]]."
  }

  function NotArrayMessage(expr: Value): string {
    "Expected an array, but found " + TypeofName(expr) + " instead."
  }

  /** The JSON scalars, which stand for themselves. */
  predicate IsScalar(v: Value) {
    v.Null? || v.Str? || v.Bool? || v.Num?
  }

  /** `typeOf` of a scalar. */
  function ScalarType(v: Value): (t: Type)
    requires IsScalar(v)
    ensures TypeOf(v) == Ok(t)
  {
    match v
    case Null => NullType
    case Str(_) => StringType
    case Bool(_) => BooleanType
    case Num(_) => NumberType
  }

  /** The scalar a literal stands for: a bare scalar, or the operand of `["literal", scalar]`. */
  function LiteralOperand(expr: Value): Option<Value> {
    if IsScalar(expr) then Some(expr)
    else if expr.Array? && |expr.items| == 2 && expr.items[0] == Str("literal") && IsScalar(expr.items[1]) then Some(expr.items[1])
    else None
  }

  /** Where a literal of scalar `v` is accepted unchanged. */
  predicate LiteralFits(ctx: ParsingContext, v: Value)
    requires IsScalar(v)
  {
    ctx.expectedType.None? || IsSubtype(ctx.expectedType.value, ScalarType(v))
  }

  /** The context's registry maps `literal` to the literal form. */
  predicate LiteralRegistered(ctx: ParsingContext) {
    "literal" in ctx.registry && ctx.registry["literal"] == LiteralKind
  }

  /** The registry of definitions/index.js registers `literal`. */
  lemma InstalledRegistersLiteral(ctx: ParsingContext)
    requires Installed(ctx)
    ensures LiteralRegistered(ctx)
  {
    LiteralIsRegistered();
  }

  lemma LiteralIsRegistered()
    ensures "literal" in Registry() && Registry()["literal"] == LiteralKind
  {
    assert "literal" !in LookupDefinitions();
    assert "literal" !in ArithmeticDefinitions();
    assert "literal" !in MathDefinitions();
    assert "literal" !in FilterDefinitions();
    assert "literal" !in LogicAndStringDefinitions();
  }

  // ---------------------------------------------------------------- parse and _parse

  /** `e` is what the type-checking step makes of some parsed node, given `expected` and `ann`. */
  ghost predicate TypeCheckResult(e: Expr, expected: Option<Type>, ann: Annotation) {
    exists node :: TypeChecked(node, expected, ann) == Ok(e)
  }

  /**
   * `parse(expr, index, expectedType)` at a child position with the default annotation, as the forms call
   * it for their operands: the outcome, and a result that fits the expected type when there is one.
   */
  method ParseChild(ctx: ParsingContext, expr: Value, index: nat, expected: Option<Type>, host: Context.Host)
    returns (r: Option<Expr>)
    requires index > 0
    modifies ctx.sink
    ensures Outcome(old(ctx.sink.errors), ctx.sink.errors, ctx.path, r.Some?)
    ensures r.Some? && expected.Some? ==> IsSubtype(expected.value, TypeOfNode(r.value))
    decreases expr, 7
  {
    r := Parse(ctx, expr, Some(index), expected, Default, host);
  }

  /** `parse(expr, index, expectedType, options)`: a truthy index parses in the child context, any other in this one. */
  method Parse(ctx: ParsingContext, expr: Value, index: Option<nat>, expected: Option<Type>, ann: Annotation, host: Context.Host)
    returns (r: Option<Expr>)
    modifies ctx.sink
    ensures Outcome(old(ctx.sink.errors), ctx.sink.errors, ctx.path, r.Some?)
    ensures index.Some? && index.value != 0 && r.Some? && expected.Some? && ann != Omit ==>
      IsSubtype(expected.value, TypeOfNode(r.value))
    ensures (index.None? || index.value == 0) && r.Some? && ctx.expectedType.Some? && ann != Omit ==>
      IsSubtype(ctx.expectedType.value, TypeOfNode(r.value))
    ensures index.Some? && index.value != 0 && r.Some? && !r.value.Literal? ==>
      TypeCheckResult(r.value, expected, ann)
    ensures (index.None? || index.value == 0) && r.Some? && !r.value.Literal? ==>
      TypeCheckResult(r.value, ctx.expectedType, ann)
    ensures (index.None? || index.value == 0) && LiteralOperand(expr).Some? && (IsScalar(expr) || LiteralRegistered(ctx))
              && LiteralFits(ctx, LiteralOperand(expr).value) ==>
      r == Some(Literal(ScalarType(LiteralOperand(expr).value), LiteralOperand(expr).value))
    ensures (index.None? || index.value == 0) && expr.Array? && |expr.items| > 0 && expr.items[0].Str? && expr.items[0].s !in ctx.registry ==>
      ctx.sink.errors == old(ctx.sink.errors) + [ParsingError(Key(ctx.path) + Key([0]), UnknownExpression(expr.items[0].s))]
    decreases expr, 6
  {
    if index.Some? && index.value != 0 {
      var child := Concat(ctx, index.value, expected);
      r := ParseIn(child, expr, ann, host);
      ReportedUnderParent(old(ctx.sink.errors), ctx.sink.errors, ctx.path, index.value);
    } else {
      r := ParseIn(ctx, expr, ann, host);
    }
  }

  /**
   * `_parse(expr, options)`: the node the input stands for, then the expected-type step and constant
   * folding.
   */
  method ParseIn(ctx: ParsingContext, expr: Value, ann: Annotation, host: Context.Host) returns (r: Option<Expr>)
    modifies ctx.sink
    ensures Outcome(old(ctx.sink.errors), ctx.sink.errors, ctx.path, r.Some?)
    ensures r.Some? && ctx.expectedType.Some? && ann != Omit ==> IsSubtype(ctx.expectedType.value, TypeOfNode(r.value))
    // a result that is not a literal is what the expected-type step, with this annotation, made of the parsed node
    ensures r.Some? && !r.value.Literal? ==> TypeCheckResult(r.value, ctx.expectedType, ann)
    ensures LiteralOperand(expr).Some? && (IsScalar(expr) || LiteralRegistered(ctx)) && LiteralFits(ctx, LiteralOperand(expr).value) ==>
      r == Some(Literal(ScalarType(LiteralOperand(expr).value), LiteralOperand(expr).value))
    ensures expr.Array? && |expr.items| > 0 && expr.items[0].Str? && expr.items[0].s !in ctx.registry ==>
      ctx.sink.errors == old(ctx.sink.errors) + [ParsingError(Key(ctx.path) + Key([0]), UnknownExpression(expr.items[0].s))]
    decreases expr, 5
  {
    var parsed := ParseNode(ctx, expr, host);
    if parsed.None? {
      return None;
    }
    r := Finish(ctx, parsed.value, ann, host);
    assert r.Some? && !r.value.Literal? ==> TypeChecked(parsed.value, ctx.expectedType, ann) == Ok(r.value);
  }

  /**
   * The first half of `_parse`: a scalar as `["literal", expr]`; an array by the registry entry of its
   * operator; anything else an error.
   */
  method ParseNode(ctx: ParsingContext, expr: Value, host: Context.Host) returns (r: Option<Expr>)
    modifies ctx.sink
    ensures Outcome(old(ctx.sink.errors), ctx.sink.errors, ctx.path, r.Some?)
    ensures LiteralOperand(expr).Some? && (IsScalar(expr) || LiteralRegistered(ctx)) ==>
      r == Some(Literal(ScalarType(LiteralOperand(expr).value), LiteralOperand(expr).value))
    ensures expr.Array? && |expr.items| > 0 && expr.items[0].Str? && expr.items[0].s !in ctx.registry ==>
      ctx.sink.errors == old(ctx.sink.errors) + [ParsingError(Key(ctx.path) + Key([0]), UnknownExpression(expr.items[0].s))]
    ensures !IsScalar(expr) && !expr.Array? ==> ctx.sink.errors == old(ctx.sink.errors) + [ParsingError(Key(ctx.path), ShapeMessage(expr))]
    decreases expr, 4
  {
    if IsScalar(expr) {
      r := ParseLiteral(ctx, [Str("literal"), expr]);
    } else if expr.Array? {
      r := ParseArray(ctx, expr.items, host);
    } else {
      Error(ctx, ShapeMessage(expr), []);
      r := None;
    }
  }

  /** An array input: a non-empty array whose first element names a registered form. */
  method ParseArray(ctx: ParsingContext, items: seq<Value>, host: Context.Host) returns (r: Option<Expr>)
    modifies ctx.sink
    ensures Outcome(old(ctx.sink.errors), ctx.sink.errors, ctx.path, r.Some?)
    ensures items == [] ==> ctx.sink.errors == old(ctx.sink.errors) + [ParsingError(Key(ctx.path), EmptyArrayMessage)]
    ensures items != [] && !items[0].Str? ==>
      ctx.sink.errors == old(ctx.sink.errors) + [ParsingError(Key(ctx.path) + Key([0]), NameMessage(items[0]))]
    ensures |items| > 0 && items[0].Str? && items[0].s !in ctx.registry ==>
      ctx.sink.errors == old(ctx.sink.errors) + [ParsingError(Key(ctx.path) + Key([0]), UnknownExpression(items[0].s))]
    ensures |items| == 2 && items[0] == Str("literal") && IsScalar(items[1]) && LiteralRegistered(ctx) ==>
      r == Some(Literal(ScalarType(items[1]), items[1]))
    decreases Value.Array(items), 3
  {
    if items == [] {
      Error(ctx, EmptyArrayMessage, []);
      return None;
    }
    if !items[0].Str? {
      Error(ctx, NameMessage(items[0]), [0]);
      return None;
    }
    var op := items[0].s;
    var entry := Parsing.Lookup(ctx.registry, op);
    if entry.None? {
      Error(ctx, UnknownExpression(op), [0]);
      return None;
    }
    r := ParseForm(ctx, entry.value, items, host);
  }

  /** The message for an input that is neither a scalar nor an array. */
  function ShapeMessage(expr: Value): string {
    if expr.Undefined? then UndefinedMessage
    else if TypeofName(expr) == "object" then BareObjectMessage
    else NotArrayMessage(expr)
  }

  /**
   * The end of `_parse` once the node kind has parsed: the expected-type step, then, for a node that is
   * not a literal but is constant, evaluation in a fresh context and replacement by a literal of the
   * node's type (an evaluation error becomes a parse error).
   */
  method Finish(ctx: ParsingContext, parsed: Expr, ann: Annotation, host: Context.Host) returns (r: Option<Expr>)
    modifies ctx.sink
    ensures Outcome(old(ctx.sink.errors), ctx.sink.errors, ctx.path, r.Some?)
    ensures TypeChecked(parsed, ctx.expectedType, ann).Err? ==>
      r.None? && ctx.sink.errors == old(ctx.sink.errors) + [ParsingError(Key(ctx.path), TypeChecked(parsed, ctx.expectedType, ann).message)]
    ensures TypeChecked(parsed, ctx.expectedType, ann).Ok? ==> var e := TypeChecked(parsed, ctx.expectedType, ann).value;
      (e.Literal? ==> r == Some(e)) &&
      (!e.Literal? && !IsConstantNode(e) ==> r == Some(e)) &&
      (!e.Literal? && IsConstantNode(e) && r.Some? ==> r.value.Literal? && r.value.ty == TypeOfNode(e))
    ensures r.Some? && !r.value.Literal? ==> TypeChecked(parsed, ctx.expectedType, ann) == Ok(r.value)
    ensures r.Some? && ctx.expectedType.Some? && ann != Omit ==> IsSubtype(ctx.expectedType.value, TypeOfNode(r.value))
  {
    var checked := TypeChecked(parsed, ctx.expectedType, ann);
    if checked.Err? {
      Error(ctx, checked.message, []);
      return None;
    }
    var e := checked.value;
    if !e.Literal? && IsConstantNode(e) {
      var ec := new Context.EvaluationContext();
      var v := Evaluate.Eval(e, ec, host);
      if v.Err? {
        Error(ctx, v.message, []);
        return None;
      }
      e := Literal(TypeOfNode(e), v.value);
    }
    r := Some(e);
  }

  /** The registry entry's `parse` for the operator of `items`. */
  method ParseForm(ctx: ParsingContext, kind: NodeKind, items: seq<Value>, host: Context.Host) returns (r: Option<Expr>)
    requires |items| > 0 && items[0].Str?
    modifies ctx.sink
    ensures Outcome(old(ctx.sink.errors), ctx.sink.errors, ctx.path, r.Some?)
    ensures kind == LiteralKind && |items| == 2 && IsScalar(items[1]) ==> r == Some(Literal(ScalarType(items[1]), items[1]))
    decreases Value.Array(items), 2
  {
    var op := items[0].s;
    match kind {
      case CompoundKind =>
        ghost var trials;
        r, trials := ParseCompound(ctx, items, host);
      case AssertionKind =>
        if op == "array" || op in AssertionTypes {
          r := ParseAssertion(ctx, items, host);
        } else {
          Error(ctx, NotModelledForm, []);
          r := None;
        }
      case CoercionKind =>
        if op in CoercionTypes {
          r := ParseCoercion(ctx, items, host);
        } else {
          Error(ctx, NotModelledForm, []);
          r := None;
        }
      case LengthKind => r := ParseLength(ctx, items, host);
      case MatchKind => r := ParseMatch(ctx, items, host);
      case StepKind => r := ParseStep(ctx, items, host);
      case InterpolateKind => r := ParseInterpolate(ctx, items, host);
      case LiteralKind => r := ParseLiteral(ctx, items);
      case _ =>
        Error(ctx, NotModelledForm, []);
        r := None;
    }
  }

  /**
   * The literal form, as far as this model goes: a scalar operand becomes a literal of its own type;
   * any other operand records the not-modelled message.
   */
  method ParseLiteral(ctx: ParsingContext, args: seq<Value>) returns (r: Option<Expr>)
    modifies ctx.sink
    ensures Outcome(old(ctx.sink.errors), ctx.sink.errors, ctx.path, r.Some?)
    ensures |args| == 2 && IsScalar(args[1]) ==> r == Some(Literal(ScalarType(args[1]), args[1]))
  {
    if |args| == 2 && IsScalar(args[1]) {
      return Some(Literal(ScalarType(args[1]), args[1]));
    }
    Error(ctx, NotModelledForm, []);
    return None;
  }

  // ---------------------------------------------------------------- CompoundExpression.parse

  /** A signature takes `n` arguments: variadic, or exactly `n` parameters. */
  predicate Fits(sig: Signature, n: nat) {
    sig.Variadic? || |sig.params| == n
  }

  /** The overloads that can take `n` arguments, by their positions in declaration order. */
  function Applicable(sigs: seq<Signature>, n: nat): (ks: seq<nat>)
    ensures forall j :: 0 <= j < |ks| ==> ks[j] < |sigs| && Fits(sigs[ks[j]], n)
    ensures forall k :: 0 <= k < |sigs| && Fits(sigs[k], n) ==> k in ks
    ensures forall i, j :: 0 <= i < j < |ks| ==> ks[i] < ks[j]
    decreases |sigs|
  {
    if sigs == [] then []
    else
      var init := sigs[..|sigs| - 1];
      var prefix := Applicable(init, n);
      assert forall k :: 0 <= k < |init| ==> init[k] == sigs[k];
      prefix + (if Fits(sigs[|sigs| - 1], n) then [|sigs| - 1] else [])
  }

  /** The type parameter `i` of a signature expects. */
  function ParamType(sig: Signature, i: nat): Type
    requires sig.Fixed? ==> i < |sig.params|
  {
    if sig.Fixed? then sig.params[i] else sig.item
  }

  /** The parsed arguments fit the signature: the right number, each a subtype of its parameter. */
  predicate Accepts(sig: Signature, args: seq<Expr>) {
    Fits(sig, |args|) && forall i :: 0 <= i < |args| ==> IsSubtype(ParamType(sig, i), TypeOfNode(args[i]))
  }

  /** `stringifySignature`: `(number, string)` for fixed parameters, `(number...)` for a variadic one. */
  function StringifySignature(sig: Signature): (s: string)
    ensures |s| >= 2 && s[0] == '(' && s[|s| - 1] == ')'
    ensures sig.Variadic? ==> s == "(" + TypeToString(sig.item) + "...)"
  {
    match sig
    case Fixed(params) => "(" + Text.Join(seq(|params|, i requires 0 <= i < |params| => TypeToString(params[i])), ", ") + ")"
    case Variadic(item) => "(" + TypeToString(item) + "...)"
  }

  /** The signatures of the overloads at `ks`, stringified and joined by ` | `. */
  function Signatures(sigs: seq<Signature>, ks: seq<nat>): string
    requires forall j :: 0 <= j < |ks| ==> ks[j] < |sigs|
  {
    Text.Join(seq(|ks|, j requires 0 <= j < |ks| => StringifySignature(sigs[ks[j]])), " | ")
  }

  function Positions(n: nat): (ks: seq<nat>)
    ensures |ks| == n && forall j :: 0 <= j < n ==> ks[j] == j
  {
    seq(n, j requires 0 <= j < n => j)
  }

  /** The message when no overload accepts the arguments. */
  function OverloadMessage(signatures: string, actualTypes: seq<string>): string {
    "Expected arguments of type " + signatures + ", but found (" + Text.Join(actualTypes, ", ") + ") instead."
  }

  /** Every trial in the list reported at least one error, so none of them parsed. */
  ghost predicate AllFailed(trials: seq<seq<ParsingError>>) {
    forall j :: 0 <= j < |trials| ==> trials[j] != []
  }

  /**
   * The candidates were tried in order and each trial recorded failed; the winner, if any, is the candidate
   * right after them, and with no winner every candidate was tried.
   */
  ghost predicate TriedInOrder(candidates: seq<nat>, trials: seq<seq<ParsingError>>, winner: Option<nat>) {
    |trials| <= |candidates| && AllFailed(trials) &&
    (winner.Some? ==> |trials| < |candidates| && winner.value == candidates[|trials|]) &&
    (winner.None? ==> |trials| == |candidates|)
  }

  /**
   * `CompoundExpression.parse`: each overload that can take the arguments is tried in declaration order
   * with a fresh error list; the first whose arguments all parse against its parameter types wins. When
   * none does, a single candidate's errors are reported as they are, and otherwise one message lists the
   * candidate signatures (all of them when none can take the arguments) and the arguments' own types.
   */
  method ParseCompound(ctx: ParsingContext, args: seq<Value>, host: Context.Host)
    returns (r: Option<Expr>, ghost trials: seq<seq<ParsingError>>)
    requires |args| > 0 && args[0].Str?
    modifies ctx.sink
    ensures Outcome(old(ctx.sink.errors), ctx.sink.errors, ctx.path, r.Some?)
    ensures args[0].s !in ctx.definitions ==>
      r.None? && ctx.sink.errors == old(ctx.sink.errors) + [ParsingError(Key(ctx.path) + Key([0]), UnknownExpression(args[0].s))]
    ensures r.Some? ==> var op := args[0].s;
      op in ctx.definitions && r.value.Compound? && r.value.name == op &&
      r.value.ty == ctx.definitions[op].ty && r.value.overload < |ctx.definitions[op].overloads| &&
      |r.value.args| == |args| - 1 && Accepts(ctx.definitions[op].overloads[r.value.overload], r.value.args)
    // `trials` holds the errors of each applicable overload tried, in order, before the winner: every one
    // failed, so the winner is the first applicable overload whose arguments parse; with no winner all failed
    ensures args[0].s in ctx.definitions ==>
      TriedInOrder(Applicable(ctx.definitions[args[0].s].overloads, |args| - 1), trials, if r.Some? then Some(r.value.overload) else None)
    ensures args[0].s in ctx.definitions && r.None? && |Applicable(ctx.definitions[args[0].s].overloads, |args| - 1)| == 1 ==>
      |trials| == 1 && ctx.sink.errors == old(ctx.sink.errors) + trials[0]
    decreases Value.Array(args), 1
  {
    trials := [];
    var op := args[0].s;
    if op !in ctx.definitions {
      Error(ctx, UnknownExpression(op), [0]);
      r := None;
      return;
    }
    var definition := ctx.definitions[op];
    var available := definition.overloads;
    var overloads := Applicable(available, |args| - 1);
    var winner, parsedArgs, lastErrors;
    winner, parsedArgs, lastErrors, trials := FirstAccepted(ctx, args, available, overloads, host);
    if winner.Some? {
      assert winner.value < |available| && Accepts(available[winner.value], parsedArgs);
      r := Some(Compound(op, definition.ty, winner.value, parsedArgs));
      assert (if r.Some? then Some(r.value.overload) else None) == winner;
      return;
    }
    if |overloads| == 1 {
      ctx.sink.PushAll(lastErrors);
      ReportedUnderAppend(old(ctx.sink.errors), lastErrors, ctx.path);
      r := None;
      return;
    }
    var signatures := if |overloads| > 0 then Signatures(available, overloads) else Signatures(available, Positions(|available|));
    ReportMismatch(ctx, args, signatures, host);
    r := None;
  }

  /**
   * The loop of `CompoundExpression.parse`: the candidate overloads are tried in order, each in a context
   * of its own, and the first whose arguments parse is the winner. `trials` holds the errors of every
   * candidate tried before the winner (all of them when there is none); `lastErrors` the last of those.
   */
  method FirstAccepted(ctx: ParsingContext, args: seq<Value>, sigs: seq<Signature>, candidates: seq<nat>, host: Context.Host)
    returns (winner: Option<nat>, parsedArgs: seq<Expr>, lastErrors: seq<ParsingError>, ghost trials: seq<seq<ParsingError>>)
    requires |args| > 0
    requires forall j :: 0 <= j < |candidates| ==> candidates[j] < |sigs| && Fits(sigs[candidates[j]], |args| - 1)
    ensures TriedInOrder(candidates, trials, winner)
    ensures winner.Some? ==>
      winner.value < |sigs| && |parsedArgs| == |args| - 1 && Accepts(sigs[winner.value], parsedArgs)
    ensures winner.None? && |candidates| > 0 ==> lastErrors == trials[|trials| - 1] && ReportedUnder([], lastErrors, ctx.path)
    decreases Value.Array(args), 0, 1
  {
    trials := [];
    lastErrors := [];
    var j := 0;
    while j < |candidates|
      invariant 0 <= j <= |candidates| && |trials| == j && AllFailed(trials)
      invariant j > 0 ==> lastErrors == trials[j - 1] && ReportedUnder([], lastErrors, ctx.path)
    {
      var k := candidates[j];
      var tried, sink := TryOverload(ctx, args, sigs[k], host);
      if tried.Some? {
        return Some(k), tried.value, lastErrors, trials;
      }
      lastErrors := sink.errors;
      trials := trials + [sink.errors];
      j := j + 1;
    }
    return None, [], lastErrors, trials;
  }

  /**
   * One attempt of `CompoundExpression.parse`: in a fresh context at the same path with its own error
   * list, every argument is parsed against its parameter type, then checked against it again; the
   * arguments come back when the error list stays empty.
   */
  method TryOverload(ctx: ParsingContext, args: seq<Value>, sig: Signature, host: Context.Host)
    returns (parsedArgs: Option<seq<Expr>>, sink: ErrorSink)
    requires |args| > 0 && Fits(sig, |args| - 1)
    ensures fresh(sink)
    ensures parsedArgs.Some? <==> sink.errors == []
    ensures ReportedUnder([], sink.errors, ctx.path)
    ensures parsedArgs.Some? ==> |parsedArgs.value| == |args| - 1 && Accepts(sig, parsedArgs.value)
    decreases Value.Array(args), 0, 0
  {
    sink := new ErrorSink();
    var signatureContext := ParsingContext(ctx.registry, ctx.definitions, ctx.path, None, sink);
    var parsed: seq<Expr> := [];
    var i := 1;
    while i < |args|
      invariant 1 <= i <= |args| && |parsed| == i - 1
      invariant sink.errors == []
      invariant forall m :: 0 <= m < |parsed| ==> IsSubtype(ParamType(sig, m), TypeOfNode(parsed[m]))
    {
      var arg := Parse(signatureContext, args[i], Some(1 + |parsed|), Some(ParamType(sig, i - 1)), Default, host);
      if arg.None? {
        return None, sink;
      }
      parsed := parsed + [arg.value];
      i := i + 1;
    }
    var m := 0;
    while m < |parsed|
      invariant 0 <= m <= |parsed|
      invariant sink.errors == []
    {
      var _ := CheckSubtypeIn(Concat(signatureContext, m + 1, None), ParamType(sig, m), TypeOfNode(parsed[m]));
      m := m + 1;
    }
    return Some(parsed), sink;
  }

  /**
   * The failure report of `CompoundExpression.parse` when there is not exactly one candidate: the
   * arguments are parsed again without expected types, and one error lists the candidate signatures
   * and the arguments' types; an argument that does not parse ends it with its own errors.
   */
  method ReportMismatch(ctx: ParsingContext, args: seq<Value>, signatures: string, host: Context.Host)
    requires |args| > 0
    modifies ctx.sink
    ensures ReportedUnder(old(ctx.sink.errors), ctx.sink.errors, ctx.path) && ctx.sink.errors != old(ctx.sink.errors)
    decreases Value.Array(args), 0
  {
    var actualTypes: seq<string> := [];
    var i := 1;
    while i < |args|
      invariant 1 <= i <= |args| && |actualTypes| == i - 1
      invariant ctx.sink.errors == old(ctx.sink.errors)
    {
      var parsed := ParseChild(ctx, args[i], 1 + |actualTypes|, None, host);
      if parsed.None? {
        return;
      }
      actualTypes := actualTypes + [TypeToString(TypeOfNode(parsed.value))];
      i := i + 1;
    }
    Error(ctx, OverloadMessage(signatures, actualTypes), []);
  }

  // ---------------------------------------------------------------- Assertion.parse

  /** The type names `number`, `string`, `boolean` and `object` assert. */
  const AssertionTypes: map<string, Type> :=
    map["string" := StringType, "number" := NumberType, "boolean" := BooleanType, "object" := ObjectType]

  /** The item types an `array` assertion can name. */
  const ArrayItemTypes: map<string, Type> := map["string" := StringType, "number" := NumberType, "boolean" := BooleanType]

  /** The header of an assertion: its type and the position of its first input, or an error with its keys. */
  datatype Header = Header(ty: Type, first: nat) | HeaderError(message: string, keys: seq<nat>)

  /** A length operand of `array`: a non-negative integer. */
  predicate IsLength(v: Value) {
    v.Num? && v.n >= 0.0 && v.n.Floor as real == v.n
  }

  /**
   * The header part of `Assertion.parse`: at least one input; for `array` an optional item type
   * (string, number or boolean) when there are two or more operands and an optional length (a
   * non-negative integer or null) when there are three or more; otherwise the named type.
   */
  function AssertionHeader(args: seq<Value>): (h: Header)
    requires |args| > 0 && args[0].Str? && (args[0].s == "array" || args[0].s in AssertionTypes)
    ensures h.Header? ==> 1 <= h.first < |args|
    ensures |args| < 2 ==> h == HeaderError("Expected at least one argument.", [])
    ensures |args| >= 2 && args[0].s != "array" ==> h == Header(AssertionTypes[args[0].s], 1)
    ensures h.Header? && args[0].s == "array" ==> h.ty.ArrayType?
    // a single operand asserts `array<value>` with no length
    ensures |args| == 2 && args[0].s == "array" ==> h == Header(ArrayType(ValueType, None), 1)
    // the item type is accepted exactly when it names string, number or boolean (never `object`)
    ensures |args| > 2 && args[0].s == "array" && !(args[1].Str? && args[1].s in ArrayItemTypes) ==>
      h == HeaderError("The item type argument of \"array\" must be one of string, number, boolean", [1])
    ensures |args| > 2 && args[0].s == "array" && h.Header? ==>
      args[1].Str? && args[1].s in ArrayItemTypes && h.ty.itemType == ArrayItemTypes[args[1].s]
    ensures |args| == 3 && args[0].s == "array" ==>
      (h.Header? <==> args[1].Str? && args[1].s in ArrayItemTypes) && (h.Header? ==> h.ty.n == None && h.first == 2)
    // the length is accepted exactly when it is null or a non-negative integer, and is the number written
    ensures |args| > 3 && args[0].s == "array" ==>
      (h.Header? <==> args[1].Str? && args[1].s in ArrayItemTypes && (args[2].Null? || IsLength(args[2])))
    ensures |args| > 3 && args[0].s == "array" && args[1].Str? && args[1].s in ArrayItemTypes && !(args[2].Null? || IsLength(args[2])) ==>
      h == HeaderError("The length argument to \"array\" must be a positive integer literal", [2])
    ensures |args| > 3 && args[0].s == "array" && h.Header? ==>
      h.first == 3 && (h.ty.n.None? <==> args[2].Null?) && (h.ty.n.Some? ==> h.ty.n.value as real == args[2].n)
  {
    if |args| < 2 then HeaderError("Expected at least one argument.", [])
    else if args[0].s != "array" then Header(AssertionTypes[args[0].s], 1)
    else if |args| > 2 && !(args[1].Str? && args[1].s in ArrayItemTypes) then
      HeaderError("The item type argument of \"array\" must be one of string, number, boolean", [1])
    else
      var itemType := if |args| > 2 then ArrayItemTypes[args[1].s] else ValueType;
      var first := if |args| > 2 then 2 else 1;
      if |args| > 3 && !(args[2].Null? || IsLength(args[2])) then
        HeaderError("The length argument to \"array\" must be a positive integer literal", [2])
      else if |args| > 3 then
        Header(ArrayType(itemType, if args[2].Null? then None else Some(args[2].n.Floor as nat)), first + 1)
      else Header(ArrayType(itemType, None), first)
  }

  /** `Assertion.parse`: the header, then every remaining operand parsed as a `value`. */
  method ParseAssertion(ctx: ParsingContext, args: seq<Value>, host: Context.Host) returns (r: Option<Expr>)
    requires |args| > 0 && args[0].Str? && (args[0].s == "array" || args[0].s in AssertionTypes)
    modifies ctx.sink
    ensures Outcome(old(ctx.sink.errors), ctx.sink.errors, ctx.path, r.Some?)
    ensures AssertionHeader(args).HeaderError? ==>
      ctx.sink.errors == old(ctx.sink.errors) +
        [ParsingError(Key(ctx.path) + Key(AssertionHeader(args).keys), AssertionHeader(args).message)]
    ensures r.Some? ==>
      AssertionHeader(args).Header? && r.value.Assertion? && r.value.ty == AssertionHeader(args).ty &&
      |r.value.args| == |args| - AssertionHeader(args).first && |r.value.args| > 0
    decreases Value.Array(args), 1
  {
    var header := AssertionHeader(args);
    if header.HeaderError? {
      Error(ctx, header.message, header.keys);
      return None;
    }
    var parsed: seq<Expr> := [];
    var i := header.first;
    while i < |args|
      invariant header.first <= i <= |args| && |parsed| == i - header.first
      invariant ctx.sink.errors == old(ctx.sink.errors)
    {
      var input := ParseChild(ctx, args[i], i, Some(ValueType), host);
      if input.None? {
        return None;
      }
      parsed := parsed + [input.value];
      i := i + 1;
    }
    return Some(Assertion(header.ty, parsed));
  }

  // ---------------------------------------------------------------- Coercion.parse

  const CoercionTypes: map<string, Type> :=
    map["to-boolean" := BooleanType, "to-color" := ColorType, "to-number" := NumberType, "to-string" := StringType]

  /** `Coercion.parse`: at least one operand (exactly one for `to-boolean` and `to-string`), each parsed as a `value`. */
  method ParseCoercion(ctx: ParsingContext, args: seq<Value>, host: Context.Host) returns (r: Option<Expr>)
    requires |args| > 0 && args[0].Str? && args[0].s in CoercionTypes
    modifies ctx.sink
    ensures Outcome(old(ctx.sink.errors), ctx.sink.errors, ctx.path, r.Some?)
    ensures |args| < 2 ==> ctx.sink.errors == old(ctx.sink.errors) + [ParsingError(Key(ctx.path), "Expected at least one argument.")]
    ensures |args| > 2 && args[0].s in {"to-boolean", "to-string"} ==>
      ctx.sink.errors == old(ctx.sink.errors) + [ParsingError(Key(ctx.path), "Expected one argument.")]
    ensures r.Some? ==> r.value.Coercion? && r.value.ty == CoercionTypes[args[0].s] && |r.value.args| == |args| - 1 > 0
    ensures r.Some? && args[0].s in {"to-boolean", "to-string"} ==> |r.value.args| == 1
    decreases Value.Array(args), 1
  {
    if |args| < 2 {
      Error(ctx, "Expected at least one argument.", []);
      return None;
    }
    var name := args[0].s;
    if (name == "to-boolean" || name == "to-string") && |args| != 2 {
      Error(ctx, "Expected one argument.", []);
      return None;
    }
    var parsed: seq<Expr> := [];
    var i := 1;
    while i < |args|
      invariant 1 <= i <= |args| && |parsed| == i - 1
      invariant ctx.sink.errors == old(ctx.sink.errors)
    {
      var input := ParseChild(ctx, args[i], i, Some(ValueType), host);
      if input.None? {
        return None;
      }
      parsed := parsed + [input.value];
      i := i + 1;
    }
    return Some(Coercion(CoercionTypes[name], parsed));
  }

  // ---------------------------------------------------------------- Length.parse and GlobalState.parse

  function ArgumentCountMessage(args: seq<Value>): string
    requires |args| > 0
  {
    "Expected 1 argument, but found " + Text.IntToString(|args| - 1) + " instead."
  }

  /** `Length.parse`: one operand, of array, string or `value` type. */
  method ParseLength(ctx: ParsingContext, args: seq<Value>, host: Context.Host) returns (r: Option<Expr>)
    requires |args| > 0
    modifies ctx.sink
    ensures Outcome(old(ctx.sink.errors), ctx.sink.errors, ctx.path, r.Some?)
    ensures |args| != 2 ==> ctx.sink.errors == old(ctx.sink.errors) + [ParsingError(Key(ctx.path), ArgumentCountMessage(args))]
    ensures r.Some? ==> r.value.Length? && Kind(TypeOfNode(r.value.input)) in {"array", "string", "value"}
    decreases Value.Array(args), 1
  {
    if |args| != 2 {
      Error(ctx, ArgumentCountMessage(args), []);
      return None;
    }
    var input := ParseChild(ctx, args[1], 1, None, host);
    if input.None? {
      return None;
    }
    var t := TypeOfNode(input.value);
    if Kind(t) != "array" && Kind(t) != "string" && Kind(t) != "value" {
      Error(ctx, "Expected argument of type string or array, but found " + TypeToString(t) + " instead.", []);
      return None;
    }
    return Some(Length(input.value));
  }

  /**
   * `GlobalState.parse`: one operand, a string naming the global-state property. (The registry of
   * definitions/index.js does not register this form, so `_parse` never reaches it.)
   */
  method ParseGlobalState(ctx: ParsingContext, args: seq<Value>) returns (r: Option<Expr>)
    requires |args| > 0
    modifies ctx.sink
    ensures Outcome(old(ctx.sink.errors), ctx.sink.errors, ctx.path, r.Some?)
    ensures r.Some? <==> |args| == 2 && args[1].Str?
    ensures r.Some? ==> r.value == GlobalState(args[1].s)
    ensures |args| != 2 ==> ctx.sink.errors == old(ctx.sink.errors) + [ParsingError(Key(ctx.path), ArgumentCountMessage(args))]
    ensures |args| == 2 && (args[1].Undefined? || args[1].Null?) ==>
      ctx.sink.errors == old(ctx.sink.errors) + [ParsingError(Key(ctx.path), "Global state property must be defined.")]
    ensures |args| == 2 && !args[1].Undefined? && !args[1].Null? && !args[1].Str? ==>
      ctx.sink.errors == old(ctx.sink.errors) +
        [ParsingError(Key(ctx.path), "Global state property must be string, but found " + TypeofName(args[1]) + " instead.")]
  {
    if |args| != 2 {
      Error(ctx, ArgumentCountMessage(args), []);
      return None;
    }
    var key := args[1];
    if key.Undefined? || key.Null? {
      Error(ctx, "Global state property must be defined.", []);
      return None;
    }
    if !key.Str? {
      Error(ctx, "Global state property must be string, but found " + TypeofName(key) + " instead.", []);
      return None;
    }
    return Some(GlobalState(key.s));
  }

  // ---------------------------------------------------------------- Match.parse

  function AtLeastFourMessage(args: seq<Value>): string
    requires |args| > 0
  {
    "Expected at least 4 arguments, but found only " + Text.IntToString(|args| - 1) + "."
  }

  const EvenMessage: string := "Expected an even number of arguments."

  /** The output type a branching form starts from: the expected type unless that is absent or `value`. */
  function InitialOutputType(ctx: ParsingContext): Option<Type> {
    if ctx.expectedType.Some? && Kind(ctx.expectedType.value) != "value" then ctx.expectedType else None
  }

  /** Every output (and `otherwise`) fits the node's output type. */
  predicate OutputsFit(t: Type, outputs: seq<Expr>) {
    forall k :: 0 <= k < |outputs| ==> IsSubtype(t, TypeOfNode(outputs[k]))
  }

  /**
   * `Match.parse`: label groups and their outputs first (labels validated, of one type and unique;
   * outputs against the output type), then the input as a `value`, then `otherwise`; finally an input
   * of a known type must fit the label type.
   */
  method ParseMatch(ctx: ParsingContext, args: seq<Value>, host: Context.Host) returns (r: Option<Expr>)
    requires |args| > 0
    modifies ctx.sink
    ensures Outcome(old(ctx.sink.errors), ctx.sink.errors, ctx.path, r.Some?)
    ensures |args| < 5 ==> ctx.sink.errors == old(ctx.sink.errors) + [ParsingError(Key(ctx.path), AtLeastFourMessage(args))]
    ensures |args| >= 5 && |args| % 2 != 1 ==> ctx.sink.errors == old(ctx.sink.errors) + [ParsingError(Key(ctx.path), EvenMessage)]
    ensures r.Some? ==> var m := r.value;
      m.Match? && |m.outputs| == (|args| - 3) / 2 &&
      (forall key :: key in m.cases ==> m.cases[key] < |m.outputs|) &&
      OutputsFit(m.ty, m.outputs + [m.otherwise]) &&
      (Kind(TypeOfNode(m.input)) == "value" || IsSubtype(m.inputType, TypeOfNode(m.input))) &&
      (InitialOutputType(ctx).Some? ==> m.ty == InitialOutputType(ctx).value)
    decreases Value.Array(args), 1
  {
    if |args| < 5 {
      Error(ctx, AtLeastFourMessage(args), []);
      return None;
    }
    if |args| % 2 != 1 {
      Error(ctx, EvenMessage, []);
      return None;
    }
    var branches := ParseMatchBranches(ctx, args, host);
    if branches.None? {
      return None;
    }
    var b := branches.value;
    r := FinishMatch(ctx, args, b, host);
    if r.Some? {
      var m := r.value;
      assert forall k :: 0 <= k < |m.outputs| ==> (m.outputs + [m.otherwise])[k] == b.outputs[k];
    }
  }

  /**
   * The end of `Match.parse` once the label groups are read: the input as a `value`, then `otherwise`
   * against the output type, then the input's type against the label type unless it is `value`.
   */
  method FinishMatch(ctx: ParsingContext, args: seq<Value>, b: MatchBranches, host: Context.Host) returns (r: Option<Expr>)
    requires |args| >= 5
    modifies ctx.sink
    ensures Outcome(old(ctx.sink.errors), ctx.sink.errors, ctx.path, r.Some?)
    ensures r.Some? ==> var m := r.value;
      m.Match? && m.inputType == b.inputType && m.ty == b.outputType && m.cases == b.cases && m.outputs == b.outputs &&
      IsSubtype(m.ty, TypeOfNode(m.otherwise)) &&
      (Kind(TypeOfNode(m.input)) == "value" || IsSubtype(m.inputType, TypeOfNode(m.input)))
    decreases Value.Array(args), 0
  {
    var input := ParseChild(ctx, args[1], 1, Some(ValueType), host);
    if input.None? {
      return None;
    }
    var otherwise := ParseChild(ctx, args[|args| - 1], |args| - 1, Some(b.outputType), host);
    if otherwise.None? {
      return None;
    }
    var inputT := TypeOfNode(input.value);
    if Kind(inputT) != "value" {
      var mismatch := CheckSubtypeIn(Concat(ctx, 1, None), b.inputType, inputT);
      if mismatch.Some? {
        ReportedUnderParent(old(ctx.sink.errors), ctx.sink.errors, ctx.path, 1);
        return None;
      }
    }
    r := Some(Match(b.inputType, b.outputType, input.value, b.cases, b.outputs, otherwise.value));
  }

  /** The label groups of a `match` read so far: the label type, the output type, the label table and the outputs. */
  datatype MatchBranches = MatchBranches(inputType: Type, outputType: Type, cases: map<string, nat>, outputs: seq<Expr>)

  /**
   * The loop of `Match.parse` over its label groups: each group is validated and entered in the table
   * (errors at the group's position), then its output is parsed against the output type, which the
   * first output fixes when the context expects none.
   */
  method ParseMatchBranches(ctx: ParsingContext, args: seq<Value>, host: Context.Host) returns (r: Option<MatchBranches>)
    requires |args| >= 5 && |args| % 2 == 1
    modifies ctx.sink
    ensures Outcome(old(ctx.sink.errors), ctx.sink.errors, ctx.path, r.Some?)
    ensures r.Some? ==> var b := r.value;
      |b.outputs| == (|args| - 3) / 2 &&
      (forall key :: key in b.cases ==> b.cases[key] < |b.outputs|) &&
      OutputsFit(b.outputType, b.outputs) &&
      (InitialOutputType(ctx).Some? ==> b.outputType == InitialOutputType(ctx).value)
    decreases Value.Array(args), 0
  {
    var inputType: Option<Type> := None;
    var outputType := InitialOutputType(ctx);
    var cases: map<string, nat> := map[];
    var outputs: seq<Expr> := [];
    var i := 2;
    while i < |args| - 1
      invariant 2 <= i <= |args| - 1 && i % 2 == 0
      invariant |outputs| == (i - 2) / 2
      invariant ctx.sink.errors == old(ctx.sink.errors)
      invariant forall key :: key in cases ==> cases[key] < |outputs|
      invariant i > 2 ==> inputType.Some? && outputType.Some?
      invariant outputType.Some? ==> OutputsFit(outputType.value, outputs)
      invariant InitialOutputType(ctx).Some? ==> outputType == InitialOutputType(ctx)
    {
      var added := AddBranchLabels(ctx, i, host.js, cases, inputType, args[i], |outputs|);
      if added.Rejected? {
        return None;
      }
      cases := added.cases;
      inputType := Some(added.inputType);
      var result := ParseChild(ctx, args[i + 1], i, outputType, host);
      if result.None? {
        return None;
      }
      if outputType.None? {
        SubtypeReflexive(TypeOfNode(result.value));
        outputType := Some(TypeOfNode(result.value));
      }
      outputs := outputs + [result.value];
      i := i + 2;
    }
    r := Some(MatchBranches(inputType.value, outputType.value, cases, outputs));
  }

  /** The labels of the branch at operand `i` added to the case table; a rejected group is reported at `i`. */
  method AddBranchLabels(ctx: ParsingContext, i: nat, js: Js, cases: map<string, nat>, inputType: Option<Type>,
                         group: Value, index: nat)
    returns (added: MatchForm.GroupOutcome)
    modifies ctx.sink
    ensures added == MatchForm.AddGroup(js, MatchForm.Taken, cases, inputType, MatchForm.LabelGroup(group), index)
    ensures Outcome(old(ctx.sink.errors), ctx.sink.errors, ctx.path, added.Accepted?)
    ensures added.Accepted? ==> forall k :: k in added.cases ==> (k in cases && added.cases[k] == cases[k]) || added.cases[k] == index
  {
    added := MatchForm.AddGroup(js, MatchForm.Taken, cases, inputType, MatchForm.LabelGroup(group), index);
    if added.Rejected? {
      Error(Concat(ctx, i, None), added.message, []);
      ReportedUnderParent(old(ctx.sink.errors), ctx.sink.errors, ctx.path, i);
    } else {
      MatchForm.AddLabelsTable(js, MatchForm.Taken, cases, inputType, MatchForm.LabelGroup(group), index);
    }
  }

  // ---------------------------------------------------------------- Step.parse

  const StepLabelMessage: string :=
    "Input/output pairs for \"step\" expressions must be defined using literal numeric values (not computed expressions) for the input values."
  const StepOrderMessage: string :=
    "Input/output pairs for \"step\" expressions must be arranged with input values in strictly ascending order."

  /**
   * `Step.parse`: at least four operands, an even number; the input as a number; then the stops, the
   * first with the implicit label -Infinity, each later label a literal number above the previous one
   * (reported at the label's position), each output against the output type.
   */
  method ParseStep(ctx: ParsingContext, args: seq<Value>, host: Context.Host) returns (r: Option<Expr>)
    requires |args| > 0
    modifies ctx.sink
    ensures Outcome(old(ctx.sink.errors), ctx.sink.errors, ctx.path, r.Some?)
    ensures |args| - 1 < 4 ==> ctx.sink.errors == old(ctx.sink.errors) + [ParsingError(Key(ctx.path), AtLeastFourMessage(args))]
    ensures |args| - 1 >= 4 && (|args| - 1) % 2 != 0 ==> ctx.sink.errors == old(ctx.sink.errors) + [ParsingError(Key(ctx.path), EvenMessage)]
    ensures r.Some? ==> var s := r.value;
      s.Step? && Evaluate.WellFormedStops(s.labels, s.outputs) && s.labels[0] == NegInf &&
      |s.labels| == (|args| - 1) / 2 && OutputsFit(s.ty, s.outputs) && IsSubtype(NumberType, TypeOfNode(s.input)) &&
      (forall k :: 1 <= k < |s.labels| ==> s.labels[k].Finite? && args[2 * k + 1] == Num(s.labels[k].x))
    decreases Value.Array(args), 1
  {
    if |args| - 1 < 4 {
      Error(ctx, AtLeastFourMessage(args), []);
      return None;
    }
    if (|args| - 1) % 2 != 0 {
      Error(ctx, EvenMessage, []);
      return None;
    }
    var input := ParseChild(ctx, args[1], 1, Some(NumberType), host);
    if input.None? {
      return None;
    }
    var outputType := InitialOutputType(ctx);
    var labels: seq<Label> := [];
    var outputs: seq<Expr> := [];
    // `rest` is [-Infinity] followed by args[2..]: its entry i is args[i + 1] for i > 0.
    var i := 0;
    while i < |args| - 1
      invariant 0 <= i <= |args| - 1 && i % 2 == 0
      invariant |labels| == |outputs| == i / 2
      invariant ctx.sink.errors == old(ctx.sink.errors)
      invariant Curves.StrictlyAscending(labels)
      invariant i > 0 ==> labels[0] == NegInf && outputType.Some?
      invariant forall k :: 1 <= k < |labels| ==> args[2 * k + 1].Num? && labels[k] == Finite(args[2 * k + 1].n)
      invariant outputType.Some? ==> OutputsFit(outputType.value, outputs)
    {
      var stopLabel: Label;
      if i == 0 {
        stopLabel := NegInf;
      } else {
        if !args[i + 1].Num? {
          Error(ctx, StepLabelMessage, [i + 1]);
          return None;
        }
        stopLabel := Finite(args[i + 1].n);
      }
      if |labels| > 0 && !LabelLess(labels[|labels| - 1], stopLabel) {
        Error(ctx, StepOrderMessage, [i + 1]);
        return None;
      }
      var parsed := ParseChild(ctx, args[i + 2], i + 2, outputType, host);
      if parsed.None? {
        return None;
      }
      if outputType.None? {
        SubtypeReflexive(TypeOfNode(parsed.value));
        outputType := Some(TypeOfNode(parsed.value));
      }
      LabelLessTransitive(labels, stopLabel);
      labels := labels + [stopLabel];
      outputs := outputs + [parsed.value];
      i := i + 2;
    }
    return Some(Step(outputType.value, input.value, labels, outputs));
  }

  /** Appending a label above the last keeps labels strictly ascending. */
  lemma LabelLessTransitive(labels: seq<Label>, next: Label)
    requires Curves.StrictlyAscending(labels)
    requires |labels| > 0 ==> LabelLess(labels[|labels| - 1], next)
    ensures Curves.StrictlyAscending(labels + [next])
  {
    var s := labels + [next];
    forall i, j | 0 <= i < j < |s| ensures LabelLess(s[i], s[j]) {
      if j == |s| - 1 && i < |labels| - 1 {
        assert LabelLess(labels[i], labels[|labels| - 1]);
      }
    }
  }

  // ---------------------------------------------------------------- Interpolate.parse

  const InterpolateLabelMessage: string :=
    "Input/output pairs for \"interpolate\" expressions must be defined using literal numeric values (not computed expressions) for the input values."
  const InterpolateOrderMessage: string :=
    "Input/output pairs for \"interpolate\" expressions must be arranged with input values in strictly ascending order."

  /** The operand after the operator, or undefined when there is none. */
  function OperandOrUndefined(args: seq<Value>, i: nat): Value {
    if i < |args| then args[i] else Undefined
  }

  /**
   * `Interpolate.parse`: the interpolation kind first, then the operand counts; the input as a number;
   * the output type (colour for the hcl and lab operators); the stops, labels literal numbers in strictly
   * ascending order, outputs against the output type; finally the output type must be interpolatable.
   */
  method ParseInterpolate(ctx: ParsingContext, args: seq<Value>, host: Context.Host) returns (r: Option<Expr>)
    requires |args| > 0 && args[0].Str?
    modifies ctx.sink
    ensures Outcome(old(ctx.sink.errors), ctx.sink.errors, ctx.path, r.Some?)
    ensures Curves.ParseInterpolation(host.js, OperandOrUndefined(args, 1)).Invalid? ==>
      var bad := Curves.ParseInterpolation(host.js, OperandOrUndefined(args, 1));
      ctx.sink.errors == old(ctx.sink.errors) + [ParsingError(Key(ctx.path) + Key(bad.keys), bad.message)]
    ensures r.Some? ==> var s := r.value;
      s.Interpolate? && s.operator == args[0].s &&
      Curves.ParseInterpolation(host.js, args[1]) == Curves.Parsed(s.interpolation) &&
      Evaluate.WellFormedStops(Curves.Finites(s.stops), s.outputs) && |s.stops| == (|args| - 3) / 2 &&
      (forall k :: 0 <= k < |s.stops| ==> args[2 * k + 3] == Num(s.stops[k])) &&
      Curves.IsInterpolatable(s.ty) && OutputsFit(s.ty, s.outputs) && IsSubtype(NumberType, TypeOfNode(s.input)) &&
      (args[0].s in {"interpolate-hcl", "interpolate-lab"} ==> s.ty == ColorType)
    decreases Value.Array(args), 1
  {
    var operator := args[0].s;
    var kind := Curves.ParseInterpolation(host.js, OperandOrUndefined(args, 1));
    if kind.Invalid? {
      Error(ctx, kind.message, kind.keys);
      return None;
    }
    if |args| - 1 < 4 {
      Error(ctx, AtLeastFourMessage(args), []);
      return None;
    }
    if (|args| - 1) % 2 != 0 {
      Error(ctx, EvenMessage, []);
      return None;
    }
    var input := ParseChild(ctx, args[2], 2, Some(NumberType), host);
    if input.None? {
      return None;
    }
    var outputType: Option<Type>;
    if operator == "interpolate-hcl" || operator == "interpolate-lab" {
      outputType := Some(ColorType);
    } else {
      outputType := InitialOutputType(ctx);
    }
    var stops := ParseInterpolateStops(ctx, args, outputType, host);
    if stops.None? {
      return None;
    }
    var t := stops.value.ty;
    if !Curves.IsInterpolatable(t) {
      Error(ctx, "Type " + TypeToString(t) + " is not interpolatable.", []);
      return None;
    }
    Curves.FinitesAscending(stops.value.labels);
    return Some(Interpolate(t, operator, kind.interpolation, input.value, stops.value.labels, stops.value.outputs));
  }

  /** The stops of an `interpolate` read so far: the output type, the labels and the outputs. */
  datatype InterpolateStops = InterpolateStops(ty: Type, labels: seq<real>, outputs: seq<Expr>)

  /**
   * The loop of `Interpolate.parse` over its stops (the operands from the fourth on): each label a
   * literal number above the previous one (reported at the label's position), each output parsed
   * against the output type, which the first output fixes when none was given.
   */
  method ParseInterpolateStops(ctx: ParsingContext, args: seq<Value>, outputType: Option<Type>, host: Context.Host)
    returns (r: Option<InterpolateStops>)
    requires |args| >= 5 && (|args| - 1) % 2 == 0
    modifies ctx.sink
    ensures Outcome(old(ctx.sink.errors), ctx.sink.errors, ctx.path, r.Some?)
    ensures r.Some? ==> var s := r.value;
      |s.labels| == |s.outputs| == (|args| - 3) / 2 &&
      (forall a, b :: 0 <= a < b < |s.labels| ==> s.labels[a] < s.labels[b]) &&
      (forall k :: 0 <= k < |s.labels| ==> args[2 * k + 3] == Num(s.labels[k])) &&
      OutputsFit(s.ty, s.outputs) && (outputType.Some? ==> s.ty == outputType.value)
    decreases Value.Array(args), 0
  {
    var ty := outputType;
    var stops: seq<real> := [];
    var outputs: seq<Expr> := [];
    // `rest` is args[3..]: its entry i is args[i + 3].
    var i := 0;
    while i < |args| - 3
      invariant 0 <= i <= |args| - 3 && i % 2 == 0
      invariant |stops| == |outputs| == i / 2
      invariant ctx.sink.errors == old(ctx.sink.errors)
      invariant forall a, b :: 0 <= a < b < |stops| ==> stops[a] < stops[b]
      invariant forall k :: 0 <= k < |stops| ==> args[2 * k + 3] == Num(stops[k])
      invariant i > 0 ==> ty.Some?
      invariant ty.Some? ==> OutputsFit(ty.value, outputs)
      invariant outputType.Some? ==> ty == outputType
    {
      var stopValue := args[i + 3];
      if !stopValue.Num? {
        Error(ctx, InterpolateLabelMessage, [i + 3]);
        return None;
      }
      if |stops| > 0 && stops[|stops| - 1] >= stopValue.n {
        Error(ctx, InterpolateOrderMessage, [i + 3]);
        return None;
      }
      var parsed := ParseChild(ctx, args[i + 4], i + 4, ty, host);
      if parsed.None? {
        return None;
      }
      if ty.None? {
        SubtypeReflexive(TypeOfNode(parsed.value));
        ty := Some(TypeOfNode(parsed.value));
      }
      stops := stops + [stopValue.n];
      outputs := outputs + [parsed.value];
      i := i + 2;
    }
    return Some(InterpolateStops(ty.value, stops, outputs));
  }
}
