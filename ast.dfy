/**
 * The typed expression tree the parser produces. Every node kind of the core is a variant;
 * `let`, `var`, `coalesce`, `collator` and the remaining special forms (case, at, comparisons,
 * format) are kept as variants so that the tree analyses can walk them.
 */
module Ast {
  import opened Wrappers
  import opened Types
  import opened Values

  /** A `step` stop label: the implicit first label is -Infinity. */
  datatype Label = NegInf | Finite(x: real)

  predicate LabelLess(a: Label, b: Label) {
    match a
    case NegInf => b.Finite?
    case Finite(x) => b.Finite? && x < b.x
  }

  predicate LabelLessEq(a: Label, b: Label) {
    a == b || LabelLess(a, b)
  }

  /** The interpolation object `{name, base?, controlPoints?}` of an `interpolate` node. */
  datatype Interpolation = Interpolation(name: string, base: real, controlPoints: seq<real>)

  datatype Expr =
    | Literal(ty: Type, value: Value)
    | Var(name: string, bound: Expr)
    | Compound(name: string, ty: Type, overload: nat, args: seq<Expr>)
    | Assertion(ty: Type, args: seq<Expr>)
    | Coercion(ty: Type, args: seq<Expr>)
    | Length(input: Expr)
    | GlobalState(key: string)
    | Match(inputType: Type, ty: Type, input: Expr, cases: map<string, nat>, outputs: seq<Expr>, otherwise: Expr)
    | Step(ty: Type, input: Expr, labels: seq<Label>, outputs: seq<Expr>)
    | Interpolate(ty: Type, operator: string, interpolation: Interpolation, input: Expr, stops: seq<real>, outputs: seq<Expr>)
    | Let(names: seq<string>, values: seq<Expr>, result: Expr)
    | Coalesce(ty: Type, args: seq<Expr>)
    | Collator(options: seq<Expr>)
    | Other(kind: string, ty: Type, children: seq<Expr>)

  /** The declared type of a node. */
  function TypeOfNode(e: Expr): Type
    decreases e
  {
    match e
    case Literal(t, _) => t
    case Var(_, bound) => TypeOfNode(bound)
    case Compound(_, t, _, _) => t
    case Assertion(t, _) => t
    case Coercion(t, _) => t
    case Length(_) => NumberType
    case GlobalState(_) => ValueType
    case Match(_, t, _, _, _, _) => t
    case Step(t, _, _, _) => t
    case Interpolate(t, _, _, _, _, _) => t
    case Let(_, _, result) => TypeOfNode(result)
    case Coalesce(t, _) => t
    case Collator(_) => CollatorType
    case Other(_, t, _) => t
  }

  /** A measure that every child is below. */
  function Size(e: Expr): nat
    decreases e, 1
  {
    match e
    case Literal(_, _) => 1
    case Var(_, bound) => 1 + Size(bound)
    case Compound(_, _, _, args) => 1 + SizeOf(e, args)
    case Assertion(_, args) => 1 + SizeOf(e, args)
    case Coercion(_, args) => 1 + SizeOf(e, args)
    case Length(input) => 1 + Size(input)
    case GlobalState(_) => 1
    case Match(_, _, input, _, outputs, otherwise) => 1 + Size(input) + SizeOf(e, outputs) + Size(otherwise)
    case Step(_, input, _, outputs) => 1 + Size(input) + SizeOf(e, outputs)
    case Interpolate(_, _, _, input, _, outputs) => 1 + Size(input) + SizeOf(e, outputs)
    case Let(_, values, result) => 1 + SizeOf(e, values) + Size(result)
    case Coalesce(_, args) => 1 + SizeOf(e, args)
    case Collator(options) => 1 + SizeOf(e, options)
    case Other(_, _, children) => 1 + SizeOf(e, children)
  }

  /** The summed size of `es`, a run of sub-expressions of `parent`. */
  function SizeOf(ghost parent: Expr, es: seq<Expr>): nat
    requires forall i :: 0 <= i < |es| ==> es[i] < parent
    decreases parent, 0, |es|
  {
    if es == [] then 0 else SizeOf(parent, es[..|es| - 1]) + Size(es[|es| - 1])
  }

  lemma {:induction false} SizeOfBounds(parent: Expr, es: seq<Expr>)
    requires forall i :: 0 <= i < |es| ==> es[i] < parent
    ensures forall i :: 0 <= i < |es| ==> Size(es[i]) <= SizeOf(parent, es)
    ensures forall p: Expr :: (forall i :: 0 <= i < |es| ==> es[i] < p) ==> SizeOf(p, es) == SizeOf(parent, es)
    decreases |es|
  {
    if es != [] {
      SizeOfBounds(parent, es[..|es| - 1]);
      forall p: Expr | (forall i :: 0 <= i < |es| ==> es[i] < p)
        ensures SizeOf(p, es) == SizeOf(parent, es)
      {
        SizeOfBounds(p, es[..|es| - 1]);
      }
    }
  }

  /** `eachChild`: the sub-expressions of a node, in visiting order. */
  function Children(e: Expr): (cs: seq<Expr>)
    ensures forall i :: 0 <= i < |cs| ==> Size(cs[i]) < Size(e)
  {
    match e
    case Compound(_, _, _, args) => SizeOfBounds(e, args); args
    case Assertion(_, args) => SizeOfBounds(e, args); args
    case Coercion(_, args) => SizeOfBounds(e, args); args
    case Length(input) => [input]
    case Match(_, _, input, _, outputs, otherwise) => SizeOfBounds(e, outputs); [input] + outputs + [otherwise]
    case Step(_, input, _, outputs) => SizeOfBounds(e, outputs); [input] + outputs
    case Interpolate(_, _, _, input, _, outputs) => SizeOfBounds(e, outputs); [input] + outputs
    case Let(_, values, result) => SizeOfBounds(e, values); values + [result]
    case Coalesce(_, args) => SizeOfBounds(e, args); args
    case Collator(options) => SizeOfBounds(e, options); options
    case Other(_, _, children) => SizeOfBounds(e, children); children
    case _ => []
  }

  predicate IsLiteral(e: Expr) {
    e.Literal?
  }
}
