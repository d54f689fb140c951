/**
 * `findZoomCurve`: the search for the one zoom-based `step` or `interpolate` node of a parsed
 * expression, which may only sit at the top level or under `let` results and `coalesce` arguments.
 * `ZoomCurveOf` is the result as a function of the tree; `FindZoomCurve` is the recursive walk that
 * updates its result child by child, proved to compute it.
 */
module ZoomCurves {
  import opened Ast

  const NotTopLevelMessage: string :=
    "\"zoom\" expression may only be used as input to a top-level \"step\" or \"interpolate\" expression."
  const OnlyOneMessage: string :=
    "Only one zoom-based \"step\" or \"interpolate\" subexpression may be used in an expression."

  /**
   * What the search returns: nothing, a curve node, or an error. A curve is identified by the path of
   * child indices leading to it from the node searched, which is what object identity (`!==`)
   * distinguishes in a tree the parser builds.
   */
  datatype ZoomCurve = NoCurve | Curve(path: seq<nat>, node: Expr) | CurveError(message: string)

  /** A `step` or `interpolate` node whose input is the `zoom` compound expression. */
  predicate IsZoomCurveNode(e: Expr) {
    (e.Step? || e.Interpolate?) && e.input.Compound? && e.input.name == "zoom"
  }

  /** Whether a zoom curve node occurs anywhere in the tree. */
  predicate HasZoomCurve(e: Expr)
    decreases Size(e)
  {
    IsZoomCurveNode(e) || exists k :: 0 <= k < |Children(e)| && HasZoomCurve(Children(e)[k])
  }

  /** A child's result as seen from its parent: a curve gains the child's index in front of its path. */
  function Under(i: nat, c: ZoomCurve): (r: ZoomCurve)
    ensures r.NoCurve? == c.NoCurve? && r.CurveError? == c.CurveError?
    ensures r.Curve? ==> |r.path| > 0 && r.node == c.node
  {
    if c.Curve? then Curve([i] + c.path, c.node) else c
  }

  /**
   * One visit of `eachChild`: a child's error replaces the result; a curve below a node that has
   * found none is misplaced; a second, different curve is one too many.
   */
  function Combine(result: ZoomCurve, child: ZoomCurve): ZoomCurve {
    if child.CurveError? then child
    else if result.NoCurve? && child.Curve? then CurveError(NotTopLevelMessage)
    else if child.Curve? && !(result.Curve? && result.path == child.path) then CurveError(OnlyOneMessage)
    else result
  }

  /** The visits of the children in order, starting from `start`. */
  function CombineAll(start: ZoomCurve, rs: seq<ZoomCurve>): ZoomCurve
    decreases |rs|
  {
    if rs == [] then start else Combine(CombineAll(start, rs[..|rs| - 1]), rs[|rs| - 1])
  }

  /** The `coalesce` loop: the first argument result that is not empty, from index `j` on. */
  function FirstFound(rs: seq<ZoomCurve>, j: nat): ZoomCurve
    decreases |rs| - j
  {
    if j >= |rs| then NoCurve
    else if !rs[j].NoCurve? then rs[j]
    else FirstFound(rs, j + 1)
  }

  /** The results of the children, each seen from this node. */
  function ChildCurves(e: Expr): (rs: seq<ZoomCurve>)
    ensures |rs| == |Children(e)|
    decreases Size(e), 0
  {
    var cs := Children(e);
    seq(|cs|, k requires 0 <= k < |cs| => Under(k, ZoomCurveOf(cs[k])))
  }

  /** The result before the children are visited: from the `let` result, the `coalesce` arguments, or the node itself. */
  function StartOf(e: Expr, rs: seq<ZoomCurve>): ZoomCurve
    requires |rs| == |Children(e)|
  {
    if e.Let? then rs[|rs| - 1]
    else if e.Coalesce? then FirstFound(rs, 0)
    else if IsZoomCurveNode(e) then Curve([], e)
    else NoCurve
  }

  /** The result of `findZoomCurve(e)`. */
  function ZoomCurveOf(e: Expr): ZoomCurve
    decreases Size(e), 1
  {
    var rs := ChildCurves(e);
    var start := StartOf(e, rs);
    if start.CurveError? then start else CombineAll(start, rs)
  }

  /** `findZoomCurve`: the walk over the tree, proved to return `ZoomCurveOf(e)`. */
  method FindZoomCurve(e: Expr) returns (r: ZoomCurve)
    ensures r == ZoomCurveOf(e)
    decreases Size(e), 2
  {
    var result := FindStart(e);
    if result.CurveError? {
      return result;
    }
    r := VisitChildren(e, result);
  }

  /** The first half of the walk: the result taken from a `let` result, the `coalesce` arguments or the node itself. */
  method FindStart(e: Expr) returns (result: ZoomCurve)
    ensures result == StartOf(e, ChildCurves(e))
    decreases Size(e), 1
  {
    ghost var rs := ChildCurves(e);
    result := NoCurve;
    if e.Let? {
      var c := FindZoomCurve(e.result);
      result := Under(|e.values|, c);
    } else if e.Coalesce? {
      result := FindInArguments(e);
    } else if IsZoomCurveNode(e) {
      result := Curve([], e);
    }
  }

  /** The `coalesce` loop: the arguments searched in order until one yields a result. */
  method FindInArguments(e: Expr) returns (result: ZoomCurve)
    requires e.Coalesce?
    ensures result == FirstFound(ChildCurves(e), 0)
    decreases Size(e), 0
  {
    ghost var rs := ChildCurves(e);
    result := NoCurve;
    var j := 0;
    while j < |e.args| && result.NoCurve?
      invariant 0 <= j <= |e.args| == |rs|
      invariant result.NoCurve? ==> FirstFound(rs, 0) == FirstFound(rs, j)
      invariant !result.NoCurve? ==> result == FirstFound(rs, 0)
      decreases |e.args| - j
    {
      var c := FindZoomCurve(e.args[j]);
      assert rs[j] == Under(j, ZoomCurveOf(e.args[j]));
      result := Under(j, c);
      j := j + 1;
    }
  }

  /** The second half of the walk: `eachChild` folding every child's result into the result so far. */
  method VisitChildren(e: Expr, start: ZoomCurve) returns (result: ZoomCurve)
    ensures result == CombineAll(start, ChildCurves(e))
    decreases Size(e), 0
  {
    var cs := Children(e);
    ghost var rs := ChildCurves(e);
    result := start;
    var i := 0;
    while i < |cs|
      invariant 0 <= i <= |cs|
      invariant result == CombineAll(start, rs[..i])
    {
      var c := FindZoomCurve(cs[i]);
      assert rs[..i + 1][..i] == rs[..i];
      result := Combine(result, Under(i, c));
      i := i + 1;
    }
    assert rs[..|cs|] == rs;
  }

  // ---------------------------------------------------------------- what the search finds

  /** Visiting children never produces a child's curve: the result stays the start or becomes an error. */
  lemma {:induction false} CombineAllShape(start: ZoomCurve, rs: seq<ZoomCurve>)
    ensures CombineAll(start, rs) == start || CombineAll(start, rs).CurveError?
    decreases |rs|
  {
    if rs != [] {
      CombineAllShape(start, rs[..|rs| - 1]);
    }
  }

  /** The visits leave an empty result empty exactly when every child result is empty. */
  lemma {:induction false} CombineAllEmpty(start: ZoomCurve, rs: seq<ZoomCurve>)
    ensures CombineAll(start, rs).NoCurve? <==> start.NoCurve? && forall k :: 0 <= k < |rs| ==> rs[k].NoCurve?
    decreases |rs|
  {
    if rs != [] {
      var prefix := rs[..|rs| - 1];
      CombineAllEmpty(start, prefix);
      assert forall k :: 0 <= k < |rs| - 1 ==> rs[k] == prefix[k];
    }
  }

  /**
   * Below a node that is no curve or is the curve at the empty path, any child result that is not
   * empty ends the visits in an error.
   */
  lemma {:induction false} CombineAllNested(start: ZoomCurve, rs: seq<ZoomCurve>, k: nat)
    requires start.NoCurve? || (start.Curve? && start.path == [])
    requires k < |rs| && !rs[k].NoCurve?
    requires forall m :: 0 <= m < |rs| && rs[m].Curve? ==> |rs[m].path| > 0
    ensures CombineAll(start, rs).CurveError?
    decreases |rs|
  {
    var prefix := rs[..|rs| - 1];
    if k == |rs| - 1 {
      CombineAllShape(start, prefix);
    } else {
      assert prefix[k] == rs[k];
      CombineAllNested(start, prefix, k);
    }
  }

  /** The `coalesce` loop finds a result that is not empty whenever one exists, and it is one of them. */
  lemma {:induction false} FirstFoundIsFirst(rs: seq<ZoomCurve>, j: nat)
    ensures FirstFound(rs, j).NoCurve? <==> forall k :: j <= k < |rs| ==> rs[k].NoCurve?
    ensures !FirstFound(rs, j).NoCurve? ==> exists k :: j <= k < |rs| && FirstFound(rs, j) == rs[k]
    decreases |rs| - j
  {
    if j < |rs| && rs[j].NoCurve? {
      FirstFoundIsFirst(rs, j + 1);
    }
  }

  /** Every child result of a node is its child's result under the child's index. */
  lemma {:induction false} ChildCurvesAt(e: Expr, k: nat)
    requires k < |Children(e)|
    ensures ChildCurves(e)[k] == Under(k, ZoomCurveOf(Children(e)[k]))
  {
  }

  /** The search comes back empty exactly when the tree holds no zoom curve node. */
  lemma {:induction false} NoCurveIffNoZoomCurve(e: Expr)
    ensures ZoomCurveOf(e).NoCurve? <==> !HasZoomCurve(e)
    decreases Size(e)
  {
    var cs := Children(e);
    var rs := ChildCurves(e);
    forall k | 0 <= k < |cs|
      ensures rs[k].NoCurve? <==> !HasZoomCurve(cs[k])
    {
      ChildCurvesAt(e, k);
      NoCurveIffNoZoomCurve(cs[k]);
    }
    var start := StartOf(e, rs);
    CombineAllEmpty(start, rs);
    if e.Coalesce? {
      FirstFoundIsFirst(rs, 0);
    }
  }

  /** A curve the search finds is a `step` or `interpolate` node over `zoom`. */
  lemma {:induction false} FoundCurveIsZoomCurve(e: Expr)
    ensures ZoomCurveOf(e).Curve? ==> IsZoomCurveNode(ZoomCurveOf(e).node)
    decreases Size(e)
  {
    var cs := Children(e);
    var rs := ChildCurves(e);
    var start := StartOf(e, rs);
    CombineAllShape(start, rs);
    if ZoomCurveOf(e).Curve? {
      assert start.Curve?;
      if e.Let? {
        ChildCurvesAt(e, |cs| - 1);
        FoundCurveIsZoomCurve(cs[|cs| - 1]);
      } else if e.Coalesce? {
        FirstFoundIsFirst(rs, 0);
        var k :| 0 <= k < |rs| && FirstFound(rs, 0) == rs[k];
        ChildCurvesAt(e, k);
        FoundCurveIsZoomCurve(cs[k]);
      }
    }
  }

  /**
   * Outside `let` and `coalesce`, a zoom curve anywhere below a node makes the search fail: a curve is
   * only accepted at the top level.
   */
  lemma {:induction false} NestedCurveIsError(e: Expr, k: nat)
    requires !e.Let? && !e.Coalesce?
    requires k < |Children(e)| && HasZoomCurve(Children(e)[k])
    ensures ZoomCurveOf(e).CurveError?
  {
    var cs := Children(e);
    var rs := ChildCurves(e);
    ChildCurvesAt(e, k);
    NoCurveIffNoZoomCurve(cs[k]);
    forall m | 0 <= m < |rs| && rs[m].Curve?
      ensures |rs[m].path| > 0
    {
      ChildCurvesAt(e, m);
    }
    CombineAllNested(StartOf(e, rs), rs, k);
  }
}
