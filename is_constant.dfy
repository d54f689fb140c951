/**
 * The constantness analyses: whole-tree predicates, each the node's own check AND the
 * predicate on every child.
 */
module IsConstant {
  import opened Ast

  predicate StartsWith(s: string, prefix: string) {
    |prefix| <= |s| && s[..|prefix|] == prefix
  }

  /** The node itself reads the feature: one-argument `get`/`has`, `feature-state`, `properties`, `geometry-type`, `id`, any `filter-*`. */
  predicate ReadsFeature(e: Expr) {
    e.Compound? &&
    ((e.name == "get" && |e.args| == 1)
     || e.name == "feature-state"
     || (e.name == "has" && |e.args| == 1)
     || e.name == "properties" || e.name == "geometry-type" || e.name == "id"
     || StartsWith(e.name, "filter-"))
  }

  /** `isFeatureConstant(e)`. */
  predicate IsFeatureConstant(e: Expr)
    decreases Size(e)
  {
    !ReadsFeature(e) &&
    var cs := Children(e);
    forall i :: 0 <= i < |cs| ==> IsFeatureConstant(cs[i])
  }

  /** `isStateConstant(e)`. */
  predicate IsStateConstant(e: Expr)
    decreases Size(e)
  {
    !(e.Compound? && e.name == "feature-state") &&
    var cs := Children(e);
    forall i :: 0 <= i < |cs| ==> IsStateConstant(cs[i])
  }

  /** `isGlobalPropertyConstant(e, properties)`. */
  predicate IsGlobalPropertyConstant(e: Expr, properties: seq<string>)
    decreases Size(e)
  {
    !(e.Compound? && e.name in properties) &&
    var cs := Children(e);
    forall i :: 0 <= i < |cs| ==> IsGlobalPropertyConstant(cs[i], properties)
  }

  /** The tree holds a compound whose name is one of `names`, at the root or below. */
  predicate ContainsCompound(e: Expr, names: seq<string>)
    decreases Size(e)
  {
    (e.Compound? && e.name in names) ||
    var cs := Children(e);
    exists i :: 0 <= i < |cs| && ContainsCompound(cs[i], names)
  }

  /** `isGlobalPropertyConstant(e, names)` is false exactly when the tree holds a compound named in `names`. */
  lemma {:induction false} GlobalPropertyConstantIff(e: Expr, names: seq<string>)
    ensures IsGlobalPropertyConstant(e, names) <==> !ContainsCompound(e, names)
    decreases Size(e)
  {
    var cs := Children(e);
    forall i | 0 <= i < |cs| ensures IsGlobalPropertyConstant(cs[i], names) <==> !ContainsCompound(cs[i], names) {
      GlobalPropertyConstantIff(cs[i], names);
    }
  }

  /** `isStateConstant(e)` is false exactly when the tree holds a `feature-state` compound. */
  lemma {:induction false} StateConstantIff(e: Expr)
    ensures IsStateConstant(e) <==> !ContainsCompound(e, ["feature-state"])
    decreases Size(e)
  {
    var cs := Children(e);
    forall i | 0 <= i < |cs| ensures IsStateConstant(cs[i]) <==> !ContainsCompound(cs[i], ["feature-state"]) {
      StateConstantIff(cs[i]);
    }
  }

  /** A tree that depends on feature state depends on the feature: `feature-state` falsifies both predicates. */
  lemma {:induction false} StateDependentIsFeatureDependent(e: Expr)
    requires !IsStateConstant(e)
    ensures !IsFeatureConstant(e)
    decreases Size(e)
  {
    if !(e.Compound? && e.name == "feature-state") {
      var cs := Children(e);
      var i :| 0 <= i < |cs| && !IsStateConstant(cs[i]);
      StateDependentIsFeatureDependent(cs[i]);
    }
  }

  /** Two-argument `get` and `has` (an explicit object) do not by themselves read the feature. */
  lemma ExplicitObjectLookupIsFeatureConstant(name: string, ty: Types.Type, k: nat, key: Expr, obj: Expr)
    requires name == "get" || name == "has"
    requires IsFeatureConstant(key) && IsFeatureConstant(obj)
    ensures IsFeatureConstant(Compound(name, ty, k, [key, obj]))
  {
    var e := Compound(name, ty, k, [key, obj]);
    assert Children(e) == [key, obj];
  }

  /** A childless node is constant unless its own check fails. */
  lemma LeafConstantness(e: Expr, names: seq<string>)
    requires Children(e) == []
    ensures IsFeatureConstant(e) == !ReadsFeature(e)
    ensures IsStateConstant(e) == !(e.Compound? && e.name == "feature-state")
    ensures IsGlobalPropertyConstant(e, names) == !(e.Compound? && e.name in names)
  {
  }
}
