/** The parts of a style property's specification that decide which expressions it accepts. */
module Properties {
  import opened Wrappers
  import opened Values

  /** The `expression` member of a property specification. */
  datatype ExpressionSpec = ExpressionSpec(interpolated: Value, parameters: seq<string>)

  /**
   * A property specification: its `type` (with `value` and `length` for arrays, `values` for enums),
   * its `default`, its `property-type` and its `expression` member, each possibly absent.
   */
  datatype PropertySpec = PropertySpec(
    typeName: string,
    itemTypeName: Option<string>,
    length: Option<nat>,
    values: Option<seq<Value>>,
    default: Value,
    propertyType: Option<string>,
    expression: Option<ExpressionSpec>
  )

  /** `supportsPropertyExpression`: data-driven properties accept feature-dependent expressions. */
  predicate SupportsPropertyExpression(spec: PropertySpec) {
    spec.propertyType == Some("data-driven") || spec.propertyType == Some("cross-faded-data-driven")
  }

  /** `supportsZoomExpression`: the expression member lists 'zoom' among its parameters. */
  predicate SupportsZoomExpression(spec: PropertySpec) {
    spec.expression.Some? && "zoom" in spec.expression.value.parameters
  }

  /** `supportsInterpolation`: the expression member's `interpolated` flag is truthy. */
  predicate SupportsInterpolation(spec: PropertySpec) {
    spec.expression.Some? && Truthy(spec.expression.value.interpolated)
  }

  lemma NoExpressionMemberSupportsNeither(spec: PropertySpec)
    requires spec.expression.None?
    ensures !SupportsZoomExpression(spec) && !SupportsInterpolation(spec)
  {
  }
}
