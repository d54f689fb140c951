# Style expressions: a Dafny model of the expression core

This project models the core of the style-expression language of a map renderer, written in Dafny with its properties proved. A style property's value may be an expression: a JSON-like array such as `["interpolate", ["linear"], ["zoom"], 0, 1, 10, 5]`. The library:

- parses it against the type the property expects, recording typed errors at their positions;
- folds constant sub-expressions into literals;
- evaluates it against a map feature and the camera's globals, falling back to the property's default value;
- classifies it as constant, source, camera or composite, depending on whether it reads feature data and whether it has a zoom curve.

Modules, following the library's files:

| module | file | models |
|---|---|---|
| `Values` | `values.dfy` | the runtime values, `validateRGBA`, `isValue`, `typeOf`, `toString`, plain-object reads |
| `Formatted` | `formatted.dfy` | formatted text and its sections |
| `GetOwn` | `get_own.dfy` | the own-property read |
| `Properties` | `properties.dfy` | the three `supports*` tests on a property specification |
| `Types` | `types.dfy` | the type kinds, the subtype relation and the rendering of types in messages |
| `Ast` | `ast.dfy` | the typed expression tree and `eachChild` |
| `Context` | `context.dfy` | the evaluation context (a class; the colour cache is a field it updates) and the host services |
| `IsConstant` | `is_constant.dfy` | `isFeatureConstant`, `isStateConstant`, `isGlobalPropertyConstant` |
| `Definitions` | `definitions.dfy` | the registry, the compound builtins' signatures, `CompoundExpression.register` (a class), `rgba`, `has`, `get`, `binarySearch` (a loop), `round`, the `+` and `*` loops, the filter comparisons |
| `Parsing` | `parsing.dfy` | the parsing context (shared error list as a class), `concat`, `error`, `checkSubtype`, `annotate` and the expected-type step, `isConstant`, the registry lookup |
| `Parser` | `parser.dfy` | `parse`/`_parse` and the `parse` of every node kind of the core, as mutually recursive methods with loops |
| `MatchForm` | `match_form.dfy` | `match` label validation, the case table, branch selection, and the grouping loop of its `serialize` |
| `Curves` | `curves.dfy` | the stop search and selection of `step`/`interpolate`, interpolation kinds, `interpolationFactor`, `exponentialInterpolation` |
| `Evaluate` | `evaluate.dfy` | `evaluate` of every node kind of the core, with the loops of `Assertion`, `Coercion`, `all` and `any` as methods proved equal to the functional evaluator |
| `EvaluateLaws` | `evaluate_laws.dfy` | what evaluation promises: first fit, throwing for the last argument, short circuits, folds, stop selection, interpolation between stops |
| `Serialize` | `serialize.dfy` | `serialize` of the node kinds of the core |
| `ZoomCurves` | `zoom_curve.dfy` | `findZoomCurve` as a recursive method proved against a functional reference |
| `StyleExpressions` | `index.dfy` | `getExpectedType`, `getDefaultValue`, `StyleExpression` (a class with its warning history), `isExpression`, `createExpression`, `createPropertyExpression`, `interpolationFactor` |
| `Text`, `Wrappers` | `text.dfy`, `wrappers.dfy` | decimal rendering, joining, string order and sorting; `Option` and `Result` |

Parsing methods take the context whose error list they append to. Each states the same effect with `Outcome`:
- errors are only appended;
- every new error is keyed at or below the parsed position;
- the parse succeeds exactly when it appends none.

The JavaScript host stays abstract. `Js` and `Host` are parameters for:
- number formatting, `JSON.stringify`, `Number(string)` and relational comparison;
- `Color.parse` and the `Math` functions;
- colour and number blending, the exponential ratio and the unit-bezier solver;
- case mapping and collator locales.

## Model

| member | source | states |
|---|---|---|
| Values.ValidateRGBA | lib/expression/values.js:20-43 | no message exactly when r, g, b are numbers in [0, 255] and a is undefined or a number in [0, 1]; a bad channel gives the channel message (listing a only when it is a number) before any alpha message |
| Values.IsValueOf | lib/expression/values.js:45-84 | the early-exit loops over array items and object fields return exactly `IsValue(v)` |
| Values.TypeOfValue | lib/expression/values.js:86-127 | the item loop with its accumulator and `break` computes `TypeOf(v)` |
| Values.TypeOfUniformArray | lib/expression/values.js:108-123 | an array whose items all share one scalar type `t` has type `array<t, N>` with N its length |
| Values.TypeOfEmptyArray | lib/expression/values.js:123 | an empty array has type `array<value, 0>` |
| Values.TypeOfMismatchedArray | lib/expression/values.js:112-120 | once an item's type is not identical to the first's, the item type widens to `value` whatever follows |
| Values.TypeOfArrayLength | lib/expression/values.js:109-123 | the N of an inferred array type is the array's length |
| Values.ToString | lib/expression/values.js:129-141 | null renders as the empty string, a string as itself, formatted text as its sections' texts |
| Values.Lookup | lib/expression/definitions/index.js:82 | a plain-object read gives the own value, else an inherited `Object.prototype` member, else undefined |
| Values.ToNumber | lib/expression/definitions/coercion.js:85 | `Number(v)` is v for a number, 0 for null, NaN for undefined |
| Formatted.NewSection | lib/expression/types/formatted.js:1-7 | a section keeps its text and scale, and an omitted font stack is null |
| Formatted.SectionWithoutFontStack | lib/expression/types/formatted.js:2 | the font stack defaults to null |
| Formatted.FromString | lib/expression/types/formatted.js:14-16 | one unstyled section holding the whole string |
| Formatted.ToString | lib/expression/types/formatted.js:18-20 | the result's length is the sum of the sections' text lengths |
| Formatted.ConcatLength | lib/expression/types/formatted.js:18-20 | the joined text is as long as the sections' texts together |
| Formatted.ConcatAppend | lib/expression/types/formatted.js:18-20 | joining the texts of two runs of sections is the concatenation of the two joins |
| Formatted.FromStringRoundTrip | lib/expression/types/formatted.js:14-20 | `fromString(s).toString()` is `s` |
| GetOwn.GetOwn | lib/util/get_own.js:1-3 | an own key gives its value, any other key undefined |
| GetOwn.FalsyOwnValuesReturned | lib/util/get_own.js:2 | falsy own values come back unchanged |
| GetOwn.InheritedKeysAreNotOwn | lib/util/get_own.js:2 | a name only `Object.prototype` has gives undefined, although a plain read would find the inherited member |
| GetOwn.OwnKeyShadowsPrototype | lib/util/get_own.js:2 | an own key named like a prototype member gives the own value, as a plain read does |
| Properties.NoExpressionMemberSupportsNeither | lib/util/properties.js:5-11 | a specification without an `expression` member supports neither zoom expressions nor interpolation |
| Types.CheckSubtype | lib/expression/parsing_context.js:170-171 | no message exactly when `t` is a subtype of `expected`; otherwise the "Expected …, but found … instead." message |
| Types.SubtypeReflexive | lib/expression/definitions/match.js:66 | every type is a subtype of itself, so an output type fixed by the first output accepts that output |
| Types.SubtypeTransitive | lib/expression/parsing_context.js:170-174 | the subtype relation is transitive |
| Types.ValueIsUniversal | lib/expression/definitions/match.js:70 | every type fits where `value` is expected |
| Types.KindDeterminesScalarType | lib/expression/index.js:295-309 | two non-array types of the same kind are the same type |
| Ast.Children | lib/expression/compound_expression.js:17-19 | `eachChild` yields only sub-expressions strictly smaller than the node |
| Context.GeometryTypeName | lib/expression/evaluation_context.js:17-23 | a numeric geometry type names a geometry exactly when it is an integer index 0 to 3 |
| Context.EvaluationContext.constructor | lib/expression/evaluation_context.js:6-11 | no globals, no feature, no feature state and an empty colour cache |
| Context.EvaluationContext.Id | lib/expression/evaluation_context.js:13-15 | the feature's id when there is a feature with one, null otherwise |
| Context.EvaluationContext.GeometryType | lib/expression/evaluation_context.js:17-23 | null without a feature; a numeric type is mapped through the geometry names; any other type is returned as it is |
| Context.EvaluationContext.Properties | lib/expression/evaluation_context.js:25-27 | the feature's properties, or an empty object when the feature or its properties are missing |
| Context.EvaluationContext.ParseColor | lib/expression/evaluation_context.js:29-35 | the result is what the parser gives for the input; a cache that agrees with the parser keeps agreeing; the cache gains exactly the entry for the input; the parser is asked only when no colour was cached |
| Context.EvaluationContext.SetInputs | lib/expression/index.js:42-44 | globals, feature and feature state are overwritten and nothing else changes |
| Context.CachedAsWrittenReturnsPrototypeMember | lib/expression/evaluation_context.js:30-31 | as written, `toString` on a fresh context yields a truthy inherited member that is not a colour |
| IsConstant.GlobalPropertyConstantIff | lib/expression/is_constant.js:46-57 | false exactly when the tree holds a compound named in the list, at the root or below |
| IsConstant.StateConstantIff | lib/expression/is_constant.js:31-44 | false exactly when the tree holds a `feature-state` compound |
| IsConstant.StateDependentIsFeatureDependent | lib/expression/is_constant.js:3-44 | a tree that is not state-constant is not feature-constant either |
| IsConstant.ExplicitObjectLookupIsFeatureConstant | lib/expression/is_constant.js:5-13 | two-argument `get` and `has` over feature-constant operands are feature-constant |
| IsConstant.LeafConstantness | lib/expression/is_constant.js:3-57 | a childless node is constant for each analysis exactly when its own check passes |
| Definitions.CompoundEntries | lib/expression/compound_expression.js:117-119 | the entries added name exactly the defined builtins, each mapped to the compound kind |
| Definitions.AssertionForms | lib/expression/definitions/index.js:32-63 | `array`, `boolean`, `number`, `object` and `string` are sent to the assertion form |
| Definitions.CoercionForms | lib/expression/definitions/index.js:58-61 | the four `to-*` names are sent to the coercion form |
| Definitions.CurveForms | lib/expression/definitions/index.js:32-63 | the three interpolation operators are sent to `Interpolate`, and `match` and `step` to their forms |
| Definitions.GlobalStateNotRegistered | lib/expression/definitions/index.js:32-63 | `global-state` is not one of the registered special forms |
| Definitions.CompoundRegistry.constructor | lib/expression/compound_expression.js:114-116 | no definitions yet; the registry is the given table |
| Definitions.CompoundRegistry.Register | lib/expression/compound_expression.js:114-120 | allowed once; stores the definitions; every defined name maps to the compound kind; every other entry is kept |
| Definitions.RegisterBuiltins | lib/expression/definitions/index.js:100 | registering the builtins into the special-form table yields the registry and the definitions the rest of the model uses |
| Definitions.Rgba | lib/expression/definitions/index.js:67-75 | fails exactly when validation fails (with its message); otherwise the channels are divided by 255 and premultiplied by alpha |
| Definitions.RgbaInRange | lib/expression/definitions/index.js:67-75 | a colour built by `rgba` has every channel in [0, alpha] and alpha in [0, 1] |
| Definitions.Has | lib/expression/definitions/index.js:77-79 | `key in obj` over own and inherited names |
| Definitions.Get | lib/expression/definitions/index.js:81-84 | an own defined value is returned; an absent name gives null; the result is never undefined |
| Definitions.HasAgreesWithGet | lib/expression/definitions/index.js:77-84 | `has` is true exactly when the read that `get` performs finds something other than undefined |
| Definitions.BinarySearch | lib/expression/definitions/index.js:86-94 | the narrowing loop computes the recursive search over the window [i, j] |
| Definitions.InLargeSearchSound | lib/expression/definitions/index.js:86-94 | the search reports true only when some element in the window is strictly equal to the value |
| Definitions.InLargeSearchComplete | lib/expression/definitions/index.js:285-290 | on values of a single type, numbers or strings, in ascending order, a value present in the window is found |
| Definitions.StringProbe | lib/expression/definitions/index.js:86-94 | in an ascending list of strings, a probed element other than the sought one is greater exactly when it lies after it |
| Definitions.MathRound | lib/expression/definitions/index.js:195 | `Math.round`: an integer within 0.5 of x, halves rounded up |
| Definitions.Round | lib/expression/definitions/index.js:187-197 | an integer within 0.5 of v; a halfway value goes away from zero |
| Definitions.RoundOdd | lib/expression/definitions/index.js:195 | rounding is odd: `round(-v) == -round(v)` |
| Definitions.HalfwayNegated | lib/expression/definitions/index.js:192-195 | a value halfway between integers stays halfway when negated |
| Definitions.SumAppend | lib/expression/definitions/index.js:139-149 | the `+` fold splits over any division of its operands |
| Definitions.ProductAppend | lib/expression/definitions/index.js:150-160 | the `*` fold splits over any division of its operands |
| Definitions.AddAll | lib/expression/definitions/index.js:142-148 | the accumulator loop from 0 computes the sum |
| Definitions.MultiplyAll | lib/expression/definitions/index.js:153-159 | the accumulator loop from 1 computes the product |
| Definitions.FilterCompareTypes | lib/expression/definitions/index.js:203-274 | operands of different `typeof` never compare; two numbers compare as numbers |
| Parsing.ErrorSink.constructor | lib/expression/parsing_context.js:23 | a new error list is empty |
| Parsing.ErrorSink.Push | lib/expression/parsing_context.js:163 | appends one error |
| Parsing.ErrorSink.PushAll | lib/expression/compound_expression.js:96 | appends the given errors in order |
| Parsing.Part | lib/expression/parsing_context.js:26 | a path step renders as `[n]` |
| Parsing.KeyAppend | lib/expression/parsing_context.js:26 | the key of a longer path is the key of its prefix followed by the key of the rest |
| Parsing.ReportedUnderAppend | lib/expression/compound_expression.js:95-96 | errors collected below a path stay below it when appended to another list |
| Parsing.ReportedUnderParent | lib/expression/parsing_context.js:148-152 | errors reported below a child's path are below its parent's |
| Parsing.ReportedUnderChain | lib/expression/parsing_context.js:161-164 | two runs of reports below one path compose |
| Parsing.Concat | lib/expression/parsing_context.js:148-152 | the child context shares the error list, carries the new expected type, and has the parent's key extended by `[index]` |
| Parsing.Error | lib/expression/parsing_context.js:161-164 | appends one error keyed at the context's key extended by the keys given |
| Parsing.CheckSubtypeIn | lib/expression/parsing_context.js:170-174 | returns no message exactly when `t` fits; a mismatch is both returned and recorded at the context's key |
| Parsing.Annotated | lib/expression/parsing_context.js:51-59 | `assert` wraps in an assertion, `coerce` in a coercion, anything else leaves the node |
| Parsing.TypeChecked | lib/expression/parsing_context.js:82-111 | the result fits the expected type unless annotations are omitted; a node that already fits is kept; the step fails exactly when the node neither fits nor can be asserted or coerced, and then with the subtype message; a `value`-kind node expected as string, number, boolean, object or array is wrapped in an assertion (by default) and one of kind `value` or `string` expected as a color or formatted is wrapped in a coercion (by default) |
| Parsing.ConstantNodeReadsNothing | lib/expression/parsing_context.js:177-216 | a folded node is feature-constant, holds no zoom, heatmap-density, line-progress or is-supported-script reader, and is not `error` |
| Parsing.ErrorIsNeverConstant | lib/expression/parsing_context.js:181-183 | the `error` builtin is never folded |
| Parsing.AnnotatedLiteralIsConstant | lib/expression/parsing_context.js:191-207 | an assertion or coercion over a literal is folded |
| Parsing.LookupAsWritten | lib/expression/parsing_context.js:77 | a registered name gives its form; an unregistered name gives a prototype member exactly when `Object.prototype` has it |
| Parsing.Lookup | lib/expression/parsing_context.js:77-78 | finds a form exactly when the registry has the name, and then that entry |
| Parsing.PrototypeNameFoundAsWritten | lib/expression/parsing_context.js:77-79 | as written `constructor` finds an inherited member of the registry; the intended lookup finds nothing |
| Parsing.LookupsAgreeOffPrototype | lib/expression/parsing_context.js:77-78 | both lookups agree on every name `Object.prototype` does not have |
| Parsing.ConstructorNotRegistered | lib/expression/definitions/index.js:32-63 | `constructor` is not a name of the registry |
| Parsing.ConstructorNotDefined | lib/expression/definitions/index.js:100-336 | `constructor` is not a compound definition |
| Parser.ScalarType | lib/expression/parsing_context.js:47-49 | the literal type of a scalar is its `typeOf` |
| Parser.InstalledRegistersLiteral | lib/expression/definitions/index.js:32-63 | a context holding the registry of the library has `literal` registered |
| Parser.Positions | lib/expression/compound_expression.js:53-71 | the argument positions 0 to n - 1, in order |
| Parser.LiteralIsRegistered | lib/expression/definitions/index.js:32-63 | the registry sends `literal` to the literal form |
| Parser.Parse | lib/expression/parsing_context.js:39-44 | Outcome; a truthy index parses in the child context; a result that is not a literal comes from the expected-type step with the annotation given; the result fits the expected type; a fitting scalar or `["literal", scalar]` gives that literal; an unregistered operator gives exactly one "Unknown expression" error at `[0]` |
| Parser.ParseIn | lib/expression/parsing_context.js:46-138 | Outcome; the result fits the context's expected type; a result that is not a literal is what the expected-type step made, with the annotation given, of some parsed node; literal and unknown-operator cases as for `Parse` |
| Parser.ParseNode | lib/expression/parsing_context.js:47-79 | Outcome; a scalar becomes a literal; an unknown operator, undefined, a bare object and any other non-array each get their own message |
| Parser.ParseArray | lib/expression/parsing_context.js:61-79 | Outcome; the empty array, a non-string operator (at `[0]`) and an unknown operator (at `[0]`) each give exactly one error with the source's message |
| Parser.Finish | lib/expression/parsing_context.js:82-126 | Outcome; a failed type check records its message; a literal or a non-constant node is returned as checked; a folded node becomes a literal of the node's type; any result that is not a literal is the checked node |
| Parser.ParseForm | lib/expression/parsing_context.js:79 | Outcome; the registry entry's `parse` runs, and the literal form gives the literal |
| Parser.ParseLiteral | lib/expression/parsing_context.js:48 | Outcome; a scalar operand gives a literal of its own type |
| Parser.Applicable | lib/expression/compound_expression.js:41-45 | exactly the overloads that are variadic or have as many parameters as arguments, in declaration order |
| Parser.StringifySignature | lib/expression/compound_expression.js:123-128 | parenthesised; a variadic signature renders as `(type...)` |
| Parser.ParseCompound | lib/expression/compound_expression.js:29-112 | Outcome; an undefined name gives "Unknown expression" at `[0]`; on success the node is a compound of that name and result type, with an applicable overload that accepts every parsed argument; the ghost `trials` holds one non-empty error list per applicable overload tried before it (`TriedInOrder`), so the winner is the first applicable overload, in declaration order, whose arguments parse, and with no winner every applicable overload was tried; with a single candidate its own errors are what is reported |
| Parser.FirstAccepted | lib/expression/compound_expression.js:47-91 | the candidates are tried in order and every recorded trial failed (`TriedInOrder`); a winner is the candidate right after them and accepts its parsed arguments; with no winner all were tried, and the last trial's errors are returned |
| Parser.TryOverload | lib/expression/compound_expression.js:52-90 | uses a fresh error list; succeeds exactly when that list stays empty; its errors lie below the path; success means every argument fits its parameter |
| Parser.ReportMismatch | lib/expression/compound_expression.js:97-109 | at least one error is appended, all below the path |
| Parser.AssertionHeader | lib/expression/definitions/assertion.js:19-51 | fewer than two elements is the argument-count error; a named type asserts that type from operand 1; `array` with one operand asserts `array<value>` without a length; an item type is accepted exactly when it names string, number or boolean (never object), else the item-type error at key 1; with three or more operands a length is accepted exactly when it is null or a non-negative integer, else the length error at key 2, and the length asserted is the number written |
| Parser.ParseAssertion | lib/expression/definitions/assertion.js:19-61 | Outcome; header errors are recorded at their keys; on success an assertion of the header's type over the remaining operands |
| Parser.ParseCoercion | lib/expression/definitions/coercion.js:28-47 | Outcome; the count errors with their messages; on success a coercion of the named type over all operands, exactly one for `to-boolean` and `to-string` |
| Parser.ParseLength | lib/expression/definitions/length.js:11-21 | Outcome; the count error; on success a length over an input of array, string or value kind |
| Parser.ParseGlobalState | lib/expression/definitions/global_state.js:10-26 | Outcome; succeeds exactly for one string operand, with each error message of the source otherwise |
| Parser.ParseMatch | lib/expression/definitions/match.js:17-83 | Outcome; the count and parity errors; on success one output per label group, every case in range, every output and `otherwise` fitting the output type, the input fitting the label type unless it is `value`, and the expected type kept |
| Parser.FinishMatch | lib/expression/definitions/match.js:70-82 | Outcome; the input, then `otherwise` against the output type, then the input's type against the label type |
| Parser.ParseMatchBranches | lib/expression/definitions/match.js:21-68 | Outcome; one output per group, every case in range, every output fitting the output type, which is the expected type when there is one |
| Parser.AddBranchLabels | lib/expression/definitions/match.js:36-62 | equals the pure label loop; a rejection is recorded at the group's position; an accepted group only adds keys for this output |
| Parser.ParseStep | lib/expression/definitions/step.js:17-68 | Outcome; count and parity errors; on success labels strictly ascending from -Infinity, each later label the literal number written, outputs fitting the output type, the input a number |
| Parser.LabelLessTransitive | lib/expression/definitions/step.js:54 | appending a label above the last keeps labels strictly ascending |
| Parser.ParseInterpolate | lib/expression/definitions/interpolate.js:36-125 | Outcome; an invalid interpolation kind is recorded at its keys; on success the kind read, stops strictly ascending and equal to the literals written, an interpolatable output type that every output fits (colour for hcl and lab), a numeric input |
| Parser.ParseInterpolateStops | lib/expression/definitions/interpolate.js:96-108 | Outcome; strictly ascending stops equal to the literals written, outputs fitting the output type, which is the one given when there is one |
| MatchForm.LabelError | lib/expression/definitions/match.js:41-50 | a label passes exactly when it is a string or a safe integer; a non-number non-string gets the type message |
| MatchForm.LabelGroup | lib/expression/definitions/match.js:29-34 | a list is its labels; a bare label is a list of one |
| MatchForm.AddGroup | lib/expression/definitions/match.js:37-39 | an empty group is rejected with its message |
| MatchForm.PrototypeLabelRejectedAsWritten | lib/expression/definitions/match.js:57-59 | as written `"constructor"` is rejected as a duplicate on an empty table; with the intended test it is accepted |
| MatchForm.KeyInjective | lib/expression/definitions/match.js:57-61 | two valid labels of one type with the same key are the same label |
| MatchForm.AddLabelsAcceptsIff | lib/expression/definitions/match.js:41-62 | with the intended test, a group of valid labels of the label type is accepted exactly when its labels are pairwise distinct and none is already in the table |
| MatchForm.AddLabelsTable | lib/expression/definitions/match.js:61 | an accepted group maps each of its keys to its output, keeps every earlier entry and adds nothing else |
| MatchForm.FreshAfterAdd | lib/expression/definitions/match.js:57-61 | once a label is added, a later label is fresh exactly when it was fresh before and is a different label |
| MatchForm.MatchBranch | lib/expression/definitions/match.js:85-89 | a selected branch exists and is the table's entry for the input's key; a failed type inference is an error |
| MatchForm.LabelSelectsItsBranch | lib/expression/definitions/match.js:87 | a label as input selects the branch the table sends it to |
| MatchForm.GroupedOutputs | lib/expression/definitions/match.js:110-122 | groups come in the order their outputs first appear among the sorted labels |
| MatchForm.Outputs | lib/expression/definitions/match.js:110-122 | the outputs of the groups, in group order |
| MatchForm.LabelOutputs | lib/expression/definitions/match.js:112 | the output each label leads to, in label order |
| MatchForm.Dedup | lib/expression/definitions/match.js:110-122 | the distinct outputs, each once, exactly those that occur |
| MatchForm.FindGroup | lib/expression/definitions/match.js:113-120 | a position found holds a group for the output; none is found exactly when no group has it |
| MatchForm.GroupedMembers | lib/expression/definitions/match.js:110-122 | no group is empty, and every label in a group leads to that group's output |
| MatchForm.GroupedCovers | lib/expression/definitions/match.js:110-122 | every label is in the group of its output |
| MatchForm.GroupByOutput | lib/expression/definitions/match.js:110-122 | the loop with its output-to-position table computes the grouping |
| MatchForm.CoerceLabelRoundTrip | lib/expression/definitions/match.js:124 | a valid label comes back from its key unchanged |
| MatchForm.GroupLabels | lib/expression/definitions/match.js:127-133 | one label is written bare; several as a list of the same length |
| Curves.FinitesAscending | lib/expression/definitions/interpolate.js:96-108 | strictly ascending numbers are strictly ascending labels |
| Curves.FindStopIn | lib/expression/definitions/step.js:88 | the index found is in the window, its label at or below the input and the next label above it |
| Curves.StopIndexUnique | lib/expression/definitions/step.js:88 | under strictly ascending labels, that index is unique |
| Curves.FindStopAt | lib/expression/definitions/interpolate.js:145-147 | strictly inside numeric stops, the search finds the stop whose bracket holds the input |
| Curves.SelectStopLaw | lib/expression/definitions/step.js:70-90 | the stop selected is the last whose label is at or below the input, or the first when the input is at or below every label |
| Curves.SelectStop | lib/expression/definitions/step.js:70-90 | the selected stop is one of the stops |
| Curves.SelectStopIsLastAtOrBelow | lib/expression/definitions/step.js:79-89 | a label is at or below the input exactly when its stop is at or before the selected one |
| Curves.StepFirstLabelBelowEverything | lib/expression/definitions/step.js:38 | the implicit first label is below every input |
| Curves.ParseInterpolation | lib/expression/definitions/interpolate.js:39-67 | a kind that is read is valid; reading succeeds exactly for an array headed by `"linear"`, one headed by `"exponential"` whose second element is a number, or `"cubic-bezier"` followed by exactly four numbers in [0, 1]; linear has base 1; a non-array or empty array fails with "Expected an interpolation type expression." at `[1]`, an unknown name with "Unknown interpolation type …" at `[1, 0]`; the other two names are passed on to their readers |
| Curves.ParseExponential | lib/expression/definitions/interpolate.js:45-51 | succeeds exactly when the second element is a number, and then the base is that number; otherwise the exponential-base error at `[1, 1]` |
| Curves.ParseCubicBezier | lib/expression/definitions/interpolate.js:52-64 | succeeds exactly when the operands are four numbers in [0, 1], and then the control points are those numbers in order; otherwise the cubic-bezier error at `[1]` |
| Curves.CubicBezierDispatch | lib/expression/definitions/interpolate.js:52 | an interpolation array headed by `cubic-bezier` is read by the cubic-bezier branch |
| Curves.InterpolationRoundTrip | lib/expression/definitions/interpolate.js:173-187 | reading back a serialised kind gives the kind again, except that base-1 exponential comes back as linear |
| Curves.CubicBezierRoundTrip | lib/expression/definitions/interpolate.js:184 | a cubic-bezier kind is written with its control points and read back as itself |
| Curves.LinearFactorBounds | lib/expression/definitions/interpolate.js:231-242 | the linear factor lies in [0, 1]; it is 0 at the lower stop and 1 at the upper one |
| Curves.LinearFactorMonotone | lib/expression/definitions/interpolate.js:231-242 | the linear factor grows with the input |
| Curves.InterpolationFactor | lib/expression/definitions/interpolate.js:22-34 | 0 for an unknown kind; the linear factor for linear and base-1 exponential |
| Evaluate.LengthOf | lib/expression/definitions/length.js:23-34 | a string's length counts UTF-16 code units: between its character count and twice that, and exactly the character count when no character lies above U+FFFF; an array's length is its item count; otherwise the error naming the type, and success exactly for strings and arrays |
| Evaluate.AstralCharacterCountsTwice | lib/expression/definitions/length.js:25-26 | `["length", "😀"]` is 2: a character above U+FFFF is a surrogate pair |
| Text.Utf16Length | lib/expression/definitions/length.js:25-26 | the UTF-16 length lies between the character count and twice it |
| Text.Utf16LengthOfBasicPlane | lib/expression/definitions/length.js:25-26 | the UTF-16 length is the character count exactly when no character lies above U+FFFF |
| Text.Utf16LengthAppend | lib/expression/definitions/length.js:25-26 | the UTF-16 length of a concatenation is the sum of the lengths |
| Evaluate.GlobalStateValue | lib/expression/definitions/global_state.js:28-34 | null without globals or with a missing or empty global state; otherwise the own property, undefined when absent |
| Evaluate.CoerceFirst | lib/expression/definitions/coercion.js:50-52 | truthiness for boolean; formatted text whose string is `toString(v)`; `toString(v)` otherwise |
| Evaluate.ColorAttempt | lib/expression/definitions/coercion.js:59-74 | a colour is kept; a string is parsed; only an array leaves a message behind |
| Evaluate.Arithmetic | lib/expression/definitions/index.js:139-197 | `+` is the sum, `*` the product, `-` difference or negation, `round` the rounding away from zero |
| Evaluate.InList | lib/expression/definitions/index.js:279-284 | a literal list operand gives whether the value is strictly equal to some element |
| Evaluate.UnaryBuiltin | lib/expression/definitions/index.js:101-108 | `error` throws its string; `typeof` renders the inferred type |
| Evaluate.GlobalNumber | lib/expression/definitions/index.js:136-138 | `zoom` reads the globals; `heatmap-density` and `line-progress` are 0 when falsy; no globals is an error |
| Evaluate.EvalNumbers | lib/expression/definitions/index.js:139-160 | evaluated numeric operands: one number per remaining argument |
| Evaluate.EvalValues | lib/expression/definitions/index.js:101-138 | evaluated operands: one value per remaining argument |
| Evaluate.EvaluateAssertion | lib/expression/definitions/assertion.js:63-79 | the early-return loop evaluates to the node's value |
| Evaluate.EvaluateToColor | lib/expression/definitions/coercion.js:53-79 | the loop updating `input` and `error` evaluates to the node's value |
| Evaluate.EvaluateToNumber | lib/expression/definitions/coercion.js:80-90 | the loop updating `value` evaluates to the node's value |
| Evaluate.EvaluateAllAny | lib/expression/definitions/index.js:291-320 | the early-exit loops of variadic `all` and `any` evaluate to the node's value |
| EvaluateLaws.AssertionReturnsFirstFit | lib/expression/definitions/assertion.js:63-69 | the first argument whose type fits is returned |
| EvaluateLaws.AssertionSkipsMisfits | lib/expression/definitions/assertion.js:65-69 | arguments whose type does not fit are passed over |
| EvaluateLaws.AssertionThrowsForLast | lib/expression/definitions/assertion.js:70-74 | when no argument fits, the error names the last argument's type |
| EvaluateLaws.NumberCoercionFirstConvertible | lib/expression/definitions/coercion.js:80-88 | null gives 0; otherwise the number of the first convertible argument |
| EvaluateLaws.NumberCoercionSkips | lib/expression/definitions/coercion.js:82-88 | arguments that do not convert to a number are passed over |
| EvaluateLaws.NumberCoercionThrowsForLast | lib/expression/definitions/coercion.js:89 | when nothing converts, the error quotes the last argument |
| EvaluateLaws.ColorCoercionFirstColor | lib/expression/definitions/coercion.js:56-74 | the colour of the first argument that yields one |
| EvaluateLaws.ColorCoercionSkips | lib/expression/definitions/coercion.js:56-74 | arguments that yield no colour are passed over, carrying the last one's message |
| EvaluateLaws.ColorCoercionReachesEnd | lib/expression/definitions/coercion.js:56-78 | when no argument yields a colour, the loop runs to the last argument |
| EvaluateLaws.ColorCoercionThrowsForLast | lib/expression/definitions/coercion.js:76-78 | when nothing yields a colour, the error is the message the last argument left, else the quoted last input |
| EvaluateLaws.AllShortCircuits | lib/expression/definitions/index.js:297-302 | false at the first falsy argument, true when all are truthy |
| EvaluateLaws.AllSkipsTruthy | lib/expression/definitions/index.js:297-302 | truthy arguments are passed over |
| EvaluateLaws.AnySkipsFalsy | lib/expression/definitions/index.js:312-317 | falsy arguments are passed over |
| EvaluateLaws.AnyShortCircuits | lib/expression/definitions/index.js:312-317 | true at the first truthy argument, false when none is |
| EvaluateLaws.SumAndProductFold | lib/expression/definitions/index.js:139-160 | `+` evaluates to the sum and `*` to the product of its operands |
| EvaluateLaws.NumbersOfNumbers | lib/expression/definitions/index.js:142-159 | numeric arguments evaluate to their numbers, in order |
| EvaluateLaws.RgbIsOpaque | lib/expression/definitions/index.js:67-75 | `rgb` throws exactly when validation with alpha 1 fails; otherwise an opaque colour of the scaled channels |
| EvaluateLaws.FilterComparisonNeedsSameTypeof | lib/expression/definitions/index.js:203-264 | an ordered filter comparison is false when the property and the literal differ in `typeof` |
| EvaluateLaws.MatchSelectsBranch | lib/expression/definitions/match.js:85-89 | an input that is a label of the label type selects its branch; anything else selects `otherwise` |
| EvaluateLaws.StepSingleStop | lib/expression/definitions/step.js:74-76 | a single stop is its output, and the input is not evaluated |
| EvaluateLaws.StepSelectsLastStopAtOrBelow | lib/expression/definitions/step.js:70-90 | an input selects the output of the last label at or below it |
| EvaluateLaws.InterpolateBoundaries | lib/expression/definitions/interpolate.js:131-143 | at or below the first stop the first output; at or beyond the last the last output |
| EvaluateLaws.InterpolateBetweenStops | lib/expression/definitions/interpolate.js:145-159 | strictly between stops, the bracketing outputs are blended by the bracket's factor; a linear factor lies in [0, 1] |
| EvaluateLaws.InterpolateSelectsBracket | lib/expression/definitions/interpolate.js:145-151 | strictly inside the stops, the bracket evaluated is the one around the input |
| EvaluateLaws.InterpolateAtNumber | lib/expression/definitions/interpolate.js:127-130 | over two or more stops, a numeric input is interpolated at its value |
| EvaluateLaws.InterpolateAtInterior | lib/expression/definitions/interpolate.js:145-151 | strictly inside the stops, the bracket taken is the one surrounding the input |
| EvaluateLaws.InterpolateAtSearch | lib/expression/definitions/interpolate.js:145-147 | strictly inside the stops, the bracket taken is the one the stop search finds |
| EvaluateLaws.InterpolateBlendsBracket | lib/expression/definitions/interpolate.js:145-159 | strictly inside the stops, the outputs of the bracketing stops are blended by the interpolation factor |
| Serialize.InterleaveRoundTrip | lib/expression/definitions/interpolate.js:189-191 | reading an interleaved list by position gives back its keys and outputs |
| Serialize.Parts | lib/expression/compound_expression.js:26 | one serialised part per child, in `eachChild` order |
| Serialize.CompoundLayout | lib/expression/compound_expression.js:25-27 | the name, then each argument serialised in order |
| Serialize.AssertionLayout | lib/expression/definitions/assertion.js:89-103 | the arguments follow the head; a primitive array writes its item kind, then its known length, or null when the length is unknown and there are several arguments, and nothing more with one argument and no length; any other type is written as its kind alone |
| Serialize.AssertionHeadRoundTrip | lib/expression/definitions/assertion.js:19-51 | for every type `Assertion.parse` builds, the head `serialize` writes parses back, before the same inputs, to the same type and first-input position |
| Serialize.StepLayout | lib/expression/definitions/step.js:103-112 | the input, the first output, then each later label and its output |
| Serialize.StepArrayLayout | lib/expression/definitions/step.js:103-112 | `"step"`, the input, the first output, then each later label followed by its output |
| Serialize.InterpolateLayout | lib/expression/definitions/interpolate.js:173-193 | the operator, the interpolation, the input, then each stop and its output |
| Serialize.InterpolateArrayLayout | lib/expression/definitions/interpolate.js:188-192 | the operator, the interpolation, the input, then each stop followed by its output |
| Serialize.CurveParts | lib/expression/definitions/step.js:92-97 | a curve's children are the input, then each output |
| Serialize.MatchGroupsPartition | lib/expression/definitions/match.js:106-122 | every key is in a group with its output; no group is empty or holds a label leading elsewhere; no output is written twice |
| Serialize.MatchGroupsInRange | lib/expression/definitions/match.js:110-122 | every group's output is an output of the node |
| Serialize.MatchTailLayout | lib/expression/definitions/match.js:126-135 | each group's labels are followed by that group's output |
| Serialize.MatchLayout | lib/expression/definitions/match.js:101-138 | "match", the input, the grouped labels and outputs, then `otherwise` |
| Serialize.SerializeHead | lib/expression/compound_expression.js:25-27 | a serialised node is a list headed by its operator |
| Serialize.HeadNamesItsKind | lib/expression/definitions/index.js:32-63 | the operator a node is written under reads back as the same node kind |
| ZoomCurves.FindZoomCurve | lib/expression/index.js:250-291 | the recursive walk returns the functional result `ZoomCurveOf(e)` |
| ZoomCurves.FindStart | lib/expression/index.js:252-266 | the result before the children are visited: from the `let` result, the `coalesce` arguments or the node itself |
| ZoomCurves.FindInArguments | lib/expression/index.js:254-260 | the `coalesce` loop returns the first argument result that is not empty |
| ZoomCurves.VisitChildren | lib/expression/index.js:273-288 | the `eachChild` visit folds every child's result into the result |
| ZoomCurves.NoCurveIffNoZoomCurve | lib/expression/index.js:250-291 | the search finds nothing exactly when the tree holds no zoom-based step or interpolate |
| ZoomCurves.FoundCurveIsZoomCurve | lib/expression/index.js:261-266 | a curve found is a step or interpolate over `zoom` |
| ZoomCurves.NestedCurveIsError | lib/expression/index.js:273-288 | outside `let` and `coalesce`, a zoom curve anywhere below a node makes the search fail |
| ZoomCurves.FirstFoundIsFirst | lib/expression/index.js:255-260 | the `coalesce` loop finds a non-empty result whenever one exists, and it is one of them |
| ZoomCurves.CombineAllEmpty | lib/expression/index.js:273-288 | the visits leave an empty result empty exactly when every child result is empty |
| ZoomCurves.CombineAllShape | lib/expression/index.js:273-288 | visiting children never adopts a child's curve: the result stays the start or becomes an error |
| StyleExpressions.SpecType | lib/expression/index.js:296-303 | exactly the six type names have an entry, each of its own kind, with enum as string |
| StyleExpressions.GetExpectedType | lib/expression/index.js:295-310 | a type exactly for arrays and the six names; an array of the item type (any value without an entry) and of the given length |
| StyleExpressions.GetDefaultValue | lib/expression/index.js:312-326 | never undefined; a colour property gets transparent black for a function default, the parsed colour, or null; any other property its default, null when missing |
| StyleExpressions.Settle | lib/expression/index.js:46-67 | an error, null or undefined gives the default; an enum result outside the values gives the default and the enum message; any other result is returned |
| StyleExpressions.WarnsAgreeOffPrototype | lib/expression/index.js:60 | the as-written and intended warning tests agree on every message that does not name a prototype member |
| StyleExpressions.PrototypeMessageNeverWarnedAsWritten | lib/expression/index.js:60-61 | `["error", "toString"]` fails with "toString", which as written is never warned about on a fresh history |
| StyleExpressions.StyleExpression.constructor | lib/expression/index.js:25-31 | keeps the expression, the default value and the enum values; empty history; a fresh evaluation context |
| StyleExpressions.StyleExpression.EvaluateWithoutErrorHandling | lib/expression/index.js:33-39 | the inputs are set and the result is the expression's value, errors included |
| StyleExpressions.StyleExpression.Evaluate | lib/expression/index.js:41-68 | the settled value; a caught message joins the history and is warned about exactly the first time |
| StyleExpressions.ConstructorIsExpressionAsWritten | lib/expression/index.js:71-78 | `["constructor"]` passes the test as written but names no registered form |
| StyleExpressions.CreateExpression | lib/expression/index.js:89-107 | failure carries errors; success fits the expected type, with the specification's default and enum values; a result that is not a literal is the top-level type check with `coerce` for a string property; a fitting literal succeeds as that literal; a value that is not an expression fails with "Unknown expression" at `[0]` |
| StyleExpressions.ParseStyle | lib/expression/index.js:90-104 | fails exactly when errors were recorded; a result that is not a literal is the expected-type step applied with `coerce` for a string property and by default otherwise; the other properties of `CreateExpression` |
| StyleExpressions.StringPropertyCoercesAtTopLevel | lib/expression/index.js:92-98 | a string property expects a string; a runtime-typed top-level node is wrapped in a coercion to string, where an enum property asserts it |
| StyleExpressions.Classify | lib/expression/index.js:160-198 | constant or camera exactly when feature-constant; camera or composite exactly when a curve was found; each kind of dependence needs the matching support; a failed search is rejected |
| StyleExpressions.NestedZoomCurveRejected | lib/expression/index.js:170-181 | a zoom curve below the top level, outside `let` and `coalesce`, gets the expression rejected |
| StyleExpressions.CurveLabels | lib/expression/index.js:128 | an interpolate curve's zoom stops are its stops |
| StyleExpressions.PropertyExpressionOf | lib/expression/index.js:109-134 | zoom-dependent exactly with a curve, with its labels as zoom stops and an interpolation type only for interpolate; state-dependent exactly when reading feature state and not constant or camera |
| StyleExpressions.CreatePropertyExpression | lib/expression/index.js:152-199 | failure carries errors; success is the classification of the created expression and fits the expected type; a value that is not an expression fails with "Unknown expression" |
| StyleExpressions.ClassifyExpression | lib/expression/index.js:158-198 | a rejection becomes a single error with an empty key; otherwise the property expression of the classification |
| StyleExpressions.InterpolationFactor | lib/expression/index.js:144-149 | 0 without an interpolation type; a linear factor lies in [0, 1], 0 at the lower stop and 1 at the upper |
| StyleExpressions.StepCurveFactorIsZero | lib/expression/index.js:131-148 | a step curve's factor is 0 whatever the zoom |
| Text.IntToStringRoundTrip | lib/expression/definitions/match.js:124 | `Number(String(i))` is `i` for an integer |
| Text.NatToStringRoundTrip | lib/expression/definitions/match.js:124 | the digits of a natural number read back as the number |
| Text.IntToStringInjective | lib/expression/definitions/match.js:57-61 | distinct integers render as distinct keys |
| Text.Minimum | lib/expression/definitions/match.js:106 | a non-empty set of keys has a least one |
| Text.SortedElements | lib/expression/definitions/match.js:106 | sorted keys: ascending, exactly the set's elements, one each |

## Left out

- `literal.js`, `let`, `var`, `coalesce`, `case`, `at`, the comparisons, `format`, `collator` and `types.js`, `stops.js`, `scope.js` are not part of this model. Their nodes appear in the tree so the tree analyses can walk them. Parsing them records a fixed not-modelled message, and evaluating them yields a fixed not-modelled error. A literal is modelled only for scalars.
- Let-scopes and bindings in the parsing context are not modelled, because `let`/`var` are outside the core.
- `global-state` is not registered in definitions/index.js, so `_parse` never reaches `GlobalState.parse`. The unit tests in test/unit/expression.test.js:79-104 exercise it as if it were. The model follows the code: `GlobalState.parse` is modelled on its own and unreachable from `Parse`.
- Parser.Finish: the value a folded literal holds is not stated; only its type is. Folding evaluates in a fresh context, and the evaluator is the same function `Evaluate.Eval`.
- Parser.ReportMismatch: states that an error is appended below the path, not its exact text.
- Parser.ParseCompound: with no candidate or several, the failure case states the error effect, not the exact mismatch message.
- Parser.AssertionHeader: `!(type in types)` in Assertion.parse also accepts the names `Object.prototype` has (assertion.js:30). The model checks the own table only, and with item type `object` excluded as the source does.
- The params-length recheck in CompoundExpression.parse (compound_expression.js:75-80) cannot fail after the overload filter. It is not modelled.
- NaN and ±Infinity are not values of the model: numbers are reals, and `Number(x)` that gives NaN is `None`. Labels that are NaN or infinite are therefore not represented.
- Floating point arithmetic is exact real arithmetic. `/`, `%`, `^`, the `Math` functions, `min`/`max`, `base ** x`, the unit-bezier solver, and colour/number blending (including hcl and lab) are host functions passed in `Host`.
- `console.warn` is modelled as the `warned` out-parameter of `StyleExpression.Evaluate`.
- `Color.parse`, `Color#toString`, `JSON.stringify`, `String(x)` for non-integers and relational comparison of mixed primitives are host functions.
- StyleExpressions.GetDefaultValue: the test for legacy function objects (`isFunction`) is a parameter. A non-string colour default is treated as unparseable.
- StyleExpressions.GetExpectedType: `types[spec.value]` is a plain-object read. Item names that `Object.prototype` has are treated as having no entry.
- The legacy `StylePropertyFunction`, `normalizePropertyExpression` and `possibleOutputs` are outside the core and not modelled.
- `ZoomConstantExpression` and `ZoomDependentExpression` `evaluate`/`evaluateWithoutErrorHandling` only delegate to the style expression, so they are not modelled separately.
- Evaluation reads colours through `Host.parseColor` and does not update the context's colour cache. `EvaluationContext.ParseColor` is modelled and proved on its own.
- The zoom curve found by `findZoomCurve` is identified by its path from the root, which is what object identity distinguishes in a tree the parser builds.
- Values.Relation, Text.Less and Text.SortedElements compare strings character by character (by code point). JavaScript's `<` on strings and `Array.prototype.sort` (match.js:106) compare UTF-16 code units. The orders differ only between a character above U+FFFF and one in U+E000 to U+FFFF. So the order of `filter-<` and friends, `filter-in-large` and the serialised order of `match` labels can differ from the source on such strings.
- `includes` on enum values is modelled by strict equality. It differs from SameValueZero only on NaN, which the model has no value for.
- The collator wrapper and `resolved-locale` are host functions.

## Findings

| source | as written | input that shows it | evidently intended | confidence | as-written member | corrected member |
|---|---|---|---|---|---|---|
| lib/expression/definitions/match.js:57-59 | the uniqueness test reads the case table as a plain object, so names `Object.prototype` has count as already taken | `["match", ["get", "k"], "constructor", 1, 0]` is rejected with "Branch labels must be unique." | only labels of earlier branches are taken | not executed | MatchForm.PrototypeLabelRejectedAsWritten | MatchForm.AddLabelsAcceptsIff |
| lib/expression/parsing_context.js:77-79 | the registry lookup is a plain property read, so `constructor` finds `Object` and calls its missing `parse`, throwing a TypeError | `["constructor"]` | an "Unknown expression" parse error | not executed | Parsing.PrototypeNameFoundAsWritten | Parsing.Lookup |
| lib/expression/index.js:71-78 | `isExpression` tests the name with `in`, which also holds for inherited names | `["constructor"]` is reported as an expression | false for names the registry does not have | not executed | StyleExpressions.ConstructorIsExpressionAsWritten | StyleExpressions.CreateExpression |
| lib/expression/evaluation_context.js:29-35 | the colour cache is a plain object, so an inherited member is returned as the cached colour | `["to-color", "toString"]` gets `Object.prototype.toString` back from `parseColor` and returns it as the colour | the input is parsed, and `toString` is not a colour | not executed | Context.CachedAsWrittenReturnsPrototypeMember | Context.EvaluationContext.ParseColor |
| lib/expression/index.js:60-61 | the warning history is a plain object, so a message naming an inherited member is never warned about | an expression failing with `["error", "toString"]` | the first occurrence of every message is warned about | not executed | StyleExpressions.PrototypeMessageNeverWarnedAsWritten | StyleExpressions.StyleExpression.Evaluate |
