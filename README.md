# go-critic: boolExprSimplify and dupSubExpr, modelled in Dafny

This project models two lint checkers of go-critic that work on Go expression trees.

- **boolExprSimplify** copies an expression and rewrites the copy in one bottom-up pass. At each node it tries three rules, in this order:
  - double negation: `!!x` becomes `x`;
  - negated equals: `!a == !b` becomes `a == b`;
  - comparison inversion: `!(a < b)` becomes `a >= b`, and likewise for the other five comparisons.

  When the copy differs from the original, the checker warns. It remembers the node it warned about and does not descend into that node.
- **dupSubExpr** reports a binary expression when all of these hold:
  - its operator is one of 15 listed operators;
  - the left operand is not a float, or the operator is not one of the six float-sensitive ones;
  - the expression is built only from whitelisted side-effect-free shapes;
  - its two operands are structurally identical.

Files:

- `wrappers.dfy`: `Option`. It replaces the nil sentinel values that the source uses for a failed type assertion.
- `ast.dfy`: the part of `go/ast` and `go/token` the checkers look at.
  - `Expr` has the node kinds `Unary`, `Binary`, `Paren`, `Ident`, `BasicLit`, `Index`, `Selector` and `Other`. `Other` keeps the expression children that a tree rewrite descends into, such as call arguments.
  - `Unparen` models `astutil.Unparen`.
  - `Size` counts nodes.
  - `NodeId` stands for the identity of a node (a pointer in the source), which the driver supplies.
  - Structural equality (`astequal.Expr`) is Dafny value equality. It ignores positions, and parentheses count.
- `bool_expr_simplify.dfy`: the coercions, the three rules, the rewrite pass (`SimplifyBool`), and the checker class with its `cause` field and its warning sink.
- `dup_sub_expr.dfy`: the type oracle, the operator tables, `Init`'s loop that fills them, `isSafe`, the decision of `checkBinaryExpr`, and the checker class.

Behaviour of the code that is easy to misread, and that the model keeps:

- Duplicate operands are compared with the same strict equality that detects rewrite progress, so `(x) < x` is not reported. A paren-transparent equality is not used.
- Negated equals needs each operand of `==` to be a `!` directly, with no parentheses around it.
- Double negation also strips the parentheses around the inner operand, so `!!(x)` becomes `x`, not `(x)`.
- The rewrite is a single pass, and a second pass can change the result again (`SinglePassExample`).
- Only a basic float type exempts an operator. A named type defined over `float64` comes back from the type checker as a named type, not a basic one, so it is not exempt.

A proved fact about the rules: no node can match two of them (`RulesExclusive`). For example, double negation and inversion both need a `!`, but one needs a `!` under it and the other a binary expression. So the priority order never chooses between two matches.

## Model

| member | source | states |
|---|---|---|
| `Ast.Unparen` | lint/boolExprSimplify_checker.go:65-67 | the result is not a parenthesis, and the input is exactly the result wrapped in `ParenDepth` parentheses |
| `Ast.UnparenParens` | lint/boolExprSimplify_checker.go:65-67 | any number of parentheses added around an expression are stripped again |
| `BoolExprSimplify.UnaryNot` | lint/boolExprSimplify_checker.go:127-135 | yields the node exactly when it is a `!` expression, and None (no crash) otherwise |
| `BoolExprSimplify.BinaryExpr` | lint/boolExprSimplify_checker.go:117-125 | yields the node exactly when it is a binary expression, and None otherwise |
| `BoolExprSimplify.Inverse` | lint/boolExprSimplify_checker.go:95-112 | defined exactly on the six comparisons; its result is another comparison, different from the input |
| `BoolExprSimplify.InverseInvolution` | lint/boolExprSimplify_checker.go:96-109 | inverting a comparison twice gives it back |
| `BoolExprSimplify.InverseNegates` | lint/boolExprSimplify_checker.go:96-109 | on integers, the inverted comparison holds exactly when the original does not |
| `BoolExprSimplify.DoubleNegation` | lint/boolExprSimplify_checker.go:63-71 | fires only on a bare `!` whose unparenthesized operand is a `!`; the input is then the result under `!`, parentheses, `!`, parentheses; the result has no outer parenthesis and is at least two nodes smaller |
| `BoolExprSimplify.DoubleNegationFires` | lint/boolExprSimplify_checker.go:63-71 | every `!` followed by any parentheses, a `!` and any parentheses around x is rewritten to x with its parentheses stripped |
| `BoolExprSimplify.NegatedEquals` | lint/boolExprSimplify_checker.go:73-86 | fires only on `==` whose operands are directly `!` nodes; the input is then `!a == !b`, where `a == b` is the result |
| `BoolExprSimplify.NegatedEqualsFires` | lint/boolExprSimplify_checker.go:73-86 | `!a == !b` becomes `a == b` for all a and b; their own parentheses are kept |
| `BoolExprSimplify.NegatedEqualsOnlyEql` | lint/boolExprSimplify_checker.go:74-77 | with any operator other than `==`, such as `!a != !b`, the rule does not match and no rule changes the node |
| `BoolExprSimplify.InvertComparison` | lint/boolExprSimplify_checker.go:88-115 | fires only on a `!` over a (possibly parenthesized) comparison; the result is a comparison, and the input is `!` over parentheses around the result with its operator inverted back |
| `BoolExprSimplify.InvertComparisonFires` | lint/boolExprSimplify_checker.go:88-115 | `!` over any parentheses around `a op b` becomes `a inv(op) b` for each of the six comparisons |
| `BoolExprSimplify.InvertComparisonOtherOps` | lint/boolExprSimplify_checker.go:110-111 | `!(a op b)` with a non-comparison operator, such as `&&`, is not matched, and the node is left unchanged |
| `BoolExprSimplify.OuterNotRequired` | lint/boolExprSimplify_checker.go:64-66 | a node that is not a `!` matches neither double negation nor inversion |
| `BoolExprSimplify.RulesExclusive` | lint/boolExprSimplify_checker.go:56-59 | at most one of the three rules matches any node |
| `BoolExprSimplify.ApplyRules` | lint/boolExprSimplify_checker.go:55-60 | the node is unchanged exactly when no rule matches; a change always makes it smaller |
| `BoolExprSimplify.HasShapeIffRuleFires` | lint/boolExprSimplify_checker.go:56-59 | a node is changed exactly when it has one of the three shapes, read directly off the tree |
| `BoolExprSimplify.SimplifyBool` | lint/boolExprSimplify_checker.go:54-61 | the post-order pass returns its input or a strictly smaller tree |
| `BoolExprSimplify.SimplifyUnchangedIffShapeless` | lint/boolExprSimplify_checker.go:45-52 | the pass leaves a tree unchanged exactly when none of its nodes has one of the three shapes |
| `BoolExprSimplify.InvertExample` | lint/boolExprSimplify_checker.go:5-10 | `!(elapsed >= expectElapsedMin)` is simplified to `elapsed < expectElapsedMin` |
| `BoolExprSimplify.NegatedEqualsExample` | lint/boolExprSimplify_checker.go:5-11 | `!(x) == !(y)` is simplified to `(x) == (y)` |
| `BoolExprSimplify.BottomUpExample` | lint/boolExprSimplify_checker.go:54-61 | children are rewritten before their parent: `!!!(a < b)` ends as `a >= b` |
| `BoolExprSimplify.SinglePassExample` | lint/boolExprSimplify_checker.go:54-61 | one pass turns `!(!a != !b)` into `!a == !b`, which a second pass would still change |
| `BoolExprSimplify.BoolExprSimplifyChecker.constructor` | lint/boolExprSimplify_checker.go:26-36 | a new checker has no cause and no warnings, so `Valid` holds: the cause is the node of the last warning, None before any |
| `BoolExprSimplify.BoolExprSimplifyChecker.EnterChilds` | lint/boolExprSimplify_checker.go:43 | under `Valid`, false exactly for the node of the last warning in the sink, and true for every node before any warning |
| `BoolExprSimplify.BoolExprSimplifyChecker.VisitExpr` | lint/boolExprSimplify_checker.go:45-52 | warns, and records x as the cause, exactly when the simplified copy differs from x; otherwise the state is unchanged; `Valid` is kept |
| `BoolExprSimplify.BoolExprSimplifyChecker.Warn` | lint/boolExprSimplify_checker.go:137-140 | sets the cause and appends one warning with the cause and the suggestion, so afterwards `Valid` holds |
| `BoolExprSimplify.WarnedNodeSkipped` | lint/boolExprSimplify_checker.go:43-51 | after VisitExpr warns about a node, EnterChilds refuses to descend into that node |
| `DupSubExpr.ResultIsFloat` | lint/dupSubExpr_checker.go:88-91 | true exactly when the type recorded for the operand's node is float32, float64 or untyped float; a named type or no type is not float |
| `DupSubExpr.OpsRows` | lint/dupSubExpr_checker.go:38-58 | the table `Ops` has the fifteen rows of the source in order, each operator with its float flag |
| `DupSubExpr.Lookup` | lint/dupSubExpr_checker.go:77-83 | a Go bool-map read: a missing key reads as false, a present key reads as its value |
| `DupSubExpr.OpSetOf` | lint/dupSubExpr_checker.go:60-67 | the map built from table rows holds exactly the rows' operators, each mapped to true |
| `DupSubExpr.FloatOpsSetOf` | lint/dupSubExpr_checker.go:60-67 | the map built from table rows holds exactly the operators of the float rows, each mapped to true |
| `DupSubExpr.OpSetExact` | lint/dupSubExpr_checker.go:38-63 | opSet built from the table answers true exactly for the 15 listed operators |
| `DupSubExpr.FloatOpsSetExact` | lint/dupSubExpr_checker.go:52-66 | floatOpsSet built from the table answers true exactly for `==`, `!=`, `<=`, `>=`, `/` and `-` |
| `DupSubExpr.OpCounts` | lint/dupSubExpr_checker.go:42-57 | the float-sensitive operators are among the detected ones; there are 15 detected and 6 float-sensitive operators |
| `DupSubExpr.TablesExact` | lint/dupSubExpr_checker.go:37-67 | both tables Init builds are exactly the listed sets, the second inside the first, with 15 and 6 members |
| `DupSubExpr.IsSafe` | lint/dupSubExpr_checker.go:93-116 | a safe expression is not itself a receive or an unlisted shape; `IsSafeIffNoUnsafeNode` extends this to every node |
| `DupSubExpr.IsSafeIffNoUnsafeNode` | lint/dupSubExpr_checker.go:93-116 | isSafe holds exactly when no node of the expression is a channel receive or an unlisted shape (call, composite literal, ...) |
| `DupSubExpr.Suspicious` | lint/dupSubExpr_checker.go:76-86 | under given tables, the decision holds exactly when the operator reads true in opSet, the float exemption does not apply to the left operand's recorded type, no node is unsafe, and the operands are identical |
| `DupSubExpr.Warns` | lint/dupSubExpr_checker.go:70-74 | only a binary expression with two identical operands can be reported by a checker whose tables Init has filled |
| `DupSubExpr.WarnsIff` | lint/dupSubExpr_checker.go:70-86 | a fully initialized checker warns exactly when all of these hold: the expression is binary; its operator is detected; the float exemption does not apply; no node is unsafe; the operands are identical |
| `DupSubExpr.UnlistedOperatorNeverWarns` | lint/dupSubExpr_checker.go:77-79 | an operator outside the table never produces a warning |
| `DupSubExpr.FloatOperandExempt` | lint/dupSubExpr_checker.go:80-82 | a float left operand with a float-sensitive operator produces no warning |
| `DupSubExpr.NonFloatOperatorWarns` | lint/dupSubExpr_checker.go:42-50 | `x op x` with one of the nine other operators is reported for every safe x and every type, floats included |
| `DupSubExpr.FloatOperatorWarnsOnNonFloat` | lint/dupSubExpr_checker.go:52-57 | `x op x` with a float-sensitive operator is reported when x is safe and not a float |
| `DupSubExpr.ParenthesizedOperandDiffers` | lint/dupSubExpr_checker.go:83 | `(x) op x` is never reported, because parentheses count in the equality |
| `DupSubExpr.UnsafeOperandNeverWarns` | lint/dupSubExpr_checker.go:101-116 | a left operand with a call or a channel receive anywhere in it is never reported, whatever its type |
| `DupSubExpr.SameTextTypedApart` | lint/dupSubExpr_checker.go:80-90 | the same text `x op x` with a float-sensitive operator is left alone where the left operand's node is float64 and reported where it is int |
| `DupSubExpr.DupSubExprChecker.constructor` | lint/dupSubExpr_checker.go:27-35 | a new checker has empty tables, no warnings, and the given per-node type oracle |
| `DupSubExpr.DupSubExprChecker.Init` | lint/dupSubExpr_checker.go:37-68 | the loop over the table leaves opSet and floatOpsSet equal to the maps built from all rows |
| `DupSubExpr.DupSubExprChecker.VisitExpr` | lint/dupSubExpr_checker.go:70-74 | appends one warning exactly for a binary expression that is suspicious under the type of its left operand's node; non-binary expressions add nothing; the tables are unchanged |
| `DupSubExpr.DupSubExprChecker.CheckBinaryExpr` | lint/dupSubExpr_checker.go:76-86 | appends exactly one warning when the decision holds and none otherwise |
| `DupSubExpr.DupSubExprChecker.Warn` | lint/dupSubExpr_checker.go:119-121 | appends one warning carrying the expression and its operator |
| `DupSubExpr.DocExample` | lint/dupSubExpr_checker.go:6-7 | a checker fresh from Init reports `xs[i].v < xs[i].v` exactly once, whatever the types |
| `DupSubExpr.SameTextExample` | lint/dupSubExpr_checker.go:80-90 | in one file, a float64 `x == x` and an int `x == x` of the same text give exactly one report, the int one |

## Left out

- Parsing, `astcopy`, and the internals of `astequal`: trees are Dafny values, and their equality is structural. Positions are not modelled.
- In-place update of the private copy: `negatedEquals` assigns the operands, `invertComparison` assigns the operator, and both call `cur.Replace`. The model builds a new value instead. The copy is fresh and shared with nothing, so no aliasing is lost. The original is a value and cannot change.
- The nil sentinels and `boolExprSimplifyChecker.Init`, which only allocates them: replaced by `Option`.
- Pointer identity of nodes: `EnterChilds` compares a `NodeId` that the driver supplies with each node.
- `astutil.Apply` descending into non-expression children, such as the statements in a function literal body: `Other` keeps only expression children.
- The type checker (`typesInfo.TypeOf`): a function `typeOf` from node identities to `GoType`, given to the checker. The driver passes `VisitExpr` the `NodeId` of the binary expression's left operand, so two operands with the same text can have different types. All other `types.Basic` info bits are left out.
- `ctx.Warn` message formatting and delivery: each checker appends a `Warning` value to its `warnings` sequence.
- `addChecker`/`init` registration, `checkerBase`, and the external walker that calls `VisitExpr` and `EnterChilds`.
- The inversion rule's effect on floating-point comparisons with NaN, where `!(a < b)` and `a >= b` differ: `InverseNegates` is stated over integers only.
