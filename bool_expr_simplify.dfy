/**
  The boolean-expression simplifier: a single bottom-up pass over a copy of
  an expression that eliminates double negations, distributes `==` over two
  negations and pushes a `!` into a comparison. The checker warns when the
  copy differs from the original and then refuses to descend into the node
  it warned about.
*/
module BoolExprSimplify {
  import opened Wrappers
  import opened Ast

  /** The comparison operators that the inversion rule knows. */
  const Comparisons: set<Token> := {Eql, Neq, Lss, Gtr, Leq, Geq}

  // ---------------------------------------------------------------------
  // Coercions (the nil sentinels become None)
  // ---------------------------------------------------------------------

  /** unaryNot: the node itself when it is a `!` expression, None otherwise. */
  function UnaryNot(e: Expr): (r: Option<Expr>)
    ensures r.Some? <==> e.Unary? && e.op == Not
    ensures r.Some? ==> r.value == e
  {
    if e.Unary? && e.op == Not then Some(e) else None
  }

  /** binaryExpr: the node itself when it is a binary expression, None otherwise. */
  function BinaryExpr(e: Expr): (r: Option<Expr>)
    ensures r.Some? <==> e.Binary?
    ensures r.Some? ==> r.value == e
  {
    if e.Binary? then Some(e) else None
  }

  // ---------------------------------------------------------------------
  // The three rules; None means the rule does not match
  // ---------------------------------------------------------------------

  /** The negated form of a comparison operator (the switch of invertComparison). */
  function Inverse(op: Token): (r: Option<Token>)
    ensures r.Some? <==> op in Comparisons
    ensures r.Some? ==> r.value in Comparisons && r.value != op
  {
    match op
    case Eql => Some(Neq)
    case Neq => Some(Eql)
    case Lss => Some(Geq)
    case Gtr => Some(Leq)
    case Leq => Some(Gtr)
    case Geq => Some(Lss)
    case _ => None
  }

  /**
    doubleNegation: `!!x` becomes x. The outer node must itself be a `!`;
    parentheses between the two negations and around the inner operand are
    dropped.
  */
  function DoubleNegation(e: Expr): (r: Option<Expr>)
    ensures r.Some? ==> e.Unary? && e.op == Not && Unparen(e.x).Unary? && Unparen(e.x).op == Not
    ensures r.Some? ==> !r.value.Paren? && Size(r.value) + 2 <= Size(e)
    ensures r.Some? ==> exists k1: nat, k2: nat :: e == Unary(Not, Parens(k1, Unary(Not, Parens(k2, r.value))))
  {
    match UnaryNot(e)
    case None => None
    case Some(neg1) =>
      match UnaryNot(Unparen(neg1.x))
      case None => None
      case Some(neg2) =>
        var u := Unparen(neg1.x);
        assert neg1.x == Parens(ParenDepth(neg1.x), Unary(Not, u.x));
        assert u.x == Parens(ParenDepth(u.x), Unparen(u.x));
        Some(Unparen(neg2.x))
  }

  /**
    negatedEquals: `!a == !b` becomes `a == b`. Only `==` qualifies, and
    each operand must be a `!` directly, without parentheses; the operands
    of the two negations keep their own parentheses.
  */
  function NegatedEquals(e: Expr): (r: Option<Expr>)
    ensures r.Some? ==> r.value.Binary? && r.value.op == Eql && Size(r.value) + 2 == Size(e)
    ensures r.Some? ==> e == Binary(Eql, Unary(Not, r.value.x), Unary(Not, r.value.y))
  {
    if !e.Binary? || e.op != Eql then None
    else
      match (UnaryNot(e.x), UnaryNot(e.y))
      case (Some(neg1), Some(neg2)) => Some(Binary(Eql, neg1.x, neg2.x))
      case _ => None
  }

  /**
    invertComparison: `!(a op b)` becomes `a inv(op) b` for the six
    comparison operators; the `!` and the parentheses around the
    comparison are dropped. Any other binary operator does not match.
  */
  function InvertComparison(e: Expr): (r: Option<Expr>)
    ensures r.Some? ==> e.Unary? && e.op == Not && Unparen(e.x).Binary? && Unparen(e.x).op in Comparisons
    ensures r.Some? ==> r.value.Binary? && r.value.op in Comparisons && Size(r.value) < Size(e)
    ensures r.Some? ==> exists k: nat ::
      e == Unary(Not, Parens(k, Binary(Inverse(r.value.op).value, r.value.x, r.value.y)))
  {
    match UnaryNot(e)
    case None => None
    case Some(neg) =>
      match BinaryExpr(Unparen(neg.x))
      case None => None
      case Some(cmp) =>
        match Inverse(cmp.op)
        case None => None
        case Some(inv) =>
          InverseInvolution(cmp.op);
          assert neg.x == Parens(ParenDepth(neg.x), cmp);
          Some(Binary(inv, cmp.x, cmp.y))
  }

  /**
    The post callback of simplifyBool at one node: the first rule that
    matches, in the order doubleNegation, negatedEquals, invertComparison;
    the node itself when none does. A rule that fires always shrinks the
    node, so the node changes exactly when some rule matches.
  */
  function ApplyRules(e: Expr): (r: Expr)
    ensures r == e <==> DoubleNegation(e).None? && NegatedEquals(e).None? && InvertComparison(e).None?
    ensures r != e ==> Size(r) < Size(e)
  {
    match DoubleNegation(e)
    case Some(r) => r
    case None =>
      match NegatedEquals(e)
      case Some(r) => r
      case None =>
        match InvertComparison(e)
        case Some(r) => r
        case None => e
  }

  /**
    simplifyBool: astutil.Apply with a post-only callback, that is, a
    single post-order pass in which the children of a node are rewritten
    before the rules are tried on the node itself. The result is either
    the input or a strictly smaller tree.
  */
  function SimplifyBool(e: Expr): (r: Expr)
    ensures r == e || Size(r) < Size(e)
    decreases e
  {
    match e
    case Unary(op, x) => ApplyRules(Unary(op, SimplifyBool(x)))
    case Binary(op, x, y) => ApplyRules(Binary(op, SimplifyBool(x), SimplifyBool(y)))
    case Paren(x) => ApplyRules(Paren(SimplifyBool(x)))
    case Ident(_) => ApplyRules(e)
    case BasicLit(_) => ApplyRules(e)
    case Index(x, i) => ApplyRules(Index(SimplifyBool(x), SimplifyBool(i)))
    case Selector(x, sel) => ApplyRules(Selector(SimplifyBool(x), sel))
    case Other(kind, args) =>
      var args' := seq(|args|, i requires 0 <= i < |args| => SimplifyBool(args[i]));
      SizeAllShrinks(args, args');
      ApplyRules(Other(kind, args'))
  }

  // ---------------------------------------------------------------------
  // The rule shapes, read directly off the tree
  // ---------------------------------------------------------------------

  /** e is one of the three shapes: `!!x`, `!a == !b` or `!(a cmp b)`, parentheses as each rule allows. */
  predicate HasShape(e: Expr)
  {
    || (e.Unary? && e.op == Not && Unparen(e.x).Unary? && Unparen(e.x).op == Not)
    || (e.Binary? && e.op == Eql && e.x.Unary? && e.x.op == Not && e.y.Unary? && e.y.op == Not)
    || (e.Unary? && e.op == Not && Unparen(e.x).Binary? && Unparen(e.x).op in Comparisons)
  }

  /** No node of e has one of the three shapes. */
  predicate Shapeless(e: Expr)
    decreases e
  {
    && !HasShape(e)
    && match e
       case Unary(_, x) => Shapeless(x)
       case Binary(_, x, y) => Shapeless(x) && Shapeless(y)
       case Paren(x) => Shapeless(x)
       case Ident(_) => true
       case BasicLit(_) => true
       case Index(x, i) => Shapeless(x) && Shapeless(i)
       case Selector(x, _) => Shapeless(x)
       case Other(_, args) => forall i :: 0 <= i < |args| ==> Shapeless(args[i])
  }

  // ---------------------------------------------------------------------
  // Properties of the rules
  // ---------------------------------------------------------------------

  /** Inverting a comparison twice gives it back. */
  lemma InverseInvolution(op: Token)
    requires op in Comparisons
    ensures Inverse(op).Some? && Inverse(Inverse(op).value) == Some(op)
  {
  }

  /** Comparison of two integers under a Go comparison operator. */
  predicate Compare(op: Token, a: int, b: int)
    requires op in Comparisons
  {
    match op
    case Eql => a == b
    case Neq => a != b
    case Lss => a < b
    case Gtr => a > b
    case Leq => a <= b
    case Geq => a >= b
  }

  /** On totally ordered operands the inverted operator is the negation of the original. */
  lemma InverseNegates(op: Token, a: int, b: int)
    requires op in Comparisons
    ensures Compare(Inverse(op).value, a, b) <==> !Compare(op, a, b)
  {
  }

  /** doubleNegation matches every `!!x` with any parentheses after each `!`, and yields x unparenthesized. */
  lemma DoubleNegationFires(k1: nat, k2: nat, x: Expr)
    ensures DoubleNegation(Unary(Not, Parens(k1, Unary(Not, Parens(k2, x))))) == Some(Unparen(x))
  {
    UnparenParens(k1, Unary(Not, Parens(k2, x)));
    UnparenParens(k2, x);
  }

  /** negatedEquals matches `!a == !b` for all a and b, keeping a and b as they are. */
  lemma NegatedEqualsFires(a: Expr, b: Expr)
    ensures NegatedEquals(Binary(Eql, Unary(Not, a), Unary(Not, b))) == Some(Binary(Eql, a, b))
  {
  }

  /** `!a != !b` (any operator other than `==`) is left to the other rules, which do not match it either. */
  lemma NegatedEqualsOnlyEql(op: Token, a: Expr, b: Expr)
    requires op != Eql
    ensures NegatedEquals(Binary(op, Unary(Not, a), Unary(Not, b))) == None
    ensures ApplyRules(Binary(op, Unary(Not, a), Unary(Not, b))) == Binary(op, Unary(Not, a), Unary(Not, b))
  {
  }

  /** invertComparison turns `!((a op b))` into `a inv(op) b` for each comparison op. */
  lemma InvertComparisonFires(k: nat, op: Token, a: Expr, b: Expr)
    requires op in Comparisons
    ensures InvertComparison(Unary(Not, Parens(k, Binary(op, a, b)))) == Some(Binary(Inverse(op).value, a, b))
  {
    UnparenParens(k, Binary(op, a, b));
  }

  /** `!(a op b)` with a non-comparison op (`&&`, `+`, ...) is not matched, and no rule changes the node. */
  lemma InvertComparisonOtherOps(k: nat, op: Token, a: Expr, b: Expr)
    requires op !in Comparisons
    ensures InvertComparison(Unary(Not, Parens(k, Binary(op, a, b)))) == None
    ensures ApplyRules(Unary(Not, Parens(k, Binary(op, a, b)))) == Unary(Not, Parens(k, Binary(op, a, b)))
  {
    UnparenParens(k, Binary(op, a, b));
  }

  /** A node that is not a `!` matches neither doubleNegation nor invertComparison. */
  lemma OuterNotRequired(e: Expr)
    requires !(e.Unary? && e.op == Not)
    ensures DoubleNegation(e) == None && InvertComparison(e) == None
  {
  }

  /** At most one rule matches any node, so the priority order never decides between two matches. */
  lemma RulesExclusive(e: Expr)
    ensures DoubleNegation(e).Some? ==> NegatedEquals(e).None? && InvertComparison(e).None?
    ensures NegatedEquals(e).Some? ==> InvertComparison(e).None?
  {
  }

  /** A rule changes a node exactly when the node has one of the three shapes. */
  lemma HasShapeIffRuleFires(e: Expr)
    ensures HasShape(e) <==> ApplyRules(e) != e
  {
    if e.Unary? && e.op == Not && Unparen(e.x).Unary? && Unparen(e.x).op == Not {
      var u := Unparen(e.x);
      assert e.x == Parens(ParenDepth(e.x), Unary(Not, u.x));
      assert u.x == Parens(ParenDepth(u.x), Unparen(u.x));
      DoubleNegationFires(ParenDepth(e.x), ParenDepth(u.x), Unparen(u.x));
    } else if e.Binary? && e.op == Eql && e.x.Unary? && e.x.op == Not && e.y.Unary? && e.y.op == Not {
      NegatedEqualsFires(e.x.x, e.y.x);
    } else if e.Unary? && e.op == Not && Unparen(e.x).Binary? && Unparen(e.x).op in Comparisons {
      var u := Unparen(e.x);
      assert e.x == Parens(ParenDepth(e.x), Binary(u.op, u.x, u.y));
      InvertComparisonFires(ParenDepth(e.x), u.op, u.x, u.y);
    }
  }

  // ---------------------------------------------------------------------
  // Properties of the pass
  // ---------------------------------------------------------------------

  /**
    The pass leaves a tree unchanged exactly when no node of it has one of
    the three shapes; so a warning is issued exactly for trees that have one.
  */
  lemma {:induction false} SimplifyUnchangedIffShapeless(e: Expr)
    ensures SimplifyBool(e) == e <==> Shapeless(e)
    decreases e
  {
    HasShapeIffRuleFires(e);
    match e
    case Unary(op, x) =>
      SimplifyUnchangedIffShapeless(x);
    case Binary(op, x, y) =>
      SimplifyUnchangedIffShapeless(x);
      SimplifyUnchangedIffShapeless(y);
    case Paren(x) =>
      SimplifyUnchangedIffShapeless(x);
    case Ident(_) =>
    case BasicLit(_) =>
    case Index(x, i) =>
      SimplifyUnchangedIffShapeless(x);
      SimplifyUnchangedIffShapeless(i);
    case Selector(x, _) =>
      SimplifyUnchangedIffShapeless(x);
    case Other(kind, args) =>
      var args' := seq(|args|, i requires 0 <= i < |args| => SimplifyBool(args[i]));
      forall i | 0 <= i < |args| ensures args'[i] == args[i] <==> Shapeless(args[i]) {
        SimplifyUnchangedIffShapeless(args[i]);
      }
      SizeAllShrinks(args, args');
      assert SimplifyBool(e) == ApplyRules(Other(kind, args'));
      if args' != args {
        assert exists i :: 0 <= i < |args| && args'[i] != args[i];
      }
  }

  /** The doc example: `!(elapsed >= expectElapsedMin)` is suggested as `elapsed < expectElapsedMin`. */
  lemma InvertExample(elapsed: string, expectElapsedMin: string)
    ensures var a, m := Ident(elapsed), Ident(expectElapsedMin);
      SimplifyBool(Unary(Not, Paren(Binary(Geq, a, m)))) == Binary(Lss, a, m)
  {
    var a, m := Ident(elapsed), Ident(expectElapsedMin);
    assert SimplifyBool(Paren(Binary(Geq, a, m))) == Paren(Binary(Geq, a, m));
    InvertComparisonFires(1, Geq, a, m);
  }

  /** The doc example: `!(x) == !(y)` is suggested as `(x) == (y)`; the operands keep their parentheses. */
  lemma NegatedEqualsExample(x: string, y: string)
    ensures SimplifyBool(Binary(Eql, Unary(Not, Paren(Ident(x))), Unary(Not, Paren(Ident(y)))))
         == Binary(Eql, Paren(Ident(x)), Paren(Ident(y)))
  {
    assert SimplifyBool(Unary(Not, Paren(Ident(x)))) == Unary(Not, Paren(Ident(x)));
    assert SimplifyBool(Unary(Not, Paren(Ident(y)))) == Unary(Not, Paren(Ident(y)));
    NegatedEqualsFires(Paren(Ident(x)), Paren(Ident(y)));
  }

  /**
    Children first: in `!!!(a < b)` the innermost `!(a < b)` is inverted
    first, the next `!` inverts it back and the outermost inverts it again.
  */
  lemma BottomUpExample(a: string, b: string)
    ensures SimplifyBool(Unary(Not, Unary(Not, Unary(Not, Paren(Binary(Lss, Ident(a), Ident(b)))))))
         == Binary(Geq, Ident(a), Ident(b))
  {
    var lss := Binary(Lss, Ident(a), Ident(b));
    var geq := Binary(Geq, Ident(a), Ident(b));
    assert SimplifyBool(Paren(lss)) == Paren(lss);
    InvertComparisonFires(1, Lss, Ident(a), Ident(b));
    assert SimplifyBool(Unary(Not, Paren(lss))) == geq;
    InvertComparisonFires(0, Geq, Ident(a), Ident(b));
    assert SimplifyBool(Unary(Not, Unary(Not, Paren(lss)))) == lss;
    InvertComparisonFires(0, Lss, Ident(a), Ident(b));
  }

  /**
    One pass is not a fixed point: `!(!a != !b)` becomes `!a == !b`, which a
    second pass would rewrite to `a == b`.
  */
  lemma SinglePassExample(a: string, b: string)
    ensures var na, nb := Unary(Not, Ident(a)), Unary(Not, Ident(b));
      var once := SimplifyBool(Unary(Not, Paren(Binary(Neq, na, nb))));
      once == Binary(Eql, na, nb) && SimplifyBool(once) == Binary(Eql, Ident(a), Ident(b))
  {
    var na, nb := Unary(Not, Ident(a)), Unary(Not, Ident(b));
    assert SimplifyBool(na) == na;
    assert SimplifyBool(nb) == nb;
    assert SimplifyBool(Paren(Binary(Neq, na, nb))) == Paren(Binary(Neq, na, nb));
    InvertComparisonFires(1, Neq, na, nb);
    NegatedEqualsFires(Ident(a), Ident(b));
  }

  // ---------------------------------------------------------------------
  // The checker
  // ---------------------------------------------------------------------

  /** One diagnostic: the node warned about, its text and the suggested replacement. */
  datatype Warning = Warning(cause: NodeId, expr: Expr, suggestion: Expr)

  class BoolExprSimplifyChecker {
    /** The node of the last warning; None before any. */
    var cause: Option<NodeId>
    /** The diagnostics handed to the sink, in order. */
    var warnings: seq<Warning>

    /** cause is the node of the last warning handed to the sink, None before any. */
    predicate Valid()
      reads this
    {
      cause == if warnings == [] then None else Some(warnings[|warnings| - 1].cause)
    }

    constructor ()
      ensures Valid()
      ensures cause == None && warnings == []
    {
      cause := None;
      warnings := [];
    }

    /** The walker descends into every node except the one last warned about. */
    method EnterChilds(x: NodeId) returns (descend: bool)
      requires Valid()
      ensures descend <==> warnings == [] || warnings[|warnings| - 1].cause != x
    {
      descend := cause != Some(x);
    }

    /**
      Simplifies a copy of x and warns, with x as the cause, exactly when the
      copy differs from x; x itself is a value and is never changed.
    */
    method VisitExpr(id: NodeId, x: Expr)
      requires Valid()
      modifies this
      ensures Valid()
      ensures SimplifyBool(x) != x ==>
        cause == Some(id) && warnings == old(warnings) + [Warning(id, x, SimplifyBool(x))]
      ensures SimplifyBool(x) == x ==> cause == old(cause) && warnings == old(warnings)
    {
      var y := SimplifyBool(x);
      if x != y {
        Warn(id, x, y);
      }
    }

    /** Records the cause for EnterChilds and hands the diagnostic to the sink. */
    method Warn(id: NodeId, x: Expr, suggestion: Expr)
      modifies this
      ensures Valid()
      ensures cause == Some(id)
      ensures warnings == old(warnings) + [Warning(id, x, suggestion)]
    {
      cause := Some(id);
      warnings := warnings + [Warning(id, x, suggestion)];
    }
  }

  /**
    A checker that has just warned about node id does not descend into it:
    once VisitExpr changes x, EnterChilds(id) answers false.
  */
  method WarnedNodeSkipped(id: NodeId, x: Expr) returns (descend: bool)
    requires SimplifyBool(x) != x
    ensures !descend
  {
    var c := new BoolExprSimplifyChecker();
    c.VisitExpr(id, x);
    descend := c.EnterChilds(id);
  }
}
