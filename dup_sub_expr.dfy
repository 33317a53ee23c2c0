/**
  The duplicate-subexpression detector: a binary expression whose two
  operands are the same side-effect-free expression is reported, for a
  fixed table of operators; six of them are left alone when the left
  operand is a floating-point value.
*/
module DupSubExpr {
  import opened Ast

  // ---------------------------------------------------------------------
  // The type oracle
  // ---------------------------------------------------------------------

  /** The kinds of go/types basic types. */
  datatype BasicKind =
    | Invalid | Bool
    | Int | Int8 | Int16 | Int32 | Int64
    | Uint | Uint8 | Uint16 | Uint32 | Uint64 | Uintptr
    | Float32 | Float64 | Complex64 | Complex128
    | String | UnsafePointer
    | UntypedBool | UntypedInt | UntypedRune | UntypedFloat
    | UntypedComplex | UntypedString | UntypedNil

  /**
    The type the type checker records for an expression: a basic type, a
    named (defined) type, any other type, or none at all.
  */
  datatype GoType =
    | Basic(kind: BasicKind)
    | Named(name: string, underlying: GoType)
    | Composite
    | NoType

  /** The kinds whose types.BasicInfo has the IsFloat bit (complex kinds have IsComplex instead). */
  predicate IsFloatInfo(k: BasicKind)
  {
    k == Float32 || k == Float64 || k == UntypedFloat
  }

  /**
    resultIsFloat: t, the type the type checker recorded for the operand's
    node, is a basic type with the IsFloat bit. A named type, even one
    defined over float64, and a missing type do not count as float.
  */
  function ResultIsFloat(t: GoType): (r: bool)
    ensures r <==> t in {Basic(Float32), Basic(Float64), Basic(UntypedFloat)}
  {
    match t
    case Basic(k) => IsFloatInfo(k)
    case _ => false
  }

  // ---------------------------------------------------------------------
  // The operator tables
  // ---------------------------------------------------------------------

  /** One row of the table Init walks: an operator and whether float operands need care. */
  datatype OpInfo = OpInfo(op: Token, float: bool)

  const Ops: seq<OpInfo> := [
    OpInfo(LOr, false),    // x || x
    OpInfo(LAnd, false),   // x && x
    OpInfo(Or, false),     // x | x
    OpInfo(And, false),    // x & x
    OpInfo(Xor, false),    // x ^ x
    OpInfo(Lss, false),    // x < x
    OpInfo(Gtr, false),    // x > x
    OpInfo(AndNot, false), // x &^ x
    OpInfo(Rem, false),    // x % x
    OpInfo(Eql, true),     // x == x
    OpInfo(Neq, true),     // x != x
    OpInfo(Leq, true),     // x <= x
    OpInfo(Geq, true),     // x >= x
    OpInfo(Quo, true),     // x / x
    OpInfo(Sub, true)      // x - x
  ]

  /** The operators whose duplicated operands are suspicious. */
  const DetectedOps: set<Token> := {LOr, LAnd, Or, And, Xor, Lss, Gtr, AndNot, Rem, Eql, Neq, Leq, Geq, Quo, Sub}

  /** The operators that are exempt for float operands, because of NaN and signed zero. */
  const FloatOps: set<Token> := {Eql, Neq, Leq, Geq, Quo, Sub}

  /** A Go map lookup of a bool map: a missing key reads as false. */
  function Lookup(m: map<Token, bool>, t: Token): (r: bool)
    ensures t !in m ==> !r
    ensures t in m ==> r == m[t]
  {
    t in m && m[t]
  }

  /** The opSet that Init's loop has built after the rows ops: every operator of a row maps to true. */
  function OpSetOf(ops: seq<OpInfo>): (m: map<Token, bool>)
    ensures forall t :: t in m <==> exists i :: 0 <= i < |ops| && ops[i].op == t
    ensures forall t :: t in m ==> m[t]
  {
    if ops == [] then map[]
    else OpSetOf(ops[..|ops| - 1])[ops[|ops| - 1].op := true]
  }

  /** The floatOpsSet that Init's loop has built after the rows ops: the operators of the float rows map to true. */
  function FloatOpsSetOf(ops: seq<OpInfo>): (m: map<Token, bool>)
    ensures forall t :: t in m <==> exists i :: 0 <= i < |ops| && ops[i].op == t && ops[i].float
    ensures forall t :: t in m ==> m[t]
  {
    if ops == [] then map[]
    else
      var m := FloatOpsSetOf(ops[..|ops| - 1]);
      if ops[|ops| - 1].float then m[ops[|ops| - 1].op := true] else m
  }

  /**
    The tables Init builds are exactly the fifteen detected operators and
    the six float-sensitive ones, the second contained in the first.
  */
  lemma TablesExact()
    ensures forall t :: Lookup(OpSetOf(Ops), t) <==> t in DetectedOps
    ensures forall t :: Lookup(FloatOpsSetOf(Ops), t) <==> t in FloatOps
    ensures FloatOps <= DetectedOps && |DetectedOps| == 15 && |FloatOps| == 6
  {
    OpSetExact();
    FloatOpsSetExact();
    OpCounts();
  }

  /** The two operator sets have fifteen and six members. */
  lemma OpCounts()
    ensures FloatOps <= DetectedOps && |DetectedOps| == 15 && |FloatOps| == 6
  {
  }

  /** Each row of the table, by position. */
  lemma OpsRows()
    ensures |Ops| == 15
    ensures Ops[0] == OpInfo(LOr, false) && Ops[1] == OpInfo(LAnd, false) && Ops[2] == OpInfo(Or, false)
    ensures Ops[3] == OpInfo(And, false) && Ops[4] == OpInfo(Xor, false) && Ops[5] == OpInfo(Lss, false)
    ensures Ops[6] == OpInfo(Gtr, false) && Ops[7] == OpInfo(AndNot, false) && Ops[8] == OpInfo(Rem, false)
    ensures Ops[9] == OpInfo(Eql, true) && Ops[10] == OpInfo(Neq, true) && Ops[11] == OpInfo(Leq, true)
    ensures Ops[12] == OpInfo(Geq, true) && Ops[13] == OpInfo(Quo, true) && Ops[14] == OpInfo(Sub, true)
  {
  }

  lemma OpSetExact()
    ensures forall t :: Lookup(OpSetOf(Ops), t) <==> t in DetectedOps
  {
    OpsRows();
    var m := OpSetOf(Ops);
    forall t ensures Lookup(m, t) <==> t in DetectedOps {
      if t in m {
        var i :| 0 <= i < |Ops| && Ops[i].op == t;
      }
    }
  }

  lemma FloatOpsSetExact()
    ensures forall t :: Lookup(FloatOpsSetOf(Ops), t) <==> t in FloatOps
  {
    OpsRows();
    var m := FloatOpsSetOf(Ops);
    forall t ensures Lookup(m, t) <==> t in FloatOps {
      if t in m {
        var i :| 0 <= i < |Ops| && Ops[i].op == t && Ops[i].float;
      }
    }
  }

  // ---------------------------------------------------------------------
  // Purity
  // ---------------------------------------------------------------------

  /**
    isSafe: a whitelist of node shapes whose evaluation has no side effect
    and does not block. Index expressions count as safe although they may
    panic; calls and every other unlisted shape are unsafe.
  */
  function IsSafe(e: Expr): (r: bool)
    ensures r ==> !UnsafeNode(e)
    decreases e
  {
    match e
    case Binary(_, x, y) => IsSafe(x) && IsSafe(y)
    case Unary(op, x) => op != Arrow && IsSafe(x)
    case BasicLit(_) => true
    case Ident(_) => true
    case Index(x, i) => IsSafe(x) && IsSafe(i)
    case Selector(x, _) => IsSafe(x)
    case Paren(x) => IsSafe(x)
    case Other(_, _) => false
  }

  /** s is e or a node below it. */
  predicate Occurs(s: Expr, e: Expr)
    decreases e
  {
    || s == e
    || match e
       case Unary(_, x) => Occurs(s, x)
       case Binary(_, x, y) => Occurs(s, x) || Occurs(s, y)
       case Paren(x) => Occurs(s, x)
       case Ident(_) => false
       case BasicLit(_) => false
       case Index(x, i) => Occurs(s, x) || Occurs(s, i)
       case Selector(x, _) => Occurs(s, x)
       case Other(_, args) => exists i :: 0 <= i < |args| && Occurs(s, args[i])
  }

  /** A node that is itself a channel receive or one of the unlisted shapes (a call, a composite literal, ...). */
  predicate UnsafeNode(s: Expr)
  {
    s.Other? || (s.Unary? && s.op == Arrow)
  }

  /** isSafe holds exactly when no node of the expression is a receive or an unlisted shape. */
  lemma {:induction false} IsSafeIffNoUnsafeNode(e: Expr)
    ensures IsSafe(e) <==> forall s :: Occurs(s, e) ==> !UnsafeNode(s)
    decreases e
  {
    match e
    case Unary(_, x) =>
      IsSafeIffNoUnsafeNode(x);
      assert Occurs(e, e);
    case Binary(_, x, y) =>
      IsSafeIffNoUnsafeNode(x);
      IsSafeIffNoUnsafeNode(y);
    case Paren(x) =>
      IsSafeIffNoUnsafeNode(x);
    case Ident(_) =>
    case BasicLit(_) =>
    case Index(x, i) =>
      IsSafeIffNoUnsafeNode(x);
      IsSafeIffNoUnsafeNode(i);
    case Selector(x, _) =>
      IsSafeIffNoUnsafeNode(x);
    case Other(_, _) =>
      assert Occurs(e, e);
  }

  // ---------------------------------------------------------------------
  // The decision
  // ---------------------------------------------------------------------

  /**
    checkBinaryExpr's decision on a binary expression, under the given
    tables; xType is the type recorded for the node of the left operand.
  */
  predicate Suspicious(opSet: map<Token, bool>, floatOpsSet: map<Token, bool>, xType: GoType, expr: Expr)
    requires expr.Binary?
    ensures Suspicious(opSet, floatOpsSet, xType, expr) <==>
      && Lookup(opSet, expr.op)
      && !(ResultIsFloat(xType) && Lookup(floatOpsSet, expr.op))
      && (forall s :: Occurs(s, expr) ==> !UnsafeNode(s))
      && expr.x == expr.y
  {
    IsSafeIffNoUnsafeNode(expr);
    && Lookup(opSet, expr.op)
    && !(ResultIsFloat(xType) && Lookup(floatOpsSet, expr.op))
    && IsSafe(expr)
    && expr.x == expr.y
  }

  /**
    The decision of a checker whose tables Init has filled: false for every
    non-binary expression (VisitExpr), and never without two identical
    operands.
  */
  predicate Warns(xType: GoType, expr: Expr)
    ensures Warns(xType, expr) ==> expr.Binary? && expr.x == expr.y
  {
    expr.Binary? && Suspicious(OpSetOf(Ops), FloatOpsSetOf(Ops), xType, expr)
  }

  /**
    The whole decision in terms of the operator sets: a warning exactly for
    a binary expression with a detected operator, not exempted as a float
    comparison or float arithmetic, with no receive or unlisted shape
    anywhere in it, and with two structurally identical operands.
  */
  lemma WarnsIff(xType: GoType, e: Expr)
    ensures Warns(xType, e) <==>
      && e.Binary?
      && e.op in DetectedOps
      && !(ResultIsFloat(xType) && e.op in FloatOps)
      && (forall s :: Occurs(s, e) ==> !UnsafeNode(s))
      && e.x == e.y
  {
    TablesExact();
    IsSafeIffNoUnsafeNode(e);
  }

  /** An operator outside the table never produces a warning. */
  lemma UnlistedOperatorNeverWarns(xType: GoType, op: Token, x: Expr, y: Expr)
    requires op !in DetectedOps
    ensures !Warns(xType, Binary(op, x, y))
  {
    TablesExact();
  }

  /** A float left operand exempts the six float-sensitive operators. */
  lemma FloatOperandExempt(xType: GoType, op: Token, x: Expr, y: Expr)
    requires op in FloatOps && ResultIsFloat(xType)
    ensures !Warns(xType, Binary(op, x, y))
  {
    TablesExact();
  }

  /**
    For the other nine operators the operand type does not matter: `x < x`,
    `x || x`, `x % x`, ... are reported for every safe x, floats included.
  */
  lemma NonFloatOperatorWarns(xType: GoType, op: Token, x: Expr)
    requires op in DetectedOps - FloatOps && IsSafe(x)
    ensures Warns(xType, Binary(op, x, x))
  {
    TablesExact();
  }

  /** The float-sensitive operators are reported when the left operand is not a float. */
  lemma FloatOperatorWarnsOnNonFloat(xType: GoType, op: Token, x: Expr)
    requires op in FloatOps && !ResultIsFloat(xType) && IsSafe(x)
    ensures Warns(xType, Binary(op, x, x))
  {
    TablesExact();
  }

  /** Operands are compared with parentheses significant: `(x) < x` is not reported. */
  lemma ParenthesizedOperandDiffers(xType: GoType, op: Token, x: Expr)
    ensures !Warns(xType, Binary(op, Paren(x), x))
  {
    assert Size(Paren(x)) != Size(x);
  }

  /** An operand with a call or a channel receive anywhere in it is never reported, whatever its type. */
  lemma UnsafeOperandNeverWarns(xType: GoType, op: Token, x: Expr, y: Expr, s: Expr)
    requires Occurs(s, x) && UnsafeNode(s)
    ensures !Warns(xType, Binary(op, x, y))
  {
    IsSafeIffNoUnsafeNode(x);
  }

  /**
    The verdict depends on the type recorded for the operand's node, not
    on its text: the same `x == x` is left alone where x is a float64 and
    reported where x is an int.
  */
  lemma SameTextTypedApart(op: Token, x: Expr)
    requires op in FloatOps && IsSafe(x)
    ensures !Warns(Basic(Float64), Binary(op, x, x))
    ensures Warns(Basic(Int), Binary(op, x, x))
  {
    FloatOperandExempt(Basic(Float64), op, x, x);
    FloatOperatorWarnsOnNonFloat(Basic(Int), op, x);
  }

  // ---------------------------------------------------------------------
  // The checker
  // ---------------------------------------------------------------------

  /** One diagnostic: the binary expression and its operator. */
  datatype DupWarning = DupWarning(cause: Expr, op: Token)

  class DupSubExprChecker {
    /** The operators whose duplicated operands are suspicious. */
    var opSet: map<Token, bool>
    /** The operators that are exempt for float operands. */
    var floatOpsSet: map<Token, bool>
    /** The diagnostics handed to the sink, in order. */
    var warnings: seq<DupWarning>
    /** The type the type checker recorded for each node of the file (typesInfo.TypeOf). */
    const typeOf: NodeId -> GoType

    constructor (typeOf: NodeId -> GoType)
      ensures this.typeOf == typeOf
      ensures opSet == map[] && floatOpsSet == map[] && warnings == []
    {
      this.typeOf := typeOf;
      opSet, floatOpsSet := map[], map[];
      warnings := [];
    }

    /** Fills both tables from Ops, one row at a time. */
    method Init()
      modifies this
      ensures opSet == OpSetOf(Ops) && floatOpsSet == FloatOpsSetOf(Ops)
      ensures warnings == old(warnings)
    {
      opSet := map[];
      floatOpsSet := map[];
      for i := 0 to |Ops|
        invariant opSet == OpSetOf(Ops[..i])
        invariant floatOpsSet == FloatOpsSetOf(Ops[..i])
        invariant warnings == old(warnings)
      {
        var opInfo := Ops[i];
        assert Ops[..i + 1][..i] == Ops[..i];
        opSet := opSet[opInfo.op := true];
        if opInfo.float {
          floatOpsSet := floatOpsSet[opInfo.op := true];
        }
      }
      assert Ops[..|Ops|] == Ops;
    }

    /**
      Only binary expressions are checked; xId is the node of expr's left
      operand, whose recorded type decides the float exemption.
    */
    method VisitExpr(expr: Expr, xId: NodeId)
      modifies this
      ensures opSet == old(opSet) && floatOpsSet == old(floatOpsSet)
      ensures warnings == old(warnings) +
        if expr.Binary? && Suspicious(opSet, floatOpsSet, typeOf(xId), expr) then [DupWarning(expr, expr.op)] else []
    {
      if expr.Binary? {
        CheckBinaryExpr(expr, xId);
      }
    }

    /** Reports expr, once, when its operator and operands make it suspicious. */
    method CheckBinaryExpr(expr: Expr, xId: NodeId)
      requires expr.Binary?
      modifies this
      ensures opSet == old(opSet) && floatOpsSet == old(floatOpsSet)
      ensures warnings == old(warnings) +
        if Suspicious(opSet, floatOpsSet, typeOf(xId), expr) then [DupWarning(expr, expr.op)] else []
    {
      if !Lookup(opSet, expr.op) {
        return;
      }
      if ResultIsFloat(typeOf(xId)) && Lookup(floatOpsSet, expr.op) {
        return;
      }
      if IsSafe(expr) && Lookup(opSet, expr.op) && expr.x == expr.y {
        Warn(expr);
      }
    }

    /** Hands one diagnostic to the sink. */
    method Warn(cause: Expr)
      requires cause.Binary?
      modifies this`warnings
      ensures warnings == old(warnings) + [DupWarning(cause, cause.op)]
    {
      warnings := warnings + [DupWarning(cause, cause.op)];
    }
  }

  /**
    The doc example `xs[i].v < xs[i].v`: a checker fresh from Init reports
    it exactly once, whatever the types.
  */
  method DocExample(typeOf: NodeId -> GoType, xId: NodeId, xs: string, i: string, v: string)
    returns (reported: seq<DupWarning>)
    ensures var operand := Selector(Index(Ident(xs), Ident(i)), v);
      reported == [DupWarning(Binary(Lss, operand, operand), Lss)]
  {
    var c := new DupSubExprChecker(typeOf);
    c.Init();
    var operand := Selector(Index(Ident(xs), Ident(i)), v);
    NonFloatOperatorWarns(typeOf(xId), Lss, operand);
    c.VisitExpr(Binary(Lss, operand, operand), xId);
    reported := c.warnings;
  }

  /**
    One file with `func f(x float64) bool { return x == x }` and
    `func g(x int) bool { return x == x }`: the two `x == x` have the same
    text, but only g's, whose left operand fx/gx is typed int, is reported.
  */
  method SameTextExample(fx: NodeId, gx: NodeId, x: string) returns (reported: seq<DupWarning>)
    requires fx != gx
    ensures reported == [DupWarning(Binary(Eql, Ident(x), Ident(x)), Eql)]
  {
    var c := new DupSubExprChecker(id => if id == fx then Basic(Float64) else Basic(Int));
    c.Init();
    var e := Binary(Eql, Ident(x), Ident(x));
    SameTextTypedApart(Eql, Ident(x));
    c.VisitExpr(e, fx);
    c.VisitExpr(e, gx);
    reported := c.warnings;
  }
}
