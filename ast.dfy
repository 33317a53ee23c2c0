/**
  The slice of Go's go/ast and go/token that the two checkers look at.
  Positions are not modelled: two trees are the same exactly when they are
  equal as Dafny values, which is what astequal.Expr decides (it ignores
  positions and keeps parentheses significant).
*/
module Ast {

  /** The go/token operators that occur in unary and binary expressions. */
  datatype Token =
    | Add | Sub | Mul | Quo | Rem            // +  -  *  /  %
    | And | Or | Xor | Shl | Shr | AndNot    // &  |  ^  <<  >>  &^
    | LAnd | LOr | Arrow                     // &&  ||  <-
    | Eql | Lss | Gtr | Not                  // ==  <  >  !
    | Neq | Leq | Geq                        // !=  <=  >=

  /** Expression node types that neither checker inspects by shape. */
  datatype OtherKind =
    | Call | Star | CompositeLit | FuncLit | Slice | TypeAssert | KeyValue | TypeExpr

  /**
    An expression tree. Other nodes keep the expression children that a
    tree rewrite descends into (the function and arguments of a call, the
    elements of a composite literal, ...).
  */
  datatype Expr =
    | Unary(op: Token, x: Expr)
    | Binary(op: Token, x: Expr, y: Expr)
    | Paren(x: Expr)
    | Ident(name: string)
    | BasicLit(value: string)
    | Index(x: Expr, index: Expr)
    | Selector(x: Expr, sel: string)
    | Other(kind: OtherKind, args: seq<Expr>)

  /**
    The identity of a node of the walked tree (a pointer in the source),
    given by the driver. Two nodes with the same text have different ids.
  */
  type NodeId = nat

  /** The number of nodes of a tree. */
  function Size(e: Expr): nat
    decreases e
  {
    match e
    case Unary(_, x) => 1 + Size(x)
    case Binary(_, x, y) => 1 + Size(x) + Size(y)
    case Paren(x) => 1 + Size(x)
    case Ident(_) => 1
    case BasicLit(_) => 1
    case Index(x, i) => 1 + Size(x) + Size(i)
    case Selector(x, _) => 1 + Size(x)
    case Other(_, args) => 1 + SizeAll(args)
  }

  function SizeAll(args: seq<Expr>): nat
    decreases args
  {
    if args == [] then 0 else Size(args[0]) + SizeAll(args[1..])
  }

  /** e wrapped in k pairs of parentheses. */
  function Parens(k: nat, e: Expr): (r: Expr)
    ensures Size(r) == Size(e) + k
  {
    if k == 0 then e else Paren(Parens(k - 1, e))
  }

  /** The number of parentheses wrapped directly around e. */
  function ParenDepth(e: Expr): nat
  {
    if e.Paren? then 1 + ParenDepth(e.x) else 0
  }

  /**
    astutil.Unparen: strips every parenthesis wrapped directly around e.
    The result is not a parenthesis, and e is exactly the result wrapped in
    ParenDepth(e) parentheses.
  */
  function Unparen(e: Expr): (r: Expr)
    ensures !r.Paren?
    ensures e == Parens(ParenDepth(e), r)
    ensures Size(r) <= Size(e)
  {
    if e.Paren? then Unparen(e.x) else e
  }

  /** Parentheses added around an expression are all stripped again. */
  lemma {:induction false} UnparenParens(k: nat, e: Expr)
    ensures Unparen(Parens(k, e)) == Unparen(e)
  {
    if k > 0 {
      UnparenParens(k - 1, e);
    }
  }

  /** The size of a sequence of trees is at most that of a pointwise larger one, and smaller when they differ. */
  lemma {:induction false} SizeAllShrinks(a: seq<Expr>, b: seq<Expr>)
    requires |a| == |b|
    requires forall i :: 0 <= i < |a| ==> b[i] == a[i] || Size(b[i]) < Size(a[i])
    ensures b == a || SizeAll(b) < SizeAll(a)
  {
    if a != [] {
      SizeAllShrinks(a[1..], b[1..]);
      assert a == [a[0]] + a[1..];
      assert b == [b[0]] + b[1..];
    }
  }
}
