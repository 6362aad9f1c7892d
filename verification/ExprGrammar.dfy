/** Derivation trees of expressions, and the productions of C11 section 6.5, level by level. */
module ExprGrammar {
  import opened Common
  import opened ExprSyntax

  datatype Tree =
    | TVar(x: nat)
    | TLit(v: int)
    | TParen(e: Tree)
    | TPost(dec: bool, e: Tree)
    | TIndex(e: Tree, i: Tree)
    | TCall(f: Tree, args: seq<Tree>)
    | TMember(e: Tree, arrow: bool, x: nat)
    | TPre(uop: UnOp, e: Tree)
    | TCast(t: nat, e: Tree)
    | TBin(op: BinOp, l: Tree, r: Tree)
    | TCond(c: Tree, mid: Option<Tree>, r: Tree)
    | TAssign(aop: Option<BinOp>, l: Tree, r: Tree)

  /* Section 6.5.1, 6.5.2. */

  predicate PrimaryExpr(t: Tree)
    decreases t, 0
  {
    t.TVar? || t.TLit? || (t.TParen? && Expression(t.e))
  }
  predicate PostfixExpr(t: Tree)
    decreases t, 1
  {
    || PrimaryExpr(t)
    || (t.TIndex? && PostfixExpr(t.e) && Expression(t.i))
    || (t.TCall? && PostfixExpr(t.f) && forall k :: 0 <= k < |t.args| ==> AssignmentExpr(t.args[k]))
    || (t.TMember? && PostfixExpr(t.e))
    || (t.TPost? && PostfixExpr(t.e))
  }

  /* Section 6.5.3, 6.5.4. */

  predicate UnaryExpr(t: Tree)
    decreases t, 2
  {
    || PostfixExpr(t)
    || (t.TPre? && t.uop in {PreInc, PreDec} && UnaryExpr(t.e))
    || (t.TPre? && t.uop in {AddrOf, Deref, Plus, Minus, BitNot, LogNot} && CastExpr(t.e))
  }
  predicate CastExpr(t: Tree)
    decreases t, 3
  {
    UnaryExpr(t) || (t.TCast? && CastExpr(t.e))
  }

  /* Section 6.5.5 to 6.5.14. */

  predicate MultiplicativeExpr(t: Tree)
    decreases t, 4
  {
    CastExpr(t) || (t.TBin? && t.op in {Mul, Div, Mod} && MultiplicativeExpr(t.l) && CastExpr(t.r))
  }
  predicate AdditiveExpr(t: Tree)
    decreases t, 5
  {
    MultiplicativeExpr(t) || (t.TBin? && t.op in {Add, Sub} && AdditiveExpr(t.l) && MultiplicativeExpr(t.r))
  }
  predicate ShiftExpr(t: Tree)
    decreases t, 6
  {
    AdditiveExpr(t) || (t.TBin? && t.op in {Shl, Shr} && ShiftExpr(t.l) && AdditiveExpr(t.r))
  }
  predicate RelationalExpr(t: Tree)
    decreases t, 7
  {
    || ShiftExpr(t)
    || (t.TBin? && t.op in {Less, Greater, LessEq, GreaterEq} && RelationalExpr(t.l) && ShiftExpr(t.r))
  }
  predicate EqualityExpr(t: Tree)
    decreases t, 8
  {
    RelationalExpr(t) || (t.TBin? && t.op in {EqEq, NotEq} && EqualityExpr(t.l) && RelationalExpr(t.r))
  }
  predicate AndExpr(t: Tree)
    decreases t, 9
  {
    EqualityExpr(t) || (t.TBin? && t.op == BitAnd && AndExpr(t.l) && EqualityExpr(t.r))
  }
  predicate ExclusiveOrExpr(t: Tree)
    decreases t, 10
  {
    AndExpr(t) || (t.TBin? && t.op == BitXor && ExclusiveOrExpr(t.l) && AndExpr(t.r))
  }
  predicate InclusiveOrExpr(t: Tree)
    decreases t, 11
  {
    ExclusiveOrExpr(t) || (t.TBin? && t.op == BitOr && InclusiveOrExpr(t.l) && ExclusiveOrExpr(t.r))
  }
  predicate LogicalAndExpr(t: Tree)
    decreases t, 12
  {
    InclusiveOrExpr(t) || (t.TBin? && t.op == LogAnd && LogicalAndExpr(t.l) && InclusiveOrExpr(t.r))
  }
  predicate LogicalOrExpr(t: Tree)
    decreases t, 13
  {
    LogicalAndExpr(t) || (t.TBin? && t.op == LogOr && LogicalOrExpr(t.l) && LogicalAndExpr(t.r))
  }

  /* Section 6.5.15 to 6.5.17. */

  /** The middle operand may be missing, which is a GNU extension. */
  predicate ConditionalExpr(t: Tree)
    decreases t, 14
  {
    || LogicalOrExpr(t)
    || (t.TCond? && LogicalOrExpr(t.c) && (t.mid.Some? ==> Expression(t.mid.value)) && ConditionalExpr(t.r))
  }

  /** On the left C11 has a unary expression, and kcc any conditional expression. */
  predicate AssignmentExpr(t: Tree)
    decreases t, 15
  {
    ConditionalExpr(t) || (t.TAssign? && AssignmentOp(t.aop) && ConditionalExpr(t.l) && AssignmentExpr(t.r))
  }
  predicate AssignmentOp(op: Option<BinOp>) {
    op.None? || op.value in {Mul, Div, Mod, Add, Sub, Shl, Shr, BitAnd, BitXor, BitOr}
  }
  predicate Expression(t: Tree)
    decreases t, 16
  {
    AssignmentExpr(t) || (t.TBin? && t.op == Comma && Expression(t.l) && AssignmentExpr(t.r))
  }

  /** A token that can go on with an expression. */
  predicate Continues(t: Token) {
    || t.Bin? || t.OpAssign? || t.Question?
    || t.LSquare? || t.LParen? || t.Arrow? || t.Period? || t.PlusPlus? || t.MinusMinus?
  }
}
