/** Written expressions have no parentheses but those that the grammar needs. */
module ExprWritten {
  import opened Common
  import opened ExprSyntax
  import opened ExprGrammar
  import opened ExprTrees

  /** Without any of its inner parentheses, the grammar would not derive it. */
  predicate NoSpare(t: Tree)
    decreases t
  {
    match t
    case TVar(_) => true
    case TLit(_) => true
    case TParen(e) => !e.TParen? && NoSpare(e)
    case TPost(d, e) => (e.TParen? ==> !Expression(TPost(d, e.e))) && NoSpare(e)
    case TIndex(e, i) => (e.TParen? ==> !Expression(TIndex(e.e, i))) && !i.TParen? && NoSpare(e) && NoSpare(i)
    case TCall(f, args) =>
      && (f.TParen? ==> !Expression(TCall(f.e, args))) && NoSpare(f)
      && forall k :: 0 <= k < |args| ==> NoSpare(args[k]) && (args[k].TParen? ==> !AssignmentExpr(args[k].e))
    case TMember(e, a, x) => (e.TParen? ==> !Expression(TMember(e.e, a, x))) && NoSpare(e)
    case TPre(op, e) => (e.TParen? ==> !Expression(TPre(op, e.e))) && NoSpare(e)
    case TCast(ty, e) => (e.TParen? ==> !Expression(TCast(ty, e.e))) && NoSpare(e)
    case TBin(op, l, r) =>
      && (l.TParen? ==> !Expression(TBin(op, l.e, r))) && (r.TParen? ==> !Expression(TBin(op, l, r.e)))
      && NoSpare(l) && NoSpare(r)
    case TCond(c, m, r) =>
      && (c.TParen? ==> !Expression(TCond(c.e, m, r))) && (r.TParen? ==> !Expression(TCond(c, m, r.e)))
      && (m.Some? ==> !m.value.TParen? && NoSpare(m.value)) && NoSpare(c) && NoSpare(r)
    case TAssign(op, l, r) =>
      && (l.TParen? ==> !Expression(TAssign(op, l.e, r))) && (r.TParen? ==> !Expression(TAssign(op, l, r.e)))
      && NoSpare(l) && NoSpare(r)
  }

  function Open(t: Tree): Tree { if t.TParen? then t.e else t }

  /** An operand at a place of rank `k`. */
  predicate Operand(t: Tree, k: nat) { NoSpare(t) && (t.TParen? ==> Rank(t.e) < k) }

  /** Every operand that is written in parentheses needs them. */
  lemma {:induction false} ParenthesesNeeded(a: Ast)
    ensures var t := WriteTop(a); !t.TParen? && NoSpare(t)
    decreases a, 0
  {
    hide Write, WriteArgs, OpRank, NoSpare, Operand;
    match a
    case Var(_) => LeafNeeded(WriteTop(a));
    case Lit(_) => LeafNeeded(WriteTop(a));
    case Unary(op, e) =>
      OperandNeeded(e, if op.PostInc? || op.PostDec? then POSTFIX else if op.PreInc?
        || op.PreDec? then UNARY else CAST);
      OneNeeded(WriteTop(a));
    case Binary(op, l, r) =>
      OperandNeeded(l, if op == Assign then COND else OpRank(op));
      OperandNeeded(r, if op == Assign then ASSIGN else OpRank(op) + 1);
      TwoNeeded(WriteTop(a));
    case Cond(c, l, r) =>
      OperandNeeded(c, BINARY);
      OperandNeeded(l, COMMA);
      OperandNeeded(r, COND);
      CondNeeded(WriteTop(a));
    case Cast(_, e) => OperandNeeded(e, CAST); OneNeeded(WriteTop(a));
    case Call(f, args) => OperandNeeded(f, POSTFIX); ArgsNeeded(args); CallNeeded(WriteTop(a));
    case Member(e, _) => OperandNeeded(e, POSTFIX); OneNeeded(WriteTop(a));
  }

  lemma LeafNeeded(t: Tree)
    requires t.TVar? || t.TLit?
    ensures NoSpare(t)
  {
  }

  lemma {:induction false} OneNeeded(t: Tree)
    requires t.TPost? || t.TMember? || t.TCast? || t.TPre?
    requires Operand(t.e, if t.TPost? || t.TMember? then POSTFIX else if t.TCast? then CAST
      else if t.uop.PreInc? || t.uop.PreDec? then UNARY else CAST)
    ensures NoSpare(t)
  {
    hide OpRank, Expression;
    match t
    case TPost(d, e) => GrammarIsRanks(TPost(d, Open(e)));
    case TMember(e, arrow, x) => GrammarIsRanks(TMember(Open(e), arrow, x));
    case TCast(ty, e) => GrammarIsRanks(TCast(ty, Open(e)));
    case TPre(op, e) => GrammarIsRanks(TPre(op, Open(e)));
  }

  lemma {:induction false} TwoNeeded(t: Tree)
    requires t.TBin? || t.TAssign?
    requires Operand(t.l, if t.TBin? then OpRank(t.op) else COND)
    requires Operand(t.r, if t.TBin? then OpRank(t.op) + 1 else ASSIGN)
    ensures NoSpare(t)
  {
    hide OpRank, Expression;
    match t
    case TBin(op, l, r) =>
      GrammarIsRanks(TBin(op, Open(l), r));
      GrammarIsRanks(TBin(op, l, Open(r)));
    case TAssign(op, l, r) =>
      GrammarIsRanks(TAssign(op, Open(l), r));
      GrammarIsRanks(TAssign(op, l, Open(r)));
  }

  lemma {:induction false} CondNeeded(t: Tree)
    requires t.TCond? && t.mid.Some? && Operand(t.c, BINARY) && Operand(t.mid.value, COMMA) && Operand(t.r, COND)
    ensures NoSpare(t)
  {
    hide OpRank, Expression;
    GrammarIsRanks(TCond(Open(t.c), t.mid, t.r));
    GrammarIsRanks(TCond(t.c, t.mid, Open(t.r)));
  }

  lemma {:induction false} CallNeeded(t: Tree)
    requires t.TCall? && Operand(t.f, POSTFIX)
    requires forall k ::
        0 <= k < |t.args| ==> NoSpare(t.args[k]) && (t.args[k].TParen? ==> !AssignmentExpr(t.args[k].e))
    ensures NoSpare(t)
  {
    hide OpRank, Expression, AssignmentExpr;
    GrammarIsRanks(TCall(Open(t.f), t.args));
  }

  lemma {:induction false} OperandNeeded(a: Ast, k: nat)
    ensures Operand(Write(a, k), k)
    decreases a, 1
  {
    hide Write, NoSpare, Rank, WriteTop;
    ParenthesesNeeded(a);
    WriteIs(a, k);
    assert NoSpare(TParen(WriteTop(a))) by { NoSpareParen(WriteTop(a)); }
  }

  lemma NoSpareParen(t: Tree)
    requires !t.TParen? && NoSpare(t)
    ensures NoSpare(TParen(t))
  {
  }

  lemma {:induction false} ArgsNeeded(args: seq<Ast>)
    ensures var ts := WriteArgs(args);
      |ts| == |args| && forall k :: 0 <= k < |ts| ==> NoSpare(ts[k]) && (ts[k].TParen? ==> !AssignmentExpr(ts[k].e))
    decreases args, 0
  {
    hide Write, NoSpare, AssignmentExpr;
    if args != [] {
      OperandNeeded(args[0], ASSIGN);
      GrammarIsRanks(Open(Write(args[0], ASSIGN)));
      ArgsNeeded(args[1..]);
    }
  }
}
