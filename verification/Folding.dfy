/** What is folded, and what code that leaves out. */
module Folding {
  import opened Common
  import opened Source
  import opened Graph
  import opened Builder
  import opened CodeGen
  import opened Frames
  import opened FrameStmt
  import opened FrameLoops
  import opened FrameAll
  import opened SimExpr

  /** No effect and no comma occurs, but for the operand of ?: that its condition does not select. Both
      operands of && and || count. */
  predicate Foldable(w: World, e: Expr) {
    match e
    case Const(_) => true
    case Act(_, _) => false
    case Comma(_, _) => false
    case Bin(_, l, r) => Foldable(w, l) && Foldable(w, r)
    case Not(x) => Foldable(w, x)
    case And(l, r) => Foldable(w, l) && Foldable(w, r)
    case Or(l, r) => Foldable(w, l) && Foldable(w, r)
    case Cond(c, l, r) => Foldable(w, c) && if Eval(w, c, []).0 != 0 then Foldable(w, l) else Foldable(w, r)
  }

  /** The constant evaluator finds the value of these expressions, and of no others. */
  lemma {:induction false} CalcExactly(w: World, e: Expr, t: Trace)
    ensures Calc(w.alu, e) == if Foldable(w, e) then Some(Eval(w, e, t).0) else None
    ensures Foldable(w, e) ==> Eval(w, e, t).1 == t
    decreases e
  {
    match e
    case Const(_) =>
    case Act(_, _) =>
    case Comma(_, _) =>
    case Bin(_, l, r) => CalcExactly(w, l, t); CalcExactly(w, r, t);
    case Not(x) => CalcExactly(w, x, t);
    case And(l, r) => CalcExactly(w, l, t); CalcExactly(w, r, t);
    case Or(l, r) => CalcExactly(w, l, t); CalcExactly(w, r, t);
    case Cond(c, l, r) =>
      CalcExactly(w, c, t);
      CalcExactly(w, c, []);
      CalcExactly(w, l, t);
      CalcExactly(w, r, t);
  }

  /** No code is emitted for such an expression: its value is a constant of the code around it. */
  lemma {:induction false} FoldedCode(w: World, b: Builder, e: Expr)
    requires Foldable(w, e) && ValOK(w.alu, e)
    ensures GenExpr(w.alu, b, e) == EV(b, Imm(Eval(w, e, []).0))
    decreases e
  {
    CalcExactly(w, e, []);
    match e
    case Const(_) =>
    case Bin(_, l, r) => FoldedCode(w, b, l); FoldedCode(w, b, r); CalcExactly(w, l, []);
    case Not(x) => FoldedCode(w, b, x);
    case And(l, r) => CalcExactly(w, l, []); if Eval(w, l, []).0 != 0 { FoldedCode(w, b, r); }
    case Or(l, r) => CalcExactly(w, l, []); if Eval(w, l, []).0 == 0 { FoldedCode(w, b, r); }
    case Cond(c, l, r) => CalcExactly(w, c, []); FoldedCode(w, b, if Eval(w, c, []).0 != 0 then l else r);
  }

  /** A statement and all statements in it. */
  function Within(s: Stmt): seq<Stmt> {
    [s] +
    match s
    case Seq(a, b) => Within(a) + Within(b)
    case If(_, a, b) => Within(a) + if b.Some? then Within(b.value) else []
    case Switch(_, body) => Within(body)
    case While(_, body) => Within(body)
    case DoWhile(body, _) => Within(body)
    case For(_, _, _, body) => Within(body)
    case Label(_, s1) => Within(s1)
    case Case(_, _, s1) => Within(s1)
    case Default(s1) => Within(s1)
    case _ => []
  }
  predicate Marked(s: Stmt) { s.Label? || s.Case? || s.Default? || s.Switch? }
  predicate Labelled(s: Stmt) { exists x :: x in Within(s) && Marked(x) }

  lemma {:induction false} ContainsLabelExactly(s: Stmt)
    ensures ContainsLabel(s) <==> Labelled(s)
  {
    assert s in Within(s);
    match s
    case Seq(a, b) => ContainsLabelExactly(a); ContainsLabelExactly(b);
    case If(_, a, b) => ContainsLabelExactly(a); if b.Some? { ContainsLabelExactly(b.value); }
    case While(_, body) => ContainsLabelExactly(body);
    case DoWhile(body, _) => ContainsLabelExactly(body);
    case For(_, _, _, body) => ContainsLabelExactly(body);
    case _ =>
  }

  /** An unreachable statement without labels leaves nothing behind. */
  lemma {:induction false} UnreachableDropped(alu: Alu, b: Builder, s: Stmt)
    requires b.cur.None? && !Labelled(s)
    ensures GenStmt(alu, b, s) == b
  {
    ContainsLabelExactly(s);
    if s.Seq? {
      ContainsLabelExactly(s.hd);
      ContainsLabelExactly(s.tl);
      UnreachableDropped(alu, b, s.hd);
      UnreachableDropped(alu, b, s.tl);
    }
  }

  /** The branch that a constant condition does not select, if it has one. */
  function Dead(w: World, s: Stmt): Option<Stmt>
    requires s.If?
  {
    if Eval(w, s.c, []).0 != 0 then s.els else Some(s.thn)
  }
  predicate Folds(w: World, s: Stmt)
    requires s.If?
  {
    Foldable(w, s.c) && (Dead(w, s).None? || !Labelled(Dead(w, s).value))
  }

  /** An if with a constant condition is its live branch, when no label stands in the other. */
  lemma {:induction false} FoldedIf(w: World, b: Builder, s: Stmt)
    requires s.If? && Folds(w, s)
    ensures Eval(w, s.c, []).0 != 0 ==> Visit(w.alu, b, s) == GenStmt(w.alu, b, s.thn)
    ensures Eval(w, s.c, []).0 == 0 ==> Visit(w.alu, b, s) == if s.els.None? then b else GenStmt(w.alu, b, s.els.value)
  {
    FoldsIs(w, s);
  }

  lemma {:induction false} FoldsIs(w: World, s: Stmt)
    requires s.If?
    ensures Folds(w, s) <==> IfFolds(w.alu, s)
    ensures Folds(w, s) ==> Calc(w.alu, s.c) == Some(Eval(w, s.c, []).0)
  {
    CalcExactly(w, s.c, []);
    ContainsLabelExactly(s.thn);
    if s.els.Some? { ContainsLabelExactly(s.els.value); }
  }

  /** In every other if, each branch gets a block. */
  lemma {:induction false} TestedIf(w: World, b: Builder, s: Stmt)
    requires s.If? && !Folds(w, s) && SInv(b) && Live(b) && Fits(w.alu, b, s)
    ensures var b1, n := Visit(w.alu, b, s), b.nextBlock; Blk(n) in b1.plain && (s.els.Some? ==> Blk(n + 2) in b1.plain)
    ensures Blk(b.nextBlock) !in b.plain && Blk(b.nextBlock + 2) !in b.plain
  {
    hide *;
    FoldsIs(w, s);
    IfIs(w.alu, b, s);
    IfPieces(w.alu, b, s);
    var n, b1, b3 := b.nextBlock, IfThen(w.alu, b, s.c, s.els.Some?), IfElseStart(w.alu, b, s);
    Begun(b1, Blk(n));
    if s.els.Some? { Begun(b3, Blk(n + 2)); }
    NotYet(b);
  }

  lemma Begun(b: Builder, x: BlockId)
    requires Starts(b, x)
    ensures forall g: Graph :: Ext(b.plain, g) ==> x in g
  {
  }

  lemma NotYet(b: Builder)
    requires SInv(b)
    ensures forall k: nat :: k >= b.nextBlock ==> Blk(k) !in b.plain
  {
  }
}
