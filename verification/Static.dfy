/** What can be said about a function body before it is compiled. */
module Static {
  import opened Common
  import opened Source
  import opened Graph
  import opened Builder
  import opened CodeGen
  import opened Frames
  import opened FrameExpr
  import opened SimExpr

  function FoldBool(alu: Alu, e: Expr): Option<int>
    decreases e, 1
  {
    var v := Fold(alu, e);
    if v.Some? then Some(Truth(v.value)) else None
  }

  /** The constant that GenExpr returns, if it returns one: unlike Calc, it looks through commas. */
  function Fold(alu: Alu, e: Expr): Option<int>
    decreases e, 0
  {
    match e
    case Const(v) => Some(v)
    case Act(_, _) => None
    case Bin(op, l, r) =>
      var x, y := Fold(alu, l), Fold(alu, r);
      if x.Some? && y.Some? then Some(alu(op, x.value, y.value)) else None
    case Comma(_, r) => Fold(alu, r)
    case Not(x) => var v := Fold(alu, x); if v.Some? then Some(1 - Truth(v.value)) else None
    case And(l, r) =>
      var c := Calc(alu, l);
      if c.None? then None else if c.value == 1 then FoldBool(alu, r) else Some(0)
    case Or(l, r) =>
      var c := Calc(alu, l);
      if c.None? then None else if c.value == 0 then FoldBool(alu, r) else Some(1)
    case Cond(c, l, r) =>
      var v := Calc(alu, c);
      if v.Some? then Fold(alu, if v.value != 0 then l else r)
      else if l.Const? && r.Const? then
        var x := Fold(alu, c);
        if x.None? then None else Some(if x.value != 0 then l.v else r.v)
      else None
  }

  /** The code of the expression has more than one block. */
  predicate Splits(alu: Alu, e: Expr) {
    match e
    case Const(_) => false
    case Act(_, args) => exists i :: 0 <= i < |args| && Splits(alu, args[i])
    case Bin(_, l, r) => Splits(alu, l) || Splits(alu, r)
    case Comma(l, r) => Splits(alu, l) || Splits(alu, r)
    case Not(x) => Splits(alu, x)
    case And(l, r) => Calc(alu, l).None? || (Calc(alu, l) == Some(1) && Splits(alu, r))
    case Or(l, r) => Calc(alu, l).None? || (Calc(alu, l) == Some(0) && Splits(alu, r))
    case Cond(c, l, r) =>
      var v := Calc(alu, c);
      if v.Some? then Splits(alu, if v.value != 0 then l else r)
      else if l.Const? && r.Const? then Splits(alu, c)
      else true
  }

  /** The code of the expression performs an effect, if it is one block. */
  predicate Effects(alu: Alu, e: Expr) {
    match e
    case Const(_) => false
    case Act(_, _) => true
    case Bin(_, l, r) => Effects(alu, l) || Effects(alu, r)
    case Comma(l, r) => Effects(alu, l) || Effects(alu, r)
    case Not(x) => Effects(alu, x)
    case And(l, r) => Calc(alu, l) == Some(1) && Effects(alu, r)
    case Or(l, r) => Calc(alu, l) == Some(0) && Effects(alu, r)
    case Cond(c, l, r) =>
      var v := Calc(alu, c);
      if v.Some? then Effects(alu, if v.value != 0 then l else r) else Effects(alu, c)
  }

  /** A condition that folds to the constant `v` although its only block performs effects. The
      block is then removed with its effects (see Corners.EffectfulWhileExact). */
  predicate LoopCondOK(alu: Alu, e: Expr, v: int) {
    FoldBool(alu, e) == Some(v) ==> Splits(alu, e) || !Effects(alu, e)
  }

  /** The first block of the code ends in a test. */
  predicate EndsInTest(b: Builder, b1: Builder) {
    b.cur.Some? && b.cur.value in b1.plain
    && var t := b1.plain[b.cur.value].term; t.Some? && t.value.CondBr?
  }

  predicate Shape(alu: Alu, b: Builder, x: EV, fold: Option<int>, splits: bool, effects: bool) {
    && (x.v.Imm? <==> fold.Some?) && (fold.Some? ==> x.v == Imm(fold.value))
    && (splits ==> EndsInTest(b, x.b))
    && (!splits ==> x.b.cur == b.cur)
    && (!splits && !effects ==> fold.Some? && x.b == b)
  }

  lemma EndsInTestLater(b: Builder, b1: Builder, b2: Builder)
    requires EndsInTest(b, b1) && Ext(b1.plain, b2.plain)
    ensures EndsInTest(b, b2)
  {
    assert Extends(b1.plain[b.cur.value], b2.plain[b.cur.value]);
  }

  /** Code that goes on in the same block. */
  lemma EndsInTestFrom(b: Builder, b1: Builder, b2: Builder)
    requires b1.cur == b.cur && EndsInTest(b1, b2)
    ensures EndsInTest(b, b2)
  {
  }

  lemma {:induction false} BranchEndsInTest(alu: Alu, b: Builder, e: Expr, t: BlockId, f: BlockId)
    requires Inv(b) && Live(b)
    ensures EndsInTest(b, GenBranch(alu, b, e, t, f))
    decreases e, 4
  {
    hide EndsInTest, Grows, Inv, Ext, Advances, Live;
    match e
    case And(l, r) => FirstEndsInTest(alu, b, e, l, Blk(b.nextBlock), f, 1, Blk(b.nextBlock), r, t, f);
    case Or(l, r) => FirstEndsInTest(alu, b, e, l, t, Blk(b.nextBlock), 1, Blk(b.nextBlock), r, t, f);
    case Not(x) => BranchEndsInTest(alu, b, x, f, t);
    case Cond(_, _, _) => CondEndsInTest(alu, b, e, t, f);
    case _ => ValueEndsInTest(alu, b, e, t, f);
  }

  lemma {:induction false} CondEndsInTest(alu: Alu, b: Builder, e: Expr, t: BlockId, f: BlockId)
    requires Inv(b) && Live(b) && e.Cond?
    ensures EndsInTest(b, GenBranch(alu, b, e, t, f))
    decreases e, 3
  {
    hide EndsInTest, Grows, Inv, Ext, Advances, GenBranch, EmitBlock, NewBlocks, Live, Bounded;
    var lhs, rhs := Blk(b.nextBlock), Blk(b.nextBlock + 1);
    FirstEndsInTest(alu, b, e, e.c, lhs, rhs, 2, lhs, e.l, t, f);
    TwoStepFrame(alu, b, e, e.c, lhs, rhs, 2, lhs, e.l, t, f);
    var b2 := GenBranch(alu, EmitBlock(GenBranch(alu, NewBlocks(b, 2), e.c, lhs, rhs), lhs), e.l, t, f);
    ThenBlock(b, b2, rhs);
    var b3 := EmitBlock(b2, rhs);
    BranchCondIs(alu, b, e, t, f);
    BranchFrame(alu, b3, e.r, t, f);
    AfterBranchFacts(b3, GenBranch(alu, b3, e.r, t, f));
    EndsInTestLater(b, b2, b3);
    EndsInTestLater(b, b3, GenBranch(alu, b3, e.r, t, f));
  }

  lemma BranchCondIs(alu: Alu, b: Builder, e: Expr, t: BlockId, f: BlockId)
    requires e.Cond?
    ensures var lhs, rhs := Blk(b.nextBlock), Blk(b.nextBlock + 1);
      var b2 := GenBranch(alu, EmitBlock(GenBranch(alu, NewBlocks(b, 2), e.c, lhs, rhs), lhs), e.l, t, f);
      GenBranch(alu, b, e, t, f) == GenBranch(alu, EmitBlock(b2, rhs), e.r, t, f)
  {
    hide EmitBlock;
  }

  lemma {:induction false} ValueEndsInTest(alu: Alu, b: Builder, e: Expr, t: BlockId, f: BlockId)
    requires Inv(b) && Live(b) && !e.And? && !e.Or? && !e.Not? && !e.Cond?
    ensures EndsInTest(b, GenBranch(alu, b, e, t, f))
    decreases e, 3
  {
    hide EndsInTest, Grows, Inv, Ext, Advances;
    BoolFrame(alu, b, e);
    var x := GenBool(alu, b, e);
    ExprShape(alu, b, e);
    TerminateGrows(x.b, CondBr(x.v, t, f));
    TestEnds(b, x.b, CondBr(x.v, t, f));
    TestShape(alu, b, e);
    if Splits(alu, e) {
      GrowsExt(x.b, Terminate(x.b, CondBr(x.v, t, f)));
      EndsInTestLater(b, x.b, Terminate(x.b, CondBr(x.v, t, f)));
    }
  }

  lemma TestEnds(b: Builder, b1: Builder, t: Term)
    requires Live(b1) && t.CondBr?
    ensures b1.cur == b.cur ==> EndsInTest(b, Terminate(b1, t))
  {
  }

  lemma {:induction false} FirstEndsInTest(alu: Alu, b: Builder, e: Expr, l: Expr, lt: BlockId, lf: BlockId, k: nat,
    mid: BlockId, r: Expr, t: BlockId, f: BlockId)
    requires Inv(b) && Live(b) && mid == Blk(b.nextBlock) && 1 <= k && l < e && r < e
    ensures EndsInTest(b, GenBranch(alu, EmitBlock(GenBranch(alu, NewBlocks(b, k), l, lt, lf), mid), r, t, f))
    decreases e, 2
  {
    hide *;
    var b1 := GenBranch(alu, NewBlocks(b, k), l, lt, lf);
    var b2 := EmitBlock(b1, mid);
    var b3 := GenBranch(alu, b2, r, t, f);
    TwoStepFrame(alu, b, e, l, lt, lf, k, mid, r, t, f);
    InvNumbered(b, k);
    AfterBranchFacts(b2, b3);
    AfterBranchFacts(b, b1);
    NumberedBranch(alu, b, k, l, lt, lf);
    ThenBlock(b, b1, mid);
    BranchEndsInTest(alu, NewBlocks(b, k), l, lt, lf);
    EndsUnnumbered(b, k, b1);
    EndsInTestLater(b, b1, b2);
    EndsInTestLater(b, b2, b3);
  }

  lemma EndsUnnumbered(b: Builder, k: nat, b1: Builder)
    requires EndsInTest(NewBlocks(b, k), b1)
    ensures EndsInTest(b, b1)
  {
  }

  /** Two pieces of code one after the other. */
  lemma ShapeSeq(alu: Alu, b: Builder, x: EV, y: EV, fx: Option<int>, sx: bool, ex: bool,
    fy: Option<int>, sy: bool, ey: bool)
    requires Shape(alu, b, x, fx, sx, ex) && Shape(alu, x.b, y, fy, sy, ey) && Ext(x.b.plain, y.b.plain)
    ensures Shape(alu, b, y, fy, sx || sy, ex || ey)
  {
    if sx { EndsInTestLater(b, x.b, y.b); }
    else if sy { EndsInTestFrom(b, x.b, y.b); }
  }

  lemma ShapeDefine(alu: Alu, b: Builder, x: EV, fx: Option<int>, sx: bool, ex: bool, ins: Instr)
    requires Shape(alu, b, x, fx, sx, ex) && Live(x.b) && (fx.None? || sx || ex)
    ensures Shape(alu, b, Define(x.b, ins), None, sx, true)
    ensures fx.None? ==> Shape(alu, b, Define(x.b, ins), None, sx, ex)
  {
  }

  lemma {:induction false} TestShape(alu: Alu, b: Builder, e: Expr)
    requires Inv(b) && Live(b)
    requires Shape(alu, b, GenExpr(alu, b, e), Fold(alu, e), Splits(alu, e), Effects(alu, e))
    ensures Shape(alu, b, GenBool(alu, b, e), FoldBool(alu, e), Splits(alu, e), Effects(alu, e))
  {
    var x := GenExpr(alu, b, e);
    ExprFrame(alu, b, e);
    AfterExprFacts(b, x);
    if !x.v.Imm? { ShapeDefine(alu, b, x, None, Splits(alu, e), Effects(alu, e), ITest(x.b.nextReg, x.v)); }
  }

  lemma {:induction false} ExprShape(alu: Alu, b: Builder, e: Expr)
    requires Inv(b) && Live(b)
    ensures Shape(alu, b, GenExpr(alu, b, e), Fold(alu, e), Splits(alu, e), Effects(alu, e))
    decreases e, 1
  {
    hide Shape, Grows, Inv, Ext, Advances, EndsInTest, EmitBlock, Place, EmitBranch;
    match e
    case Const(_) => ShapeConst(alu, b, e.v);
    case Act(a, args) =>
      ArgsFrame(alu, b, args);
      var r := GenArgs(alu, b, args);
      AfterExprFacts(b, EV(r.b, Imm(0)));
      ArgsShape(alu, b, args);
      ShapeDefine(alu, b, EV(r.b, Imm(0)), Some(0), Splits(alu, e), true, IAct(r.b.nextReg, a, r.vs));
    case Bin(op, l, r) =>
      var x := GenExpr(alu, b, l);
      var y := GenExpr(alu, x.b, r);
      ExprFrame(alu, b, l);
      AfterExprFacts(b, x);
      ExprFrame(alu, x.b, r);
      AfterExprFacts(x.b, y);
      ExprShape(alu, b, l);
      ExprShape(alu, x.b, r);
      BinShape(alu, b, e, x, y);
    case Comma(l, r) =>
      var x := GenExpr(alu, b, l);
      var y := GenExpr(alu, x.b, r);
      ExprFrame(alu, b, l);
      AfterExprFacts(b, x);
      ExprFrame(alu, x.b, r);
      AfterExprFacts(x.b, y);
      ExprShape(alu, b, l);
      ExprShape(alu, x.b, r);
      ShapeSeq(alu, b, x, y, Fold(alu, l), Splits(alu, l), Effects(alu, l), Fold(alu, r),
        Splits(alu, r), Effects(alu, r));
    case Not(x) =>
      ExprShape(alu, b, x);
      TestShape(alu, b, x);
      BoolFrame(alu, b, x);
      NotShape(alu, b, x);
    case And(l, r) =>
      if Calc(alu, l).None? { JoinShape(alu, b, e); }
      else if Calc(alu, l) == Some(1) { ExprShape(alu, b, r); TestShape(alu, b, r); }
      else { ShapeConst(alu, b, 0); }
    case Or(l, r) =>
      if Calc(alu, l).None? { JoinShape(alu, b, e); }
      else if Calc(alu, l) == Some(0) { ExprShape(alu, b, r); TestShape(alu, b, r); }
      else { ShapeConst(alu, b, 1); }
    case Cond(c, l, r) =>
      var v := Calc(alu, c);
      if v.Some? { ExprShape(alu, b, if v.value != 0 then l else r); }
      else if l.Const? && r.Const? {
        ExprShape(alu, b, c);
        TestShape(alu, b, c);
        BoolFrame(alu, b, c);
        SelectShape(alu, b, e);
      } else { JoinShape(alu, b, e); }
  }

  lemma ShapeConst(alu: Alu, b: Builder, v: int)
    ensures Shape(alu, b, EV(b, Imm(v)), Some(v), false, false)
  {
  }

  lemma BinShape(alu: Alu, b: Builder, e: Expr, x: EV, y: EV)
    requires e.Bin? && Live(y.b) && Ext(x.b.plain, y.b.plain)
    requires Shape(alu, b, x, Fold(alu, e.l), Splits(alu, e.l), Effects(alu, e.l))
    requires Shape(alu, x.b, y, Fold(alu, e.r), Splits(alu, e.r), Effects(alu, e.r))
    ensures Shape(alu, b, EmitBin(alu, y.b, e.op, x.v, y.v), Fold(alu, e), Splits(alu, e), Effects(alu, e))
  {
    ShapeSeq(alu, b, x, y, Fold(alu, e.l), Splits(alu, e.l), Effects(alu, e.l), Fold(alu, e.r),
      Splits(alu, e.r), Effects(alu, e.r));
    if !(x.v.Imm? && y.v.Imm?) {
      ShapeDefine(alu, b, y, Fold(alu, e.r), Splits(alu, e), Effects(alu, e), IBin(y.b.nextReg, e.op, x.v, y.v));
    }
  }

  lemma NotShape(alu: Alu, b: Builder, x: Expr)
    requires Live(GenBool(alu, b, x).b)
    requires Shape(alu, b, GenBool(alu, b, x), FoldBool(alu, x), Splits(alu, x), Effects(alu, x))
    ensures var c := GenBool(alu, b, x);
      Shape(alu, b, EmitNot(c.b, c.v), Fold(alu, Not(x)), Splits(alu, x), Effects(alu, x))
  {
    var c := GenBool(alu, b, x);
    if !c.v.Imm? { ShapeDefine(alu, b, c, None, Splits(alu, x), Effects(alu, x), INot(c.b.nextReg, c.v)); }
  }

  lemma SelectShape(alu: Alu, b: Builder, e: Expr)
    requires e.Cond? && Calc(alu, e.c).None? && e.l.Const? && e.r.Const? && Live(GenBool(alu, b, e.c).b)
    requires Shape(alu, b, GenBool(alu, b, e.c), FoldBool(alu, e.c), Splits(alu, e.c), Effects(alu, e.c))
    ensures Shape(alu, b, GenExpr(alu, b, e), Fold(alu, e), Splits(alu, e), Effects(alu, e))
  {
    var c := GenBool(alu, b, e.c);
    if !c.v.Imm? {
      ShapeDefine(alu, b, c, None, Splits(alu, e.c), Effects(alu, e.c),
        ISelect(c.b.nextReg, c.v, Imm(e.l.v), Imm(e.r.v)));
    }
  }

  lemma {:induction false} ArgsShape(alu: Alu, b: Builder, es: seq<Expr>)
    requires Inv(b) && Live(b)
    ensures Shape(alu, b, EV(GenArgs(alu, b, es).b, Imm(0)), Some(0), exists i ::
        0 <= i < |es| && Splits(alu, es[i]), true)
    decreases es, 0
  {
    var s := exists i :: 0 <= i < |es| && Splits(alu, es[i]);
    if es == [] {
    } else {
      var x := GenExpr(alu, b, es[0]);
      var r := GenArgs(alu, x.b, es[1..]);
      ExprFrame(alu, b, es[0]);
      AfterExprFacts(b, x);
      ArgsFrame(alu, x.b, es[1..]);
      AfterExprFacts(x.b, EV(r.b, Imm(0)));
      ExprShape(alu, b, es[0]);
      ArgsShape(alu, x.b, es[1..]);
      var s1 := exists i :: 0 <= i < |es[1..]| && Splits(alu, es[1..][i]);
      assert s == (Splits(alu, es[0]) || s1) by {
        if i :| 0 <= i < |es| && Splits(alu, es[i]) && i > 0 { assert es[1..][i - 1] == es[i]; }
        if i :| 0 <= i < |es[1..]| && Splits(alu, es[1..][i]) { assert es[1..][i] == es[i + 1]; }
      }
      ShapeSeq(alu, b, x, EV(r.b, Imm(0)), Fold(alu, es[0]), Splits(alu, es[0]),
        Effects(alu, es[0]), Some(0), s1, true);
    }
  }

  /** Values that need a branch. */
  lemma {:induction false} JoinShape(alu: Alu, b: Builder, e: Expr)
    requires Inv(b) && Live(b)
    requires ((e.And? || e.Or?) && Calc(alu, e.l).None?)
      || (e.Cond? && Calc(alu, e.c).None? && !(e.l.Const? && e.r.Const?))
    ensures Shape(alu, b, GenExpr(alu, b, e), None, true, Effects(alu, e))
    decreases e, 0
  {
    hide Shape, Grows, Inv, Ext, Advances, EndsInTest, EmitBlock, Place, EmitBranch;
    var z := GenExpr(alu, b, e);
    var k, l := if e.Cond? then 3 else 2, if e.Cond? then e.c else e.l;
    var lhs, rhs := Blk(b.nextBlock), Blk(b.nextBlock + 1);
    var tb, fb := if e.Or? then rhs else lhs, if e.Or? then lhs else rhs;
    var b1 := GenBranch(alu, NewBlocks(b, k), l, tb, fb);
    InvNumbered(b, k);
    BranchEndsInTest(alu, NewBlocks(b, k), l, tb, fb);
    EndsUnnumbered(b, k, b1);
    if e.Cond? { CondFrame(alu, b, e); } else { LogicFrame(alu, b, e); }
    EndsInTestLater(b, b1, z.b);
    ShapeJoined(alu, b, z, e);
  }

  lemma ShapeJoined(alu: Alu, b: Builder, z: EV, e: Expr)
    requires EndsInTest(b, z.b) && z.v.Reg?
    ensures Shape(alu, b, z, None, true, Effects(alu, e))
  {
  }
}
