/** Expressions only add code, and leave the insertion point in an open block. */
module FrameExpr {
  import opened Common
  import opened Source
  import opened Graph
  import opened Builder
  import opened CodeGen
  import opened Frames

  predicate AfterExpr(b: Builder, x: EV)
  {
    Live(x.b) && Grows(b, x.b) && Below(x.v, x.b.nextReg) && b.nextReg <= x.b.nextReg && b.nextBlock <= x.b.nextBlock
  }

  lemma TestFrame(b0: Builder, b: Builder, v: Value)
    requires Inv(b) && AfterExpr(b0, EV(b, v))
    ensures Inv(EmitTest(b, v).b) && AfterExpr(b0, EmitTest(b, v))
  {
    if !v.Imm? { DefineGrows(b, ITest(b.nextReg, v)); GrowsTrans(b0, b, EmitTest(b, v).b); }
  }

  lemma {:induction false} ExprFrame(alu: Alu, b: Builder, e: Expr)
    requires Inv(b) && Live(b)
    ensures Inv(GenExpr(alu, b, e).b) && AfterExpr(b, GenExpr(alu, b, e))
    decreases e, 1
  {
    hide Advances, Grows, Inv, Ext, EmitBlock, EmitBranch, Place;
    GrowsRefl(b);
    match e
    case Const(_) =>
    case Act(a, args) =>
      ArgsFrame(alu, b, args);
      var r := GenArgs(alu, b, args);
      DefineGrows(r.b, IAct(r.b.nextReg, a, r.vs));
      GrowsTrans(b, r.b, GenExpr(alu, b, e).b);
    case Bin(op, l, r) =>
      ExprFrame(alu, b, l);
      var x := GenExpr(alu, b, l);
      ExprFrame(alu, x.b, r);
      var y := GenExpr(alu, x.b, r);
      GrowsTrans(b, x.b, y.b);
      if !(x.v.Imm? && y.v.Imm?) {
        DefineGrows(y.b, IBin(y.b.nextReg, op, x.v, y.v));
        GrowsTrans(b, y.b, GenExpr(alu, b, e).b);
      }
    case Comma(l, r) =>
      ExprFrame(alu, b, l);
      var x := GenExpr(alu, b, l);
      ExprFrame(alu, x.b, r);
      GrowsTrans(b, x.b, GenExpr(alu, x.b, r).b);
    case Not(y) =>
      BoolFrame(alu, b, y);
      var c := GenBool(alu, b, y);
      if !c.v.Imm? {
        DefineGrows(c.b, INot(c.b.nextReg, c.v));
        GrowsTrans(b, c.b, GenExpr(alu, b, e).b);
      }
    case And(l, r) =>
      if Calc(alu, l).None? { LogicFrame(alu, b, e); } else { BoolFrame(alu, b, r); }
    case Or(l, r) =>
      if Calc(alu, l).None? { LogicFrame(alu, b, e); } else { BoolFrame(alu, b, r); }
    case Cond(c, l, r) =>
      var v := Calc(alu, c);
      if v.Some? {
        ExprFrame(alu, b, if v.value != 0 then l else r);
      } else if l.Const? && r.Const? {
        BoolFrame(alu, b, c);
        var y := GenBool(alu, b, c);
        if !y.v.Imm? {
          DefineGrows(y.b, ISelect(y.b.nextReg, y.v, Imm(l.v), Imm(r.v)));
          GrowsTrans(b, y.b, GenExpr(alu, b, e).b);
        }
      } else {
        CondFrame(alu, b, e);
      }
  }

  lemma {:induction false} BoolFrame(alu: Alu, b: Builder, e: Expr)
    requires Inv(b) && Live(b)
    ensures Inv(GenBool(alu, b, e).b) && AfterExpr(b, GenBool(alu, b, e))
    decreases e, 2
  {
    ExprFrame(alu, b, e);
    var x := GenExpr(alu, b, e);
    TestFrame(b, x.b, x.v);
  }

  lemma {:induction false} ArgsFrame(alu: Alu, b: Builder, es: seq<Expr>)
    requires Inv(b) && Live(b)
    ensures Inv(GenArgs(alu, b, es).b) && AfterExpr(b, EV(GenArgs(alu, b, es).b, Imm(0)))
    decreases es, 0
  {
    if es != [] {
      ExprFrame(alu, b, es[0]);
      var x := GenExpr(alu, b, es[0]);
      ArgsFrame(alu, x.b, es[1..]);
      GrowsTrans(b, x.b, GenArgs(alu, x.b, es[1..]).b);
    }
  }

  /** The branch emitted for a condition. */
  predicate AfterBranch(b: Builder, b1: Builder) {
    Cut(b1) && Grows(b, b1) && b.nextReg <= b1.nextReg && b.nextBlock <= b1.nextBlock }

  lemma AfterBranchFacts(b: Builder, b1: Builder)
    requires AfterBranch(b, b1)
    ensures Cut(b1) && Open(b1) && Grows(b, b1) && Ext(b.plain, b1.plain) && b.nextReg <= b1.nextReg
      && b.nextBlock <= b1.nextBlock
  {
  }

  lemma AfterExprFacts(b: Builder, x: EV)
    requires AfterExpr(b, x)
    ensures Live(x.b) && Open(x.b) && Grows(b, x.b) && Ext(b.plain, x.b.plain) && Below(x.v, x.b.nextReg)
    ensures b.nextReg <= x.b.nextReg && b.nextBlock <= x.b.nextBlock
  {
  }

  lemma InvNumbered(b: Builder, n: nat)
    requires Inv(b) && Live(b)
    ensures Bounded(b) && Inv(NewBlocks(b, n)) && Live(NewBlocks(b, n))
  {
  }

  lemma NumberedGrows(b: Builder, n: nat, b1: Builder)
    requires Grows(NewBlocks(b, n), b1) && Bounded(b)
    ensures Grows(b, b1)
    ensures forall i :: b.nextBlock <= i < b.nextBlock + n ==> Blk(i) !in b1.plain
    ensures b.nextBlock + n <= b1.nextBlock
  {
  }

  lemma {:induction false} BranchFrame(alu: Alu, b: Builder, e: Expr, t: BlockId, f: BlockId)
    requires Inv(b) && Live(b)
    ensures Inv(GenBranch(alu, b, e, t, f)) && AfterBranch(b, GenBranch(alu, b, e, t, f))
    decreases e, 3
  {
    hide Advances, Grows, Kept, Inv, Real, Preds, EmitBlock, EmitBranch, Terminate, JoinValue, Bounded, Ext;
    match e
    case And(l, r) => TwoStepFrame(alu, b, e, l, Blk(b.nextBlock), f, 1, Blk(b.nextBlock), r, t, f);
    case Or(l, r) => TwoStepFrame(alu, b, e, l, t, Blk(b.nextBlock), 1, Blk(b.nextBlock), r, t, f);
    case Not(x) => BranchFrame(alu, b, x, f, t);
    case Cond(c, l, r) =>
      var lhs, rhs := Blk(b.nextBlock), Blk(b.nextBlock + 1);
      TwoStepFrame(alu, b, e, c, lhs, rhs, 2, lhs, l, t, f);
      var b2 := GenBranch(alu, EmitBlock(GenBranch(alu, NewBlocks(b, 2), c, lhs, rhs), lhs), l, t, f);
      ThenBlock(b, b2, rhs);
      var b3 := EmitBlock(b2, rhs);
      BranchFrame(alu, b3, r, t, f);
      GrowsTrans(b, b3, GenBranch(alu, b3, r, t, f));
    case _ =>
      BoolFrame(alu, b, e);
      var x := GenBool(alu, b, e);
      TerminateGrows(x.b, CondBr(x.v, t, f));
      GrowsTrans(b, x.b, Terminate(x.b, CondBr(x.v, t, f)));
  }

  lemma StillFresh(b: Builder, b1: Builder, id: BlockId)
    requires Grows(b, b1) && id.Blk? && id.n < b.nextBlock && id !in b.plain
    ensures id !in b1.plain && id.n < b1.nextBlock
  {
  }

  lemma PlacedFresh(b: Builder, id: BlockId, other: BlockId)
    requires other != id && other.Blk? && other !in b.plain && other.n < b.nextBlock
    ensures other !in EmitBlock(b, id).plain && other.n < EmitBlock(b, id).nextBlock
  {
  }

  lemma BranchedCur(b: Builder, to: BlockId)
    ensures EmitBranch(b, to).cur.None?
  {
  }

  /** A branch, a block of its own, and a second branch from there. */
  lemma {:induction false} TwoStepFrame(alu: Alu, b: Builder, e: Expr, l: Expr, lt: BlockId, lf: BlockId, n: nat,
    mid: BlockId, r: Expr, t: BlockId, f: BlockId)
    requires Inv(b) && Live(b) && mid == Blk(b.nextBlock) && 1 <= n && l < e && r < e
    ensures var b1 := GenBranch(alu, NewBlocks(b, n), l, lt, lf);
      var b2 := EmitBlock(b1, mid);
      var b3 := GenBranch(alu, b2, r, t, f);
      && Inv(b1) && AfterBranch(b, b1) && Inv(b2) && Live(b2) && Grows(b, b2) && Inv(b3)
        && AfterBranch(b, b3) && AfterBranch(b2, b3)
      && b.nextBlock + n <= b1.nextBlock && b.nextBlock + n <= b3.nextBlock
      && (forall i :: b.nextBlock < i < b.nextBlock + n ==> Blk(i) !in b3.plain)
    decreases e, 2
  {
    hide GenBranch, Kept, Ext, GoneOK;
    var b1 := GenBranch(alu, NewBlocks(b, n), l, lt, lf);
    BranchFrame(alu, NewBlocks(b, n), l, lt, lf);
    NumberedGrows(b, n, b1);
    ThenBlock(b, b1, mid);
    var b2 := EmitBlock(b1, mid);
    BranchFrame(alu, b2, r, t, f);
    GrowsTrans(b, b2, GenBranch(alu, b2, r, t, f));
  }

  lemma {:induction false} LogicFrame(alu: Alu, b: Builder, e: Expr)
    requires e.And? || e.Or?
    requires Inv(b) && Live(b)
    ensures Inv(GenLogic(alu, b, e).b) && AfterExpr(b, GenLogic(alu, b, e))
    ensures var rhs, end := Blk(b.nextBlock), Blk(b.nextBlock + 1);
      Ext(GenBranch(alu, NewBlocks(b, 2), e.l, if e.Or? then end else rhs, if e.Or? then rhs else end).plain,
        GenLogic(alu, b, e).b.plain)
    decreases e, 0
  {
    hide Advances, Grows, Kept, Inv, Real, Preds, EmitBlock, EmitBranch, Terminate, JoinValue, Bounded, Ext;
    var rhs, end := Blk(b.nextBlock), Blk(b.nextBlock + 1);
    var t, f := if e.Or? then end else rhs, if e.Or? then rhs else end;
    var b1 := GenBranch(alu, NewBlocks(b, 2), e.l, t, f);
    InvNumbered(b, 2);
    BranchFrame(alu, NewBlocks(b, 2), e.l, t, f);
    NumberedGrows(b, 2, b1);
    ThenBlock(b, b1, rhs);
    var b2 := EmitBlock(b1, rhs);
    PlacedFresh(b1, rhs, end);
    BoolFrame(alu, b2, e.r);
    var x := GenBool(alu, b2, e.r);
    GrowsTrans(b, b2, x.b);
    StillFresh(b2, x.b, end);
    AfterExprFacts(b2, x);
    ExtTrans(b1.plain, b2.plain, x.b.plain);
    var early := map c | c in Preds(Real(b1.plain, b1.gone), end) :: Imm(if e.Or? then 1 else 0);
    var incoming := early + map[x.b.cur.value := x.v];
    ThenPhi(b, x.b, end, incoming);
    ExtTrans(b1.plain, x.b.plain, JoinValue(x.b, end, incoming).b.plain);
  }

  lemma CondIs(alu: Alu, b: Builder, e: Expr)
    requires e.Cond? && Calc(alu, e.c).None? && !(e.l.Const? && e.r.Const?)
    ensures var lhs, rhs, end := Blk(b.nextBlock), Blk(b.nextBlock + 1), Blk(b.nextBlock + 2);
      var b1 := GenBranch(alu, NewBlocks(b, 3), e.c, lhs, rhs);
      var x := GenExpr(alu, EmitBlock(b1, lhs), e.l);
      var y := GenExpr(alu, EmitBlock(EmitBranch(x.b, end), rhs), e.r);
      GenExpr(alu, b, e) == JoinValue(y.b, end, JoinPhi(x.b.cur, x.v, y.b.cur, y.v))
  {
    hide EmitBlock, EmitBranch, JoinValue, JoinPhi;
  }

  lemma {:induction false} CondFrame(alu: Alu, b: Builder, e: Expr)
    requires e.Cond? && Calc(alu, e.c).None? && !(e.l.Const? && e.r.Const?)
    requires Inv(b) && Live(b)
    ensures Inv(GenExpr(alu, b, e).b) && AfterExpr(b, GenExpr(alu, b, e))
    ensures Ext(GenBranch(alu, NewBlocks(b, 3), e.c, Blk(b.nextBlock), Blk(b.nextBlock + 1)).plain,
      GenExpr(alu, b, e).b.plain)
    decreases e, 0
  {
    hide Advances, Grows, Kept, Inv, Real, Preds, EmitBlock, EmitBranch, Terminate, JoinValue, Bounded, Ext, GenExpr,
      GenBranch, NewBlocks, Live, JoinPhi;
    var lhs, rhs, end := Blk(b.nextBlock), Blk(b.nextBlock + 1), Blk(b.nextBlock + 2);
    var b1 := GenBranch(alu, NewBlocks(b, 3), e.c, lhs, rhs);
    CondIs(alu, b, e);
    InvNumbered(b, 3);
    BranchFrame(alu, NewBlocks(b, 3), e.c, lhs, rhs);
    NumberedGrows(b, 3, b1);
    ThenBlock(b, b1, lhs);
    var b2 := EmitBlock(b1, lhs);
    PlacedFresh(b1, lhs, rhs);
    PlacedFresh(b1, lhs, end);
    ExprFrame(alu, b2, e.l);
    var x := GenExpr(alu, b2, e.l);
    AfterExprFacts(b2, x);
    GrowsTrans(b, b2, x.b);
    StillFresh(b2, x.b, rhs);
    StillFresh(b2, x.b, end);
    EmitBranchGrows(x.b, end);
    var b3 := EmitBranch(x.b, end);
    GrowsTrans(b, x.b, b3);
    StillFresh(x.b, b3, rhs);
    StillFresh(x.b, b3, end);
    BranchedCur(x.b, end);
    ThenBlock(b, b3, rhs);
    var b4 := EmitBlock(b3, rhs);
    PlacedFresh(b3, rhs, end);
    ExprFrame(alu, b4, e.r);
    var y := GenExpr(alu, b4, e.r);
    GrowsTrans(b, b4, y.b);
    StillFresh(b4, y.b, end);
    AfterExprFacts(b4, y);
    GrowsExt(x.b, b3);
    ExtTrans(b1.plain, b2.plain, x.b.plain);
    ExtTrans(b1.plain, x.b.plain, b3.plain);
    ExtTrans(b1.plain, b3.plain, b4.plain);
    ExtTrans(b1.plain, b4.plain, y.b.plain);
    var incoming := JoinPhi(x.b.cur, x.v, y.b.cur, y.v);
    ThenPhi(b, y.b, end, incoming);
    ExtTrans(b1.plain, y.b.plain, JoinValue(y.b, end, incoming).b.plain);
  }
}
