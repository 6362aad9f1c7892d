/** The graph while it is being emitted: every block that is not open is closed, every branch leads to
    a block that is there or will be, and every phi lists exactly the blocks that branch to it. */
module WellFormedExpr {
  import opened Common
  import opened Source
  import opened Graph
  import opened Builder
  import opened CodeGen
  import opened Frames
  import opened FrameExpr
  import opened SimExpr

  /** What is still to come: `due` are blocks that will be placed, `wait` are blocks that will be
      closed by a switch, `labels` are the labels of the function. */
  datatype Plan = Plan(due: set<BlockId>, wait: set<BlockId>, labels: set<nat>)

  predicate Expected(p: Plan, y: BlockId) { y in p.due || y.RetBlk? || (y.Lbl? && y.l in p.labels) }

  predicate BlockOK(b: Builder, p: Plan, x: BlockId)
    requires x in b.plain
  {
    && (b.plain[x].term.None? ==> Some(x) == b.cur || x in p.wait)
    && (forall y :: y in Targets(b.plain[x]) ==> y in b.plain || Expected(p, y))
    && (b.plain[x].phi.Some? ==> x.Blk? && b.plain[x].phi.value.incoming.Keys == Preds(b.plain, x))
    && b.plain[x].term != Some(Ret)
  }

  ghost predicate Formed(b: Builder, p: Plan) {
    && (forall x :: x in b.plain ==> BlockOK(b, p, x))
    && (forall y :: y in p.due ==> y.Blk? && y.n < b.nextBlock && y !in b.plain)
    && RetBlk !in b.plain
  }

  /** A branch to `y` is allowed: no phi is waiting there. */
  predicate Branchable(b: Builder, p: Plan, y: BlockId) {
    if y in b.plain then b.plain[y].phi.None? else Expected(p, y) }

  predicate SamePreds(g: Graph, g1: Graph, ys: set<BlockId>) { forall y :: y in ys ==> Preds(g1, y) == Preds(g, y) }

  lemma PredsIn(g: Graph, x: BlockId, y: BlockId)
    ensures x in Preds(g, y) <==> x in g && y in Targets(g[x])
  {
  }

  /** One block has changed, and only its own targets count. */
  lemma PredsOfChange(g: Graph, x: BlockId, blk: Block, y: BlockId)
    requires y !in Targets(blk) && (x in g ==> y !in Targets(g[x]))
    ensures Preds(g[x := blk], y) == Preds(g, y)
  {
  }

  lemma PredsAdded(g: Graph, x: BlockId, blk: Block, y: BlockId)
    requires y in Targets(blk)
    ensures Preds(g[x := blk], y) == Preds(g, y) + {x}
  {
  }

  lemma EmitFormed(b: Builder, ins: Instr, p: Plan, y: BlockId)
    requires Live(b) && Formed(b, p)
    ensures Formed(Emit(b, ins), p) && Preds(Emit(b, ins).plain, y) == Preds(b.plain, y)
  {
    var b1 := Emit(b, ins);
    forall x ensures Preds(b1.plain, x) == Preds(b.plain, x) {
      PredsOfChange(b.plain, b.cur.value, b1.plain[b.cur.value], x); }
    forall x | x in b1.plain ensures BlockOK(b1, p, x) { assert BlockOK(b, p, x); }
  }

  lemma TerminateFormed(b: Builder, t: Term, p: Plan, y: BlockId)
    requires Live(b) && Formed(b, p) && !t.Ret? && forall z :: z in TermTargets(t) ==> Branchable(b, p, z)
    ensures Formed(Terminate(b, t), p) && (y !in TermTargets(t)
      ==> Preds(Terminate(b, t).plain, y) == Preds(b.plain, y))
    ensures y in TermTargets(t) ==> Preds(Terminate(b, t).plain, y) == Preds(b.plain, y) + {b.cur.value}
  {
    hide Preds;
    var b1, c := Terminate(b, t), b.cur.value;
    assert Targets(b.plain[c]) == {} && Targets(b1.plain[c]) == TermTargets(t);
    if y in TermTargets(t) { PredsAdded(b.plain, c, b1.plain[c], y); } else {
      PredsOfChange(b.plain, c, b1.plain[c], y); }
    forall x | x in b1.plain ensures BlockOK(b1, p, x) {
      assert BlockOK(b, p, x);
      if b.plain[x].phi.Some? { PredsOfChange(b.plain, c, b1.plain[c], x); }
    }
  }

  lemma EmitBranchFormed(b: Builder, to: BlockId, p: Plan, y: BlockId)
    requires (Open(b) || b.cur.None?) && Formed(b, p) && Branchable(b, p, to)
    ensures var b1 := EmitBranch(b, to);
      && Formed(b1, p) && b1.cur.None? && (y != to ==> Preds(b1.plain, y) == Preds(b.plain, y))
      && Preds(b1.plain, to) == Preds(b.plain, to) + if Live(b) then {b.cur.value} else {}
  {
    hide Preds;
    var b1 := EmitBranch(b, to);
    if Live(b) {
      TerminateFormed(b, Br(to), p, y);
      TerminateFormed(b, Br(to), p, to);
      var b2 := Terminate(b, Br(to));
      forall x | x in b1.plain ensures BlockOK(b1, p, x) { assert BlockOK(b2, p, x); }
    } else {
      forall x | x in b1.plain ensures BlockOK(b1, p, x) { assert BlockOK(b, p, x); }
    }
  }

  function Placed(p: Plan, id: BlockId): Plan { p.(due := p.due - {id}) }
  function Also(p: Plan, ids: set<BlockId>): Plan { p.(due := p.due + ids) }

  lemma PlaceFormed(b: Builder, id: BlockId, phi: Option<Phi>, p: Plan, y: BlockId)
    requires b.cur.None? && Formed(b, p) && id !in b.plain && !id.RetBlk?
    requires phi.Some? ==> id.Blk? && phi.value.incoming.Keys == Preds(b.plain, id)
    ensures var b1 := Place(b, id, phi); Formed(b1, Placed(p, id)) && Preds(b1.plain, y) == Preds(b.plain, y)
  {
    hide Preds;
    var b1, p1 := Place(b, id, phi), Placed(p, id);
    forall x ensures Preds(b1.plain, x) == Preds(b.plain, x) { PredsOfChange(b.plain, id, b1.plain[id], x); }
    forall x | x in b1.plain ensures BlockOK(b1, p1, x) { if x != id { assert BlockOK(b, p, x); } }
  }

  lemma BlockFormed(b: Builder, id: BlockId, p: Plan, y: BlockId)
    requires (Open(b) || b.cur.None?) && Formed(b, p) && Expected(p, id) && !id.RetBlk? && id !in b.plain
    ensures var b1 := EmitBlock(b, id);
      Formed(b1, Placed(p, id)) && (y != id ==> Preds(b1.plain, y) == Preds(b.plain, y))
  {
    hide Formed;
    EmitBranchFormed(b, id, p, y);
    BranchedKeys(b, id);
    PlaceFormed(EmitBranch(b, id), id, None, p, y);
  }

  lemma BranchedKeys(b: Builder, id: BlockId)
    ensures EmitBranch(b, id).plain.Keys == b.plain.Keys
  {
  }

  function NewIds(b: Builder, n: nat): set<BlockId> { set i: nat | b.nextBlock <= i < b.nextBlock + n :: Blk(i) }

  /** New numbers: nothing branches there yet. */
  lemma NewFormed(b: Builder, n: nat, p: Plan, y: BlockId)
    requires Bounded(b) && Formed(b, p)
    ensures Formed(NewBlocks(b, n), Also(p, NewIds(b, n))) && NewBlocks(b, n).plain == b.plain
    ensures y in NewIds(b, n) ==> Preds(b.plain, y) == {} && y !in p.due
    ensures forall i :: b.nextBlock <= i < b.nextBlock + n ==> Blk(i) in NewIds(b, n)
  {
    var b1, p1 := NewBlocks(b, n), Also(p, NewIds(b, n));
    forall x | x in b1.plain ensures BlockOK(b1, p1, x) { assert BlockOK(b, p, x); }
    if y in NewIds(b, n) {
      forall x ensures x !in Preds(b.plain, y) { if x in b.plain { assert BlockOK(b, p, x); } }
    }
  }

  lemma DefineFormed(b: Builder, ins: Instr, p: Plan, ys: set<BlockId>)
    requires Live(b) && Formed(b, p)
    ensures Formed(Define(b, ins).b, p) && SamePreds(b.plain, Define(b, ins).b.plain, ys)
  {
    hide Preds;
    forall y | y in ys ensures Preds(Define(b, ins).b.plain, y) == Preds(b.plain, y) { EmitFormed(b, ins, p, y); }
    EmitFormed(b, ins, p, RetBlk);
    var b1, b2 := Emit(b, ins), Define(b, ins).b;
    forall x | x in b2.plain ensures BlockOK(b2, p, x) { assert BlockOK(b1, p, x); }
  }

  lemma SameTrans(g0: Graph, g1: Graph, g2: Graph, ys: set<BlockId>, ys1: set<BlockId>)
    requires SamePreds(g0, g1, ys) && SamePreds(g1, g2, ys1) && ys <= ys1
    ensures SamePreds(g0, g2, ys)
  {
  }

  lemma SameRefl(g: Graph, ys: set<BlockId>)
    ensures SamePreds(g, g, ys)
  {
  }

  /* Expressions. */

  ghost predicate Keeps(b: Builder, b1: Builder, p: Plan, except: set<BlockId>) {
    Formed(b1, p) && SamePreds(b.plain, b1.plain, p.due - except)
  }

  lemma KeepsTrans(b: Builder, b1: Builder, b2: Builder, p: Plan, except: set<BlockId>)
    requires Keeps(b, b1, p, except) && Keeps(b1, b2, p, except)
    ensures Keeps(b, b2, p, except)
  {
    hide Formed;
    SameTrans(b.plain, b1.plain, b2.plain, p.due - except, p.due - except);
  }

  lemma KeepsRefl(b: Builder, p: Plan, except: set<BlockId>)
    requires Formed(b, p)
    ensures Keeps(b, b, p, except)
  {
  }

  lemma KeepsLess(b: Builder, b1: Builder, p: Plan, e0: set<BlockId>, e1: set<BlockId>)
    requires Keeps(b, b1, p, e0) && e0 <= e1
    ensures Keeps(b, b1, p, e1)
  {
    hide Formed, Preds;
  }

  lemma DefineKeeps(b0: Builder, b: Builder, ins: Instr, p: Plan)
    requires Live(b) && Keeps(b0, b, p, {})
    ensures Keeps(b0, Define(b, ins).b, p, {})
  {
    hide Formed, Preds;
    DefineFormed(b, ins, p, p.due);
    SameTrans(b0.plain, b.plain, Define(b, ins).b.plain, p.due - {}, p.due);
  }

  lemma TestKeeps(b0: Builder, b: Builder, v: Value, p: Plan)
    requires Live(b) && Keeps(b0, b, p, {})
    ensures Keeps(b0, EmitTest(b, v).b, p, {})
  {
    hide Keeps, Define, Live;
    if !v.Imm? { DefineKeeps(b0, b, ITest(b.nextReg, v), p); }
  }

  lemma {:induction false} ExprFormed(alu: Alu, b: Builder, e: Expr, p: Plan)
    requires Inv(b) && Live(b) && Formed(b, p)
    ensures Keeps(b, GenExpr(alu, b, e).b, p, {})
    decreases e, 1
  {
    hide Formed, Keeps, Grows, Inv, Ext, EmitBlock, EmitBranch, Place, GenBranch, Define, Live;
    KeepsRefl(b, p, {});
    match e
    case Const(_) =>
    case Act(a, args) =>
      var r := GenArgs(alu, b, args);
      ArgsFrame(alu, b, args);
      AfterExprFacts(b, EV(r.b, Imm(0)));
      ArgsFormed(alu, b, args, p);
      DefineKeeps(b, r.b, IAct(r.b.nextReg, a, r.vs), p);
    case Bin(op, l, r) =>
      InOrderFormed(alu, b, e, l, r, p);
      var y := GenExpr(alu, GenExpr(alu, b, l).b, r);
      var x := GenExpr(alu, b, l);
      if !(x.v.Imm? && y.v.Imm?) { DefineKeeps(b, y.b, IBin(y.b.nextReg, op, x.v, y.v), p); }
    case Comma(l, r) => InOrderFormed(alu, b, e, l, r, p);
    case Not(x) =>
      BoolFormed(alu, b, x, p);
      var c := GenBool(alu, b, x);
      BoolFrame(alu, b, x);
      AfterExprFacts(b, c);
      if !c.v.Imm? { DefineKeeps(b, c.b, INot(c.b.nextReg, c.v), p); }
    case And(l, r) => if Calc(alu, l).None? { LogicFormed(alu, b, e, p); } else { BoolFormed(alu, b, r, p); }
    case Or(l, r) => if Calc(alu, l).None? { LogicFormed(alu, b, e, p); } else { BoolFormed(alu, b, r, p); }
    case Cond(c, l, r) =>
      var v := Calc(alu, c);
      if v.Some? { ExprFormed(alu, b, if v.value != 0 then l else r, p); }
      else if l.Const? && r.Const? {
        BoolFormed(alu, b, c, p);
        BoolFrame(alu, b, c);
        var y := GenBool(alu, b, c);
        AfterExprFacts(b, y);
        if !y.v.Imm? { DefineKeeps(b, y.b, ISelect(y.b.nextReg, y.v, Imm(l.v), Imm(r.v)), p); }
      } else { CondFormed(alu, b, e, p); }
  }

  lemma {:induction false} InOrderFormed(alu: Alu, b: Builder, e: Expr, l: Expr, r: Expr, p: Plan)
    requires Inv(b) && Live(b) && Formed(b, p) && l < e && r < e
    ensures var y := GenExpr(alu, GenExpr(alu, b, l).b, r); Keeps(b, y.b, p, {}) && Live(y.b)
    decreases e, 0
  {
    hide *;
    var x := GenExpr(alu, b, l);
    var y := GenExpr(alu, x.b, r);
    ExprFormed(alu, b, l, p);
    ExprFrame(alu, b, l);
    AfterExprFacts(b, x);
    KeepsFormed(b, x.b, p, {});
    ExprFormed(alu, x.b, r, p);
    ExprFrame(alu, x.b, r);
    AfterExprFacts(x.b, y);
    KeepsTrans(b, x.b, y.b, p, {});
  }

  lemma KeepsFormed(b: Builder, b1: Builder, p: Plan, except: set<BlockId>)
    requires Keeps(b, b1, p, except)
    ensures Formed(b1, p) && SamePreds(b.plain, b1.plain, p.due - except)
  {
  }

  lemma {:induction false} BoolFormed(alu: Alu, b: Builder, e: Expr, p: Plan)
    requires Inv(b) && Live(b) && Formed(b, p)
    ensures Keeps(b, GenBool(alu, b, e).b, p, {})
    decreases e, 2
  {
    hide Formed, Keeps, Inv, Live, Ext, Grows;
    ExprFormed(alu, b, e, p);
    ExprFrame(alu, b, e);
    var x := GenExpr(alu, b, e);
    AfterExprFacts(b, x);
    TestKeeps(b, x.b, x.v, p);
  }

  lemma {:induction false} ArgsFormed(alu: Alu, b: Builder, es: seq<Expr>, p: Plan)
    requires Inv(b) && Live(b) && Formed(b, p)
    ensures Keeps(b, GenArgs(alu, b, es).b, p, {})
    decreases es, 0
  {
    hide Formed, Keeps, Inv, Live, Ext, Grows;
    KeepsRefl(b, p, {});
    if es != [] {
      var x := GenExpr(alu, b, es[0]);
      ExprFormed(alu, b, es[0], p);
      ExprFrame(alu, b, es[0]);
      AfterExprFacts(b, x);
      KeepsFormed(b, x.b, p, {});
      ArgsFormed(alu, x.b, es[1..], p);
      KeepsTrans(b, x.b, GenArgs(alu, x.b, es[1..]).b, p, {});
    }
  }

  /** A branch target chosen outside of the code in hand. */
  predicate Outside(b: Builder, p: Plan, y: BlockId) {
    Branchable(b, p, y) && (y.RetBlk? || y.Lbl? || y in p.due || y in b.plain) }

  lemma OutsideLater(b: Builder, b1: Builder, p: Plan, p1: Plan, y: BlockId)
    requires Outside(b, p, y) && Ext(b.plain, b1.plain) && Formed(b1, p1) && p.due <= p1.due && p.labels == p1.labels
    ensures Outside(b1, p1, y)
  {
    if y in b.plain { assert Extends(b.plain[y], b1.plain[y]); }
    else if y in b1.plain { assert BlockOK(b1, p1, y); }
  }

  lemma {:induction false} BranchFormed(alu: Alu, b: Builder, e: Expr, t: BlockId, f: BlockId, p: Plan)
    requires Inv(b) && Live(b) && Formed(b, p) && Outside(b, p, t) && Outside(b, p, f)
    ensures Keeps(b, GenBranch(alu, b, e, t, f), p, {t, f})
    decreases e, 3
  {
    hide Formed, Keeps, Outside, Grows, Inv, Ext, EmitBlock, Live, Terminate;
    match e
    case And(l, r) => TwoStepFormed(alu, b, e, l, Blk(b.nextBlock), f, 1, r, t, f, p); OneNew(b, p);
    case Or(l, r) => TwoStepFormed(alu, b, e, l, t, Blk(b.nextBlock), 1, r, t, f, p); OneNew(b, p);
    case Not(x) =>
      BranchFormed(alu, b, x, f, t, p);
      KeepsLess(b, GenBranch(alu, b, x, f, t), p, {f, t}, {t, f});
    case Cond(c, l, r) => CondBranchFormed(alu, b, e, t, f, p);
    case _ =>
      BoolFormed(alu, b, e, p);
      BoolFrame(alu, b, e);
      var x := GenBool(alu, b, e);
      AfterExprFacts(b, x);
      TestFormed(b, x, t, f, p);
  }

  lemma TestFormed(b: Builder, x: EV, t: BlockId, f: BlockId, p: Plan)
    requires Live(x.b) && Keeps(b, x.b, p, {}) && Outside(b, p, t) && Outside(b, p, f) && Ext(b.plain, x.b.plain)
    ensures Keeps(b, Terminate(x.b, CondBr(x.v, t, f)), p, {t, f})
  {
    hide Formed, Preds, Live, Terminate, Branchable;
    var b1 := Terminate(x.b, CondBr(x.v, t, f));
    OutsideLater(b, x.b, p, p, t);
    OutsideLater(b, x.b, p, p, f);
    TerminateFormed(x.b, CondBr(x.v, t, f), p, RetBlk);
    forall y | y in p.due - {t, f}
      ensures Preds(b1.plain, y) == Preds(x.b.plain, y) { TerminateFormed(x.b, CondBr(x.v, t, f), p, y); }
    assert SamePreds(b.plain, x.b.plain, p.due - {});
  }

  lemma NewIdsAre(b: Builder)
    ensures NewIds(b, 1) == {Blk(b.nextBlock)} && NewIds(b, 2) == {Blk(b.nextBlock), Blk(b.nextBlock + 1)}
    ensures NewIds(b, 3) == {Blk(b.nextBlock), Blk(b.nextBlock + 1), Blk(b.nextBlock + 2)}
    ensures NewIds(b, 4) == {Blk(b.nextBlock), Blk(b.nextBlock + 1), Blk(b.nextBlock + 2), Blk(b.nextBlock + 3)}
  {
  }

  lemma OneNew(b: Builder, p: Plan)
    requires Formed(b, p)
    ensures Placed(Also(p, NewIds(b, 1)), Blk(b.nextBlock)) == p
  {
    NewIdsAre(b);
  }

  /** One of the targets of a first branch: a new block, or a target of the whole. */
  predicate Inner(b: Builder, n: nat, y: BlockId, t: BlockId, f: BlockId) { y in NewIds(b, n) || y == t || y == f }

  lemma NewOutside(b: Builder, n: nat, p: Plan, y: BlockId, t: BlockId, f: BlockId)
    requires Bounded(b) && Formed(b, p) && Inner(b, n, y, t, f) && Outside(b, p, t) && Outside(b, p, f)
    ensures Outside(NewBlocks(b, n), Also(p, NewIds(b, n)), y)
  {
  }

  lemma {:induction false} TwoStepFormed(alu: Alu, b: Builder, e: Expr, l: Expr, lt: BlockId, lf: BlockId, n: nat,
    r: Expr, t: BlockId, f: BlockId, p: Plan)
    requires Inv(b) && Live(b) && Formed(b, p) && Outside(b, p, t) && Outside(b, p, f) && 1 <= n && l < e && r < e
    requires Inner(b, n, lt, t, f) && Inner(b, n, lf, t, f)
    ensures var mid := Blk(b.nextBlock);
      var b3 := GenBranch(alu, EmitBlock(GenBranch(alu, NewBlocks(b, n), l, lt, lf), mid), r, t, f);
      var p3 := Placed(Also(p, NewIds(b, n)), mid);
      && Formed(b3, p3) && SamePreds(b.plain, b3.plain, p.due - {t, f}) && Outside(b3, p3, t) && Outside(b3, p3, f)
      && (p3 == p ==> Keeps(b, b3, p, {t, f}))
    decreases e, 2, 0
  {
    hide *;
    var mid, b0, p0 := Blk(b.nextBlock), NewBlocks(b, n), Also(p, NewIds(b, n));
    var b1 := GenBranch(alu, b0, l, lt, lf);
    var b2, p3 := EmitBlock(b1, mid), Placed(p0, mid);
    var b3 := GenBranch(alu, b2, r, t, f);
    InvNumbered(b, n);
    NumberedBranch(alu, b, n, l, lt, lf);
    NewFormed(b, n, p, mid);
    NewOutside(b, n, p, lt, t, f);
    NewOutside(b, n, p, lf, t, f);
    NewOutside(b, n, p, t, t, f) by { InnerSelf(b, n, t, f); }
    NewOutside(b, n, p, f, t, f) by { InnerSelf(b, n, t, f); }
    BranchFormed(alu, b0, l, lt, lf, p0);
    KeepsFormed(b0, b1, p0, {lt, lf});
    CutOpen(b1);
    MidExpected(p, mid, b, n);
    BlockFormed(b1, mid, p0, RetBlk);
    ThenBlock(b, b1, mid);
    GrowsExt(b, b1);
    ExtTrans(b.plain, b1.plain, b2.plain);
    OutsideMid(b, b2, p, n, t);
    OutsideMid(b, b2, p, n, f);
    BranchFormed(alu, b2, r, t, f, p3);
    KeepsFormed(b2, b3, p3, {t, f});
    BranchFrame(alu, b2, r, t, f);
    AfterBranchFacts(b2, b3);
    OutsideLater(b2, b3, p3, p3, t) by { PlansSame(p3); }
    OutsideLater(b2, b3, p3, p3, f) by { PlansSame(p3); }
    forall y | y in p.due - {t, f} ensures Preds(b3.plain, y) == Preds(b.plain, y) {
      NewFormed(b, n, p, y);
      DueOld(b, n, p, y, lt, lf, t, f);
      PredsSame(b0.plain, b1.plain, p0.due - {lt, lf}, y);
      BlockFormed(b1, mid, p0, y);
      PredsSame(b2.plain, b3.plain, p3.due - {t, f}, y);
    }
    SameIntro(b.plain, b3.plain, p.due - {t, f});
    KeepsIntro(b, b3, p, p3, {t, f});
  }

  lemma InnerSelf(b: Builder, n: nat, t: BlockId, f: BlockId)
    ensures Inner(b, n, t, t, f) && Inner(b, n, f, t, f)
  {
  }

  lemma CutOpen(b: Builder)
    requires Cut(b)
    ensures Open(b) && !Live(b)
  {
  }

  lemma MidExpected(p: Plan, mid: BlockId, b: Builder, n: nat)
    requires mid == Blk(b.nextBlock) && n >= 1
    ensures Expected(Also(p, NewIds(b, n)), mid) && mid in NewIds(b, n)
  {
  }

  /** An outside target is still one after the new block has been placed. */
  lemma OutsideMid(b: Builder, b2: Builder, p: Plan, n: nat, y: BlockId)
    requires Formed(b, p) && Outside(b, p, y) && Ext(b.plain, b2.plain)
      && Formed(b2, Placed(Also(p, NewIds(b, n)), Blk(b.nextBlock))) && n >= 1
    ensures Outside(b2, Placed(Also(p, NewIds(b, n)), Blk(b.nextBlock)), y)
  {
    var p3 := Placed(Also(p, NewIds(b, n)), Blk(b.nextBlock));
    assert p.due <= p3.due;
    OutsideLater(b, b2, p, p3, y);
  }

  lemma PlansSame(p: Plan)
    ensures p.due <= p.due && p.labels == p.labels
  {
  }

  lemma DueOld(b: Builder, n: nat, p: Plan, y: BlockId, lt: BlockId, lf: BlockId, t: BlockId, f: BlockId)
    requires Formed(b, p) && y in p.due && y != t && y != f && Inner(b, n, lt, t, f) && Inner(b, n, lf, t, f) && n >= 1
    ensures var p0 := Also(p, NewIds(b, n));
      y in p0.due - {lt, lf} && y != Blk(b.nextBlock) && y in Placed(p0, Blk(b.nextBlock)).due - {t, f}
  {
  }

  lemma PredsSame(g: Graph, g1: Graph, ys: set<BlockId>, y: BlockId)
    requires SamePreds(g, g1, ys) && y in ys
    ensures Preds(g1, y) == Preds(g, y)
  {
  }

  lemma SameIntro(g: Graph, g1: Graph, ys: set<BlockId>)
    requires forall y :: y in ys ==> Preds(g1, y) == Preds(g, y)
    ensures SamePreds(g, g1, ys)
  {
  }

  lemma KeepsIntro(b: Builder, b1: Builder, p: Plan, p1: Plan, except: set<BlockId>)
    requires Formed(b1, p1) && SamePreds(b.plain, b1.plain, p.due - except)
    ensures p1 == p ==> Keeps(b, b1, p, except)
  {
  }

  lemma {:induction false} CondBranchFormed(alu: Alu, b: Builder, e: Expr, t: BlockId, f: BlockId, p: Plan)
    requires e.Cond? && Inv(b) && Live(b) && Formed(b, p) && Outside(b, p, t) && Outside(b, p, f)
    ensures Keeps(b, GenBranch(alu, b, e, t, f), p, {t, f})
    decreases e, 2, 1
  {
    hide *;
    var lhs, rhs, p3 := Blk(b.nextBlock), Blk(b.nextBlock + 1), Placed(Also(p, NewIds(b, 2)), Blk(b.nextBlock));
    var b3 := GenBranch(alu, EmitBlock(GenBranch(alu, NewBlocks(b, 2), e.c, lhs, rhs), lhs), e.l, t, f);
    var b4 := EmitBlock(b3, rhs);
    var b5 := GenBranch(alu, b4, e.r, t, f);
    CondBranchIs(alu, b, e, t, f);
    InnerNew(b, t, f);
    TwoStepFormed(alu, b, e, e.c, lhs, rhs, 2, e.l, t, f, p);
    TwoStepFrame(alu, b, e, e.c, lhs, rhs, 2, lhs, e.l, t, f);
    AfterBranchFacts(b, b3);
    TwoNew(b, p);
    BlockFormed(b3, rhs, p3, RetBlk);
    ThenBlock(b, b3, rhs);
    GrowsExt(b, b4);
    OutsideKept(b, b4, p, t);
    OutsideKept(b, b4, p, f);
    BranchFormed(alu, b4, e.r, t, f, p);
    KeepsFormed(b4, b5, p, {t, f});
    forall y | y in p.due - {t, f} ensures Preds(b5.plain, y) == Preds(b.plain, y) {
      DueNew(b, p, y, rhs);
      PredsSame(b.plain, b3.plain, p.due - {t, f}, y);
      BlockFormed(b3, rhs, p3, y);
      PredsSame(b4.plain, b5.plain, p.due - {t, f}, y);
    }
    SameIntro(b.plain, b5.plain, p.due - {t, f});
    KeepsIntro(b, b5, p, p, {t, f});
  }

  lemma CondBranchIs(alu: Alu, b: Builder, e: Expr, t: BlockId, f: BlockId)
    requires e.Cond?
    ensures var lhs, rhs := Blk(b.nextBlock), Blk(b.nextBlock + 1);
      var b3 := GenBranch(alu, EmitBlock(GenBranch(alu, NewBlocks(b, 2), e.c, lhs, rhs), lhs), e.l, t, f);
      GenBranch(alu, b, e, t, f) == GenBranch(alu, EmitBlock(b3, rhs), e.r, t, f)
    ensures e.c < e && e.l < e && e.r < e
  {
    hide EmitBlock;
  }

  lemma InnerNew(b: Builder, t: BlockId, f: BlockId)
    ensures Inner(b, 2, Blk(b.nextBlock), t, f) && Inner(b, 2, Blk(b.nextBlock + 1), t, f)
  {
    NewIdsAre(b);
  }

  lemma TwoNew(b: Builder, p: Plan)
    requires Formed(b, p)
    ensures var lhs, rhs := Blk(b.nextBlock), Blk(b.nextBlock + 1);
      var p3 := Placed(Also(p, NewIds(b, 2)), lhs);
      Placed(p3, rhs) == p && Expected(p3, rhs) && !rhs.RetBlk? && p3 == Also(p, {rhs}) && Placed(p3, lhs) == p3
  {
    NewIdsAre(b);
    var p3 := Placed(Also(p, NewIds(b, 2)), Blk(b.nextBlock));
    assert p3.due == p.due + {Blk(b.nextBlock + 1)};
    assert p3.due - {Blk(b.nextBlock + 1)} == p.due;
    assert p3.due - {Blk(b.nextBlock)} == p3.due;
  }

  lemma OutsideKept(b: Builder, b1: Builder, p: Plan, y: BlockId)
    requires Outside(b, p, y) && Ext(b.plain, b1.plain) && Formed(b1, p)
    ensures Outside(b1, p, y)
  {
    OutsideLater(b, b1, p, p, y);
  }

  lemma DueNew(b: Builder, p: Plan, y: BlockId, id: BlockId)
    requires Formed(b, p) && y in p.due && id.Blk? && id.n >= b.nextBlock
    ensures y != id
  {
  }

  /** The blocks that LLVM reports as predecessors of a block that is not placed yet. */
  lemma RealPreds(b: Builder, end: BlockId)
    requires Inv(b) && end !in b.plain
    ensures Preds(Real(b.plain, b.gone), end) == Preds(b.plain, end)
  {
    hide GoneOK;
    GoneOKIs(b);
    forall x ensures x in Preds(Real(b.plain, b.gone), end) <==> x in Preds(b.plain, end) {
      if x in Preds(b.plain, end) { EarlyPred(b, end, x); }
      if x in Preds(Real(b.plain, b.gone), end) { RealTarget(b, x, end); }
    }
  }

  lemma GoneOKIs(b: Builder)
    requires Inv(b)
    ensures GoneOK(b.plain, b.gone)
  {
  }

  lemma RealTarget(b: Builder, x: BlockId, end: BlockId)
    requires GoneOK(b.plain, b.gone) && end !in b.plain && x in Preds(Real(b.plain, b.gone), end)
    ensures x in Preds(b.plain, end)
  {
    GoneEnds(b);
    var t := b.plain[x].term.value;
    if t.SwitchT? && end != Redirect(b.gone, t.dflt) {
      var r := RedirectTerm(b.gone, t);
      var i :| 0 <= i < |r.cases| && r.cases[i].1 == end;
      assert t.cases[i].1 == end;
    }
  }

  /** A removed block is replaced by one that is there. */
  lemma GoneEnds(b: Builder)
    requires GoneOK(b.plain, b.gone)
    ensures forall f ::
        f in b.gone ==> b.gone[f] in b.plain && b.gone[f] !in b.gone && b.plain[b.gone[f]].phi.None? && f in b.plain
  {
    forall f | f in b.gone ensures b.gone[f] in b.plain && b.gone[f] !in b.gone
      && b.plain[b.gone[f]].phi.None? && f in b.plain {
      assert Forwards(b.plain, b.gone, f);
      var n: nat :| n > 0 && Chain(b.plain, f, b.gone[f], n);
      ChainLast(b.plain, f, b.gone[f], n);
    }
  }

  lemma {:induction false} ChainLast(g: Graph, f: BlockId, to: BlockId, n: nat)
    requires Chain(g, f, to, n) && n > 0
    ensures to in g && g[to].phi.None? && f in g
    decreases n
  {
    if n > 1 { ChainLast(g, g[f].term.value.to, to, n - 1); }
  }

  /** A block that starts with a phi. */
  lemma JoinFormed(b: Builder, end: BlockId, incoming: map<BlockId, Value>, p: Plan, y: BlockId)
    requires Live(b) && Formed(b, p) && end in p.due && incoming.Keys == Preds(b.plain, end) + {b.cur.value}
    ensures var b1 := JoinValue(b, end, incoming).b;
      Formed(b1, Placed(p, end)) && (y != end ==> Preds(b1.plain, y) == Preds(b.plain, y))
  {
    hide Preds;
    var phi := Some(Phi(b.nextReg, incoming));
    DueBranchable(b, p, end);
    EmitBranchFormed(b, end, p, y);
    EmitBranchFormed(b, end, p, end);
    BranchedKeys(b, end);
    PlaceFormed(EmitBranch(b, end), end, phi, p, y);
    var b1, b2 := Place(EmitBranch(b, end), end, phi), JoinValue(b, end, incoming).b;
    forall x | x in b2.plain ensures BlockOK(b2, Placed(p, end), x) { assert BlockOK(b1, Placed(p, end), x); }
  }

  lemma DueBranchable(b: Builder, p: Plan, y: BlockId)
    requires Formed(b, p) && y in p.due
    ensures Branchable(b, p, y) && Outside(b, p, y) && y.Blk? && y !in b.plain && y.n < b.nextBlock && Expected(p, y)
  {
  }

  lemma {:induction false} LogicFormed(alu: Alu, b: Builder, e: Expr, p: Plan)
    requires (e.And? || e.Or?) && Inv(b) && Live(b) && Formed(b, p)
    ensures Keeps(b, GenLogic(alu, b, e).b, p, {})
    decreases e, 0
  {
    hide *;
    var rhs, end := Blk(b.nextBlock), Blk(b.nextBlock + 1);
    var b0, p0 := NewBlocks(b, 2), Also(p, NewIds(b, 2));
    var t, f := if e.Or? then end else rhs, if e.Or? then rhs else end;
    var b1 := GenBranch(alu, b0, e.l, t, f);
    var b2, p2 := EmitBlock(b1, rhs), Placed(p0, rhs);
    var x := GenBool(alu, b2, e.r);
    LogicOrder(e);
    InvNumbered(b, 2);
    NumberedBranch(alu, b, 2, e.l, t, f);
    NewFormed(b, 2, p, end);
    TwoNew(b, p);
    NewDue(b, p, b0);
    BranchFormed(alu, b0, e.l, t, f, p0);
    KeepsFormed(b0, b1, p0, {t, f});
    CutOpen(b1);
    DueBranchable(b1, p0, rhs) by { NewIn(b, p); }
    BlockFormed(b1, rhs, p0, end);
    ThenBlock(b, b1, rhs);
    BoolFormed(alu, b2, e.r, p2);
    KeepsFormed(b2, x.b, p2, {});
    BoolFrame(alu, b2, e.r);
    AfterExprFacts(b2, x);
    OpenCur(x.b);
    NewIn(b, p);
    PredsSame(b2.plain, x.b.plain, p2.due - {}, end);
    RealPreds(b1, end);
    var incoming := map c | c in Preds(Real(b1.plain, b1.gone), end) :: Imm(if e.Or? then 1 else 0);
    LogicIs(alu, b, e);
    LogicIncoming(Preds(Real(b1.plain, b1.gone), end), if e.Or? then 1 else 0, x.b.cur.value, x.v);
    var joined := incoming + map[x.b.cur.value := x.v];
    JoinFormed(x.b, end, joined, p2, RetBlk);
    var b3 := JoinValue(x.b, end, joined).b;
    forall y | y in p.due - {} ensures Preds(b3.plain, y) == Preds(b.plain, y) {
      NewFormed(b, 2, p, y);
      DueNew(b, p, y, rhs);
      DueNew(b, p, y, end);
      DueInner(b, p, y, t, f);
      PredsSame(b0.plain, b1.plain, p0.due - {t, f}, y);
      BlockFormed(b1, rhs, p0, y);
      PredsSame(b2.plain, x.b.plain, p2.due - {}, y);
      JoinFormed(x.b, end, joined, p2, y);
    }
    SameIntro(b.plain, b3.plain, p.due - {});
    KeepsIntro(b, b3, p, Placed(p2, end), {});
  }

  lemma LogicOrder(e: Expr)
    requires e.And? || e.Or?
    ensures e.l < e && e.r < e
  {
  }

  lemma NewDue(b: Builder, p: Plan, b0: Builder)
    requires b0 == NewBlocks(b, 2) && Formed(b0, Also(p, NewIds(b, 2)))
    ensures Outside(b0, Also(p, NewIds(b, 2)), Blk(b.nextBlock))
      && Outside(b0, Also(p, NewIds(b, 2)), Blk(b.nextBlock + 1))
  {
    NewIdsAre(b);
  }

  lemma NewIn(b: Builder, p: Plan)
    ensures var p0 := Also(p, NewIds(b, 2));
      && Blk(b.nextBlock) in p0.due && Blk(b.nextBlock + 1) in p0.due
      && Blk(b.nextBlock + 1) in Placed(p0, Blk(b.nextBlock)).due - {}
        && Blk(b.nextBlock + 1) in Placed(p0, Blk(b.nextBlock)).due
  {
    NewIdsAre(b);
  }

  lemma OpenCur(b: Builder)
    requires Live(b)
    ensures b.cur.Some? && Open(b)
  {
  }

  lemma LogicIs(alu: Alu, b: Builder, e: Expr)
    requires e.And? || e.Or?
    ensures var rhs, end := Blk(b.nextBlock), Blk(b.nextBlock + 1);
      var b1 := GenBranch(alu, NewBlocks(b, 2), e.l, if e.Or? then end else rhs, if e.Or? then rhs else end);
      var x := GenBool(alu, EmitBlock(b1, rhs), e.r);
      var early := map c | c in Preds(Real(b1.plain, b1.gone), end) :: Imm(if e.Or? then 1 else 0);
      x.b.cur.Some? ==> GenLogic(alu, b, e) == JoinValue(x.b, end, early + map[x.b.cur.value := x.v])
  {
    hide GenBranch, GenBool, EmitBlock, JoinValue, Real, Preds;
  }

  lemma LogicIncoming(ps: set<BlockId>, v: int, cur: BlockId, x: Value)
    ensures ((map c | c in ps :: Imm(v)) + map[cur := x]).Keys == ps + {cur}
  {
  }

  lemma DueInner(b: Builder, p: Plan, y: BlockId, t: BlockId, f: BlockId)
    requires Formed(b, p) && y in p.due && t.Blk? && t.n >= b.nextBlock && f.Blk? && f.n >= b.nextBlock
    ensures var p0 := Also(p, NewIds(b, 2));
      y in p0.due - {t, f} && (y != Blk(b.nextBlock) ==> y in Placed(p0, Blk(b.nextBlock)).due - {})
  {
  }

  lemma ThreeNew(b: Builder, p: Plan)
    requires Formed(b, p)
    ensures var lhs, rhs, end := Blk(b.nextBlock), Blk(b.nextBlock + 1), Blk(b.nextBlock + 2);
      var p0 := Also(p, NewIds(b, 3));
      var p1 := Placed(p0, lhs);
      var p2 := Placed(p1, rhs);
      && lhs in p0.due && rhs in p0.due && end in p0.due - {lhs, rhs} && rhs in p1.due && end in p1.due - {}
        && end in p2.due - {} && end in p2.due && Placed(p2, end) == p
      && p2.due == p.due + {end}
  {
    NewIdsAre(b);
  }

  lemma DueThree(b: Builder, p: Plan, y: BlockId)
    requires Formed(b, p) && y in p.due
    ensures var lhs, rhs, end := Blk(b.nextBlock), Blk(b.nextBlock + 1), Blk(b.nextBlock + 2);
      var p0 := Also(p, NewIds(b, 3));
      y in p0.due - {lhs, rhs} && y in Placed(p0, lhs).due - {} && y in Placed(Placed(p0, lhs), rhs).due - {}
        && y != lhs && y != rhs && y != end
  {
  }

  lemma CondIs(alu: Alu, b: Builder, e: Expr)
    requires e.Cond? && Calc(alu, e.c).None? && !(e.l.Const? && e.r.Const?)
    ensures var lhs, rhs, end := Blk(b.nextBlock), Blk(b.nextBlock + 1), Blk(b.nextBlock + 2);
      var x := GenExpr(alu, EmitBlock(GenBranch(alu, NewBlocks(b, 3), e.c, lhs, rhs), lhs), e.l);
      var y := GenExpr(alu, EmitBlock(EmitBranch(x.b, end), rhs), e.r);
      x.b.cur.Some? && y.b.cur.Some? ==>
          GenExpr(alu, b, e) == JoinValue(y.b, end, map[x.b.cur.value := x.v] + map[y.b.cur.value := y.v])
    ensures e.c < e && e.l < e && e.r < e
  {
    hide EmitBlock, EmitBranch, JoinValue, GenBranch;
  }

  lemma {:induction false} CondFormed(alu: Alu, b: Builder, e: Expr, p: Plan)
    requires e.Cond? && Calc(alu, e.c).None? && !(e.l.Const? && e.r.Const?) && Inv(b) && Live(b) && Formed(b, p)
    ensures Keeps(b, GenExpr(alu, b, e).b, p, {})
    decreases e, 0
  {
    hide *;
    var lhs, rhs, end := Blk(b.nextBlock), Blk(b.nextBlock + 1), Blk(b.nextBlock + 2);
    var b0, p0 := NewBlocks(b, 3), Also(p, NewIds(b, 3));
    var b1, p1 := GenBranch(alu, b0, e.c, lhs, rhs), Placed(p0, lhs);
    var b2 := EmitBlock(b1, lhs);
    var x := GenExpr(alu, b2, e.l);
    var b3, p2 := EmitBranch(x.b, end), Placed(p1, rhs);
    var b4 := EmitBlock(b3, rhs);
    var z := GenExpr(alu, b4, e.r);
    CondIs(alu, b, e);
    InvNumbered(b, 3);
    NumberedBranch(alu, b, 3, e.c, lhs, rhs);
    NewFormed(b, 3, p, end) by { ThreeNew(b, p); }
    ThreeNew(b, p);
    DueBranchable(b0, p0, lhs);
    DueBranchable(b0, p0, rhs);
    BranchFormed(alu, b0, e.c, lhs, rhs, p0);
    KeepsFormed(b0, b1, p0, {lhs, rhs});
    CutOpen(b1);
    DueBranchable(b1, p0, lhs);
    BlockFormed(b1, lhs, p0, end);
    ThenBlock(b, b1, lhs);
    ExprFormed(alu, b2, e.l, p1);
    KeepsFormed(b2, x.b, p1, {});
    ExprFrame(alu, b2, e.l);
    AfterExprFacts(b2, x);
    OpenCur(x.b);
    DueBranchable(x.b, p1, end);
    EmitBranchFormed(x.b, end, p1, RetBlk);
    EmitBranchGrows(x.b, end);
    DueBranchable(b3, p1, rhs);
    BlockFormed(b3, rhs, p1, end);
    GrowsTrans(b, b2, x.b);
    GrowsTrans(b, x.b, b3);
    ThenBlock(b, b3, rhs);
    ExprFormed(alu, b4, e.r, p2);
    KeepsFormed(b4, z.b, p2, {});
    ExprFrame(alu, b4, e.r);
    AfterExprFacts(b4, z);
    OpenCur(z.b);
    NewIsFresh(b, p, end);
    PredsSame(b0.plain, b1.plain, p0.due - {lhs, rhs}, end);
    PredsSame(b2.plain, x.b.plain, p1.due - {}, end);
    PredsSame(b4.plain, z.b.plain, p2.due - {}, end);
    var incoming := map[x.b.cur.value := x.v] + map[z.b.cur.value := z.v];
    TwoKeys(x.b.cur.value, x.v, z.b.cur.value, z.v);
    JoinFormed(z.b, end, incoming, p2, RetBlk);
    var b5 := JoinValue(z.b, end, incoming).b;
    forall y | y in p.due - {} ensures Preds(b5.plain, y) == Preds(b.plain, y) {
      NewFormed(b, 3, p, y);
      DueThree(b, p, y);
      PredsSame(b0.plain, b1.plain, p0.due - {lhs, rhs}, y);
      BlockFormed(b1, lhs, p0, y);
      PredsSame(b2.plain, x.b.plain, p1.due - {}, y);
      EmitBranchFormed(x.b, end, p1, y);
      BlockFormed(b3, rhs, p1, y);
      PredsSame(b4.plain, z.b.plain, p2.due - {}, y);
      JoinFormed(z.b, end, incoming, p2, y);
    }
    SameIntro(b.plain, b5.plain, p.due - {});
    KeepsIntro(b, b5, p, Placed(p2, end), {});
  }

  lemma NewIsFresh(b: Builder, p: Plan, y: BlockId)
    requires Inv(b) && Formed(b, p) && y in NewIds(b, 3)
    ensures Preds(b.plain, y) == {}
  {
    NewFormed(b, 3, p, y);
  }

  lemma TwoKeys(a: BlockId, x: Value, c: BlockId, z: Value)
    ensures (map[a := x] + map[c := z]).Keys == {a} + {c}
  {
  }
}
