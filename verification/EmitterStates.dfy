/** What the emitter's methods need to know about the states they go through. */
module EmitterStates {
  import opened Common
  import opened Source
  import opened Graph
  import opened Builder
  import opened CodeGen
  import opened Frames
  import opened FrameExpr
  import opened SimExpr
  import opened Static
  import opened FrameStmt
  import opened FrameLoops
  import opened FrameAll
  import opened MatchKont
  import opened Jumps
  import opened Simulation
  import opened StmtSim
  import opened Settled
  import opened Finish

  /** What `Replace` does to the function's block list. */
  function Erase(g: Graph, f: BlockId, to: BlockId): Graph {
    map x | x in g && x != f :: RedirectBlock(map[f := to], g[x])
  }

  lemma EraseReal(b: Builder, f: BlockId, to: BlockId)
    requires f !in b.gone
    ensures var b1 := Replace(b, f, to);
      Real(b1.plain, b1.gone) == Erase(Real(b.plain, b.gone), f, Redirect(b.gone, to))
  {
    var b1, t := Replace(b, f, to), Redirect(b.gone, to);
    var g, g1 := Real(b.plain, b.gone), Real(b1.plain, b1.gone);
    forall x | x in g1 ensures x in Erase(g, f, t) && Erase(g, f, t)[x] == g1[x] {
      RedirectTwice(b.gone, b1.gone, f, t, b.plain[x]);
    }
    assert g1.Keys == Erase(g, f, t).Keys;
  }

  lemma RedirectTwice(gone: map<BlockId, BlockId>, gone1: map<BlockId, BlockId>, f: BlockId, t: BlockId, blk: Block)
    requires f !in gone && gone1.Keys == gone.Keys + {f}
    requires forall x :: x in gone1 ==> gone1[x] == if x == f || gone[x] == f then t else gone[x]
    ensures RedirectBlock(gone1, blk) == RedirectBlock(map[f := t], RedirectBlock(gone, blk))
  {
    if blk.term.Some? && blk.term.value.SwitchT? {
      assert RedirectTerm(gone1, blk.term.value).cases ==
        RedirectTerm(map[f := t], RedirectTerm(gone, blk.term.value)).cases;
    }
  }

  lemma SetReal(b: Builder, id: BlockId, blk: Block)
    requires id !in b.gone
    ensures Real(b.plain[id := blk], b.gone) == Real(b.plain, b.gone)[id := RedirectBlock(b.gone, blk)]
  {
  }

  lemma BranchKeys(b: Builder, to: BlockId)
    ensures EmitBranch(b, to).plain.Keys == b.plain.Keys && EmitBranch(b, to).cur.None?
      && EmitBranch(b, to).gone == b.gone
    ensures EmitBranch(b, to).nextBlock == b.nextBlock
  {
  }

  /** What the methods for expressions need to know about their intermediate states. */
  lemma GrowsGone(b: Builder, b1: Builder)
    requires Grows(b, b1)
    ensures b1.gone == b.gone
  {
  }

  lemma BoolKeeps(alu: Alu, b: Builder, e: Expr)
    requires Inv(b) && Live(b)
    ensures GenBool(alu, b, e).b.gone == b.gone
  {
    hide Inv, Grows;
    BoolFrame(alu, b, e);
    GrowsGone(b, GenBool(alu, b, e).b);
  }

  lemma PlacedGone(b: Builder, id: BlockId)
    ensures EmitBlock(b, id).gone == b.gone
  {
  }

  lemma FreshIds(b: Builder)
    requires Inv(b)
    ensures forall i :: i >= b.nextBlock ==> Blk(i) !in b.plain && Blk(i) !in b.gone
  {
    GoneTargets(b.plain, b.gone);
  }

  lemma TwoStepPieces(alu: Alu, b: Builder, e: Expr, l: Expr, lt: BlockId, lf: BlockId, n: nat, r: Expr,
    t: BlockId, f: BlockId)
    requires Inv(b) && Live(b) && 1 <= n <= 2 && l < e && r < e
    ensures var mid := Blk(b.nextBlock);
      var b0, b1 := NewBlocks(b, n), GenBranch(alu, NewBlocks(b, n), l, lt, lf);
      var b2 := EmitBlock(b1, mid);
      var b3 := GenBranch(alu, b2, r, t, f);
      && Inv(b0) && Live(b0) && NewBlocks(NewBlocks(b, 1), 1) == NewBlocks(b, 2)
        && (n == 2 ==> Blk(b.nextBlock + 1) !in b3.plain && b.nextBlock + 1 < b3.nextBlock)
      && mid !in b.gone && Blk(b.nextBlock + 1) !in b.gone && mid !in b1.plain && Open(b1) && b.nextBlock < b1.nextBlock
      && b1.gone == b.gone && b2.gone == b.gone && b3.gone == b.gone && Open(b3)
      && EmitBlock(b3, Blk(b.nextBlock + 1)).gone == b.gone
  {
    hide *;
    var mid := Blk(b.nextBlock);
    var b0, b1 := NewBlocks(b, n), GenBranch(alu, NewBlocks(b, n), l, lt, lf);
    var b2 := EmitBlock(b1, mid);
    var b3 := GenBranch(alu, b2, r, t, f);
    TwoStepFrame(alu, b, e, l, lt, lf, n, mid, r, t, f);
    InvNumbered(b, n);
    FreshIds(b);
    BranchFrame(alu, b0, l, lt, lf);
    NumberedBranch(alu, b, n, l, lt, lf);
    AfterBranchFacts(b, b1);
    AfterBranchFacts(b, b3);
    GrowsGone(b, b1);
    GrowsGone(b, b3);
    PlacedGone(b1, mid);
    PlacedGone(b3, Blk(b.nextBlock + 1));
    TwoNew(b);
  }

  lemma TwoNew(b: Builder)
    ensures NewBlocks(NewBlocks(b, 1), 1) == NewBlocks(b, 2)
      && NewBlocks(NewBlocks(NewBlocks(b, 1), 1), 1) == NewBlocks(b, 3)
    ensures NewBlocks(NewBlocks(NewBlocks(NewBlocks(b, 1), 1), 1), 1) == NewBlocks(b, 4)
    ensures NewBlocks(b, 1).nextBlock == b.nextBlock + 1 && NewBlocks(b, 2).nextBlock == b.nextBlock + 2
      && NewBlocks(b, 3).nextBlock == b.nextBlock + 3
    ensures forall n: nat :: NewBlocks(b, n).gone == b.gone && NewBlocks(b, n).plain == b.plain
  {
  }

  lemma LogicPieces(alu: Alu, b: Builder, e: Expr)
    requires Inv(b) && Live(b) && (e.And? || e.Or?)
    ensures var rhs, end := Blk(b.nextBlock), Blk(b.nextBlock + 1);
      var b1 := GenBranch(alu, NewBlocks(b, 2), e.l, if e.Or? then end else rhs, if e.Or? then rhs else end);
      var b2 := EmitBlock(b1, rhs);
      var x := GenBool(alu, b2, e.r);
      && Inv(NewBlocks(b, 2)) && Live(NewBlocks(b, 2)) && NewBlocks(NewBlocks(b, 1), 1) == NewBlocks(b, 2)
      && rhs !in b.gone && end !in b.gone && Open(b1) && rhs !in b1.plain && b.nextBlock + 2 <= b1.nextBlock
      && Open(x.b) && end !in x.b.plain && b.nextBlock + 2 <= x.b.nextBlock
  {
    hide *;
    var rhs, end := Blk(b.nextBlock), Blk(b.nextBlock + 1);
    var t, f := if e.Or? then end else rhs, if e.Or? then rhs else end;
    var b1 := GenBranch(alu, NewBlocks(b, 2), e.l, t, f);
    var b2 := EmitBlock(b1, rhs);
    InvNumbered(b, 2);
    FreshIds(b);
    NumberedBranch(alu, b, 2, e.l, t, f);
    AfterCutIs(b1);
    ThenBlock(b, b1, rhs);
    PlacedFresh(b1, rhs, end);
    BoolFrame(alu, b2, e.r);
    AfterExprFacts(b2, GenBool(alu, b2, e.r));
    StillFresh(b2, GenBool(alu, b2, e.r).b, end);
    TwoNew(b);
  }

  lemma AfterCutIs(b: Builder)
    requires Cut(b)
    ensures Open(b)
  {
  }

  lemma CondPieces(alu: Alu, b: Builder, e: Expr)
    requires Inv(b) && Live(b) && e.Cond? && Calc(alu, e.c).None? && !(e.l.Const? && e.r.Const?)
    ensures var lhs, rhs, end := Blk(b.nextBlock), Blk(b.nextBlock + 1), Blk(b.nextBlock + 2);
      var b1 := GenBranch(alu, NewBlocks(b, 3), e.c, lhs, rhs);
      var x := GenExpr(alu, EmitBlock(b1, lhs), e.l);
      var b3 := EmitBranch(x.b, end);
      var y := GenExpr(alu, EmitBlock(b3, rhs), e.r);
      && Inv(NewBlocks(b, 3)) && Live(NewBlocks(b, 3)) && NewBlocks(NewBlocks(NewBlocks(b, 1), 1), 1) == NewBlocks(b, 3)
      && lhs !in b.gone && rhs !in b.gone && Open(b1) && lhs !in b1.plain && b.nextBlock + 3 <= b1.nextBlock
      && Open(x.b) && end !in x.b.gone && b3.cur.None? && rhs !in b3.plain && b.nextBlock + 3 <= b3.nextBlock
      && Open(y.b) && end !in y.b.plain && b.nextBlock + 3 <= y.b.nextBlock
      && GenExpr(alu, b, e) == JoinValue(y.b, end, map[x.b.cur.value := x.v] + map[y.b.cur.value := y.v])
  {
    hide *;
    var lhs, rhs, end := Blk(b.nextBlock), Blk(b.nextBlock + 1), Blk(b.nextBlock + 2);
    var b1 := GenBranch(alu, NewBlocks(b, 3), e.c, lhs, rhs);
    var b2 := EmitBlock(b1, lhs);
    var x := GenExpr(alu, b2, e.l);
    var b3 := EmitBranch(x.b, end);
    var b4 := EmitBlock(b3, rhs);
    var y := GenExpr(alu, b4, e.r);
    InvNumbered(b, 3);
    FreshIds(b);
    TwoNew(b);
    NumberedBranch(alu, b, 3, e.c, lhs, rhs);
    AfterCutIs(b1);
    ThenBlock(b, b1, lhs);
    PlacedFresh(b1, lhs, rhs);
    PlacedFresh(b1, lhs, end);
    ExprFrame(alu, b2, e.l);
    AfterExprFacts(b2, x);
    StillFresh(b2, x.b, rhs);
    StillFresh(b2, x.b, end);
    NotGone(x.b, end);
    EmitBranchGrows(x.b, end);
    BranchKeys(x.b, end);
    GrowsTrans(b, b2, x.b);
    GrowsTrans(b, x.b, b3);
    ThenBlock(b, b3, rhs);
    PlacedFresh(b3, rhs, end);
    ExprFrame(alu, b4, e.r);
    AfterExprFacts(b4, y);
    StillFresh(b4, y.b, end);
    CondIs(alu, b, e);
  }

  lemma CondIs(alu: Alu, b: Builder, e: Expr)
    requires e.Cond? && Calc(alu, e.c).None? && !(e.l.Const? && e.r.Const?)
    ensures var lhs, rhs, end := Blk(b.nextBlock), Blk(b.nextBlock + 1), Blk(b.nextBlock + 2);
      var x := GenExpr(alu, EmitBlock(GenBranch(alu, NewBlocks(b, 3), e.c, lhs, rhs), lhs), e.l);
      var y := GenExpr(alu, EmitBlock(EmitBranch(x.b, end), rhs), e.r);
      x.b.cur.Some? && y.b.cur.Some? ==>
          GenExpr(alu, b, e) == JoinValue(y.b, end, map[x.b.cur.value := x.v] + map[y.b.cur.value := y.v])
  {
    hide EmitBlock, EmitBranch, JoinValue, GenBranch;
  }

  lemma BlockSame(b: Builder, id: BlockId)
    ensures var b1 := EmitBlock(b, id);
      b1.stack == b.stack && b1.sw == b.sw && b1.gone == b.gone && b1.nextBlock == b.nextBlock
  {
  }

  lemma TopKnown(b: Builder)
    requires Safe(b) && b.stack != []
    ensures KnownFrame(b, b.stack[|b.stack| - 1])
  {
  }

  lemma NotRedirected(gone: map<BlockId, BlockId>, t: Term)
    requires TermTargets(t) !! gone.Keys
    ensures RedirectTerm(gone, t) == t
  {
    if t.SwitchT? {
      forall i | 0 <= i < |t.cases| ensures t.cases[i].1 !in gone { assert t.cases[i].1 in TermTargets(t); }
      assert RedirectTerm(gone, t).cases == t.cases;
    }
  }

  lemma NotGone(b: Builder, id: BlockId)
    requires Inv(b) && id !in b.plain
    ensures id !in b.gone
  {
    if id in b.gone { GoneClosed(b.plain, b.gone, id); }
  }

  lemma FinishedSame(b: Builder, id: BlockId)
    ensures var b1 := EmitFinished(b, id);
      b1.stack == b.stack && b1.sw == b.sw && b1.gone == b.gone && b1.nextBlock == b.nextBlock
    ensures var b1 := EmitBranch(b, id);
      b1.stack == b.stack && b1.sw == b.sw && b1.gone == b.gone && b1.nextBlock == b.nextBlock
  {
  }

  lemma SInvOpen(b: Builder)
    requires SInv(b)
    ensures Inv(b) && (Open(b) || b.cur.None?) && (b.cur.Some? ==> Live(b))
  {
  }

  lemma IfStates(alu: Alu, b: Builder, s: Stmt)
    requires s.If? && SInv(b) && Live(b) && Fits(alu, b, s)
    ensures var n, e, b0 := b.nextBlock, s.els.Some?, IfTest(alu, b, s.c, s.els.Some?);
      && Inv(NewBlocks(b, 2)) && Live(NewBlocks(b, 2)) && Inv(NewBlocks(b, 3)) && Live(NewBlocks(b, 3))
      && NewBlocks(NewBlocks(b, 1), 1) == NewBlocks(b, 2)
        && NewBlocks(NewBlocks(NewBlocks(b, 1), 1), 1) == NewBlocks(b, 3)
      && Blk(n) !in b.gone && Blk(n + 1) !in b.gone && Blk(n + 2) !in b.gone
      && b0 == GenBranch(alu, NewBlocks(b, if e then 3 else 2), s.c, Blk(n), Blk(if e then n + 2 else n + 1))
      && Open(b0) && Blk(n) !in b0.plain && n < b0.nextBlock && IfThen(alu, b, s.c, e) == EmitBlock(b0, Blk(n))
      && SInv(IfThen(alu, b, s.c, e)) && Grows(b, IfThen(alu, b, s.c, e)) && Fits(alu, IfThen(alu, b, s.c, e), s.thn)
  {
    hide *;
    SInvInv(b);
    InvNumbered(b, 2);
    InvNumbered(b, 3);
    TwoNew(b);
    FreshIds(b);
    IfThenIs(alu, b, s.c, s.els.Some?);
    IfThenFrame(alu, b, s.c, s.els.Some?);
    AfterCutIs(IfTest(alu, b, s.c, s.els.Some?));
    NumberedBranch(alu, b, if s.els.Some? then 3 else 2, s.c, Blk(b.nextBlock),
      Blk(if s.els.Some? then b.nextBlock + 2 else b.nextBlock + 1));
    IfPieces(alu, b, s);
  }

  lemma IfMiddle(alu: Alu, b: Builder, s: Stmt, b2: Builder)
    requires s.If? && SInv(b) && Live(b) && Fits(alu, b, s) && !IfFolds(alu, s)
    requires b2 == GenStmt(alu, IfThen(alu, b, s.c, s.els.Some?), s.thn) && Safe(b2)
    ensures var n, e, b3, bb := b.nextBlock, s.els.Some?, IfElseStart(alu, b, s), EmitBranch(b2, Blk(b.nextBlock + 1));
      && (Open(b2) || b2.cur.None?) && Blk(n + 1) !in b2.gone && bb.cur.None? && Blk(n + 1) !in b3.plain
        && n + 1 < b3.nextBlock
      && (e ==>
          b3 == EmitBlock(bb, Blk(n + 2)) && Blk(n + 2) !in bb.plain && n + 2 < bb.nextBlock && SInv(b3) && Safe(b3)
            && Fits(alu, b3, s.els.value))
      && (!e ==>
          b3 == bb && Visit(alu, b, s) == EmitFinished(b3, Blk(n + 1)) && SInv(Visit(alu, b, s))
            && Safe(Visit(alu, b, s)))
  {
    hide *;
    var n, e := b.nextBlock, s.els.Some?;
    IfParts(alu, b, s);
    IfPieces(alu, b, s);
    IfIs(alu, b, s);
    SInvOpen(b2);
    NotGone(b2, Blk(n + 1));
    BranchKeys(b2, Blk(n + 1));
    var b1, bb := IfThen(alu, b, s.c, e), EmitBranch(b2, Blk(n + 1));
    IfThenFrame(alu, b, s.c, e);
    IfElseFrame(b, b1, b2, Labels(s.thn), HasDefault(s.thn), e);
    IfElseIs(b, b2, e);
    IfElseIs(b, IfElseEnd(alu, b, s), e);
    MovesExt(b1, b2, Labels(s.thn), HasDefault(s.thn));
    FinishedSame(b2, Blk(n + 1));
    SafeSame(b2, bb);
    if e {
      BlockSame(bb, Blk(n + 2));
      SafeSame(bb, IfElseStart(alu, b, s));
    } else {
      FinishedSame(bb, Blk(n + 1));
      SafeSame(bb, EmitFinished(bb, Blk(n + 1)));
    }
  }

  lemma IfLast(alu: Alu, b: Builder, s: Stmt, b4: Builder)
    requires s.If? && SInv(b) && Live(b) && Fits(alu, b, s) && !IfFolds(alu, s) && s.els.Some?
    requires b4 == GenStmt(alu, IfElseStart(alu, b, s), s.els.value) && Safe(b4)
    ensures var n, bb := b.nextBlock, EmitBranch(b4, Blk(b.nextBlock + 1));
      && (Open(b4) || b4.cur.None?) && Blk(n + 1) !in b4.gone && bb.cur.None? && Blk(n + 1) !in bb.plain
        && n + 1 < bb.nextBlock
      && Visit(alu, b, s) == EmitFinished(bb, Blk(n + 1)) && SInv(Visit(alu, b, s)) && Safe(Visit(alu, b, s))
  {
    hide *;
    var n := b.nextBlock;
    IfParts(alu, b, s);
    IfPieces(alu, b, s);
    IfIs(alu, b, s);
    IfElseIs(b, b4, true);
    SInvOpen(b4);
    NotGone(b4, Blk(n + 1));
    BranchKeys(b4, Blk(n + 1));
    var bb := EmitBranch(b4, Blk(n + 1));
    IfThenFrame(alu, b, s.c, true);
    IfElseFrame(b, IfThen(alu, b, s.c, true), IfThenEnd(alu, b, s), Labels(s.thn), HasDefault(s.thn), true);
    MovesExt(IfElseStart(alu, b, s), b4, Labels(s.els.value), HasDefault(s.els.value));
    FinishedSame(b4, Blk(n + 1));
    FinishedSame(bb, Blk(n + 1));
    SafeSame(b4, bb);
    SafeSame(bb, EmitFinished(bb, Blk(n + 1)));
  }

  lemma OpenLive(b: Builder)
    requires Live(b)
    ensures Open(b) && b.cur.Some?
  {
  }

  lemma SameState(b: Builder, b1: Builder, f: Frame)
    ensures var b2 := b.(stack := b.stack + [f]);
      b2.sw == b.sw && b2.gone == b.gone && b2.nextBlock == b.nextBlock && b2.plain == b.plain
    ensures PopFrame(b).sw == b.sw && PopFrame(b).gone == b.gone && PopFrame(b).nextBlock == b.nextBlock
      && PopFrame(b).plain == b.plain && PopFrame(b).cur == b.cur
  {
  }

  lemma GrowsParts(b: Builder, b1: Builder)
    requires Grows(b, b1)
    ensures b1.stack == b.stack && b1.sw == b.sw && b1.gone == b.gone && b.nextBlock <= b1.nextBlock
  {
  }

  lemma InsideParts(b: Builder, b1: Builder, f: Frame)
    requires Inside(b, b1, f)
    ensures SInv(b1) && b1.stack == b.stack + [f] && b.nextBlock <= b1.nextBlock
  {
  }

  lemma NewFrame(b: Builder, b1: Builder, f: Frame)
    requires SInv(b) && b1.gone == b.gone && f.brk.Blk? && b.nextBlock <= f.brk.n < b1.nextBlock
    requires f.cont.Some? ==> f.cont.value.Blk? && b.nextBlock <= f.cont.value.n < b1.nextBlock
    ensures KnownFrame(b1, f)
  {
    FreshIds(b);
  }

  lemma WhileStates(alu: Alu, b: Builder, c: Expr, body: Stmt)
    requires SInv(b) && Safe(b) && Live(b) && Fits(alu, b, While(c, body))
    ensures var n, b0, x, b1 := b.nextBlock, NewBlocks(b, 3), WhileTest(alu, b, c), WhileBody(alu, b, c);
      var bs, t := EmitBlock(b0, Blk(n)), WhileTested(alu, b, c);
      && Inv(b0) && Open(b0) && NewBlocks(NewBlocks(NewBlocks(b, 1), 1), 1) == b0
        && Blk(n) !in b.plain && Blk(n) !in b.gone
      && WhileStart(b) == bs.(stack := bs.stack + [Frame(Blk(n + 2), Some(Blk(n)))]) && Live(WhileStart(b))
      && x == GenBool(alu, WhileStart(b), c) && Live(x.b) && Blk(n + 1) !in x.b.gone && Blk(n + 2) !in x.b.gone
      && t == (if x.v == Imm(1) then x.b else Terminate(x.b, CondBr(x.v, Blk(n + 1), Blk(n + 2))))
      && Open(t) && Blk(n + 1) !in t.plain && n + 1 < t.nextBlock && b1 == EmitBlock(t, Blk(n + 1))
      && SInv(b1) && Safe(b1) && Fits(alu, b1, body)
  {
    hide *;
    var n, x, b1, f := b.nextBlock, WhileTest(alu, b, c), WhileBody(alu, b, c), WhileFrame(b);
    var bs := EmitBlock(NewBlocks(b, 3), Blk(n));
    SInvInv(b);
    InvNumbered(b, 3);
    OpenLive(NewBlocks(b, 3));
    TwoNew(b);
    FreshIds(b);
    LoopParts(alu, b, While(c, body));
    WhileFrameAll(alu, b, c, body);
    WhileTestIs(alu, b, c);
    WhileStartShape(b);
    WhileTestFrame(alu, b, c);
    WhileTestedFrame(alu, b, c);
    WhileBodyFrame(alu, b, c);
    WhileBodyIs(alu, b, c);
    WhileTestedIs(alu, b, c);
    AfterExprFacts(WhileStart(b), x);
    GrowsParts(WhileStart(b), x.b);
    InsideParts(b, b1, f);
    WhileFrameIs(b);
    NewFrame(b, b1, f);
    SafePush(b, b1, f);
  }

  lemma WhileFrameIs(b: Builder)
    ensures WhileFrame(b) == Frame(Blk(b.nextBlock + 2), Some(Blk(b.nextBlock)))
    ensures DoFrame(b) == Frame(Blk(b.nextBlock + 2), Some(Blk(b.nextBlock + 1)))
  {
  }

  lemma WhileStartShape(b: Builder)
    ensures var bs := EmitBlock(NewBlocks(b, 3), Blk(b.nextBlock));
      WhileStart(b) == bs.(stack := bs.stack + [WhileFrame(b)])
  {
  }

  lemma WhileTail(alu: Alu, b: Builder, c: Expr, body: Stmt, b2: Builder)
    requires SInv(b) && Live(b) && Fits(alu, b, While(c, body))
      && b2 == GenStmt(alu, WhileBody(alu, b, c), body) && SInv(b2)
    ensures var n, x, p := b.nextBlock, WhileTest(alu, b, c), PopFrame(b2);
      var bb, b4, b5 := EmitBranch(p, Blk(n)), EmitFinished(EmitBranch(p, Blk(n)), Blk(n + 2)),
        Visit(alu, b, While(c, body));
      && SInv(p) && (Open(p) || p.cur.None?) && Blk(n) !in p.gone && bb.cur.None? && Blk(n + 2) !in bb.plain
        && n + 2 < bb.nextBlock && SInv(bb)
      && SInv(b4) && (x.v == Imm(1) ==> Forwardable(b4, Blk(n), Blk(n + 1)))
      && b5 == (if x.v == Imm(1) then SimplifyForwarding(b4, Blk(n)) else b4) && SInv(b5)
      && b5 == b4.(gone := b5.gone) && p.stack == b.stack && b4.stack == b.stack && b5.sw == b2.sw
        && b2.nextBlock <= b5.nextBlock
      && (forall x :: x in b5.gone ==> x in b2.gone || x == Blk(n))
        && Moves(WhileBody(alu, b, c), b2, Labels(body), HasDefault(body))
  {
    hide *;
    var n, x, b1, f, p, ls, d := b.nextBlock, WhileTest(alu, b, c), WhileBody(alu, b, c), WhileFrame(b), PopFrame(b2),
      Labels(body), HasDefault(body);
    var bb, b4, b5 := EmitBranch(p, Blk(n)), EmitFinished(EmitBranch(p, Blk(n)), Blk(n + 2)),
      Visit(alu, b, While(c, body));
    WhileFrameAll(alu, b, c, body);
    WhileBodyFrame(alu, b, c);
    GoneIsOld(b);
    BodyFresh(b, b1, f, b2, ls, d, Blk(n));
    BodyFresh(b, b1, f, b2, ls, d, Blk(n + 1));
    BodyFresh(b, b1, f, b2, ls, d, Blk(n + 2));
    PopSInv(b2);
    SInvOpen(p);
    SameState(b2, b2, f);
    BranchKeys(p, Blk(n));
    BranchSInv(p, Blk(n));
    LoopEndGraph(b2, Blk(n), Blk(n + 2));
    PopInside(b, b1, f, b2, ls, d);
    WhileEndIs(alu, b, c, b2);
    AdvancesExt(b2, b4, {Blk(n + 2)});
    AdvancesParts(b2, b4, {Blk(n + 2)});
    if x.v == Imm(1) {
      MovesExt(b1, b2, ls, d);
      ExtTrans(b1.plain, b2.plain, b4.plain);
      ForwardableLater(b1, b4, Blk(n), Blk(n + 1));
      SimplifyOK(b4, Blk(n), Blk(n + 1));
    }
  }

  lemma WhileMiddle(alu: Alu, b: Builder, c: Expr, body: Stmt, b2: Builder)
    requires SInv(b) && Safe(b) && Live(b) && Fits(alu, b, While(c, body))
      && b2 == GenStmt(alu, WhileBody(alu, b, c), body) && SInv(b2) && Safe(b2)
    ensures var n, x, p := b.nextBlock, WhileTest(alu, b, c), PopFrame(b2);
      var bb, b4, b5 := EmitBranch(p, Blk(n)), EmitFinished(EmitBranch(p, Blk(n)), Blk(n + 2)),
        Visit(alu, b, While(c, body));
      && (Open(p) || p.cur.None?) && Blk(n) !in p.gone && bb.cur.None? && Blk(n + 2) !in bb.plain
        && n + 2 < bb.nextBlock
      && SInv(b4) && (x.v == Imm(1) ==> Forwardable(b4, Blk(n), Blk(n + 1)))
      && b5 == (if x.v == Imm(1) then SimplifyForwarding(b4, Blk(n)) else b4) && SInv(b5) && Safe(b5)
  {
    hide *;
    WhileTail(alu, b, c, body, b2);
    LoopParts(alu, b, While(c, body));
    WhileBodyFrame(alu, b, c);
    WhileFrameIs(b);
    GoneSame(EmitFinished(EmitBranch(PopFrame(b2), Blk(b.nextBlock)), Blk(b.nextBlock + 2)),
      Visit(alu, b, While(c, body)));
    SafeLoopEnd(b, WhileBody(alu, b, c), b2, Visit(alu, b, While(c, body)), WhileFrame(b),
      Labels(body), HasDefault(body));
  }

  lemma GoneSame(b: Builder, b1: Builder)
    requires b1 == b.(gone := b1.gone)
    ensures b1.stack == b.stack && b1.sw == b.sw && b1.nextBlock == b.nextBlock
      && b1.plain == b.plain && b1.cur == b.cur
  {
  }

  lemma AdvancesParts(b: Builder, b1: Builder, extra: set<BlockId>)
    requires Advances(b, b1, extra)
    ensures b.nextBlock <= b1.nextBlock
  {
  }

  lemma DoStates(alu: Alu, b: Builder, body: Stmt, c: Expr)
    requires SInv(b) && Safe(b) && Live(b) && Fits(alu, b, DoWhile(body, c))
    ensures var n, b0, b1 := b.nextBlock, NewBlocks(b, 3), DoBody(b);
      var bs := EmitBlock(b0, Blk(n));
      && Inv(b0) && Open(b0) && NewBlocks(NewBlocks(NewBlocks(b, 1), 1), 1) == b0 && Blk(n) !in b.plain
      && b1 == bs.(stack := bs.stack + [Frame(Blk(n + 2), Some(Blk(n + 1)))]) && SInv(b1)
        && Safe(b1) && Fits(alu, b1, body)
  {
    hide *;
    var n, b1, f := b.nextBlock, DoBody(b), DoFrame(b);
    SInvInv(b);
    InvNumbered(b, 3);
    OpenLive(NewBlocks(b, 3));
    TwoNew(b);
    FreshIds(b);
    DoFrameAll(alu, b, body, c);
    DoBodyFrame(b);
    DoBodyShape(b);
    InsideParts(b, b1, f);
    WhileFrameIs(b);
    NewFrame(b, b1, f);
    SafePush(b, b1, f);
  }

  lemma DoBodyShape(b: Builder)
    ensures var bs := EmitBlock(NewBlocks(b, 3), Blk(b.nextBlock)); DoBody(b) == bs.(stack := bs.stack + [DoFrame(b)])
  {
  }

  /** The states before and after the test of a do. */
  ghost predicate DoBefore(alu: Alu, b: Builder, body: Stmt, c: Expr, b2: Builder) {
    var n, p := b.nextBlock, PopFrame(b2);
    var bc, x, b6 := EmitBlock(p, Blk(n + 1)), DoTest(alu, b, c, b2), DoTested(alu, b, c, b2);
    && Blk(n + 1) !in p.plain && n + 1 < p.nextBlock && Inv(bc) && Live(bc) && SInv(bc)
    && x == GenBool(alu, bc, c) && Live(x.b) && Blk(n) !in x.b.gone && Blk(n + 2) !in x.b.gone
    && b6 == (if x.v == Imm(0) then x.b else Terminate(x.b, CondBr(x.v, Blk(n), Blk(n + 2))))
    && p.stack == b.stack && b6.stack == b.stack
  }
  ghost predicate DoAfter(alu: Alu, b: Builder, body: Stmt, c: Expr, b2: Builder) {
    var n, p := b.nextBlock, PopFrame(b2);
    var bc, x, b6 := EmitBlock(p, Blk(n + 1)), DoTest(alu, b, c, b2), DoTested(alu, b, c, b2);
    && Inv(b6) && Open(b6) && Grows(bc, b6) && Blk(n + 2) !in b6.plain && n + 2 < b6.nextBlock && b6.gone == b2.gone
      && b6.sw == b2.sw && b2.nextBlock <= b6.nextBlock
    && Moves(b, bc, Labels(body), HasDefault(body))
    && (x.v == Imm(0) ==> Forwardable(EmitBlock(x.b, Blk(n + 2)), Blk(n + 1), Blk(n + 2)))
    && Moves(DoBody(b), b2, Labels(body), HasDefault(body))
  }

  lemma DoBeforeParts(alu: Alu, b: Builder, body: Stmt, c: Expr, b2: Builder)
    ensures DoBefore(alu, b, body, c, b2) <==> (
      var n, p := b.nextBlock, PopFrame(b2);
      var bc, x, b6 := EmitBlock(p, Blk(n + 1)), DoTest(alu, b, c, b2), DoTested(alu, b, c, b2);
      && Blk(n + 1) !in p.plain && n + 1 < p.nextBlock && Inv(bc) && Live(bc) && SInv(bc)
      && x == GenBool(alu, bc, c) && Live(x.b) && Blk(n) !in x.b.gone && Blk(n + 2) !in x.b.gone
      && b6 == (if x.v == Imm(0) then x.b else Terminate(x.b, CondBr(x.v, Blk(n), Blk(n + 2))))
      && p.stack == b.stack && b6.stack == b.stack)
  {
    hide PopFrame, EmitBlock, DoTest, DoTested, Inv, Open, Live, SInv, GenBool, Terminate, Grows, Moves, Forwardable,
      Safe, SimplifyForwarding, Visit, Labels, HasDefault, DoBody;
  }

  lemma DoAfterParts(alu: Alu, b: Builder, body: Stmt, c: Expr, b2: Builder)
    ensures DoAfter(alu, b, body, c, b2) <==> (
      var n, p := b.nextBlock, PopFrame(b2);
      var bc, x, b6 := EmitBlock(p, Blk(n + 1)), DoTest(alu, b, c, b2), DoTested(alu, b, c, b2);
      && Inv(b6) && Open(b6) && Grows(bc, b6) && Blk(n + 2) !in b6.plain && n + 2 < b6.nextBlock && b6.gone == b2.gone
        && b6.sw == b2.sw && b2.nextBlock <= b6.nextBlock
      && Moves(b, bc, Labels(body), HasDefault(body))
      && (x.v == Imm(0) ==> Forwardable(EmitBlock(x.b, Blk(n + 2)), Blk(n + 1), Blk(n + 2)))
      && Moves(DoBody(b), b2, Labels(body), HasDefault(body)))
  {
    hide PopFrame, EmitBlock, DoTest, DoTested, Inv, Open, Live, SInv, GenBool, Terminate, Grows, Moves, Forwardable,
      Safe, SimplifyForwarding, Visit, Labels, HasDefault, DoBody;
  }

  /** The test of a do. */
  lemma DoTailTest(alu: Alu, b: Builder, body: Stmt, c: Expr, b2: Builder)
    requires SInv(b) && Live(b) && Fits(alu, b, DoWhile(body, c)) && b2 == GenStmt(alu, DoBody(b), body) && SInv(b2)
    ensures DoBefore(alu, b, body, c, b2) && DoAfter(alu, b, body, c, b2)
  {
    hide *;
    var n, b1, f, p, ls, d := b.nextBlock, DoBody(b), DoFrame(b), PopFrame(b2), Labels(body), HasDefault(body);
    var bc, x, b6 := DoCond(b, b2), DoTest(alu, b, c, b2), DoTested(alu, b, c, b2);
    DoFrameAll(alu, b, body, c);
    DoBodyFrame(b);
    GoneIsOld(b);
    BodyFresh(b, b1, f, b2, ls, d, Blk(n));
    BodyFresh(b, b1, f, b2, ls, d, Blk(n + 1));
    PopSInv(b2);
    SInvOpen(p);
    SameState(b2, b2, f);
    DoTestFrame(alu, b, c, b2, ls, d);
    DoTestIs(alu, b, c, b2);
    DoTestedIs(alu, b, c, b2);
    SInvInv(bc);
    AfterExprFacts(bc, x);
    GrowsParts(bc, x.b);
    BlockSame(p, Blk(n + 1));
    TestedGrows(bc, x, CondBr(x.v, Blk(n), Blk(n + 2)), Blk(n + 2));
    GrowsRefl(x.b);
    GrowsParts(x.b, Terminate(x.b, CondBr(x.v, Blk(n), Blk(n + 2))));
    GrowsTrans(bc, x.b, b6);
    PopInside(b, b1, f, b2, ls, d);
    if x.v == Imm(0) {
      BlockExt(x.b, Blk(n + 2));
      ForwardingShape(alu, bc, x, c, 0, Blk(n + 1), Blk(n + 2));
    }
    DoBeforeParts(alu, b, body, c, b2);
    DoAfterParts(alu, b, body, c, b2);
  }

  lemma DoTail(alu: Alu, b: Builder, body: Stmt, c: Expr, b2: Builder)
    requires SInv(b) && Live(b) && Fits(alu, b, DoWhile(body, c)) && b2 == GenStmt(alu, DoBody(b), body) && SInv(b2)
    ensures var n, x, b4, b5 := b.nextBlock, DoTest(alu, b, c, b2),
      EmitBlock(DoTested(alu, b, c, b2), Blk(b.nextBlock + 2)), Visit(alu, b, DoWhile(body, c));
      && SInv(b4) && (x.v == Imm(0) ==> Forwardable(b4, Blk(n + 1), Blk(n + 2)))
      && b5 == (if x.v == Imm(0) then SimplifyForwarding(b4, Blk(n + 1)) else b4) && SInv(b5)
      && b5 == b4.(gone := b5.gone) && b5.stack == b.stack && b5.sw == b2.sw && b2.nextBlock <= b5.nextBlock
      && forall x :: x in b5.gone ==> x in b2.gone || x == Blk(n + 1)
  {
    hide *;
    var n, ls, d := b.nextBlock, Labels(body), HasDefault(body);
    var bc, x, b6, b5 := EmitBlock(PopFrame(b2), Blk(n + 1)), DoTest(alu, b, c, b2), DoTested(alu, b, c, b2),
      Visit(alu, b, DoWhile(body, c));
    var b4 := EmitBlock(b6, Blk(n + 2));
    DoFrameAll(alu, b, body, c);
    DoTailTest(alu, b, body, c, b2);
    DoBeforeParts(alu, b, body, c, b2);
    DoAfterParts(alu, b, body, c, b2);
    DoEndIs(alu, b, c, b2);
    BlockSame(b6, Blk(n + 2));
    MovesCut(b, bc, ls, d, b6, Blk(n + 2));
    if x.v == Imm(0) { SimplifyOK(b4, Blk(n + 1), Blk(n + 2)); }
  }

  ghost predicate DoEnds(alu: Alu, b: Builder, body: Stmt, c: Expr, b2: Builder) {
    var n, x, b6, b5 := b.nextBlock, DoTest(alu, b, c, b2), DoTested(alu, b, c, b2), Visit(alu, b, DoWhile(body, c));
    var b4 := EmitBlock(b6, Blk(n + 2));
    && Open(b6) && Blk(n + 2) !in b6.plain && n + 2 < b6.nextBlock && SInv(b4)
      && (x.v == Imm(0) ==> Forwardable(b4, Blk(n + 1), Blk(n + 2)))
    && b5 == (if x.v == Imm(0) then SimplifyForwarding(b4, Blk(n + 1)) else b4) && SInv(b5) && Safe(b5)
  }

  lemma DoEndsParts(alu: Alu, b: Builder, body: Stmt, c: Expr, b2: Builder)
    ensures DoEnds(alu, b, body, c, b2) <==> (
      var n, x, b6, b5 := b.nextBlock, DoTest(alu, b, c, b2), DoTested(alu, b, c, b2), Visit(alu, b, DoWhile(body, c));
      var b4 := EmitBlock(b6, Blk(n + 2));
      && Open(b6) && Blk(n + 2) !in b6.plain && n + 2 < b6.nextBlock && SInv(b4)
        && (x.v == Imm(0) ==> Forwardable(b4, Blk(n + 1), Blk(n + 2)))
      && b5 == (if x.v == Imm(0) then SimplifyForwarding(b4, Blk(n + 1)) else b4) && SInv(b5) && Safe(b5))
  {
    hide PopFrame, EmitBlock, DoTest, DoTested, Inv, Open, Live, SInv, GenBool, Terminate, Grows, Moves, Forwardable,
      Safe, SimplifyForwarding, Visit, Labels, HasDefault, DoBody;
  }

  lemma DoMiddle(alu: Alu, b: Builder, body: Stmt, c: Expr, b2: Builder)
    requires SInv(b) && Safe(b) && Live(b) && Fits(alu, b, DoWhile(body, c)) && b2 == GenStmt(alu, DoBody(b), body)
      && SInv(b2) && Safe(b2)
    ensures DoBefore(alu, b, body, c, b2) && DoEnds(alu, b, body, c, b2)
  {
    hide *;
    DoTailTest(alu, b, body, c, b2);
    DoBeforeParts(alu, b, body, c, b2);
    DoAfterParts(alu, b, body, c, b2);
    DoTail(alu, b, body, c, b2);
    DoBodyFrame(b);
    WhileFrameIs(b);
    SafeLoopEnd(b, DoBody(b), b2, Visit(alu, b, DoWhile(body, c)), DoFrame(b), Labels(body), HasDefault(body));
    DoEndsParts(alu, b, body, c, b2);
  }

  lemma BlockExt(b: Builder, id: BlockId)
    requires id !in b.plain
    ensures Ext(b.plain, EmitBlock(b, id).plain)
  {
  }

  lemma ForStates(alu: Alu, b: Builder, b0: Builder, s: Stmt)
    requires s.For? && SInv(b) && Live(b) && Fits(alu, b, s) && b0 == ForInit(alu, b, s.init) && Safe(b0)
    ensures var n, k, fs, b1 := b0.nextBlock, NewBlocks(b0, 4), ForStart(b0), ForBody(alu, b0, s.cond, s.inc);
      && SInv(b0) && Live(b0)
      && Inv(k) && Open(k) && NewBlocks(NewBlocks(NewBlocks(NewBlocks(b0, 1), 1), 1), 1) == k && Blk(n) !in b0.plain
        && fs == EmitBlock(k, Blk(n))
      && (s.cond.Some? ==>
            var t := GenBranch(alu, fs, s.cond.value, Blk(n + 2), Blk(n + 1));
            && Blk(n + 1) !in fs.gone && Blk(n + 2) !in fs.gone && Open(t)
              && Blk(n + 2) !in t.plain && n + 2 < t.nextBlock
            && ForHead(alu, b0, s.cond) == EmitBlock(t, Blk(n + 2)))
      && (s.cond.None? ==> ForHead(alu, b0, s.cond) == fs)
      && b1 == ForHead(alu, b0, s.cond).(stack := ForHead(alu, b0,
        s.cond).stack + [Frame(Blk(n + 1), Some(if s.inc.Some? then Blk(n + 3) else Blk(n)))])
      && SInv(b1) && Safe(b1) && Fits(alu, b1, s.body)
  {
    hide *;
    ForFrameAll(alu, b, s);
    var n, k, fs, b1, f := b0.nextBlock, NewBlocks(b0, 4), ForStart(b0),
      ForBody(alu, b0, s.cond, s.inc), ForFrame(b0, s.inc);
    SInvInv(b0);
    InvNumbered(b0, 4);
    OpenLive(k);
    TwoNew(b0);
    FreshIds(b0);
    ForHeadIs(alu, b0, s.cond);
    ForHeadFrame(alu, b0, s.cond);
    ForBodyFrame(alu, b0, s.cond, s.inc);
    ForBodyShape(alu, b0, s.cond, s.inc);
    BlockSame(k, Blk(n));
    InsideParts(b0, b1, f);
    if s.cond.Some? {
      var t := GenBranch(alu, fs, s.cond.value, Blk(n + 2), Blk(n + 1));
      BranchFrame(alu, fs, s.cond.value, Blk(n + 2), Blk(n + 1));
      AfterBranchFacts(fs, t);
      ForStartFresh(b0);
      StillFresh(fs, t, Blk(n + 2));
      GrowsParts(fs, t);
      BlockSame(t, Blk(n + 2));
    }
    NewFrame(b0, b1, f);
    SafePush(b0, b1, f);
  }

  lemma ForStartFresh(b: Builder)
    requires SInv(b)
    ensures Blk(b.nextBlock + 2) !in ForStart(b).plain && b.nextBlock + 4 == ForStart(b).nextBlock
  {
    OwnBlockAdvances(b, 4);
  }

  lemma ForBodyShape(alu: Alu, b: Builder, c: Option<Expr>, i: Option<Expr>)
    ensures var h, b1, f := ForHead(alu, b, c), ForBody(alu, b, c, i), ForFrame(b, i);
      b1 == h.(stack := h.stack + [f]) && b1.sw == h.sw && b1.gone == h.gone && b1.nextBlock == h.nextBlock
    ensures ForFrame(b, i) == Frame(Blk(b.nextBlock + 1),
      Some(if i.Some? then Blk(b.nextBlock + 3) else Blk(b.nextBlock)))
    ensures NewBlocks(b, 4).nextBlock == b.nextBlock + 4
  {
    hide GenBranch, EmitBlock;
  }

  lemma ForTail(alu: Alu, b: Builder, b0: Builder, s: Stmt, b2: Builder)
    requires s.For? && SInv(b) && Live(b) && Fits(alu, b, s) && b0 == ForInit(alu, b, s.init)
    requires b2 == GenStmt(alu, ForBody(alu, b0, s.cond, s.inc), s.body) && SInv(b2)
    ensures var n, p, bl, b3 := b0.nextBlock, PopFrame(b2), EmitBlock(PopFrame(b2), Blk(b0.nextBlock + 3)),
      ForInc(alu, b0, s.inc, b2);
      var bb := EmitBranch(b3, Blk(n));
      && (Open(p) || p.cur.None?) && (s.inc.Some? ==>
          Blk(n + 3) !in p.plain && n + 3 < p.nextBlock && b3 == GenExpr(alu, bl, s.inc.value).b && Inv(bl) && Live(bl))
      && (s.inc.None? ==> b3 == p) && (Open(b3) || b3.cur.None?) && Blk(n) !in b3.gone && bb.cur.None?
        && Blk(n + 1) !in bb.plain && n + 1 < bb.nextBlock
      && Visit(alu, b, s) == EmitFinished(bb, Blk(n + 1)) && SInv(Visit(alu, b, s)) && SInv(bb) && bb.stack == b0.stack
      && (var b5 := Visit(alu, b, s);
        b5.stack == b0.stack && b5.sw == b2.sw && b2.nextBlock <= b5.nextBlock && b5.gone == b2.gone)
      && Moves(ForBody(alu, b0, s.cond, s.inc), b2, Labels(s.body), HasDefault(s.body))
        && Inside(b0, ForBody(alu, b0, s.cond, s.inc), ForFrame(b0, s.inc))
      && SInv(b0) && ForBody(alu, b0, s.cond, s.inc).sw == b0.sw
  {
    hide *;
    ForFrameAll(alu, b, s);
    var n, p, bl, b3, f, b1 := b0.nextBlock, PopFrame(b2), EmitBlock(PopFrame(b2), Blk(b0.nextBlock + 3)),
      ForInc(alu, b0, s.inc, b2), ForFrame(b0, s.inc), ForBody(alu, b0, s.cond, s.inc);
    var ls, d, bb, b5 := Labels(s.body), HasDefault(s.body), EmitBranch(b3, Blk(n)), Visit(alu, b, s);
    ForBodyFrame(alu, b0, s.cond, s.inc);
    InsideSInv(b0, b1, f);
    StmtFrame(alu, b1, s.body);
    ForIncFrame(alu, b0, s.cond, s.inc, b2, ls, d);
    ForIncIs(alu, b0, s.inc, b2);
    ForEndIs(alu, b0, s.cond, s.inc, b2);
    GoneIsOld(b0);
    BodyFresh(b0, b1, f, b2, ls, d, Blk(n));
    BodyFresh(b0, b1, f, b2, ls, d, Blk(n + 3));
    ForHeadGone(alu, b0, s.cond);
    ForBodyShape(alu, b0, s.cond, s.inc);
    SInvOpen(p);
    SInvOpen(b3);
    SameState(b2, b2, f);
    if s.inc.Some? {
      BlockSame(p, Blk(n + 3));
      SInvInv(bl);
      ExprMoves(alu, bl, s.inc.value);
      GrowsParts(bl, b3);
    }
    FinishedSame(b3, Blk(n));
    FinishedSame(bb, Blk(n + 1));
    BranchKeys(b3, Blk(n));
    BranchSInv(b3, Blk(n));
    PopInside(b0, b1, f, b2, ls, d);
  }

  lemma ForMiddle(alu: Alu, b: Builder, b0: Builder, s: Stmt, b2: Builder)
    requires s.For? && SInv(b) && Live(b) && Fits(alu, b, s) && b0 == ForInit(alu, b, s.init) && Safe(b0)
    requires b2 == GenStmt(alu, ForBody(alu, b0, s.cond, s.inc), s.body) && SInv(b2) && Safe(b2)
    ensures var n, p, bl, b3 := b0.nextBlock, PopFrame(b2), EmitBlock(PopFrame(b2), Blk(b0.nextBlock + 3)),
      ForInc(alu, b0, s.inc, b2);
      var bb := EmitBranch(b3, Blk(n));
      && (Open(p) || p.cur.None?) && (s.inc.Some? ==>
          Blk(n + 3) !in p.plain && n + 3 < p.nextBlock && b3 == GenExpr(alu, bl, s.inc.value).b)
      && (s.inc.None? ==> b3 == p) && (Open(b3) || b3.cur.None?) && Blk(n) !in b3.gone && bb.cur.None?
        && Blk(n + 1) !in bb.plain && n + 1 < bb.nextBlock
      && Visit(alu, b, s) == EmitFinished(bb, Blk(n + 1)) && SInv(Visit(alu, b, s)) && Safe(Visit(alu, b, s))
  {
    hide *;
    ForTail(alu, b, b0, s, b2);
    ForBodyShape(alu, b0, s.cond, s.inc);
    SafeLoopEnd(b0, ForBody(alu, b0, s.cond, s.inc), b2, Visit(alu, b, s), ForFrame(b0, s.inc),
      Labels(s.body), HasDefault(s.body));
  }

  lemma ForHeadGone(alu: Alu, b: Builder, c: Option<Expr>)
    requires SInv(b) && Live(b)
    ensures ForHead(alu, b, c).gone == b.gone
  {
    hide *;
    ForHeadFrame(alu, b, c);
    GrowsParts(b, ForHead(alu, b, c));
  }

  lemma SwitchStates(alu: Alu, b: Builder, c: Expr, body: Stmt)
    requires SInv(b) && Safe(b) && Live(b) && Fits(alu, b, Switch(c, body))
    ensures var x, b1 := GenExpr(alu, b, c), SwitchBody(alu, b, c);
      var n := x.b.nextBlock;
      && b1 == Builder(x.b.plain, x.b.gone, None, n + 2, x.b.nextReg, x.b.stack + [Frame(Blk(n + 1), TopCont(b))],
        Some(OpenSwitch([], Blk(n))))
      && SInv(b1) && Inv(b1) && Safe(b1) && Fits(alu, b1, body)
        && TopCont(b) == (if b.stack == [] then None else b.stack[|b.stack| - 1].cont)
      && x.b.stack == b.stack
  {
    hide *;
    var x, b1 := GenExpr(alu, b, c), SwitchBody(alu, b, c);
    var n := x.b.nextBlock;
    SwitchShape(alu, b, c);
    SwitchFits(alu, b, c, body);
    SwitchBodyFrame(alu, b, c);
    SInvInv(b1);
    ExprMoves(alu, b, c);
    GrowsParts(b, x.b);
    FreshIds(x.b) by { SInvInv(x.b); }
    SafeSwitch(b, b1, Frame(Blk(n + 1), TopCont(b)), Blk(n)) by { KnownIs(b1, Blk(n)); KnownIs(b1, Blk(n + 1)); }
  }

  lemma KnownIs(b: Builder, id: BlockId)
    ensures Known(b, id) <==> id.Blk? && id.n < b.nextBlock && id !in b.gone
  {
  }

  lemma SwitchShape(alu: Alu, b: Builder, c: Expr)
    ensures var x, b1 := GenExpr(alu, b, c), SwitchBody(alu, b, c);
      var n := x.b.nextBlock;
      && b1 == Builder(x.b.plain, x.b.gone, None, n + 2, x.b.nextReg, x.b.stack + [Frame(Blk(n + 1), TopCont(b))],
        Some(OpenSwitch([], Blk(n))))
      && TopCont(b) == (if b.stack == [] then None else b.stack[|b.stack| - 1].cont)
  {
    hide GenExpr;
  }

  lemma SwitchMiddle(alu: Alu, b: Builder, c: Expr, body: Stmt, b2: Builder)
    requires SInv(b) && Safe(b) && Live(b) && Fits(alu, b, Switch(c, body))
      && b2 == GenStmt(alu, SwitchBody(alu, b, c), body) && SInv(b2) && Safe(b2)
    ensures var x := GenExpr(alu, b, c);
      && x.b.cur.Some? && x.b.cur.value in b2.plain && x.b.cur.value !in b2.gone
        && b2.plain[x.b.cur.value].term.None? && b2.sw.Some?
    ensures var x, b5 := GenExpr(alu, b, c), Visit(alu, b, Switch(c, body));
      var n, from := x.b.nextBlock, x.b.cur.value;
      var d := if Blk(n) in Real(b2.plain, b2.gone) then Blk(n) else Blk(n + 1);
      var t := SwitchT(x.v, b2.sw.value.cases, d);
      var b3 := SetBlock(b2, from, b2.plain[from].(term := Some(t)));
      var p := PopFrame(b3);
      && TermTargets(t) !! b2.gone.Keys && (Open(p) || p.cur.None?) && Blk(n + 1) !in p.plain && n + 1 < p.nextBlock
      && b5 == EmitFinished(p, Blk(n + 1)).(sw := b.sw) && SInv(b5) && Inv(b5) && Safe(b5)
  {
    hide *;
    var x, b1, b5, ls := GenExpr(alu, b, c), SwitchBody(alu, b, c), Visit(alu, b, Switch(c, body)), Labels(body);
    SwitchFrame(alu, b, c, body);
    SwitchBlockKept(alu, b, c, b2, ls, HasDefault(body));
    OpenLive(x.b);
    var n, from, p := x.b.nextBlock, x.b.cur.value, SwitchClosed(alu, b, c, b2);
    SwitchClosedFrame(alu, b, c, b2, ls, HasDefault(body));
    SwitchEndFrame(alu, b, c, b2, ls, HasDefault(body));
    SwitchVisit(alu, b, c, body);
    SwitchClosedIs(alu, b, c, b2);
    SwitchTermIs(alu, b, c, b2, map[], Val(x.v, map[]));
    SInvInv(b2);
    SwitchFrom(x.b, b2, from);
    SafeDefault(b2);
    SwitchTermSafe(alu, b, c, b2);
    SInvOpen(p);
    SwitchClosedGone(alu, b, c, b2);
    FinishedSame(p, Blk(n + 1));
    SInvInv(b5);
    SwRestored(EmitFinished(p, Blk(n + 1)), b.sw);
    SafeSwitchEnd(b, b2, b5, ls);
  }

  lemma SwRestored(b: Builder, sw: Option<OpenSwitch>)
    ensures var b1 := b.(sw := sw);
      b1.gone == b.gone && b1.stack == b.stack && b1.plain == b.plain && b1.nextBlock == b.nextBlock && b1.sw == sw
  {
  }

  lemma SwitchVisit(alu: Alu, b: Builder, c: Expr, body: Stmt)
    ensures Visit(alu, b, Switch(c, body)) == SwitchEnd(alu, b, c, GenStmt(alu, SwitchBody(alu, b, c), body))
  {
  }

  lemma SwitchFrom(b: Builder, b2: Builder, from: BlockId)
    requires Live(b) && b.cur == Some(from) && Inv(b2) && from in b2.plain && b2.plain[from] == b.plain[from]
    ensures from !in b2.gone && b2.plain[from].term.None?
  {
    if from in b2.gone { GoneClosed(b2.plain, b2.gone, from); }
  }

  lemma SafeDefault(b: Builder)
    requires Safe(b) && b.sw.Some?
    ensures b.sw.value.dflt in b.plain <==> b.sw.value.dflt in Real(b.plain, b.gone)
  {
  }

  lemma SwitchTermSafe(alu: Alu, b: Builder, c: Expr, b2: Builder)
    requires var x := GenExpr(alu, b, c);
      Safe(b2) && b2.sw.Some? && b2.sw.value.dflt == Blk(x.b.nextBlock)
        && b2.stack == b.stack + [Frame(Blk(x.b.nextBlock + 1), TopCont(b))]
    ensures TermTargets(SwitchTerm(alu, b, c, b2)) !! b2.gone.Keys
    ensures var x := GenExpr(alu, b, c);
      SwitchTerm(alu, b, c, b2) == SwitchT(x.v, b2.sw.value.cases, if Blk(x.b.nextBlock) in b2.plain then
        Blk(x.b.nextBlock) else Blk(x.b.nextBlock + 1))
  {
    hide Safe;
    SafeTerm(b2, GenExpr(alu, b, c).v);
  }

  lemma SwitchClosedGone(alu: Alu, b: Builder, c: Expr, b2: Builder)
    ensures SwitchClosed(alu, b, c, b2).gone == b2.gone
  {
  }

  lemma CloseKeeps(b: Builder, from: BlockId, t: Term)
    requires Inv(b) && from in b.plain && b.plain[from].term.None?
    ensures Inv(SetBlock(b, from, b.plain[from].(term := Some(t))))
  {
    hide GoneOK;
    GoneExt(b.plain, SetBlock(b, from, b.plain[from].(term := Some(t))).plain, b.gone);
  }

  lemma StartSafe(isMain: bool)
    ensures Safe(StartFunction(isMain)) && StartFunction(isMain).gone == map[]
  {
    StartIs(isMain);
  }

  /** Merging the return block into the current one; when nobody returns, nothing changes. */
  lemma MergeReal(b: Builder)
    requires SInv(b) && Open(b) && RetBlk !in b.plain
    ensures var g, b1 := Real(b.plain, b.gone), Replace(b, RetBlk, b.cur.value);
      Erase(g, RetBlk, b.cur.value) == if Preds(g, RetBlk) == {} then g else Real(b1.plain, b1.gone)
  {
    var g, to := Real(b.plain, b.gone), b.cur.value;
    NotGone(b, RetBlk);
    LiveNotGone(b);
    EraseReal(b, RetBlk, to);
    if Preds(g, RetBlk) == {} {
      forall x | x in g ensures RedirectBlock(map[RetBlk := to], g[x]) == g[x] {
        assert x !in Preds(g, RetBlk);
        if g[x].term.Some? { NotRedirected(map[RetBlk := to], g[x].term.value); }
      }
    }
  }

  lemma MergeSynced(b: Builder)
    requires SInv(b) && Open(b) && RetBlk !in b.plain
    ensures var b1 := Replace(b, RetBlk, b.cur.value);
      && Live(b1) && b1.cur == b.cur && (b.plain[b.cur.value] == Block(None, [], None) ==> Inv(b1))
      && b1 == b.(plain := b1.plain, gone := b1.gone)
  {
    if b.plain[b.cur.value] == Block(None, [], None) { MergeInv(b); }
  }
}
