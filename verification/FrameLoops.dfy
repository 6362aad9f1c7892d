/** The pieces of each compound statement: what they add, and where they leave the emitter. */
module FrameLoops {
  import opened Common
  import opened Source
  import opened Graph
  import opened Builder
  import opened CodeGen
  import opened Frames
  import opened FrameExpr
  import opened SimExpr
  import opened Static
  import opened FrameStmt

  const EMPTY := Block(None, [], None)

  /** A freshly started block. */
  predicate Starts(b: Builder, id: BlockId) { b.cur == Some(id) && id in b.plain && b.plain[id] == EMPTY }

  /** The emitter has entered the body of a statement that started in state `b`. */
  ghost predicate Inside(b: Builder, b1: Builder, frame: Frame) {
    && SInv(b1) && Advances(b, b1, {}) && b1.stack == b.stack + [frame] && b.nextReg <= b1.nextReg
  }

  lemma InsideFits(alu: Alu, b: Builder, b1: Builder, f: Frame, s: Stmt)
    requires SInv(b) && Inside(b, b1, f) && b1.sw == b.sw && f.cont.Some?
    requires StmtOK(alu, s) && JumpsOK(s, true, true) && LabelsFree(b, Labels(s))
    requires (HasDefault(s) ==> DefaultFree(b)) && (HasCase(s) ==> b.sw.Some?)
    ensures Fits(alu, b1, s)
  {
  }

  /** The body is done; its state `b2` has the numbers given out before the body still free. */
  lemma BodyFresh(b: Builder, b1: Builder, f: Frame, b2: Builder, ls: set<nat>, d: bool, id: BlockId)
    requires SInv(b) && Inside(b, b1, f) && b1.sw == b.sw && Moves(b1, b2, ls, d)
    requires id.Blk? && b.nextBlock <= id.n < b1.nextBlock
    ensures id !in b1.plain ==> id !in b2.plain
    ensures id.n < b2.nextBlock && (id !in b.gone && id !in b1.gone ==> id !in b2.gone)
  {
  }

  lemma PopSInv(b: Builder)
    requires SInv(b)
    ensures SInv(PopFrame(b)) && PopFrame(b).plain == b.plain && PopFrame(b).cur == b.cur
  {
  }

  /** Closing a statement: back to the stack of `b`. */
  lemma Closes(b: Builder, b1: Builder, f: Frame, b2: Builder, b3: Builder, ls: set<nat>, d: bool, own: set<BlockId>)
    requires Inside(b, b1, f) && b1.sw == b.sw && Moves(b1, b2, ls, d)
    requires Advances(b2, b3, own) && (forall x :: x in own ==> x.Blk? && x.n >= b.nextBlock)
      && b3.stack == b.stack && b3.sw == b2.sw
    ensures Moves(b, b3, ls, d)
  {
    AdvancesTrans(b, b1, b2, {}, Extra(b1, ls, d));
    AdvancesTrans(b, b2, b3, {} + Extra(b1, ls, d), own);
    assert forall x :: x in ({} + Extra(b1, ls, d)) + own ==> x in Extra(b, ls, d) || (x.Blk? && x.n >= b.nextBlock);
  }

  lemma PopAdvances(b: Builder)
    ensures Advances(b, PopFrame(b), {})
  {
  }

  lemma GrowsAdvances(b: Builder, b1: Builder)
    requires Grows(b, b1)
    ensures Advances(b, b1, {}) && b1.stack == b.stack && b1.sw == b.sw && b1.gone == b.gone
  {
  }

  /* while */

  function WhileFrame(b: Builder): Frame { Frame(Blk(b.nextBlock + 2), Some(Blk(b.nextBlock))) }

  /** A block of its own, in a new frame. */
  lemma OwnBlockInside(b: Builder, k: nat, f: Frame)
    requires SInv(b) && Live(b) && k > 0
    ensures var b1 := EmitBlock(NewBlocks(b, k), Blk(b.nextBlock)).(stack := b.stack + [f]);
      && Inside(b, b1, f) && Inv(b1) && Live(b1) && b1.sw == b.sw && b1.gone == b.gone
        && b.nextBlock + k == b1.nextBlock
      && (forall i :: b.nextBlock < i ==> Blk(i) !in b1.plain) && Starts(b1, Blk(b.nextBlock))
      && (forall i :: b.nextBlock <= i ==> Blk(i) !in b1.gone)
  {
    OwnBlockAdvances(b, k);
    GoneIsOld(b);
  }

  /** A closed block before a block of its own. */
  lemma InsideBlock(b: Builder, b1: Builder, f: Frame, b2: Builder, id: BlockId)
    requires Inside(b, b1, f) && Grows(b1, b2) && Inv(b2) && Open(b2)
    requires id.Blk? && b.nextBlock <= id.n < b2.nextBlock && id !in b2.plain
    ensures var b3 := EmitBlock(b2, id);
      && Inside(b, b3, f) && b3.sw == b1.sw && b3.gone == b1.gone && b3.nextBlock == b2.nextBlock && Starts(b3, id)
        && Ext(b2.plain, b3.plain)
      && Ext(b1.plain, b3.plain)
  {
    hide Advances, Ext, Inv;
    var b3 := EmitBlock(b2, id);
    EmitBlockAdvances(b2, id);
    AdvancesInto(b, b1, b2, {}, {}, {});
    AdvancesInto(b, b2, b3, {}, {id}, {});
    AdvancesCounts(b, b3, {});
    AdvancesCounts(b1, b2, {});
    AdvancesCounts(b2, b3, {id});
    GrowsExt(b1, b2);
    AdvancesExt(b2, b3, {id});
    ExtTrans(b1.plain, b2.plain, b3.plain);
  }

  function WhileStart(b: Builder): Builder { EmitBlock(NewBlocks(b, 3),
    Blk(b.nextBlock)).(stack := b.stack + [WhileFrame(b)]) }

  lemma WhileTestIs(alu: Alu, b: Builder, c: Expr)
    ensures WhileTest(alu, b, c) == GenBool(alu, WhileStart(b), c)
  {
  }

  lemma WhileTestFrame(alu: Alu, b: Builder, c: Expr)
    requires SInv(b) && Live(b)
    ensures var n, x := b.nextBlock, WhileTest(alu, b, c);
      && Inv(x.b) && AfterExpr(WhileStart(b), x) && Inv(WhileStart(b)) && Live(WhileStart(b)) && n + 3 <= x.b.nextBlock
      && Blk(n + 1) !in x.b.plain && Blk(n + 2) !in x.b.plain
      && Shape(alu, WhileStart(b), x, FoldBool(alu, c), Splits(alu, c), Effects(alu, c))
  {
    hide *;
    var n := b.nextBlock;
    WhileTestIs(alu, b, c);
    WhileStartIs(b);
    OwnBlockInside(b, 3, WhileFrame(b));
    var b0 := WhileStart(b);
    BoolFrame(alu, b0, c);
    ExprShape(alu, b0, c);
    TestShape(alu, b0, c);
    AfterExprFacts(b0, WhileTest(alu, b, c));
    StillFresh(b0, WhileTest(alu, b, c).b, Blk(n + 1));
    StillFresh(b0, WhileTest(alu, b, c).b, Blk(n + 2));
  }

  lemma WhileStartIs(b: Builder)
    ensures WhileStart(b) == EmitBlock(NewBlocks(b, 3), Blk(b.nextBlock)).(stack := b.stack + [WhileFrame(b)])
  {
  }

  function WhileTested(alu: Alu, b: Builder, c: Expr): Builder {
    var x := WhileTest(alu, b, c);
    if x.v == Imm(1) then x.b else Terminate(x.b, CondBr(x.v, Blk(b.nextBlock + 1), Blk(b.nextBlock + 2)))
  }

  lemma WhileTestedFrame(alu: Alu, b: Builder, c: Expr)
    requires SInv(b) && Live(b)
    ensures var n, b1 := b.nextBlock, WhileTested(alu, b, c);
      && Inside(b, WhileStart(b), WhileFrame(b)) && Grows(WhileStart(b), b1) && Inv(b1) && Open(b1)
        && n + 3 <= b1.nextBlock
      && WhileStart(b).gone == b.gone && WhileStart(b).sw == b.sw
      && Blk(n + 1) !in b1.plain && Blk(n + 2) !in b1.plain
  {
    hide Inv, Inside, Grows, Advances, Shape;
    var n, x := b.nextBlock, WhileTest(alu, b, c);
    OwnBlockInside(b, 3, WhileFrame(b));
    WhileTestFrame(alu, b, c);
    if x.v != Imm(1) {
      var t := CondBr(x.v, Blk(n + 1), Blk(n + 2));
      TerminateGrows(x.b, t);
      GrowsTrans(WhileStart(b), x.b, Terminate(x.b, t));
      StillFresh(x.b, Terminate(x.b, t), Blk(n + 1));
      StillFresh(x.b, Terminate(x.b, t), Blk(n + 2));
    }
  }

  lemma WhileBodyFrame(alu: Alu, b: Builder, c: Expr)
    requires SInv(b) && Live(b) && LoopCondOK(alu, c, 1)
    ensures var n, b1 := b.nextBlock, WhileBody(alu, b, c);
      && Inside(b, b1, WhileFrame(b)) && Starts(b1, Blk(n + 1)) && b1.sw == b.sw && b1.gone == b.gone
        && n + 3 <= b1.nextBlock
      && Blk(n + 2) !in b1.plain && Ext(WhileTested(alu, b, c).plain, b1.plain)
      && (WhileTest(alu, b, c).v == Imm(1) ==> Forwardable(b1, Blk(n), Blk(n + 1)))
  {
    hide *;
    var n := b.nextBlock;
    WhileBodyIs(alu, b, c);
    WhileTestedFrame(alu, b, c);
    InsideBlock(b, WhileStart(b), WhileFrame(b), WhileTested(alu, b, c), Blk(n + 1));
    PlacedFresh(WhileTested(alu, b, c), Blk(n + 1), Blk(n + 2));
    if WhileTest(alu, b, c).v == Imm(1) {
      WhileTestFrame(alu, b, c);
      AfterExprFacts(WhileStart(b), WhileTest(alu, b, c));
      GoneIsOld(b);
      OwnBlockInside(b, 3, WhileFrame(b));
      WhileStartIs(b);
      WhileForwardable(alu, b, c);
    }
  }

  lemma WhileBodyIs(alu: Alu, b: Builder, c: Expr)
    ensures WhileBody(alu, b, c) == EmitBlock(WhileTested(alu, b, c), Blk(b.nextBlock + 1))
    ensures WhileTest(alu, b, c).v == Imm(1) ==> WhileTested(alu, b, c) == WhileTest(alu, b, c).b
  {
  }

  lemma WhileForwardable(alu: Alu, b: Builder, c: Expr)
    requires LoopCondOK(alu, c, 1) && WhileTest(alu, b, c).v == Imm(1)
    requires Starts(WhileStart(b), Blk(b.nextBlock)) && Live(WhileTest(alu, b, c).b)
      && Blk(b.nextBlock + 1) !in WhileTest(alu, b, c).b.plain
    requires WhileBody(alu, b, c).gone == b.gone && Blk(b.nextBlock) !in b.gone && Blk(b.nextBlock + 1) !in b.gone
    requires Shape(alu, WhileStart(b), WhileTest(alu, b, c), FoldBool(alu, c), Splits(alu, c), Effects(alu, c))
    requires Ext(WhileTest(alu, b, c).b.plain, WhileBody(alu, b, c).plain)
    ensures Forwardable(WhileBody(alu, b, c), Blk(b.nextBlock), Blk(b.nextBlock + 1))
  {
    ForwardingShape(alu, WhileStart(b), WhileTest(alu, b, c), c, 1, Blk(b.nextBlock), Blk(b.nextBlock + 1));
    WhileBodyIs(alu, b, c);
  }

  /** A condition that folds leaves its block empty, or closes it with a test. */
  lemma ForwardingShape(alu: Alu, b: Builder, x: EV, c: Expr, v: int, id: BlockId, to: BlockId)
    requires Starts(b, id) && Live(x.b) && LoopCondOK(alu, c, v) && x.v == Imm(v) && to != id && to !in x.b.plain
    requires Shape(alu, b, x, FoldBool(alu, c), Splits(alu, c), Effects(alu, c))
    requires Ext(x.b.plain, EmitBlock(x.b, to).plain) && id !in x.b.gone && to !in x.b.gone
    ensures Forwardable(EmitBlock(x.b, to), id, to)
  {
    var b1 := EmitBlock(x.b, to);
    if Splits(alu, c) { assert Extends(x.b.plain[id], b1.plain[id]); }
  }

  lemma WhileEndFrame(alu: Alu, b: Builder, c: Expr, b2: Builder, ls: set<nat>, d: bool)
    requires SInv(b) && Live(b) && LoopCondOK(alu, c, 1)
    requires SInv(b2) && Moves(WhileBody(alu, b, c), b2, ls, d)
    ensures var b3 := WhileEnd(alu, b, c, b2);
      && SInv(b3) && Moves(b, b3, ls, d) && (b3.cur.Some? ==> Starts(b3, Blk(b.nextBlock + 2)))
      && Ext(EmitBranch(PopFrame(b2), Blk(b.nextBlock)).plain, b3.plain)
      && Blk(b.nextBlock + 2) !in b2.plain
  {
    hide *;
    var n, b1, f := b.nextBlock, WhileBody(alu, b, c), WhileFrame(b);
    WhileBodyFrame(alu, b, c);
    BodyFresh(b, b1, f, b2, ls, d, Blk(n + 2));
    LoopEndGraph(b2, Blk(n), Blk(n + 2));
    PopInside(b, b1, f, b2, ls, d);
    var b4 := EmitFinished(EmitBranch(PopFrame(b2), Blk(n)), Blk(n + 2));
    Closes(b, b1, f, b2, b4, ls, d, {Blk(n + 2)});
    WhileEndIs(alu, b, c, b2);
    if WhileTest(alu, b, c).v == Imm(1) {
      GoneIsOld(b);
      BodyFresh(b, b1, f, b2, ls, d, Blk(n));
      BodyFresh(b, b1, f, b2, ls, d, Blk(n + 1));
      MovesExt(b1, b2, ls, d);
      AdvancesExt(b2, b4, {Blk(n + 2)});
      ExtTrans(b1.plain, b2.plain, b4.plain);
      ForwardableLater(b1, b4, Blk(n), Blk(n + 1));
      SimplifyOK(b4, Blk(n), Blk(n + 1));
      SimplifyMoves(b, b4, Blk(n), ls, d, Blk(n + 2));
    }
  }

  lemma WhileEndIs(alu: Alu, b: Builder, c: Expr, b2: Builder)
    ensures var b4 := EmitFinished(EmitBranch(PopFrame(b2), Blk(b.nextBlock)), Blk(b.nextBlock + 2));
      WhileEnd(alu, b, c, b2) == if WhileTest(alu, b, c).v == Imm(1) then
        SimplifyForwarding(b4, Blk(b.nextBlock)) else b4
  {
  }

  lemma PopInside(b: Builder, b1: Builder, f: Frame, b2: Builder, ls: set<nat>, d: bool)
    requires Inside(b, b1, f) && Moves(b1, b2, ls, d)
    ensures PopFrame(b2).stack == b.stack
  {
  }

  lemma GoneIsOld(b: Builder)
    requires SInv(b)
    ensures forall i :: i >= b.nextBlock ==> Blk(i) !in b.gone
  {
    GoneTargets(b.plain, b.gone);
  }

  lemma SimplifyMoves(b: Builder, b1: Builder, id: BlockId, ls: set<nat>, d: bool, end: BlockId)
    requires Moves(b, b1, ls, d) && id.Blk? && id.n >= b.nextBlock
    requires forall x :: x in SimplifyForwarding(b1, id).gone ==> x in b1.gone || x == id
    requires SimplifyForwarding(b1, id) == b1.(gone := SimplifyForwarding(b1, id).gone)
    ensures Moves(b, SimplifyForwarding(b1, id), ls, d)
    ensures Starts(b1, end) ==> Starts(SimplifyForwarding(b1, id), end)
    ensures SimplifyForwarding(b1, id).plain == b1.plain
    ensures SimplifyForwarding(b1, id).cur == b1.cur
  {
  }

  /** The end of a loop: branch back to `head`, then the block after the loop. */
  lemma LoopEndGraph(b2: Builder, head: BlockId, end: BlockId)
    requires SInv(b2) && end.Blk? && end !in b2.plain && end.n < b2.nextBlock
    ensures var b4 := EmitFinished(EmitBranch(PopFrame(b2), head), end);
      && SInv(b4) && Advances(b2, b4, {end}) && b4.stack == PopFrame(b2).stack && b4.sw == b2.sw && b4.gone == b2.gone
      && (b4.cur.Some? ==> Starts(b4, end))
      && Ext(EmitBranch(PopFrame(b2), head).plain, b4.plain)
  {
    hide Ext;
    var b3 := PopFrame(b2);
    PopSInv(b2);
    PopAdvances(b2);
    EmitBranchGrows(b3, head);
    var b5 := EmitBranch(b3, head);
    FinishedAdvances(b5, end);
    var b4 := EmitFinished(b5, end);
    AdvancesTrans(b2, b3, b5, {}, {});
    AdvancesTrans(b2, b5, b4, {} + {}, {end});
    AdvancesExt(b5, b4, {end});
    AdvancesSame(b2, b4, ({} + {}) + {end}, {end});
  }

  lemma AdvancesSame(b: Builder, b1: Builder, e0: set<BlockId>, e1: set<BlockId>)
    requires Advances(b, b1, e0) && e0 <= e1
    ensures Advances(b, b1, e1)
  {
  }

  /** Steps that keep Moves. */
  lemma MovesBlock(b: Builder, b1: Builder, ls: set<nat>, d: bool, id: BlockId)
    requires Moves(b, b1, ls, d) && SInv(b1) && id.Blk? && b.nextBlock <= id.n < b1.nextBlock && id !in b1.plain
    ensures var b2 := EmitBlock(b1, id);
      && Moves(b, b2, ls, d) && SInv(b2) && Live(b2) && Starts(b2, id) && b2.sw == b1.sw
        && b2.nextBlock == b1.nextBlock && b2.gone == b1.gone
      && Advances(b1, b2, {id}) && Ext(b1.plain, b2.plain)
  {
    var b2 := EmitBlock(b1, id);
    EmitBlockAdvances(b1, id);
    AdvancesTrans(b, b1, b2, Extra(b, ls, d), {id});
    assert forall x :: x in Extra(b, ls, d) + {id} ==> x in Extra(b, ls, d) || (x.Blk? && x.n >= b.nextBlock);
    AdvancesExt(b1, b2, {id});
  }

  lemma MovesBranch(b: Builder, b1: Builder, ls: set<nat>, d: bool, to: BlockId)
    requires Moves(b, b1, ls, d) && SInv(b1)
    ensures var b2 := EmitBranch(b1, to);
      && Moves(b, b2, ls, d) && SInv(b2) && b2.cur.None? && b2.nextBlock == b1.nextBlock
        && b2.plain.Keys == b1.plain.Keys && Ext(b1.plain, b2.plain)
      && b2.stack == b1.stack && b2.sw == b1.sw
  {
    hide Advances, Inv, Ext, Extra;
    var b2 := EmitBranch(b1, to);
    EmitBranchGrows(b1, to);
    AdvancesInto(b, b1, b2, Extra(b, ls, d), {}, Extra(b, ls, d));
    AdvancesExt(b1, b2, {});
  }

  lemma MovesFinished(b: Builder, b1: Builder, ls: set<nat>, d: bool, id: BlockId)
    requires Moves(b, b1, ls, d) && SInv(b1) && id.Blk? && b.nextBlock <= id.n < b1.nextBlock && id !in b1.plain
    ensures var b2 := EmitFinished(b1, id);
      && Moves(b, b2, ls, d) && SInv(b2) && (b2.cur.Some? ==> Starts(b2, id))
        && Ext(EmitBranch(b1, id).plain, b2.plain) && Ext(b1.plain, b2.plain)
  {
    hide Advances, Inv, Ext, EmitFinished, EmitBranch, Extra, Live;
    var b2 := EmitFinished(b1, id);
    FinishedAdvances(b1, id);
    AdvancesInto(b, b1, b2, Extra(b, ls, d), {id}, Extra(b, ls, d));
    FinishedExt(b1, id);
    FinishedStarts(b1, id);
  }

  lemma MovesGrows(b: Builder, b1: Builder, ls: set<nat>, d: bool, b2: Builder)
    requires Moves(b, b1, ls, d) && Grows(b1, b2)
    ensures Moves(b, b2, ls, d) && b1.nextBlock <= b2.nextBlock && b1.sw == b2.sw && b1.gone == b2.gone
      && Ext(b1.plain, b2.plain)
  {
    AdvancesTrans(b, b1, b2, Extra(b, ls, d), {});
    assert forall x :: x in Extra(b, ls, d) + {} ==> x in Extra(b, ls, d);
  }

  lemma ClosesFrame(b: Builder, b1: Builder, f: Frame, b2: Builder, ls: set<nat>, d: bool)
    requires Inside(b, b1, f) && b1.sw == b.sw && Moves(b1, b2, ls, d) && SInv(b2)
    ensures var b3 := PopFrame(b2);
      && Moves(b, b3, ls, d) && SInv(b3) && b3.plain == b2.plain && b3.nextBlock == b2.nextBlock && b3.gone == b2.gone
        && b3.cur == b2.cur && b3.sw == b2.sw
  {
    PopInside(b, b1, f, b2, ls, d);
    PopAdvances(b2);
    Closes(b, b1, f, b2, PopFrame(b2), ls, d, {});
  }

  /* do */

  function DoFrame(b: Builder): Frame { Frame(Blk(b.nextBlock + 2), Some(Blk(b.nextBlock + 1))) }

  lemma DoBodyFrame(b: Builder)
    requires SInv(b) && Live(b)
    ensures var n, b1 := b.nextBlock, DoBody(b);
      && Inside(b, b1, DoFrame(b)) && Live(b1) && b1.sw == b.sw && b1.gone == b.gone
        && n + 3 == b1.nextBlock && Starts(b1, Blk(n))
      && Blk(n + 1) !in b1.plain && Blk(n + 2) !in b1.plain
  {
    OwnBlockInside(b, 3, DoFrame(b));
  }

  function DoCond(b: Builder, b2: Builder): Builder { EmitBlock(PopFrame(b2), Blk(b.nextBlock + 1)) }

  lemma DoTestFrame(alu: Alu, b: Builder, c: Expr, b2: Builder, ls: set<nat>, d: bool)
    requires SInv(b) && Live(b) && SInv(b2) && Moves(DoBody(b), b2, ls, d)
    ensures var n, b4, x := b.nextBlock, DoCond(b, b2), DoTest(alu, b, c, b2);
      && Moves(b, PopFrame(b2), ls, d) && SInv(PopFrame(b2)) && Moves(b, b4, ls, d) && SInv(b4) && Live(b4)
        && Starts(b4, Blk(n + 1))
      && x == GenBool(alu, b4, c) && Inv(x.b) && AfterExpr(b4, x)
        && Shape(alu, b4, x, FoldBool(alu, c), Splits(alu, c), Effects(alu, c))
      && Blk(n + 2) !in x.b.plain && n + 2 < x.b.nextBlock && Blk(n + 1) !in b2.plain
      && Blk(n + 1) !in x.b.gone && Blk(n + 2) !in x.b.gone && SInv(x.b)
  {
    hide *;
    var n, b1, f, b3, b4, x := b.nextBlock, DoBody(b), DoFrame(b), PopFrame(b2), DoCond(b, b2), DoTest(alu, b, c, b2);
    DoBodyFrame(b);
    GoneIsOld(b);
    BodyFresh(b, b1, f, b2, ls, d, Blk(n + 1));
    BodyFresh(b, b1, f, b2, ls, d, Blk(n + 2));
    ClosesFrame(b, b1, f, b2, ls, d);
    MovesBlock(b, b3, ls, d, Blk(n + 1));
    PlacedFresh(b3, Blk(n + 1), Blk(n + 2));
    DoTestIs(alu, b, c, b2);
    SInvInv(b4);
    BoolFrame(alu, b4, c);
    ExprShape(alu, b4, c);
    TestShape(alu, b4, c);
    AfterExprFacts(b4, x);
    StillFresh(b4, x.b, Blk(n + 2));
    GrowsAdvances(b4, x.b);
    LiveSInv(b4, x.b);
  }

  lemma SInvInv(b: Builder)
    requires SInv(b)
    ensures Inv(b)
  {
  }

  lemma LiveSInv(b: Builder, b1: Builder)
    requires SInv(b) && Inv(b1) && Live(b1) && Grows(b, b1)
    ensures SInv(b1)
  {
  }

  lemma DoTestIs(alu: Alu, b: Builder, c: Expr, b2: Builder)
    ensures DoTest(alu, b, c, b2) == GenBool(alu, DoCond(b, b2), c)
      && DoCond(b, b2) == EmitBlock(PopFrame(b2), Blk(b.nextBlock + 1))
  {
  }

  function DoTested(alu: Alu, b: Builder, c: Expr, b2: Builder): Builder {
    var x := DoTest(alu, b, c, b2);
    if x.v == Imm(0) then x.b else Terminate(x.b, CondBr(x.v, Blk(b.nextBlock), Blk(b.nextBlock + 2)))
  }

  lemma DoEndIs(alu: Alu, b: Builder, c: Expr, b2: Builder)
    ensures var b4 := EmitBlock(DoTested(alu, b, c, b2), Blk(b.nextBlock + 2));
      DoEnd(alu, b, c, b2) == if DoTest(alu, b, c, b2).v == Imm(0) then
        SimplifyForwarding(b4, Blk(b.nextBlock + 1)) else b4
  {
  }

  lemma TestedGrows(b: Builder, x: EV, t: Term, id: BlockId)
    requires Inv(x.b) && Live(x.b) && id !in x.b.plain
    ensures var b1 := Terminate(x.b, t);
      Inv(b1) && Cut(b1) && Open(b1) && Grows(x.b, b1) && id !in b1.plain && b1.nextBlock == x.b.nextBlock
  {
    TerminateGrows(x.b, t);
  }

  /** A closed block, then one of its own. */
  lemma MovesCut(b: Builder, b1: Builder, ls: set<nat>, d: bool, b2: Builder, id: BlockId)
    requires Moves(b, b1, ls, d) && SInv(b1) && Grows(b1, b2) && Inv(b2) && Open(b2)
    requires id.Blk? && b.nextBlock <= id.n < b2.nextBlock && id !in b2.plain
    ensures var b3 := EmitBlock(b2, id);
      Moves(b, b3, ls, d) && SInv(b3) && Live(b3) && Starts(b3, id) && b3.sw == b2.sw && b3.gone == b1.gone
        && Ext(b2.plain, b3.plain) && b3.nextBlock == b2.nextBlock
  {
    hide Advances, Ext, Inv, Extra;
    var b3 := EmitBlock(b2, id);
    MovesGrows(b, b1, ls, d, b2);
    EmitBlockAdvances(b2, id);
    AdvancesInto(b, b2, b3, Extra(b, ls, d), {id}, Extra(b, ls, d));
    AdvancesExt(b2, b3, {id});
  }

  lemma DoEndFrame(alu: Alu, b: Builder, c: Expr, b2: Builder, ls: set<nat>, d: bool)
    requires SInv(b) && Live(b) && LoopCondOK(alu, c, 0)
    requires SInv(b2) && Moves(DoBody(b), b2, ls, d)
    ensures var b3 := DoEnd(alu, b, c, b2);
      && SInv(b3) && Moves(b, b3, ls, d) && Starts(b3, Blk(b.nextBlock + 2))
      && Ext(EmitBlock(DoTested(alu, b, c, b2), Blk(b.nextBlock + 2)).plain, b3.plain)
        && Ext(DoTested(alu, b, c, b2).plain, b3.plain)
  {
    hide *;
    var n, x := b.nextBlock, DoTest(alu, b, c, b2);
    var b4, b5 := DoCond(b, b2), DoTested(alu, b, c, b2);
    DoTestFrame(alu, b, c, b2, ls, d);
    AfterExprFacts(b4, x);
    DoTestedIs(alu, b, c, b2);
    GrowsRefl(x.b);
    TestedGrows(b4, x, CondBr(x.v, Blk(n), Blk(n + 2)), Blk(n + 2));
    GrowsTrans(b4, x.b, b5);
    MovesCut(b, b4, ls, d, b5, Blk(n + 2));
    ExtRefl(EmitBlock(b5, Blk(n + 2)).plain);
    DoEndIs(alu, b, c, b2);
    if x.v == Imm(0) {
      ForwardingShape(alu, b4, x, c, 0, Blk(n + 1), Blk(n + 2));
      SimplifyOK(EmitBlock(b5, Blk(n + 2)), Blk(n + 1), Blk(n + 2));
      SimplifyMoves(b, EmitBlock(b5, Blk(n + 2)), Blk(n + 1), ls, d, Blk(n + 2));
    }
  }

  lemma DoTestedIs(alu: Alu, b: Builder, c: Expr, b2: Builder)
    ensures var x := DoTest(alu, b, c, b2);
      DoTested(alu, b, c, b2) == if x.v == Imm(0) then x.b
        else Terminate(x.b, CondBr(x.v, Blk(b.nextBlock), Blk(b.nextBlock + 2)))
  {
  }

  lemma ExtRefl(g: Graph)
    ensures Ext(g, g)
  {
  }

  /* for */

  function ForFrame(b: Builder, i: Option<Expr>): Frame { Frame(Blk(b.nextBlock + 1), Some(ForCont(b, i))) }

  function ForStart(b: Builder): Builder { EmitBlock(NewBlocks(b, 4), Blk(b.nextBlock)) }

  lemma ForHeadFrame(alu: Alu, b: Builder, c: Option<Expr>)
    requires SInv(b) && Live(b)
    ensures var n, b1 := b.nextBlock, ForHead(alu, b, c);
      && Inv(b1) && Live(b1) && Grows(b, b1) && n + 4 <= b1.nextBlock && Blk(n + 1) !in b1.plain
        && Blk(n + 3) !in b1.plain
      && Inv(ForStart(b)) && Live(ForStart(b)) && Starts(ForStart(b), Blk(n)) && ForStart(b).nextReg == b.nextReg
        && Ext(ForStart(b).plain, b1.plain)
      && Starts(b1, Blk(if c.Some? then n + 2 else n))
      && (c.Some? ==> Ext(GenBranch(alu, ForStart(b), c.value, Blk(n + 2), Blk(n + 1)).plain, b1.plain))
  {
    hide *;
    var n, b1 := b.nextBlock, ForStart(b);
    OwnBlockAdvances(b, 4);
    ForHeadIs(alu, b, c);
    SInvInv(b1);
    ExtRefl(b1.plain);
    if c.Some? {
      var b2 := GenBranch(alu, b1, c.value, Blk(n + 2), Blk(n + 1));
      BranchFrame(alu, b1, c.value, Blk(n + 2), Blk(n + 1));
      AfterBranchFacts(b1, b2);
      StillFresh(b1, b2, Blk(n + 1));
      StillFresh(b1, b2, Blk(n + 2));
      StillFresh(b1, b2, Blk(n + 3));
      GrowsTrans(b, b1, b2);
      ThenBlock(b, b2, Blk(n + 2));
      PlacedFresh(b2, Blk(n + 2), Blk(n + 1));
      PlacedFresh(b2, Blk(n + 2), Blk(n + 3));
      PlacedStarts(b2, Blk(n + 2));
      ExtTrans(b1.plain, b2.plain, ForHead(alu, b, c).plain);
    }
    PlacedStarts(NewBlocks(b, 4), Blk(n));
  }

  lemma PlacedStarts(b: Builder, id: BlockId)
    ensures Starts(EmitBlock(b, id), id)
  {
  }
  lemma ForHeadIs(alu: Alu, b: Builder, c: Option<Expr>)
    ensures ForHead(alu, b, c) == if c.None? then ForStart(b)
      else EmitBlock(GenBranch(alu, ForStart(b), c.value, Blk(b.nextBlock + 2),
        Blk(b.nextBlock + 1)), Blk(b.nextBlock + 2))
    ensures ForStart(b) == EmitBlock(NewBlocks(b, 4), Blk(b.nextBlock))
  {
  }

  lemma ForBodyFrame(alu: Alu, b: Builder, c: Option<Expr>, i: Option<Expr>)
    requires SInv(b) && Live(b)
    ensures var n, b1 := b.nextBlock, ForBody(alu, b, c, i);
      && Inside(b, b1, ForFrame(b, i)) && Inv(b1) && Live(b1) && b1.sw == b.sw && n + 4 <= b1.nextBlock
        && Blk(n + 1) !in b1.plain && Blk(n + 3) !in b1.plain
      && b1.plain == ForHead(alu, b, c).plain && b1.cur == ForHead(alu, b, c).cur
  {
    hide Ext, ForHead, GoneOK;
    ForHeadFrame(alu, b, c);
  }

  lemma ForIncFrame(alu: Alu, b: Builder, c: Option<Expr>, i: Option<Expr>, b2: Builder, ls: set<nat>, d: bool)
    requires SInv(b) && Live(b) && SInv(b2) && Moves(ForBody(alu, b, c, i), b2, ls, d)
    ensures var n, b3 := b.nextBlock, ForInc(alu, b, i, b2);
      && Moves(b, b3, ls, d) && SInv(b3) && n + 1 < b3.nextBlock && Blk(n + 1) !in b3.plain
      && (i.Some? ==>
          Blk(n + 3) !in b2.plain && Live(b3) && Moves(b, ForLast(b, i, b2), ls, d) && SInv(ForLast(b, i, b2))
            && Live(ForLast(b, i, b2))
                      && Starts(ForLast(b, i, b2), Blk(n + 3)) && Ext(ForLast(b, i, b2).plain, b3.plain)
                      && b3 == GenExpr(alu, ForLast(b, i, b2), i.value).b)
      && (i.None? ==> b3 == PopFrame(b2)) && SInv(PopFrame(b2))
  {
    hide *;
    var n, b1, f, b3 := b.nextBlock, ForBody(alu, b, c, i), ForFrame(b, i), PopFrame(b2);
    ForBodyFrame(alu, b, c, i);
    ClosesFrame(b, b1, f, b2, ls, d);
    BodyFresh(b, b1, f, b2, ls, d, Blk(n + 1));
    BodyFresh(b, b1, f, b2, ls, d, Blk(n + 3));
    ForIncIs(alu, b, i, b2);
    if i.Some? {
      var b4 := ForLast(b, i, b2);
      MovesBlock(b, b3, ls, d, Blk(n + 3));
      PlacedFresh(b3, Blk(n + 3), Blk(n + 1));
      SInvInv(b4);
      ExprMoves(alu, b4, i.value);
      ExprFrame(alu, b4, i.value);
      var x := GenExpr(alu, b4, i.value);
      AfterExprFacts(b4, x);
      StillFresh(b4, x.b, Blk(n + 1));
      MovesGrows(b, b4, ls, d, x.b);
    }
  }

  function ForLast(b: Builder, i: Option<Expr>, b2: Builder): Builder { EmitBlock(PopFrame(b2), Blk(b.nextBlock + 3)) }

  lemma ForIncIs(alu: Alu, b: Builder, i: Option<Expr>, b2: Builder)
    ensures ForInc(alu, b, i, b2) == if i.None? then PopFrame(b2) else GenExpr(alu, ForLast(b, i, b2), i.value).b
    ensures ForLast(b, i, b2) == EmitBlock(PopFrame(b2), Blk(b.nextBlock + 3))
  {
  }

  lemma ForEndFrame(alu: Alu, b: Builder, c: Option<Expr>, i: Option<Expr>, b2: Builder, ls: set<nat>, d: bool)
    requires SInv(b) && Live(b) && SInv(b2) && Moves(ForBody(alu, b, c, i), b2, ls, d)
    ensures var n, b3, b4 := b.nextBlock, ForInc(alu, b, i, b2), ForEnd(alu, b, c, i, b2);
      && Moves(b, b4, ls, d) && SInv(b4) && (b4.cur.Some? ==> Starts(b4, Blk(n + 1)))
        && Ext(EmitBranch(b3, Blk(n)).plain, b4.plain)
      && Ext(b3.plain, b4.plain)
  {
    hide *;
    var n, b3 := b.nextBlock, ForInc(alu, b, i, b2);
    ForIncFrame(alu, b, c, i, b2, ls, d);
    MovesBranch(b, b3, ls, d, Blk(n));
    var b5 := EmitBranch(b3, Blk(n));
    MovesFinished(b, b5, ls, d, Blk(n + 1));
    ForEndIs(alu, b, c, i, b2);
    ExtTrans(b3.plain, b5.plain, ForEnd(alu, b, c, i, b2).plain);
  }

  lemma ForEndIs(alu: Alu, b: Builder, c: Option<Expr>, i: Option<Expr>, b2: Builder)
    ensures ForEnd(alu, b, c, i, b2) == EmitFinished(EmitBranch(ForInc(alu, b, i, b2),
      Blk(b.nextBlock)), Blk(b.nextBlock + 1))
  {
  }

  /* if */

  function IfTest(alu: Alu, b: Builder, c: Expr, els: bool): Builder {
    GenBranch(alu, NewBlocks(b, if els then 3 else 2), c, Blk(b.nextBlock),
      Blk(if els then b.nextBlock + 2 else b.nextBlock + 1))
  }

  lemma IfThenIs(alu: Alu, b: Builder, c: Expr, els: bool)
    ensures IfThen(alu, b, c, els) == EmitBlock(IfTest(alu, b, c, els), Blk(b.nextBlock))
    ensures IfTest(alu, b, c, els) == GenBranch(alu, NewBlocks(b, if els then 3 else 2), c, Blk(b.nextBlock),
      Blk(if els then b.nextBlock + 2 else b.nextBlock + 1))
  {
  }

  lemma IfThenFrame(alu: Alu, b: Builder, c: Expr, els: bool)
    requires SInv(b) && Live(b)
    ensures var n, b0, b1 := b.nextBlock, IfTest(alu, b, c, els), IfThen(alu, b, c, els);
      && Grows(b, b1) && SInv(b1) && Live(b1) && Starts(b1, Blk(n)) && n + 2 <= b1.nextBlock
        && (els ==> n + 3 <= b1.nextBlock)
      && Blk(n + 1) !in b1.plain && (els ==> Blk(n + 2) !in b1.plain) && Ext(b0.plain, b1.plain)
      && Inv(b0) && Cut(b0) && Grows(b, b0)
  {
    hide *;
    var n, k, b0 := b.nextBlock, if els then 3 else 2, IfTest(alu, b, c, els);
    IfThenIs(alu, b, c, els);
    SInvInv(b);
    NumberedBranch(alu, b, k, c, Blk(n), Blk(if els then n + 2 else n + 1));
    assert Blk(n) !in b0.plain && Blk(n + 1) !in b0.plain;
    ThenBlock(b, b0, Blk(n));
    PlacedFresh(b0, Blk(n), Blk(n + 1));
    if els { assert Blk(n + 2) !in b0.plain; PlacedFresh(b0, Blk(n), Blk(n + 2)); }
    PlacedStarts(b0, Blk(n));
    LiveSInv(b, IfThen(alu, b, c, els));
  }

  lemma IfElseIs(b: Builder, b1: Builder, els: bool)
    ensures IfElse(b, b1, els) == if els then EmitBlock(EmitBranch(b1, Blk(b.nextBlock + 1)), Blk(b.nextBlock + 2))
      else EmitBranch(b1, Blk(b.nextBlock + 1))
    ensures IfEnd(b, b1, els) == EmitFinished(if els then EmitBranch(b1, Blk(b.nextBlock + 1))
      else b1, Blk(b.nextBlock + 1))
  {
  }

  lemma IfElseFrame(b: Builder, b1: Builder, b2: Builder, ls: set<nat>, d: bool, els: bool)
    requires SInv(b) && Grows(b, b1) && SInv(b1) && Moves(b1, b2, ls, d) && SInv(b2)
    requires var n := b.nextBlock;
      n + 2 <= b1.nextBlock && Blk(n + 1) !in b1.plain && (els ==> n + 3 <= b1.nextBlock && Blk(n + 2) !in b1.plain)
    ensures var n, b3 := b.nextBlock, IfElse(b, b2, els);
      && Moves(b, b3, ls, d) && SInv(b3) && Blk(n + 1) !in b3.plain && n + 1 < b3.nextBlock
      && Ext(EmitBranch(b2, Blk(n + 1)).plain, b3.plain) && Ext(b2.plain, b3.plain)
      && (els ==> Starts(b3, Blk(n + 2)) && Live(b3)) && (!els ==> b3.cur.None?)
      && Blk(n + 1) !in b2.plain && (els ==> Blk(n + 2) !in b2.plain)
  {
    hide *;
    var n := b.nextBlock;
    GrowsMoves(b, b1, {}, false);
    MovesTrans(b, b1, b2, {}, false, ls, d);
    MovesMore(b, b2, {} + ls, false || d, ls, d);
    IfFresh(b, b1, b2, ls, d, n + 1);
    MovesBranch(b, b2, ls, d, Blk(n + 1));
    IfElseIs(b, b2, els);
    var b3 := EmitBranch(b2, Blk(n + 1));
    ExtRefl(b3.plain);
    if els {
      IfFresh(b, b1, b2, ls, d, n + 2);
      MovesBlock(b, b3, ls, d, Blk(n + 2));
      PlacedFresh(b3, Blk(n + 2), Blk(n + 1));
      ExtTrans(b2.plain, b3.plain, IfElse(b, b2, els).plain);
    }
  }

  lemma IfFresh(b: Builder, b1: Builder, b2: Builder, ls: set<nat>, d: bool, i: nat)
    requires SInv(b) && Grows(b, b1) && Moves(b1, b2, ls, d) && b.nextBlock <= i < b1.nextBlock && Blk(i) !in b1.plain
    ensures Blk(i) !in b2.plain && i < b2.nextBlock
  {
  }

  lemma IfEndFrame(b: Builder, b3: Builder, b4: Builder, ls0: set<nat>, d0: bool, ls1: set<nat>, d1: bool, els: bool)
    requires SInv(b) && Moves(b, b3, ls0, d0) && SInv(b3) && Blk(b.nextBlock + 1) !in b3.plain
      && b.nextBlock + 1 < b3.nextBlock
    requires Moves(b3, b4, ls1, d1) && SInv(b4)
    ensures var n, b5 := b.nextBlock, IfEnd(b, b4, els);
      && Moves(b, b5, ls0 + ls1, d0 || d1) && SInv(b5) && (b5.cur.Some? ==> Starts(b5, Blk(n + 1)))
      && Ext(EmitBranch(b4, Blk(n + 1)).plain, b5.plain)
      && Ext(b4.plain, b5.plain) && Blk(n + 1) !in b4.plain
  {
    hide *;
    var n := b.nextBlock;
    var ls, d := ls0 + ls1, d0 || d1;
    MovesTrans(b, b3, b4, ls0, d0, ls1, d1);
    IfDefault(b, b3, ls0, d0);
    MovesFresh(b3, b4, ls1, d1, Blk(n + 1));
    IfElseIs(b, b4, els);
    MovesBranch(b, b4, ls, d, Blk(n + 1));
    var b5 := EmitBranch(b4, Blk(n + 1));
    if els {
      MovesFinished(b, b5, ls, d, Blk(n + 1));
      ExtTrans(b4.plain, b5.plain, IfEnd(b, b4, els).plain);
      ExtTrans(b5.plain, b5.plain, IfEnd(b, b4, els).plain) by { ExtRefl(b5.plain); }
    } else { MovesFinished(b, b4, ls, d, Blk(n + 1)); }
  }

  lemma IfDefault(b: Builder, b3: Builder, ls: set<nat>, d: bool)
    requires SInv(b) && Moves(b, b3, ls, d)
    ensures b3.sw.Some? ==> b3.sw.value.dflt != Blk(b.nextBlock + 1)
  {
  }

  /* switch */

  lemma SwitchBodyFrame(alu: Alu, b: Builder, c: Expr)
    requires SInv(b) && Live(b)
    ensures var x, b1 := GenExpr(alu, b, c), SwitchBody(alu, b, c);
      var n := x.b.nextBlock;
      && SInv(x.b) && Live(x.b) && Grows(b, x.b) && SInv(b1) && Advances(b, b1, {}) && b1.plain == x.b.plain
        && b1.cur.None? && b1.nextBlock == n + 2
      && b1.stack == b.stack + [Frame(Blk(n + 1), TopCont(b))]
        && b1.sw == Some(OpenSwitch([], Blk(n))) && b.nextBlock <= n
      && Blk(n) !in b1.plain && Blk(n + 1) !in b1.plain
  {
    hide Ext, GoneOK, GenExpr, Kept;
    ExprMoves(alu, b, c);
  }

  function SwitchTerm(alu: Alu, b: Builder, c: Expr, b2: Builder): Term
    requires b2.sw.Some?
  {
    var x := GenExpr(alu, b, c);
    SwitchT(x.v, b2.sw.value.cases, if Blk(x.b.nextBlock) in b2.plain then Blk(x.b.nextBlock)
      else Blk(x.b.nextBlock + 1))
  }

  /** The switch instruction, written into its block. */
  function SwitchClosed(alu: Alu, b: Builder, c: Expr, b2: Builder): Builder {
    var x := GenExpr(alu, b, c);
    if b2.sw.None? || x.b.cur.None? || x.b.cur.value !in b2.plain then b2 else
    PopFrame(SetBlock(b2, x.b.cur.value, b2.plain[x.b.cur.value].(term := Some(SwitchTerm(alu, b, c, b2)))))
  }

  /** Nothing was added to the block that ends in the switch. */
  lemma SwitchBlockKept(alu: Alu, b: Builder, c: Expr, b2: Builder, ls: set<nat>, d: bool)
    requires SInv(b) && Live(b) && Moves(SwitchBody(alu, b, c), b2, ls, d)
    ensures var x := GenExpr(alu, b, c);
      && Live(x.b) && x.b.cur.value in b2.plain && b2.plain[x.b.cur.value] ==
        x.b.plain[x.b.cur.value] && b2.cur != x.b.cur
      && b2.sw.Some? && b2.sw.value.dflt == Blk(x.b.nextBlock) && Blk(x.b.nextBlock + 1) !in b2.plain
        && x.b.nextBlock + 1 < b2.nextBlock
      && b2.stack == b.stack + [Frame(Blk(x.b.nextBlock + 1), TopCont(b))]
        && (x.b.cur == b.cur || x.b.cur.value !in b.plain)
      && b.nextBlock <= x.b.nextBlock
  {
    hide Inv, Ext;
    SwitchBodyFrame(alu, b, c);
  }

  lemma SwitchAdvances(alu: Alu, b: Builder, c: Expr, b2: Builder, ls: set<nat>, d: bool)
    requires SInv(b) && Live(b) && Moves(SwitchBody(alu, b, c), b2, ls, d)
    ensures Advances(b, b2, Extra(b, ls, false))
  {
    hide Inv, Ext, Advances, SwitchBody, GenExpr, Grows, Live, SwGrows;
    var b1 := SwitchBody(alu, b, c);
    SwitchBodyFrame(alu, b, c);
    AdvancesInto(b, b1, b2, {}, Extra(b1, ls, d), Extra(b, ls, false));
  }

  /** Closing a block that is not the current one. */
  lemma CloseBlock(b: Builder, b1: Builder, id: BlockId, t: Term, extra: set<BlockId>)
    requires SInv(b1) && Advances(b, b1, extra) && id in b1.plain && b1.plain[id].term.None? && b1.cur != Some(id)
    requires b.cur == Some(id) || id !in b.plain
    ensures var b2 := PopFrame(SetBlock(b1, id, b1.plain[id].(term := Some(t))));
      SInv(b2) && Advances(b, b2, extra) && Ext(b1.plain, b2.plain)
  {
    var b2 := SetBlock(b1, id, b1.plain[id].(term := Some(t)));
    GoneExt(b1.plain, b2.plain, b1.gone);
    forall c | c in b.plain
      ensures c in b2.plain && Extends(b.plain[c], b2.plain[c]) && (Some(c) != b.cur ==> b2.plain[c] == b.plain[c])
    {
      assert Extends(b.plain[c], b1.plain[c]);
    }
  }

  lemma SwitchClosedIs(alu: Alu, b: Builder, c: Expr, b2: Builder)
    requires var x := GenExpr(alu, b, c); b2.sw.Some? && x.b.cur.Some? && x.b.cur.value in b2.plain
    ensures var x, b3 := GenExpr(alu, b, c), SwitchClosed(alu, b, c, b2);
      && b3 == PopFrame(SetBlock(b2, x.b.cur.value, b2.plain[x.b.cur.value].(term := Some(SwitchTerm(alu, b, c, b2)))))
      && SwitchEnd(alu, b, c, b2) == EmitFinished(b3, Blk(x.b.nextBlock + 1)).(sw := b.sw)
      && b3.cur == b2.cur && b3.plain.Keys == b2.plain.Keys && b3.sw == b2.sw && b3.nextBlock == b2.nextBlock
        && b3.nextReg == b2.nextReg
      && (b2.stack == b.stack + [Frame(Blk(x.b.nextBlock + 1), TopCont(b))] ==> b3.stack == b.stack)
  {
    hide GenExpr, EmitFinished, Preds, Real;
  }

  lemma SwitchClosedFrame(alu: Alu, b: Builder, c: Expr, b2: Builder, ls: set<nat>, d: bool)
    requires SInv(b) && Live(b) && SInv(b2) && Moves(SwitchBody(alu, b, c), b2, ls, d)
    ensures var x, b3 := GenExpr(alu, b, c), SwitchClosed(alu, b, c, b2);
      && SInv(b3) && Advances(b, b3, Extra(b, ls, false)) && b3.stack == b.stack
        && Blk(x.b.nextBlock + 1) !in b3.plain && x.b.nextBlock + 1 < b3.nextBlock
      && b3.cur == b2.cur && b3.plain.Keys == b2.plain.Keys && b3.sw == b2.sw && Ext(b2.plain, b3.plain)
      && SwitchEnd(alu, b, c, b2) == EmitFinished(b3, Blk(x.b.nextBlock + 1)).(sw := b.sw)
  {
    hide SInv, Inv, Advances, Moves, Ext, SwitchClosed, SwitchEnd, SwitchBody, EmitFinished;
    SwitchBlockKept(alu, b, c, b2, ls, d);
    SwitchAdvances(alu, b, c, b2, ls, d);
    SwitchClosedIs(alu, b, c, b2);
    CloseBlock(b, b2, GenExpr(alu, b, c).b.cur.value, SwitchTerm(alu, b, c, b2), Extra(b, ls, false));
  }

  lemma FinishedStarts(b: Builder, id: BlockId)
    ensures var b1 := EmitFinished(b, id); b1.cur.Some? ==> Starts(b1, id)
  {
  }

  lemma AdvancesSw(b: Builder, b1: Builder, sw: Option<OpenSwitch>, extra: set<BlockId>)
    requires Advances(b, b1, extra)
    ensures Advances(b, b1.(sw := sw), extra)
  {
  }

  lemma InvSw(b: Builder, sw: Option<OpenSwitch>)
    requires Inv(b) && (b.cur.Some? ==> Live(b))
    ensures Inv(b.(sw := sw)) && (b.cur.Some? ==> Live(b.(sw := sw)))
  {
  }

  lemma FinishSwitch(b: Builder, b3: Builder, end: BlockId, ls: set<nat>)
    requires SInv(b) && SInv(b3) && Advances(b, b3, Extra(b, ls, false)) && b3.stack == b.stack && end !in b3.plain
      && end.Blk? && b.nextBlock <= end.n < b3.nextBlock
    ensures var b4 := EmitFinished(b3, end).(sw := b.sw);
      && SInv(b4) && Moves(b, b4, ls, false) && (b4.cur.Some? ==> Starts(b4, end))
        && Ext(EmitBranch(b3, end).plain, b4.plain) && Ext(b3.plain, b4.plain)
  {
    hide Advances, Inv, Ext, EmitFinished, EmitBranch, Extra, Live;
    FinishedAdvances(b3, end);
    AdvancesInto(b, b3, EmitFinished(b3, end), Extra(b, ls, false), {end}, Extra(b, ls, false));
    FinishedExt(b3, end);
    var b2 := EmitFinished(b3, end);
    FinishedStarts(b3, end);
    AdvancesCounts(b, b2, Extra(b, ls, false));
    AdvancesSw(b, b2, b.sw, Extra(b, ls, false));
    InvSw(b2, b.sw);
  }

  lemma SwitchEndFrame(alu: Alu, b: Builder, c: Expr, b2: Builder, ls: set<nat>, d: bool)
    requires SInv(b) && Live(b) && SInv(b2) && Moves(SwitchBody(alu, b, c), b2, ls, d)
    ensures var x, b3, b4 := GenExpr(alu, b, c), SwitchClosed(alu, b, c, b2), SwitchEnd(alu, b, c, b2);
      && SInv(b4) && Moves(b, b4, ls, false) && (b4.cur.Some? ==> Starts(b4, Blk(x.b.nextBlock + 1)))
      && Ext(EmitBranch(b3, Blk(x.b.nextBlock + 1)).plain, b4.plain) && Ext(b3.plain, b4.plain)
  {
    hide *;
    SwitchBlockKept(alu, b, c, b2, ls, d);
    SwitchClosedFrame(alu, b, c, b2, ls, d);
    FinishSwitch(b, SwitchClosed(alu, b, c, b2), Blk(GenExpr(alu, b, c).b.nextBlock + 1), ls);
  }

  lemma FinishedExt(b: Builder, id: BlockId)
    requires id !in b.plain
    ensures Ext(EmitBranch(b, id).plain, EmitFinished(b, id).plain) && Ext(b.plain, EmitFinished(b, id).plain)
  {
  }
}
