/** Where the jumps go: break, continue, and the labels that goto and switch select. */
module Jumps {
  import opened Common
  import opened Source
  import opened Graph
  import opened Builder
  import opened CodeGen
  import opened Frames
  import opened FrameExpr
  import opened SimExpr
  import opened Static
  import opened FrameStmt
  import opened FrameLoops
  import opened FrameAll
  import opened MatchKont

  function TopBrk(b: Builder): BlockId
    requires b.stack != []
  {
    b.stack[|b.stack| - 1].brk
  }

  lemma SameStack(alu: Alu, b: Builder, s: Stmt)
    requires SInv(b) && Fits(alu, b, s)
    ensures var b1 := GenStmt(alu, b, s); b1.stack == b.stack && Ext(b.plain, b1.plain) && SInv(b1)
  {
    hide Moves, Ext, SInv;
    StmtFrame(alu, b, s);
    MovesExt(b, GenStmt(alu, b, s), Labels(s), HasDefault(s));
  }

  lemma TopOf(b: Builder, b0: Builder, f: Frame)
    requires b.stack == b0.stack + [f]
    ensures b.stack != [] && TopBrk(b) == f.brk && TopCont(b) == f.cont
  {
  }

  /** A break leads to the block after the loop or switch, which has been emitted because the break
      uses it. */
  lemma {:induction false} BreakMatch(alu: Alu, fin: Builder, k: Kont, b: Builder, a: Anno, x: BlockId)
    returns (b1: Builder, a1: Anno)
    requires MatchK(alu, fin, k, b, a) && fin.stack == [] && b.stack != []
    requires x in b.plain && TopBrk(b) in Targets(b.plain[x])
    ensures AfterBreak(k).Some? && MatchK(alu, fin, AfterBreak(k).value, b1, a1) && Starts(b1, TopBrk(b))
    decreases a
  {
    hide Ext, SInv, Targets, Starts, Fits, GenExpr, GenStmt, Visit, WhileEnd, WhileBody, DoEnd, DoBody, ForEnd,
      ForBody, SwitchEnd, SwitchBody, Live;
    match a
    case AOn(rest) =>
      SameStack(alu, b, k.s);
      TargetKept(b.plain, GenStmt(alu, b, k.s).plain, x, TopBrk(b));
      b1, a1 := BreakMatch(alu, fin, k.k, GenStmt(alu, b, k.s), rest, x);
    case AJoin(_, next, rest) =>
      TargetKept(b.plain, next.plain, x, TopBrk(b));
      b1, a1 := BreakMatch(alu, fin, k, next, rest, x);
    case ALoop(b0, rest) =>
      a1 := rest;
      if k.KWhile? {
        WhileExt(alu, b0, k.c, k.body);
        TopOf(b, b0, WhileFrame(b0));
        b1 := WhileEnd(alu, b0, k.c, b);
      } else if k.KDo? {
        DoExt(alu, b0, k.c, k.body);
        TopOf(b, b0, DoFrame(b0));
        b1 := DoEnd(alu, b0, k.c, b);
      } else {
        ForExt(alu, b0, k.cond, k.inc, k.body);
        TopOf(b, b0, ForFrame(b0, k.inc));
        b1 := ForEnd(alu, b0, k.cond, k.inc, b);
      }
    case ASwitch(b0, c, body, rest) =>
      SwitchExt(alu, b0, c, body);
      TargetKept(b.plain, SwitchClosed(alu, b0, c, b).plain, x, TopBrk(b));
      b1, a1 := SwitchEnd(alu, b0, c, b), rest;
  }

  /** The block where the body of a loop goes on after a continue. */
  function ContBlock(b0: Builder, k: Kont): BlockId {
    match k
    case KWhile(_, _, _) => Blk(b0.nextBlock)
    case KDo(_, _, _) => Blk(b0.nextBlock + 1)
    case KFor(_, i, _, _) => ForCont(b0, i)
    case _ => RetBlk
  }

  predicate IsLoop(k: Kont) { k.KWhile? || k.KDo? || k.KFor? }

  lemma {:induction false} ContinueMatch(alu: Alu, fin: Builder, k: Kont, b: Builder, a: Anno)
    returns (b1: Builder, a1: Anno)
    requires MatchK(alu, fin, k, b, a) && fin.stack == [] && TopCont(b).Some?
    ensures AfterContinue(k).Some? && IsLoop(AfterContinue(k).value) && MatchK(alu, fin, AfterContinue(k).value, b1, a1)
    ensures a1.ALoop? && ContBlock(a1.b0, AfterContinue(k).value) == TopCont(b).value
    decreases a
  {
    hide Ext, SInv, Targets, Starts, Fits, GenExpr, GenStmt, Visit, WhileEnd, WhileBody, DoEnd, DoBody, ForEnd,
      ForBody, SwitchEnd, SwitchBody, Live;
    match a
    case AOn(rest) =>
      SameStack(alu, b, k.s);
      b1, a1 := ContinueMatch(alu, fin, k.k, GenStmt(alu, b, k.s), rest);
    case AJoin(_, next, rest) =>
      b1, a1 := ContinueMatch(alu, fin, k, next, rest);
    case ALoop(b0, rest) =>
      b1, a1 := b, a;
      if k.KWhile? {
        WhileExt(alu, b0, k.c, k.body);
        TopOf(b, b0, WhileFrame(b0));
      } else if k.KDo? {
        DoExt(alu, b0, k.c, k.body);
        TopOf(b, b0, DoFrame(b0));
      } else {
        ForExt(alu, b0, k.cond, k.inc, k.body);
        TopOf(b, b0, ForFrame(b0, k.inc));
      }
    case ASwitch(b0, c, body, rest) =>
      SwitchExt(alu, b0, c, body);
      TopOf(b, b0, Frame(Blk(GenExpr(alu, b0, c).b.nextBlock + 1), TopCont(b0)));
      b1, a1 := ContinueMatch(alu, fin, k.k, SwitchEnd(alu, b0, c, b), rest);
  }

  /** The cases that the code between two states adds to the switch. */
  function NewCases(b: Builder, b1: Builder): seq<(int, BlockId)>
    requires b.sw.Some? && b1.sw.Some? && |b.sw.value.cases| <= |b1.sw.value.cases|
  {
    b1.sw.value.cases[|b.sw.value.cases|..]
  }

  predicate SwSame(b: Builder, b1: Builder) { SwGrows(b.sw, b1.sw) }

  /** What a selected label was emitted as: `id`, for a selector and the code from `b` to `b1`. */
  predicate Selects(sel: Selector, b: Builder, b1: Builder, id: BlockId) {
    match sel
    case SLabel(l) => id == Lbl(l)
    case SDefault => b.sw.Some? && id == b.sw.value.dflt
    case SCase(v) => b.sw.Some? && SwSame(b, b1) && Lookup(NewCases(b, b1), v) == Some(id)
  }

  /** No label is selected in the code from `b` to `b1`. */
  predicate SelectsNone(sel: Selector, b: Builder, b1: Builder) {
    SwSame(b, b1) && (sel.SCase? && b.sw.Some? ==> Lookup(NewCases(b, b1), sel.v).None?)
  }

  lemma SwSameTrans(b: Builder, b1: Builder, b2: Builder)
    requires SwSame(b, b1) && SwSame(b1, b2)
    ensures SwSame(b, b2)
    ensures b.sw.Some? ==> NewCases(b, b2) == NewCases(b, b1) + NewCases(b1, b2)
  {
  }

  lemma SelectsLater(sel: Selector, b: Builder, b1: Builder, b2: Builder, id: BlockId)
    requires SelectsNone(sel, b, b1) && Selects(sel, b1, b2, id)
    ensures Selects(sel, b, b2, id)
  {
    if sel.SCase? { SwSameTrans(b, b1, b2); LookupAppend(NewCases(b, b1), NewCases(b1, b2), sel.v); }
  }

  lemma SelectsNow(sel: Selector, b: Builder, b1: Builder, b2: Builder, id: BlockId)
    requires Selects(sel, b, b1, id) && SwSame(b1, b2)
    ensures Selects(sel, b, b2, id)
  {
    if sel.SCase? { SwSameTrans(b, b1, b2); LookupAppend(NewCases(b, b1), NewCases(b1, b2), sel.v); }
  }

  lemma NoneTrans(sel: Selector, b: Builder, b1: Builder, b2: Builder)
    requires SelectsNone(sel, b, b1) && SelectsNone(sel, b1, b2)
    ensures SelectsNone(sel, b, b2)
  {
    SwSameTrans(b, b1, b2);
    if sel.SCase? && b.sw.Some? { LookupAppend(NewCases(b, b1), NewCases(b1, b2), sel.v); }
  }

  /** Code that adds no case. */
  lemma NoneSame(sel: Selector, b: Builder, b1: Builder)
    requires b1.sw == b.sw
    ensures SelectsNone(sel, b, b1) && SwSame(b, b1)
  {
  }

  lemma {:induction false} CaseListLookup(lo: int, hi: int, blk: BlockId, v: int)
    ensures Lookup(CaseList(lo, hi, blk), v) == if lo <= v <= hi then Some(blk) else None
    decreases hi - lo
  {
    if lo <= hi {
      CaseListLookup(lo + 1, hi, blk, v);
      assert ([(lo, blk)] + CaseList(lo + 1, hi, blk))[1..] == CaseList(lo + 1, hi, blk);
    }
  }

  lemma CaseSelects(sel: Selector, b: Builder, lo: int, hi: int)
    requires SInv(b) && b.sw.Some?
    ensures var b1 := CaseStart(b, lo, hi);
      && SwSame(b, b1)
      && (sel.SCase? && lo <= sel.v <= hi ==> Selects(sel, b, b1, Blk(b.nextBlock)))
      && (!(sel.SCase? && lo <= sel.v <= hi) ==> SelectsNone(sel, b, b1))
  {
    CaseAdvances(b, lo, hi);
    var b1 := CaseStart(b, lo, hi);
    assert NewCases(b, b1) == CaseList(lo, hi, Blk(b.nextBlock));
    if sel.SCase? { CaseListLookup(lo, hi, Blk(b.nextBlock), sel.v); }
  }

  lemma EnterSw(b: Builder, id: BlockId)
    ensures EmitBlock(b, id).sw == b.sw && EmitBranch(b, id).sw == b.sw
  {
  }

  /** The switch around a loop is open in its body, and the loop itself adds no case. */
  ghost predicate LoopSwOK(alu: Alu, b: Builder, b1: Builder, body: Stmt, b3: Builder) {
    b1.sw == b.sw && SInv(b1) && Fits(alu, b1, body) && b3.sw == GenStmt(alu, b1, body).sw
  }

  lemma LoopSwIntro(alu: Alu, b: Builder, b1: Builder, body: Stmt, b3: Builder)
    requires b1.sw == b.sw && SInv(b1) && Fits(alu, b1, body) && b3.sw == GenStmt(alu, b1, body).sw
    ensures LoopSwOK(alu, b, b1, body, b3)
  {
  }

  lemma LoopSw(alu: Alu, b: Builder, s: Stmt)
    requires SInv(b) && Live(b) && Fits(alu, b, s)
    ensures s.While? ==> LoopSwOK(alu, b, WhileBody(alu, b, s.c), s.body, Visit(alu, b, s))
    ensures s.While? ==> Visit(alu, b, s) == WhileEnd(alu, b, s.c, GenStmt(alu, WhileBody(alu, b, s.c), s.body))
    ensures s.DoWhile? ==> LoopSwOK(alu, b, DoBody(b), s.body, Visit(alu, b, s))
    ensures s.DoWhile? ==> Visit(alu, b, s) == DoEnd(alu, b, s.c, GenStmt(alu, DoBody(b), s.body))
    ensures s.For? ==> var b0 := ForInit(alu, b, s.init);
      && LoopSwOK(alu, b, ForBody(alu, b0, s.cond, s.inc), s.body, Visit(alu, b, s))
      && SInv(b0) && Live(b0) && Fits(alu, b0, For(None, s.cond, s.inc, s.body))
      && Visit(alu, b, s) == ForEnd(alu, b0, s.cond, s.inc, GenStmt(alu, ForBody(alu, b0, s.cond, s.inc), s.body))
  {
    hide *;
    if s.While? {
      LoopParts(alu, b, s);
      WhileFrameAll(alu, b, s.c, s.body);
      WhileBodyFrame(alu, b, s.c);
      WhileEndSw(alu, b, s.c, GenStmt(alu, WhileBody(alu, b, s.c), s.body));
      LoopSwIntro(alu, b, WhileBody(alu, b, s.c), s.body, Visit(alu, b, s));
    } else if s.DoWhile? {
      LoopParts(alu, b, s);
      DoFrameAll(alu, b, s.body, s.c);
      DoBodyFrame(b);
      DoSw(alu, b, s.c, s.body);
      LoopSwIntro(alu, b, DoBody(b), s.body, Visit(alu, b, s));
    } else if s.For? {
      ForFrameAll(alu, b, s);
      var b0 := ForInit(alu, b, s.init);
      ForFitsInit(alu, b0, s);
      ForBodyFrame(alu, b0, s.cond, s.inc);
      InsideSInv(b0, ForBody(alu, b0, s.cond, s.inc), ForFrame(b0, s.inc));
      GrowsAdvances(b, b0);
      ForSw(alu, b0, s.cond, s.inc, s.body);
      LoopSwIntro(alu, b, ForBody(alu, b0, s.cond, s.inc), s.body, Visit(alu, b, s));
    }
  }

  lemma ForFitsInit(alu: Alu, b: Builder, s: Stmt)
    requires s.For? && Fits(alu, b, s)
    ensures Fits(alu, b, For(None, s.cond, s.inc, s.body))
  {
  }

  lemma WhileEndSw(alu: Alu, b: Builder, c: Expr, b2: Builder)
    ensures WhileEnd(alu, b, c, b2).sw == b2.sw
  {
  }

  lemma DoSw(alu: Alu, b: Builder, c: Expr, body: Stmt)
    requires SInv(b) && Live(b) && Fits(alu, b, DoWhile(body, c))
    ensures var b2 := GenStmt(alu, DoBody(b), body); DoEnd(alu, b, c, b2).sw == b2.sw
  {
    hide Inv, Ext, Kept, Advances, GenStmt, GenBool, GenExpr, Fits, Moves, Live, Starts;
    var b2 := GenStmt(alu, DoBody(b), body);
    DoExt(alu, b, c, body);
    BoolFrame(alu, DoCond(b, b2), c);
  }

  lemma ForSw(alu: Alu, b: Builder, c: Option<Expr>, i: Option<Expr>, body: Stmt)
    requires SInv(b) && Live(b) && Fits(alu, b, For(None, c, i, body))
    ensures var b2 := GenStmt(alu, ForBody(alu, b, c, i), body); ForEnd(alu, b, c, i, b2).sw == b2.sw
  {
    hide Inv, Ext, Kept, Advances, GenStmt, GenBool, GenExpr, Fits, Moves, Live, Starts;
    var b2 := GenStmt(alu, ForBody(alu, b, c, i), body);
    ForExt(alu, b, c, i, body);
    if i.Some? { ExprMoves(alu, ForLast(b, i, b2), i.value); }
  }
}
