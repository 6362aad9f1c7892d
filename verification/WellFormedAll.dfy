/** Every function is well formed. */
module WellFormedAll {
  import opened Common
  import opened Source
  import opened Graph
  import opened Builder
  import opened CodeGen
  import opened Frames
  import opened FrameExpr
  import opened SimExpr
  import opened Static
  import opened FrameStmt
  import opened FrameLoops
  import opened FrameAll
  import opened MatchKont
  import opened Jumps
  import opened FindLabel
  import opened Simulation
  import opened StmtSim
  import opened EmitterStates
  import opened Settled
  import opened Resolve
  import opened WellFormedExpr
  import opened WellFormedStmt

  lemma {:induction false} StmtWell(alu: Alu, b: Builder, s: Stmt, p: Plan)
    requires SInv(b) && Fits(alu, b, s) && Ready(b, p) && LabelsKnown(s, p.labels)
    ensures Result(b, GenStmt(alu, b, s), p, HasDefault(s))
    decreases s, 1
  {
    hide SInv, Inv, Moves, Fits, Visit, Ready, Result, LabelsKnown, Labels, EnsureInsertPoint;
    if IsSimple(s) || b.cur.Some? {
      SInvCur(b);
      VisitWell(alu, b, s, p);
    } else if ContainsLabel(s) {
      EnsureFrame(alu, b, s);
      EnsureWell(b, p);
      var b1 := EnsureInsertPoint(b);
      NoDefault(b, p);
      ResultReady(b, b1, p, false);
      VisitWell(alu, b1, s, p);
      GrowsSame(b, b1);
      ResultTrans(b, b1, Visit(alu, b1, s), p, false, HasDefault(s));
    } else {
      ResultRefl(b, p);
      NoLabelNoDefault(s);
    }
  }

  lemma {:induction false} NoLabelNoDefault(s: Stmt)
    requires !ContainsLabel(s)
    ensures !HasDefault(s)
  {
    match s
    case Seq(a, b) => NoLabelNoDefault(a); NoLabelNoDefault(b);
    case If(_, a, b) =>
      NoLabelNoDefault(a);
      if b.Some? { NoLabelNoDefault(b.value); }
    case While(_, body) => NoLabelNoDefault(body);
    case DoWhile(body, _) => NoLabelNoDefault(body);
    case For(_, _, _, body) => NoLabelNoDefault(body);
    case _ =>
  }

  lemma SInvCur(b: Builder)
    requires SInv(b)
    ensures b.cur.Some? ==> Live(b)
  {
  }

  lemma ResultReady(b: Builder, b1: Builder, p: Plan, d: bool)
    requires Result(b, b1, p, d)
    ensures Ready(b1, After(p, b, d))
  {
  }

  lemma {:induction false} VisitWell(alu: Alu, b: Builder, s: Stmt, p: Plan)
    requires SInv(b) && Fits(alu, b, s) && Ready(b, p) && LabelsKnown(s, p.labels) && (IsSimple(s) || Live(b))
    ensures Result(b, Visit(alu, b, s), p, HasDefault(s))
    decreases s, 0
  {
    hide SInv, Inv, Moves, Fits, Ready, Result, LabelsKnown, Labels, Jump, WhileBody, WhileEnd, DoBody, DoEnd,
      ForBody, ForEnd, SwitchEnd, SwitchBody, GenExpr, GenStmt, Live, EmitBlock;
    match s
    case Skip => ResultRefl(b, p);
    case Seq(x, y) =>
      SeqFrame(alu, b, x, y);
      KnownParts(s, p.labels);
      var b1 := GenStmt(alu, b, x);
      StmtWell(alu, b, x, p);
      MovesParts(b, b1, Labels(x), HasDefault(x));
      ResultReady(b, b1, p, HasDefault(x));
      AfterLabels(b, p, HasDefault(x));
      StmtWell(alu, b1, y, After(p, b, HasDefault(x)));
      ResultTrans(b, b1, GenStmt(alu, b1, y), p, HasDefault(x), HasDefault(y));
    case ExprStmt(e) => if e.Some? { ExprStmtWell(alu, b, e.value, p); } else { ResultRefl(b, p); }
    case If(_, _, _) => IfWell(alu, b, s, p);
    case Switch(c, body) => SwitchWell(alu, b, c, body, p);
    case While(c, body) => WhileWell(alu, b, c, body, p);
    case DoWhile(body, c) => DoWell(alu, b, body, c, p);
    case For(_, _, _, _) => ForWell(alu, b, s, p);
    case Label(l, s1) =>
      LabelFrame(alu, b, l, s1);
      LabelledIs(alu, b, s);
      KnownParts(s, p.labels);
      PlaceWell(b, Lbl(l), p, false);
      ThenStmt(alu, b, EmitBlock(b, Lbl(l)), s1, p, false, {l});
      NoDefault(b, p);
      StmtWell(alu, EmitBlock(b, Lbl(l)), s1, p);
      ResultTrans(b, EmitBlock(b, Lbl(l)), GenStmt(alu, EmitBlock(b, Lbl(l)), s1), p, false, HasDefault(s1));
    case Case(lo, hi, s1) =>
      CaseFrame(alu, b, s);
      CaseHasSw(alu, b, s);
      KnownParts(s, p.labels);
      CaseWell(b, lo, hi, p);
      ThenStmt(alu, b, CaseStart(b, lo, hi), s1, p, false, {});
      NoDefault(b, p);
      StmtWell(alu, CaseStart(b, lo, hi), s1, p);
      ResultTrans(b, CaseStart(b, lo, hi), GenStmt(alu, CaseStart(b, lo, hi), s1), p, false, HasDefault(s1));
    case Default(s1) =>
      DefaultFrame(alu, b, s1);
      LabelledIs(alu, b, s);
      KnownParts(s, p.labels);
      var d := b.sw.value.dflt;
      PlaceWell(b, d, p, true);
      ThenStmt(alu, b, EmitBlock(b, d), s1, p, true, {});
      AfterLabels(b, p, true);
      StmtWell(alu, EmitBlock(b, d), s1, After(p, b, true));
      ResultTrans(b, EmitBlock(b, d), GenStmt(alu, EmitBlock(b, d), s1), p, true, HasDefault(s1));
    case Goto(l) => KnownParts(s, p.labels); JumpWell(b, Lbl(l), p);
    case Break => JumpsThere(alu, b, s); JumpWell(b, TopBrk(b), p);
    case Continue => JumpsThere(alu, b, s); JumpWell(b, TopCont(b).value, p);
    case Return(r) => ReturnWell(alu, b, r, p);
  }

  lemma KnownParts(s: Stmt, ls: set<nat>)
    requires LabelsKnown(s, ls)
    ensures s.Seq? ==> LabelsKnown(s.hd, ls) && LabelsKnown(s.tl, ls)
    ensures s.If? ==> LabelsKnown(s.thn, ls) && (s.els.Some? ==> LabelsKnown(s.els.value, ls))
    ensures s.Label? || s.Case? || s.Default? ==> LabelsKnown(s.s, ls)
    ensures s.Label? ==> s.l in ls
    ensures s.Goto? ==> s.l in ls
    ensures s.While? || s.DoWhile? || s.For? || s.Switch? ==> LabelsKnown(s.body, ls)
  {
  }

  lemma AfterLabels(b: Builder, p: Plan, d: bool)
    ensures After(p, b, d).labels == p.labels
  {
  }

  lemma ThenStmt(alu: Alu, b: Builder, b1: Builder, s: Stmt, p: Plan, d: bool, ls: set<nat>)
    requires Result(b, b1, p, d) && Moves(b, b1, ls, d)
    ensures Ready(b1, After(p, b, d)) && b1.stack == b.stack && SameDefault(b.sw, b1.sw)
  {
    hide Ready;
    MovesParts(b, b1, ls, d);
  }

  lemma JumpsThere(alu: Alu, b: Builder, s: Stmt)
    requires Fits(alu, b, s) && (s.Break? || s.Continue?)
    ensures b.stack != []
    ensures s.Break? ==> OnStack(b.stack, TopBrk(b)) && Visit(alu, b, s) == Jump(b, TopBrk(b))
    ensures s.Continue? ==>
        TopCont(b).Some? && OnStack(b.stack, TopCont(b).value) && Visit(alu, b, s) == Jump(b, TopCont(b).value)
  {
    hide Jump;
    assert b.stack[|b.stack| - 1] in b.stack;
  }

  /** A statement inside of a construct that starts in state `b`. */
  lemma {:induction false} InnerStmt(alu: Alu, b: Builder, b1: Builder, s: Stmt, p: Plan, d: bool,
    own: set<BlockId>, f: Frame, whole: Stmt)
    requires Part(b, b1, p, d, own) && SInv(b1) && Fits(alu, b1, s) && LabelsKnown(s, p.labels)
      && !(d && HasDefault(s)) && s < whole
    requires b1.stack == b.stack || (b1.stack == b.stack + [f] && IsNew(b, f.brk) && f.cont.Some?
      && IsNew(b, f.cont.value))
    ensures Part(b, GenStmt(alu, b1, s), p, d || HasDefault(s), own)
    decreases whole, -1
  {
    hide SInv, Inv, Moves, Fits, Ready, Result, LabelsKnown, Labels, GenStmt, Part, After, Also, SwOld;
    var p1, b2 := Also(After(p, b, d), own), GenStmt(alu, b1, s);
    PartReady(b, b1, p, d, own);
    PlanLabels(b, p, d, own);
    StmtWell(alu, b1, s, p1);
    StmtFrame(alu, b1, s);
    MovesParts(b1, b2, Labels(s), HasDefault(s));
    SInvSw(b2);
    SwOldIntro(b2);
    PartStmt(b, b1, b2, p, d, HasDefault(s), own, f);
  }

  lemma PlanLabels(b: Builder, p: Plan, d: bool, own: set<BlockId>)
    ensures Also(After(p, b, d), own).labels == p.labels
  {
  }

  lemma {:induction false} IfWell(alu: Alu, b: Builder, s: Stmt, p: Plan)
    requires s.If? && SInv(b) && Live(b) && Fits(alu, b, s) && Ready(b, p) && LabelsKnown(s, p.labels)
    ensures Result(b, Visit(alu, b, s), p, HasDefault(s))
    decreases s, 0, 1
  {
    hide *;
    IfIs(alu, b, s);
    IfFits(alu, b, s);
    KnownParts(s, p.labels);
    if IfFolds(alu, s) {
      IfFoldsNoDefault(alu, s);
      if Calc(alu, s.c).value != 0 { StmtWell(alu, b, s.thn, p); }
      else if s.els.Some? { StmtWell(alu, b, s.els.value, p); }
      else { ResultRefl(b, p); }
    } else {
      IfTestWell(alu, b, s, p);
    }
  }

  /** The branch that is skipped has no default label. */
  lemma IfFoldsNoDefault(alu: Alu, s: Stmt)
    requires s.If? && IfFolds(alu, s)
    ensures Calc(alu, s.c).value != 0 ==> HasDefault(s) == HasDefault(s.thn)
    ensures Calc(alu, s.c).value == 0 ==> HasDefault(s) == (s.els.Some? && HasDefault(s.els.value))
  {
    if Calc(alu, s.c).value != 0 { if s.els.Some? { NoLabelNoDefault(s.els.value); } } else { NoLabelNoDefault(s.thn); }
  }

  lemma {:induction false} IfTestWell(alu: Alu, b: Builder, s: Stmt, p: Plan)
    requires s.If? && !IfFolds(alu, s) && SInv(b) && Live(b) && Fits(alu, b, s) && Ready(b, p)
      && LabelsKnown(s, p.labels)
    ensures Result(b, Visit(alu, b, s), p, HasDefault(s))
    decreases s, 0, 0
  {
    hide *;
    var n, e := b.nextBlock, s.els.Some?;
    var k := if e then 3 else 2;
    var own, thn, end, els := NewIds(b, k), Blk(n), Blk(n + 1), Blk(if e then n + 2 else n + 1);
    var b0, bt, b1, b2, b3, b4 := NewBlocks(b, k), IfTest(alu, b, s.c, e), IfThen(alu, b, s.c, e),
      IfThenEnd(alu, b, s), IfElseStart(alu, b, s), IfElseEnd(alu, b, s);
    IfIs(alu, b, s);
    IfFits(alu, b, s);
    IfParts(alu, b, s);
    IfPieces(alu, b, s);
    IfThenIs(alu, b, s.c, e);
    IfThenFrame(alu, b, s.c, e);
    IfSmaller(s);
    KnownParts(s, p.labels);
    SInvInv(b);
    InvNumbered(b, k);
    IfIds(b, e);
    PartStart(b, k, p);
    PartCond(alu, b, b0, p, false, own, s.c, thn, els);
    PartBlock(b, bt, p, false, own, thn);
    var own1 := own - {thn};
    InnerStmt(alu, b, b1, s.thn, p, false, own1, Frame(thn, None), s);
    var d0 := false || HasDefault(s.thn);
    SInvOpen(b2);
    OwnIn(b, b2, own1, end);
    PartBranch(b, b2, p, d0, own1, end);
    IfElseIs(b, b2, e);
    IfElseIs(b, b4, e);
    BranchKeys(b2, end);
    if e {
      PartBlock(b, EmitBranch(b2, end), p, d0, own1, els);
      var own2 := own1 - {els};
      StackBlock(EmitBranch(b2, end), els);
      BranchExtends(b2, end);
      InnerStmt(alu, b, b3, s.els.value, p, d0, own2, Frame(thn, None), s);
      SInvOpen(b4);
      OwnIn(b, b4, own2, end);
      PartBranch(b, b4, p, d0 || HasDefault(s.els.value), own2, end);
      BranchSInv(b4, end);
      BranchExtends(b4, end);
      PartFinished(b, EmitBranch(b4, end), p, d0 || HasDefault(s.els.value), own2, end);
      PartDone(b, IfEnd(b, b4, e), p, d0 || HasDefault(s.els.value), own2 - {end});
    } else {
      BranchSInv(b2, end);
      BranchExtends(b2, end);
      PartFinished(b, EmitBranch(b2, end), p, d0, own1, end);
      PartDone(b, IfEnd(b, b4, e), p, d0, own1 - {end});
    }
  }

  lemma IfSmaller(s: Stmt)
    requires s.If?
    ensures s.thn < s && (s.els.Some? ==> s.els.value < s)
  {
  }

  lemma IfIds(b: Builder, e: bool)
    ensures var own, thn, end, els := NewIds(b, if e then 3 else 2), Blk(b.nextBlock), Blk(b.nextBlock + 1),
      Blk(if e then b.nextBlock + 2 else b.nextBlock + 1);
      && thn in own && els in own && end in own - {thn} && els in own - {thn}
      && (e ==> end in own - {thn} - {els} && own - {thn} - {els} - {end} == {}) && (!e ==> own - {thn} - {end} == {})
  {
    NewIdsAre(b);
  }

  lemma OwnIn(b: Builder, b1: Builder, own: set<BlockId>, id: BlockId)
    requires id in own
    ensures OwnTarget(b, b1, own, id)
  {
  }

  lemma StackBlock(b: Builder, id: BlockId)
    ensures EmitBlock(b, id).stack == b.stack && EmitBlock(b, id).sw == b.sw
  {
  }

  /* Loops. */

  lemma CaseLater(b: Builder, b1: Builder, y: BlockId)
    requires CaseReady(b, y) && Ext(b.plain, b1.plain)
    ensures CaseReady(b1, y)
  {
    assert Extends(b.plain[y], b1.plain[y]);
  }

  lemma OwnCase(b: Builder, b1: Builder, own: set<BlockId>, y: BlockId)
    requires IsNew(b, y) && CaseReady(b1, y)
    ensures OwnTarget(b, b1, own, y)
  {
  }

  lemma CasePlain(b: Builder, b1: Builder, y: BlockId)
    requires CaseReady(b, y) && b1.plain == b.plain
    ensures CaseReady(b1, y)
  {
  }

  /** Removing forwarding blocks does not change the graph they are removed from. */
  lemma ResultGone(b: Builder, b1: Builder, b2: Builder, p: Plan, d: bool)
    requires Result(b, b1, p, d) && b2 == b1.(gone := b2.gone)
    ensures Result(b, b2, p, d)
  {
    hide Preds;
    var p1 := After(p, b, d);
    FormedSame(b1, b2, p1);
    forall y | OnStack(b2.stack, y) ensures Outside(b2, p1, y) { assert Outside(b1, p1, y); }
    forall j | b1.sw.Some? && 0 <= j < |b1.sw.value.cases|
      ensures CaseReady(b2, b1.sw.value.cases[j].1) { assert CaseReady(b1, b1.sw.value.cases[j].1); }
  }

  lemma LoopIds(b: Builder)
    ensures var own, x, y, z := NewIds(b, 3), Blk(b.nextBlock), Blk(b.nextBlock + 1), Blk(b.nextBlock + 2);
      && x in own && y in own - {x} && z in own - {x} && z in own - {x} - {y} && own - {x} - {y} - {z} == {}
        && y in own && z in own
      && IsNew(b, x) && IsNew(b, y) && IsNew(b, z)
  {
    NewIdsAre(b);
  }

  lemma LoopSmaller(s: Stmt)
    requires s.While? || s.DoWhile? || s.For? || s.Switch?
    ensures s.body < s && (!s.Switch? ==> HasDefault(s) == HasDefault(s.body)) && (s.Switch? ==> !HasDefault(s))
  {
  }

  lemma {:induction false} WhileWell(alu: Alu, b: Builder, c: Expr, body: Stmt, p: Plan)
    requires SInv(b) && Live(b) && Fits(alu, b, While(c, body)) && Ready(b, p) && LabelsKnown(While(c, body), p.labels)
    ensures Result(b, Visit(alu, b, While(c, body)), p, HasDefault(While(c, body)))
    decreases While(c, body), 0, 0
  {
    hide *;
    var s, n, d := While(c, body), b.nextBlock, HasDefault(body);
    var own, head, bodyB, end := NewIds(b, 3), Blk(n), Blk(n + 1), Blk(n + 2);
    var b0, bs, x, t, b1 := NewBlocks(b, 3), WhileStart(b), WhileTest(alu, b, c),
      WhileTested(alu, b, c), WhileBody(alu, b, c);
    var bc, b2 := EmitBlock(NewBlocks(b, 3), Blk(n)), GenStmt(alu, WhileBody(alu, b, c), body);
    var own1, own2, whole := own - {head}, own - {head} - {bodyB}, Visit(alu, b, While(c, body));
    LoopIds(b);
    LoopSmaller(s);
    KnownParts(s, p.labels);
    SInvInv(b);
    InvNumbered(b, 3);
    OpenLive(b0);
    ExtRefl(whole.plain);
    WhileGraph(alu, b, c, body, whole.plain);
    WhileStartShape(b);
    WhileFrameIs(b);
    WhileBodyIs(alu, b, c);
    WhileTestedIs(alu, b, c);
    WhileTestedFrame(alu, b, c);
    PartStart(b, 3, p);
    PartBlock(b, b0, p, false, own, head);
    OwnIn(b, bc, own1, end);
    OwnCase(b, bc, own1, head);
    PartPush(b, bc, WhileFrame(b), p, false, own1);
    PartExpr(alu, b, bs, p, false, own1, c);
    CasePlain(bc, bs, head) by { SameState(bc, bc, WhileFrame(b)); }
    OwnIn(b, x.b, own1, bodyB);
    OwnIn(b, x.b, own1, end);
    if x.v != Imm(1) { PartTerm(b, x.b, p, false, own1, x.v, bodyB, end); }
    PartBlock(b, t, p, false, own1, bodyB);
    WhileFrameAll(alu, b, c, body);
    WhileBodyFrame(alu, b, c);
    InsideParts(b, b1, WhileFrame(b));
    InnerStmt(alu, b, b1, body, p, false, own2, WhileFrame(b), s);
    WhileTail(alu, b, c, body, b2);
    PartPop(b, b2, p, false || d, own2);
    StartCase(bs, head);
    ExtTrans(bs.plain, t.plain, b2.plain) by { WhileStartExt(alu, b, c); }
    CaseLater(bs, b2, head);
    CasePlain(b2, PopFrame(b2), head) by { SameState(b2, b2, WhileFrame(b)); }
    OwnCase(b, PopFrame(b2), own2, head);
    PartBranch(b, PopFrame(b2), p, false || d, own2, head);
    var bb := EmitBranch(PopFrame(b2), head);
    BranchExtends(PopFrame(b2), head);
    PartFinished(b, bb, p, false || d, own2, end);
    PartDone(b, EmitFinished(bb, end), p, false || d, own2 - {end});
    ResultGone(b, EmitFinished(bb, end), whole, p, d);
  }

  lemma StartCase(b: Builder, id: BlockId)
    requires Starts(b, id)
    ensures CaseReady(b, id)
  {
  }

  lemma WhileStartExt(alu: Alu, b: Builder, c: Expr)
    requires SInv(b) && Live(b)
    ensures Ext(WhileStart(b).plain, WhileTested(alu, b, c).plain)
  {
    hide *;
    WhileTestedFrame(alu, b, c);
    GrowsExt(WhileStart(b), WhileTested(alu, b, c));
  }

  lemma {:induction false} DoWell(alu: Alu, b: Builder, body: Stmt, c: Expr, p: Plan)
    requires SInv(b) && Live(b) && Fits(alu, b, DoWhile(body, c)) && Ready(b, p)
      && LabelsKnown(DoWhile(body, c), p.labels)
    ensures Result(b, Visit(alu, b, DoWhile(body, c)), p, HasDefault(DoWhile(body, c)))
    decreases DoWhile(body, c), 0, 0
  {
    hide *;
    var s, n, d := DoWhile(body, c), b.nextBlock, HasDefault(body);
    var own, bodyB, cond, end := NewIds(b, 3), Blk(n), Blk(n + 1), Blk(n + 2);
    var b0, bs, b1, b2, whole := NewBlocks(b, 3), EmitBlock(NewBlocks(b, 3), Blk(n)), DoBody(b),
      GenStmt(alu, DoBody(b), body), Visit(alu, b, DoWhile(body, c));
    var own1, own2 := own - {bodyB}, own - {bodyB} - {cond};
    LoopIds(b);
    LoopSmaller(s);
    KnownParts(s, p.labels);
    SInvInv(b);
    InvNumbered(b, 3);
    OpenLive(b0);
    DoFrameAll(alu, b, body, c);
    DoBodyFrame(b);
    DoBodyShape(b);
    WhileFrameIs(b);
    PartStart(b, 3, p);
    PartBlock(b, b0, p, false, own, bodyB);
    OwnIn(b, bs, own1, end);
    OwnIn(b, bs, own1, cond);
    PartPush(b, bs, DoFrame(b), p, false, own1);
    InsideParts(b, b1, DoFrame(b));
    InnerStmt(alu, b, b1, body, p, false, own1, DoFrame(b), s);
    DoTailTest(alu, b, body, c, b2);
    DoBeforeParts(alu, b, body, c, b2);
    DoAfterParts(alu, b, body, c, b2);
    PopSInv(b2);
    SInvOpen(PopFrame(b2));
    DoTail(alu, b, body, c, b2);
    var q, bc, x, b6 := PopFrame(b2), EmitBlock(PopFrame(b2), cond), DoTest(alu, b, c, b2), DoTested(alu, b, c, b2);
    PartPop(b, b2, p, false || d, own1);
    PartBlock(b, q, p, false || d, own1, cond);
    PartExpr(alu, b, bc, p, false || d, own2, c);
    StartCase(b1, bodyB);
    MovesExt(b1, b2, Labels(body), d);
    CaseLater(b1, b2, bodyB);
    CasePlain(b2, q, bodyB) by { SameState(b2, b2, DoFrame(b)); }
    BlockExt(q, cond);
    CaseLater(q, bc, bodyB);
    BoolFrame(alu, bc, c);
    AfterExprFacts(bc, x);
    CaseLater(bc, x.b, bodyB);
    OwnCase(b, x.b, own2, bodyB);
    OwnIn(b, x.b, own2, end);
    if x.v != Imm(0) { PartTerm(b, x.b, p, false || d, own2, x.v, bodyB, end); }
    PartBlock(b, b6, p, false || d, own2, end);
    PartDone(b, EmitBlock(b6, end), p, false || d, own2 - {end});
    ResultGone(b, EmitBlock(b6, end), whole, p, d);
  }

  /** A number that is not used after all. */
  lemma PartDrop(b: Builder, b1: Builder, p: Plan, d: bool, own: set<BlockId>, id: BlockId)
    requires Part(b, b1, p, d, own) && id in own && Preds(b1.plain, id) == {} && !OnStack(b1.stack, id)
    ensures Part(b, b1, p, d, own - {id})
  {
    hide Preds, SamePreds;
    PlanIs(b, p, d, own, id);
    NewIsNotDefault(b, b1, p, d, own, id);
    var p1 := Also(After(p, b, d), own);
    DropFormed(b1, id, p1);
    forall y | OnStack(b1.stack, y) ensures Outside(b1, Placed(p1, id), y) { assert Outside(b1, p1, y); }
  }

  /** The blocks of a for that are still to come: at first, behind its head, and behind its body. */
  function ForOwn(b: Builder, c: bool, i: bool): set<BlockId> {
    {Blk(b.nextBlock), Blk(b.nextBlock + 1)} + (if c then {Blk(b.nextBlock + 2)} else {}) + if i then
      {Blk(b.nextBlock + 3)} else {}
  }

  lemma ForIds(b: Builder, c: bool, i: bool)
    ensures var all, own, cond, end, body, inc := NewIds(b, 4), ForOwn(b, c, i), Blk(b.nextBlock),
      Blk(b.nextBlock + 1), Blk(b.nextBlock + 2), Blk(b.nextBlock + 3);
      && cond in own && end in own - {cond} && (c ==> body in own - {cond})
        && (!c ==> own - {cond} - {body} == own - {cond})
      && (i ==> inc in own - {cond} - {body}) && end in own - {cond} - {body} && end in own - {cond} - {body} - {inc}
      && (!i ==> own - {cond} - {body} - {inc} == own - {cond} - {body})
      && own - {cond} - {body} - {inc} - {end} == {}
      && (if c then (if i then all == own else all - {inc} == own) else if i then all - {body} == own
        else all - {body} - {inc} == own)
      && body in all && inc in all && inc in all - {body}
      && IsNew(b, cond) && IsNew(b, end) && IsNew(b, body) && IsNew(b, inc)
  {
    NewIdsAre(b);
  }

  /** The start of a for: numbers that it does not need are dropped. */
  lemma ForStartPart(b: Builder, p: Plan, c: bool, i: bool)
    requires Ready(b, p) && SInv(b)
    ensures Part(b, NewBlocks(b, 4), p, false, ForOwn(b, c, i))
  {
    hide *;
    var all, b0, body, inc := NewIds(b, 4), NewBlocks(b, 4), Blk(b.nextBlock + 2), Blk(b.nextBlock + 3);
    ForIds(b, c, i);
    PartStart(b, 4, p);
    PartReady(b, b0, p, false, all);
    ReadyParts(b, p);
    SInvBounded(b);
    NewFormed(b, 4, p, body);
    NewFormed(b, 4, p, inc);
    OldOnes(b, p, body);
    OldOnes(b, p, inc);
    StackNew(b, 4);
    if !c { PartDrop(b, b0, p, false, all, body); }
    if !i { PartDrop(b, b0, p, false, if c then all else all - {body}, inc); }
  }

  lemma StackNew(b: Builder, n: nat)
    ensures NewBlocks(b, n).stack == b.stack
  {
  }

  lemma SInvBounded(b: Builder)
    requires SInv(b)
    ensures Bounded(b)
  {
  }

  lemma ForParts2(alu: Alu, b: Builder, s: Stmt)
    requires s.For? && Fits(alu, b, s)
    ensures Fits(alu, b, For(None, s.cond, s.inc, s.body))
      && ForCont(b, s.inc) == (if s.inc.Some? then Blk(b.nextBlock + 3) else Blk(b.nextBlock))
  {
  }

  lemma {:induction false} ForWell(alu: Alu, b: Builder, s: Stmt, p: Plan)
    requires s.For? && SInv(b) && Live(b) && Fits(alu, b, s) && Ready(b, p) && LabelsKnown(s, p.labels)
    ensures Result(b, Visit(alu, b, s), p, HasDefault(s))
    decreases s, 0, 1
  {
    hide *;
    var b0 := ForInit(alu, b, s.init);
    ForFrameAll(alu, b, s);
    ForInitIs(alu, b, s.init);
    if s.init.Some? { ExprStmtWell(alu, b, s.init.value, p); } else { ResultRefl(b, p); }
    NoDefault(b, p);
    ResultReady(b, b0, p, false);
    ForLoopWell(alu, b, b0, s, p);
    GrowsSame(b, b0);
    ResultTrans(b, b0, Visit(alu, b, s), p, false, HasDefault(s));
  }

  lemma ForInitIs(alu: Alu, b: Builder, init: Option<Expr>)
    ensures ForInit(alu, b, init) == if init.Some? then GenExpr(alu, b, init.value).b else b
  {
  }

  lemma {:induction false} ForLoopWell(alu: Alu, b: Builder, b0: Builder, s: Stmt, p: Plan)
    requires s.For? && SInv(b) && Live(b) && Fits(alu, b, s) && b0 == ForInit(alu, b, s.init) && Ready(b0, p)
      && LabelsKnown(s, p.labels)
    ensures Result(b0, Visit(alu, b, s), p, HasDefault(s))
    decreases s, 0, 0
  {
    hide *;
    ForFrameAll(alu, b, s);
    var n, d, c, i := b0.nextBlock, HasDefault(s.body), s.cond.Some?, s.inc.Some?;
    var own, cond, end, bodyB, inc := ForOwn(b0, c, i), Blk(n), Blk(n + 1), Blk(n + 2), Blk(n + 3);
    var k, fs, fh, b1, whole := NewBlocks(b0, 4), ForStart(b0), ForHead(alu, b0, s.cond),
      ForBody(alu, b0, s.cond, s.inc), Visit(alu, b, s);
    var b2 := GenStmt(alu, b1, s.body);
    var own1, own2, own3 := own - {cond}, own - {cond} - {bodyB}, own - {cond} - {bodyB} - {inc};
    ForIds(b0, c, i);
    LoopSmaller(s);
    KnownParts(s, p.labels);
    SInvInv(b0);
    InvNumbered(b0, 4);
    OpenLive(k);
    ForParts2(alu, b0, s);
    ForHeadIs(alu, b0, s.cond);
    ForHeadFrame(alu, b0, s.cond);
    ForBodyFrame(alu, b0, s.cond, s.inc);
    ForBodyShape(alu, b0, s.cond, s.inc);
    ForStartPart(b0, p, c, i);
    PartBlock(b0, k, p, false, own, cond);
    StartCase(fs, cond);
    if c {
      PartCond(alu, b0, fs, p, false, own1, s.cond.value, bodyB, end);
      PartBlock(b0, GenBranch(alu, fs, s.cond.value, bodyB, end), p, false, own1, bodyB);
    }
    CaseLater(fs, fh, cond);
    OwnIn(b0, fh, own2, end);
    if i { OwnIn(b0, fh, own2, inc); } else { OwnCase(b0, fh, own2, cond); }
    PartPush(b0, fh, ForFrame(b0, s.inc), p, false, own2);
    CasePlain(fh, b1, cond);
    InsideParts(b0, b1, ForFrame(b0, s.inc));
    InnerStmt(alu, b0, b1, s.body, p, false, own2, ForFrame(b0, s.inc), s);
    InsideSInv(b0, b1, ForFrame(b0, s.inc));
    StmtFrame(alu, b1, s.body);
    ForTail(alu, b, b0, s, b2);
    var q, b3 := PopFrame(b2), ForInc(alu, b0, s.inc, b2);
    PartPop(b0, b2, p, false || d, own2);
    MovesExt(b1, b2, Labels(s.body), d);
    CaseLater(b1, b2, cond);
    CasePlain(b2, q, cond) by { SameState(b2, b2, ForFrame(b0, s.inc)); }
    if i {
      var bl := EmitBlock(q, inc);
      PartBlock(b0, q, p, false || d, own2, inc);
      BlockExt(q, inc);
      CaseLater(q, bl, cond);
      PartExpr(alu, b0, bl, p, false || d, own3, s.inc.value);
      ExprFrame(alu, bl, s.inc.value);
      AfterExprFacts(bl, GenExpr(alu, bl, s.inc.value));
      CaseLater(bl, b3, cond);
    }
    OwnCase(b0, b3, own3, cond);
    PartBranch(b0, b3, p, false || d, own3, cond);
    PartFinished(b0, EmitBranch(b3, cond), p, false || d, own3, end);
    PartDone(b0, whole, p, false || d, own3 - {end});
  }

  /* switch */

  /** The plan while the body of a switch is emitted: its default and end block are to come, and the
      block that it ends will be closed. */
  function SwitchPlan(b: Builder, p: Plan): Plan
    requires b.cur.Some?
  {
    Plan(p.due + {Blk(b.nextBlock), Blk(b.nextBlock + 1)}, p.wait + {b.cur.value}, p.labels)
  }

  /** The state in which the body of a switch is emitted. */
  predicate SwitchOpened(b: Builder, b1: Builder, cont: Option<BlockId>) {
    && b.cur.Some? && (cont.Some? ==> OnStack(b.stack, cont.value))
    && b1.plain == b.plain && b1.cur.None? && b1.nextBlock == b.nextBlock + 2
    && b1.stack == b.stack + [Frame(Blk(b.nextBlock + 1), cont)] && b1.sw == Some(OpenSwitch([], Blk(b.nextBlock)))
  }

  lemma SwitchStart(b: Builder, b1: Builder, cont: Option<BlockId>, p: Plan)
    requires Ready(b, p) && SInv(b) && SwitchOpened(b, b1, cont)
    ensures Ready(b1, SwitchPlan(b, p))
  {
    hide Preds, GoneOK;
    var p1, d, end := SwitchPlan(b, p), Blk(b.nextBlock), Blk(b.nextBlock + 1);
    NewIdsAre(b);
    NewFormed(b, 2, p, d);
    forall x | x in b1.plain ensures BlockOK(b1, p1, x) { assert BlockOK(b, p, x); }
    forall y ensures OnStack(b1.stack, y) ==> OnStack(b.stack, y) || y == end {
      StackSnoc(b.stack, Frame(end, cont), y); }
    forall y | OnStack(b1.stack, y) ensures Outside(b1, p1, y) { if y != end { assert Outside(b, p, y); } }
    OldOnes(b, p, d);
  }

  /** The switch instruction leads to blocks that are there, or to the end. */
  predicate SwitchTargets(b2: Builder, t: Term, end: BlockId) {
    t.SwitchT? && forall y :: y in TermTargets(t) ==> CaseReady(b2, y) || y == end
  }

  lemma SwitchClose(b: Builder, b2: Builder, b3: Builder, t: Term, p: Plan, dd: bool)
    requires Ready(b, p) && SInv(b) && b.cur.Some? && b2.sw.Some? && b2.sw.value.dflt == Blk(b.nextBlock)
    requires Ready(b2, if dd then Placed(SwitchPlan(b, p), Blk(b.nextBlock)) else SwitchPlan(b, p))
    requires b.cur.value in b2.plain && b2.plain[b.cur.value].term.None? && b2.cur != b.cur
    requires SwitchTargets(b2, t, Blk(b.nextBlock + 1))
      && (Blk(b.nextBlock) in b2.plain || Blk(b.nextBlock) !in TermTargets(t))
    requires b3.plain == b2.plain[b.cur.value := b2.plain[b.cur.value].(term := Some(t))] && b3.cur == b2.cur
      && b3.nextBlock == b2.nextBlock
    ensures Formed(b3, Also(p, {Blk(b.nextBlock + 1)}))
    ensures forall y :: y in p.due ==> Preds(b3.plain, y) == Preds(b2.plain, y)
  {
    hide Preds, GoneOK, Inv, Live, StackReady, SwReady, Branchable, SwitchTargets, BlockOK, Targets, TermTargets;
    var d, end, from, p3 := Blk(b.nextBlock), Blk(b.nextBlock + 1), b.cur.value, Also(p, {Blk(b.nextBlock + 1)});
    var p2 := if dd then Placed(SwitchPlan(b, p), d) else SwitchPlan(b, p);
    SInvBounded(b);
    OldOnes(b, p, d);
    OldOnes(b, p, end);
    assert end in p2.due;
    ReadyParts(b2, p2);
    forall y | y in p.due ensures Preds(b3.plain, y) == Preds(b2.plain, y) {
      DueIsOld(b, p, y);
      assert y in p2.due && y != end;
      DuePreds(b2, b3, p2, from, t, end, y);
    }
    DefaultUnused(b2, p2, d);
    assert p2.labels == p.labels && p2.wait == p.wait + {from} && forall y ::
        y in p2.due ==> y in p3.due || (y == d && d !in b2.plain);
    forall x | x in b3.plain ensures BlockOK(b3, p3, x) { ClosedBlock(b2, b3, p2, p3, from, d, end, t, x); }
  }

  lemma DuePreds(b2: Builder, b3: Builder, p2: Plan, from: BlockId, t: Term, end: BlockId, y: BlockId)
    requires Formed(b2, p2) && y in p2.due && y != end && SwitchTargets(b2, t, end) && from in b2.plain
      && b2.plain[from].term.None?
    requires b3.plain == b2.plain[from := b2.plain[from].(term := Some(t))]
    ensures Preds(b3.plain, y) == Preds(b2.plain, y)
  {
    hide Preds, BlockOK;
    PredsOfChange(b2.plain, from, b3.plain[from], y);
  }

  lemma DefaultUnused(b: Builder, p: Plan, d: BlockId)
    requires SwReady(b, p) && b.sw.Some? && b.sw.value.dflt == d
    ensures d in p.due ==> Preds(b.plain, d) == {}
    ensures d !in p.due ==> d in b.plain
  {
  }

  /** One block, before and after the switch is closed. */
  lemma ClosedBlock(b2: Builder, b3: Builder, p2: Plan, p3: Plan, from: BlockId, d: BlockId,
    end: BlockId, t: Term, x: BlockId)
    requires Formed(b2, p2) && x in b2.plain && from in b2.plain && b2.plain[from].term.None? && b3.cur == b2.cur
    requires b3.plain == b2.plain[from := b2.plain[from].(term := Some(t))]
    requires SwitchTargets(b2, t, end) && (d in b2.plain || d !in TermTargets(t))
      && (d !in b2.plain ==> Preds(b2.plain, d) == {})
    requires p2.labels == p3.labels && p2.wait == p3.wait + {from}
      && (forall y :: y in p2.due ==> y in p3.due || (y == d && d !in b2.plain)) && end in p3.due && end in p2.due
    ensures BlockOK(b3, p3, x)
  {
    hide Preds;
    assert BlockOK(b2, p2, x);
    if b2.plain[x].phi.Some? {
      assert x !in TermTargets(t);
      PredsOfChange(b2.plain, from, b3.plain[from], x);
    }
    if d !in b2.plain { NotTarget(b2, d, x); }
  }

  lemma NotTarget(b: Builder, y: BlockId, x: BlockId)
    requires Preds(b.plain, y) == {} && x in b.plain
    ensures y !in Targets(b.plain[x])
  {
    PredsIn(b.plain, x, y);
  }

  lemma SwitchTermTargets(alu: Alu, b: Builder, c: Expr, b2: Builder, p2: Plan)
    requires b2.sw.Some? && SwReady(b2, p2) && Formed(b2, p2) && b2.sw.value.dflt == Blk(GenExpr(alu, b, c).b.nextBlock)
    ensures var t, n := SwitchTerm(alu, b, c, b2), GenExpr(alu, b, c).b.nextBlock;
      SwitchTargets(b2, t, Blk(n + 1)) && (Blk(n) in b2.plain || Blk(n) !in TermTargets(t))
  {
    hide GenExpr, Preds;
    var t, n := SwitchTerm(alu, b, c, b2), GenExpr(alu, b, c).b.nextBlock;
    forall j | 0 <= j < |b2.sw.value.cases|
      ensures CaseReady(b2, b2.sw.value.cases[j].1) && b2.sw.value.cases[j].1 in b2.plain {}
  }

  lemma {:induction false} SwitchWell(alu: Alu, b: Builder, c: Expr, body: Stmt, p: Plan)
    requires SInv(b) && Live(b) && Fits(alu, b, Switch(c, body)) && Ready(b, p)
      && LabelsKnown(Switch(c, body), p.labels)
    ensures Result(b, Visit(alu, b, Switch(c, body)), p, HasDefault(Switch(c, body)))
    decreases Switch(c, body), 0, 1
  {
    hide *;
    var bx, whole := GenExpr(alu, b, c).b, Visit(alu, b, Switch(c, body));
    LoopSmaller(Switch(c, body));
    ExprStmtWell(alu, b, c, p);
    ExprMoves(alu, b, c);
    NoDefault(b, p);
    ResultReady(b, bx, p, false);
    SwitchBodyWell(alu, b, c, body, p);
    GrowsSame(b, bx);
    ResultTrans(b, bx, whole, p, false, false);
  }

  lemma SwitchOpens(alu: Alu, b: Builder, c: Expr)
    requires SInv(b) && Live(b)
    ensures SwitchOpened(GenExpr(alu, b, c).b, SwitchBody(alu, b, c), TopCont(b))
  {
    hide GenExpr, Inv, Advances;
    SwitchBodyFrame(alu, b, c);
    var bx := GenExpr(alu, b, c).b;
    if TopCont(b).Some? { assert b.stack[|b.stack| - 1].cont == TopCont(b); }
  }

  lemma SwitchQuiet(b: Builder, b1: Builder, cont: Option<BlockId>, p: Plan, dd: bool)
    requires Ready(b, p) && Bounded(b) && SwitchOpened(b, b1, cont)
    ensures Quiet(b, p, false) <= Quiet(b1, SwitchPlan(b, p), dd)
    ensures b.sw.Some? && b.sw.value.dflt in p.due ==> b.sw.value.dflt in Quiet(b, p, false)
    ensures After(SwitchPlan(b, p), b1, dd) == if dd then
      Placed(SwitchPlan(b, p), Blk(b.nextBlock)) else SwitchPlan(b, p)
  {
    hide Preds;
    forall y | y in Quiet(b, p, false) ensures y in Quiet(b1, SwitchPlan(b, p), dd) {
      DueIsOld(b, p, y);
      StackSnoc(b.stack, Frame(Blk(b.nextBlock + 1), cont), y);
    }
  }

  lemma {:induction false} SwitchBodyWell(alu: Alu, b: Builder, c: Expr, body: Stmt, p: Plan)
    requires SInv(b) && Live(b) && Fits(alu, b, Switch(c, body)) && Ready(GenExpr(alu, b, c).b, p)
      && LabelsKnown(Switch(c, body), p.labels)
    ensures Result(GenExpr(alu, b, c).b, Visit(alu, b, Switch(c, body)), p, false)
    decreases Switch(c, body), 0, 0
  {
    hide *;
    var x, dd := GenExpr(alu, b, c), HasDefault(body);
    var bx, n, b1 := x.b, x.b.nextBlock, SwitchBody(alu, b, c);
    var b2, end := GenStmt(alu, b1, body), Blk(n + 1);
    LoopSmaller(Switch(c, body));
    KnownParts(Switch(c, body), p.labels);
    ExprMoves(alu, b, c);
    SInvBounded(bx);
    SInvSw(bx);
    SwOldIntro(bx);
    SwitchOpens(alu, b, c);
    OpenLive(bx);
    var p1 := SwitchPlan(bx, p);
    SwitchStart(bx, b1, TopCont(b), p);
    SwitchFrame(alu, b, c, body);
    PlanKept(bx, p);
    StmtWell(alu, b1, body, p1);
    SwitchQuiet(bx, b1, TopCont(b), p, dd);
    SwitchPlain(bx, b1, TopCont(b));
    ResultReady(b1, b2, p1, dd);
    ResultSame(b1, b2, p1, dd);
    SwitchBlockKept(alu, b, c, b2, Labels(body), dd);
    SwitchClosedFrame(alu, b, c, b2, Labels(body), dd);
    SwitchClosedIs(alu, b, c, b2);
    var p2, t, b3 := After(p1, b1, dd), SwitchTerm(alu, b, c, b2), SwitchClosed(alu, b, c, b2);
    ReadyParts(b2, p2);
    SwitchTermTargets(alu, b, c, b2, p2);
    ClosedPlain(alu, b, c, b2);
    LiveTerm(bx);
    SwitchClose(bx, b2, b3, t, p, dd);
    var b4 := b3.(sw := bx.sw);
    SwitchOuter(b3, bx.sw);
    FormedSame(b3, b4, Also(p, {end}));
    SwitchExtends(alu, b, c, body);
    SwitchSame(bx, b2, b3, p);
    SameLess(bx.plain, b2.plain, Quiet(b1, p1, dd), Quiet(bx, p, false));
    SameTrans(bx.plain, b2.plain, b4.plain, Quiet(bx, p, false), Quiet(bx, p, false));
    DefaultSame(bx, b4, p);
    GrowsSwitch(b, bx);
    SInvOuter(bx, b3);
    EndPlan(bx, p);
    ReadyOuter(bx, b4, p, end);
    OuterPart(bx, b4, p, end);
    PartFinished(bx, b4, p, false, {end}, end) by { InSingle(end); }
    PartDone(bx, EmitFinished(b4, end), p, false, {end} - {end});
    FinishedSw(b3, end, bx.sw);
    SwitchVisit(alu, b, c, body);
  }

  lemma InSingle(y: BlockId)
    ensures y in {y} && {y} - {y} == {}
  {
  }

  lemma PlanKept(b: Builder, p: Plan)
    requires b.cur.Some?
    ensures SwitchPlan(b, p).labels == p.labels
  {
  }

  lemma SwitchPlain(b: Builder, b1: Builder, cont: Option<BlockId>)
    requires SwitchOpened(b, b1, cont)
    ensures b1.plain == b.plain && b1.nextBlock == b.nextBlock + 2
  {
  }

  lemma ResultSame(b: Builder, b1: Builder, p: Plan, d: bool)
    requires Result(b, b1, p, d)
    ensures SamePreds(b.plain, b1.plain, Quiet(b, p, d))
  {
  }

  lemma ClosedPlain(alu: Alu, b: Builder, c: Expr, b2: Builder)
    requires var x := GenExpr(alu, b, c); b2.sw.Some? && x.b.cur.Some? && x.b.cur.value in b2.plain
    ensures var x := GenExpr(alu, b, c);
      SwitchClosed(alu, b, c, b2).plain == b2.plain[x.b.cur.value :=
        b2.plain[x.b.cur.value].(term := Some(SwitchTerm(alu, b, c, b2)))]
  {
    hide GenExpr;
  }

  lemma LiveTerm(b: Builder)
    requires Live(b)
    ensures b.cur.Some? && b.cur.value in b.plain && b.plain[b.cur.value].term.None?
  {
  }

  lemma SwitchOuter(b: Builder, sw: Option<OpenSwitch>)
    ensures var b1 := b.(sw := sw);
      b1.plain == b.plain && b1.cur == b.cur && b1.nextBlock == b.nextBlock && b1.stack == b.stack
      && b1.sw == sw && b1.gone == b.gone
  {
  }

  lemma FinishedSw(b: Builder, id: BlockId, sw: Option<OpenSwitch>)
    ensures EmitFinished(b.(sw := sw), id) == EmitFinished(b, id).(sw := sw)
  {
    hide Preds, Real, Place;
    BranchSw(b, id, sw);
    PlaceSw(EmitBranch(b, id), id, sw);
  }

  lemma BranchSw(b: Builder, id: BlockId, sw: Option<OpenSwitch>)
    ensures EmitBranch(b.(sw := sw), id) == EmitBranch(b, id).(sw := sw)
  {
  }

  lemma PlaceSw(b: Builder, id: BlockId, sw: Option<OpenSwitch>)
    ensures Place(b.(sw := sw), id, None) == Place(b, id, None).(sw := sw)
  {
  }

  lemma SwitchExtends(alu: Alu, b: Builder, c: Expr, body: Stmt)
    requires SInv(b) && Live(b) && Fits(alu, b, Switch(c, body))
    ensures var bx, b2 := GenExpr(alu, b, c).b, GenStmt(alu, SwitchBody(alu, b, c), body);
      Ext(bx.plain, SwitchClosed(alu, b, c, b2).plain)
  {
    hide *;
    var bx, b1, b2 := GenExpr(alu, b, c).b, SwitchBody(alu, b, c), GenStmt(alu, SwitchBody(alu, b, c), body);
    SwitchFrame(alu, b, c, body);
    SwitchBodyFrame(alu, b, c);
    MovesExt(b1, b2, Labels(body), HasDefault(body));
    SwitchExt(alu, b, c, body);
    ExtTrans(bx.plain, b2.plain, SwitchClosed(alu, b, c, b2).plain);
  }

  lemma SwitchSame(b: Builder, b2: Builder, b3: Builder, p: Plan)
    requires forall y :: y in p.due ==> Preds(b3.plain, y) == Preds(b2.plain, y)
    ensures SamePreds(b2.plain, b3.plain, Quiet(b, p, false))
  {
  }

  lemma DefaultSame(b: Builder, b4: Builder, p: Plan)
    requires SamePreds(b.plain, b4.plain, Quiet(b, p, false))
    requires b.sw.Some? && b.sw.value.dflt in p.due ==> b.sw.value.dflt in Quiet(b, p, false)
    ensures b.sw.Some? && b.sw.value.dflt in p.due
      ==> Preds(b4.plain, b.sw.value.dflt) == Preds(b.plain, b.sw.value.dflt)
  {
  }

  lemma GrowsSwitch(b: Builder, b1: Builder)
    requires Grows(b, b1)
    ensures b1.sw == b.sw && b1.stack == b.stack
  {
  }

  /** The switch around is open again. */
  lemma SInvOuter(b: Builder, b3: Builder)
    requires SInv(b) && SInv(b3) && b.nextBlock <= b3.nextBlock
    ensures SInv(b3.(sw := b.sw))
  {
  }

  lemma EndPlan(b: Builder, p: Plan)
    ensures After(p, b, false) == p && IsNew(b, Blk(b.nextBlock + 1))
  {
  }

  lemma ReadyOuter(b: Builder, b4: Builder, p: Plan, end: BlockId)
    requires Ready(b, p) && SwOld(b) && Formed(b4, Also(p, {end})) && Ext(b.plain, b4.plain) && b4.stack == b.stack
      && b4.sw == b.sw && IsNew(b, end)
    requires b.sw.Some? && b.sw.value.dflt in p.due
      ==> Preds(b4.plain, b.sw.value.dflt) == Preds(b.plain, b.sw.value.dflt)
    ensures Ready(b4, Also(p, {end}))
  {
    hide Preds, Formed;
    ReadyLater(b, b4, p, Also(p, {end}));
  }

  lemma OuterPart(b: Builder, b4: Builder, p: Plan, end: BlockId)
    requires Ready(b, p) && Bounded(b) && SwOld(b) && Ready(b4, Also(p, {end}))
      && SamePreds(b.plain, b4.plain, Quiet(b, p, false)) && b4.sw == b.sw && IsNew(b, end)
    requires b.nextBlock <= b4.nextBlock
    ensures Part(b, b4, p, false, {end})
  {
    hide Ready, SamePreds;
  }
}
