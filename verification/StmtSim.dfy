/** One step of any statement. */
module StmtSim {
  import opened Common
  import opened Source
  import opened Graph
  import opened Builder
  import opened CodeGen
  import opened Frames
  import opened FrameExpr
  import opened SimExpr
  import opened Static
  import opened FrameStmt
  import opened FrameLoops
  import opened FrameAll
  import opened MatchKont
  import opened Jumps
  import opened FindLabel
  import opened Simulation
  import opened StepSim

  lemma SeqParts(alu: Alu, fin: Builder, b: Builder, x: Stmt, y: Stmt, k: Kont, a: Anno)
    requires SInv(b) && Fits(alu, b, Seq(x, y)) && MatchK(alu, fin, k, Visit(alu, b, Seq(x, y)), a)
    ensures Fits(alu, b, x) && MatchK(alu, fin, KSeq(y, k), GenStmt(alu, b, x), AOn(a))
  {
    hide SInv, Moves, Fits, MatchK, GenStmt, Visit;
    SeqFrame(alu, b, x, y);
    KontSeq(alu, fin, GenStmt(alu, b, x), y, k, a);
  }

  lemma {:induction false} SeqSim(w: World, fin: Builder, g: Graph, slot: int, x: Stmt, y: Stmt, k: Kont, b: Builder,
    a: Anno, regs: Regs, t: Trace, m: nat)
    returns (n: nat, gst1: GState, wh: Where, a1: Anno)
    requires SInv(b) && Live(b) && Fits(w.alu, b, Seq(x, y)) && MatchK(w.alu, fin, k, Visit(w.alu, b, Seq(x, y)), a)
      && RegVal(regs, SLOT) == slot
    requires Size(Seq(x, y)) + KSize(k) <= m
    ensures Simulates(w, fin, g, slot, At(b, regs, t), m, Run(x, KSeq(y, k), t), n, gst1, wh, a1)
  {
    hide SInv, Fits, MatchK, GenStmt, Visit, GRun, At, Simulates, Rel;
    SeqParts(w.alu, fin, b, x, y, k, a);
    n, gst1, wh, a1 := 0, At(b, regs, t), Here(b), AOn(a);
    NoRun(w, g, gst1);
    HereIntro(w, fin, g, slot, gst1, m, x, KSeq(y, k), t, 0, b, a1, regs);
  }

  lemma SkipFits(alu: Alu, b: Builder)
    ensures Fits(alu, b, Skip) && GenStmt(alu, b, Skip) == b
  {
  }

  lemma {:induction false} ExprStmtSim(w: World, fin: Builder, g: Graph, slot: int, e: Option<Expr>, k: Kont,
    b: Builder, a: Anno, regs: Regs, t: Trace, m: nat)
    returns (n: nat, gst1: GState, wh: Where, a1: Anno)
    requires Ext(fin.plain, g)
    requires SInv(b) && Live(b) && Fits(w.alu, b, ExprStmt(e))
      && MatchK(w.alu, fin, k, Visit(w.alu, b, ExprStmt(e)), a) && RegVal(regs, SLOT) == slot
    requires Size(ExprStmt(e)) + KSize(k) <= m
    ensures Simulates(w, fin, g, slot, At(b, regs, t), m,
      Run(Skip, k, if e.Some? then Eval(w, e.value, t).1 else t), n, gst1, wh, a1)
  {
    hide SInv, MatchK, GenStmt, GRun, Simulates, Rel, Ext, GenExpr, Eval;
    var b1 := Visit(w.alu, b, ExprStmt(e));
    SkipFits(w.alu, b1);
    wh, a1 := Here(b1), a;
    if e.None? {
      n, gst1 := 0, At(b, regs, t);
      NoRun(w, g, gst1);
      HereIntro(w, fin, g, slot, gst1, m, Skip, k, t, 0, b1, a, regs);
    } else {
      MatchKExt(w.alu, fin, g, k, b1, a);
      ExprMoves(w.alu, b, e.value);
      var n1, r1 := SimValue(w, b, e.value, g, regs, t);
      n, gst1 := n1, At(b1, r1, Eval(w, e.value, t).1);
      HereIntro(w, fin, g, slot, At(b, regs, t), m, Skip, k, Eval(w, e.value, t).1, n, b1, a, r1);
    }
  }

  lemma {:induction false} IfFoldSim(w: World, fin: Builder, g: Graph, slot: int, s: Stmt, k: Kont, b: Builder,
    a: Anno, regs: Regs, t: Trace, m: nat)
    returns (n: nat, gst1: GState, wh: Where, a1: Anno)
    requires s.If? && IfFolds(w.alu, s)
    requires SInv(b) && Live(b) && Fits(w.alu, b, s) && MatchK(w.alu, fin, k, Visit(w.alu, b, s), a)
      && RegVal(regs, SLOT) == slot
    requires Size(s) + KSize(k) <= m
    ensures Simulates(w, fin, g, slot, At(b, regs, t), m, IfStep(w, s, k, t), n, gst1, wh, a1)
  {
    hide SInv, MatchK, GenStmt, GRun, Simulates, Rel, Fits, Eval, Visit;
    IfIs(w.alu, b, s);
    IfFits(w.alu, b, s);
    CalcSound(w, s.c, t);
    n, gst1, wh, a1 := 0, At(b, regs, t), Here(b), a;
    NoRun(w, g, gst1);
    SkipFits(w.alu, b);
    var s1 := if Calc(w.alu, s.c).value != 0 then s.thn else if s.els.Some? then s.els.value else Skip;
    HereIntro(w, fin, g, slot, gst1, m, s1, k, t, 0, b, a, regs);
  }

  function IfStep(w: World, s: Stmt, k: Kont, t: Trace): State
    requires s.If?
  {
    var (v, t1) := Eval(w, s.c, t);
    if v != 0 then Run(s.thn, k, t1) else Run(if s.els.Some? then s.els.value else Skip, k, t1)
  }

  lemma IfStepIs(w: World, s: Stmt, k: Kont, t: Trace)
    requires s.If?
    ensures IfStep(w, s, k, t) == var (v, t1) := Eval(w, s.c, t);
      if v != 0 then Run(s.thn, k, t1) else Run(if s.els.Some? then s.els.value else Skip, k, t1)
  {
  }

  lemma IfBrOK(alu: Alu, b: Builder, s: Stmt)
    requires s.If? && Fits(alu, b, s)
    ensures BrOK(alu, s.c)
  {
  }

  lemma {:induction false} IfSim(w: World, fin: Builder, g: Graph, slot: int, s: Stmt, k: Kont, b: Builder, a: Anno,
    regs: Regs, t: Trace, m: nat)
    returns (n: nat, gst1: GState, wh: Where, a1: Anno)
    requires s.If? && !IfFolds(w.alu, s) && Ext(fin.plain, g)
    requires SInv(b) && Live(b) && Fits(w.alu, b, s) && MatchK(w.alu, fin, k, Visit(w.alu, b, s), a)
      && RegVal(regs, SLOT) == slot
    ensures Simulates(w, fin, g, slot, At(b, regs, t), m, IfStep(w, s, k, t), n, gst1, wh, a1)
  {
    hide *;
    var alu, i, e := w.alu, b.nextBlock, s.els.Some?;
    var b0, b1, b2, b3, b4 := IfTest(alu, b, s.c, e), IfThen(alu, b, s.c, e), IfThenEnd(alu, b, s),
      IfElseStart(alu, b, s), IfElseEnd(alu, b, s);
    var b5 := IfEnd(b, b4, e);
    var end, aj := Blk(i + 1), AJoin(Blk(i + 1), b5, a);
    IfIs(alu, b, s);
    IfBrOK(alu, b, s);
    IfStepIs(w, s, k, t);
    MatchKExt(alu, fin, g, k, b5, a);
    IfPieces(alu, b, s);
    IfParts(alu, b, s);
    IfThenFrame(alu, b, s.c, e);
    IfThenIs(alu, b, s.c, e);
    KontIf(alu, fin, b, s, k, a);
    ExtTrans(b1.plain, b5.plain, g);
    ExtTrans(b0.plain, b1.plain, g);
    ExtTrans(b3.plain, b5.plain, g);
    SInvInv(b);
    InvNumbered(b, if e then 3 else 2);
    LiveParts(b);
    NumberedAt(b, if e then 3 else 2, regs, t);
    var gst := At(b, regs, t);
    var (v, t1) := Eval(w, s.c, t);
    var n1, r1, from := SimDecide(w, NewBlocks(b, if e then 3 else 2), s.c, Blk(i),
      Blk(if e then i + 2 else i + 1), g, regs, t);
    n := n1;
    if v != 0 {
      EnterStarted(b1, Blk(i), g, from, r1, t1);
      LiveParts(b1);
      gst1, wh, a1 := At(b1, r1, t1), Here(b1), aj;
      HereIntro(w, fin, g, slot, gst, m, s.thn, k, t1, n, b1, aj, r1);
    } else if e {
      EnterStarted(b3, Blk(i + 2), g, from, r1, t1);
      LiveParts(b3);
      gst1, wh, a1 := At(b3, r1, t1), Here(b3), aj;
      HereIntro(w, fin, g, slot, gst, m, s.els.value, k, t1, n, b3, aj, r1);
    } else {
      MovesExt(b1, b2, Labels(s.thn), HasDefault(s.thn));
      BranchExt(b2, end);
      TargetKept(b0.plain, b1.plain, from, end);
      TargetKept(b1.plain, b2.plain, from, end);
      TargetKept(b2.plain, EmitBranch(b2, end).plain, from, end);
      TargetKept(EmitBranch(b2, end).plain, b3.plain, from, end);
      TargetKept(b3.plain, b4.plain, from, end);
      EnterStarted(b5, end, g, from, r1, t1);
      gst1, wh, a1 := GAt(end, 0, r1, t1), Here(b5), a;
      SkipIntro(w, fin, g, slot, gst, m, k, t1, n, b5, a, r1, end);
    }
  }

  lemma NumberedAt(b: Builder, n: nat, regs: Regs, t: Trace)
    requires Open(b)
    ensures Open(NewBlocks(b, n)) && At(NewBlocks(b, n), regs, t) == At(b, regs, t) && NewBlocks(b, n).cur == b.cur
  {
  }

  /* Jumps */

  lemma JumpGraph(w: World, b: Builder, to: BlockId, g: Graph, regs: Regs, t: Trace)
    requires Live(b) && Ext(Jump(b, to).plain, g)
    ensures GRun(w, g, At(b, regs, t), 1) == Enter(g, b.cur.value, to, regs, t)
    ensures b.cur.value in Jump(b, to).plain && to in Targets(Jump(b, to).plain[b.cur.value])
  {
    SimTerminate(w, b, Br(to), g, regs, t);
  }

  lemma BreakIs(alu: Alu, b: Builder)
    requires Fits(alu, b, Break)
    ensures b.stack != [] && Visit(alu, b, Break) == Jump(b, TopBrk(b)) && Jump(b, TopBrk(b)).stack == b.stack
      && TopBrk(Jump(b, TopBrk(b))) == TopBrk(b)
  {
  }

  lemma {:induction false} BreakSim(w: World, fin: Builder, g: Graph, slot: int, k: Kont, b: Builder, a: Anno,
    regs: Regs, t: Trace, m: nat)
    returns (n: nat, gst1: GState, wh: Where, a1: Anno)
    requires Ext(fin.plain, g) && fin.stack == []
    requires SInv(b) && Live(b) && Fits(w.alu, b, Break) && MatchK(w.alu, fin, k, Visit(w.alu, b, Break), a)
      && RegVal(regs, SLOT) == slot
    ensures Simulates(w, fin, g, slot, At(b, regs, t), m, OfKont(AfterBreak(k), t), n, gst1, wh, a1)
  {
    hide *;
    LiveParts(b);
    BreakIs(w.alu, b);
    var brk, bj := TopBrk(b), Jump(b, TopBrk(b));
    MatchKExt(w.alu, fin, g, k, bj, a);
    JumpGraph(w, b, brk, g, regs, t);
    var b1, a2 := BreakMatch(w.alu, fin, k, bj, a, b.cur.value);
    MatchKExt(w.alu, fin, g, AfterBreak(k).value, b1, a2);
    EnterStarted(b1, brk, g, b.cur.value, regs, t);
    OfKontIs(AfterBreak(k), t);
    n, gst1, wh, a1 := 1, GAt(brk, 0, regs, t), Here(b1), a2;
    SkipIntro(w, fin, g, slot, At(b, regs, t), m, AfterBreak(k).value, t, 1, b1, a2, regs, brk);
  }

  lemma OfKontIs(r: Option<Kont>, t: Trace)
    requires r.Some?
    ensures OfKont(r, t) == Run(Skip, r.value, t)
  {
  }

  lemma ContinueIs(alu: Alu, b: Builder)
    requires Fits(alu, b, Continue)
    ensures TopCont(b).Some? && Visit(alu, b, Continue) == Jump(b, TopCont(b).value)
      && TopCont(Jump(b, TopCont(b).value)) == TopCont(b)
  {
  }

  lemma {:induction false} ContinueSim(w: World, fin: Builder, g: Graph, slot: int, k: Kont, b: Builder, a: Anno,
    regs: Regs, t: Trace, m: nat)
    returns (n: nat, gst1: GState, wh: Where, a1: Anno)
    requires Ext(fin.plain, g) && fin.stack == []
    requires SInv(b) && Live(b) && Fits(w.alu, b, Continue) && MatchK(w.alu, fin, k, Visit(w.alu, b, Continue), a)
      && RegVal(regs, SLOT) == slot
    ensures Simulates(w, fin, g, slot, At(b, regs, t), m, OfKont(AfterContinue(k), t), n, gst1, wh, a1)
  {
    hide *;
    LiveParts(b);
    ContinueIs(w.alu, b);
    var to, bj := TopCont(b).value, Jump(b, TopCont(b).value);
    MatchKExt(w.alu, fin, g, k, bj, a);
    JumpGraph(w, b, to, g, regs, t);
    var b1, a2 := ContinueMatch(w.alu, fin, k, bj, a);
    ContEnter(w, fin, g, AfterContinue(k).value, b1, a2, b.cur.value, regs, t);
    OfKontIs(AfterContinue(k), t);
    n, gst1, wh, a1 := 1, GAt(to, 0, regs, t), AtCont(b1), a2;
    ContIntro(w, fin, g, slot, At(b, regs, t), m, AfterContinue(k).value, t, 1, b1, a2, regs);
  }

  lemma ContIntro(w: World, fin: Builder, g: Graph, slot: int, gst: GState, m: nat, k: Kont, t: Trace, n: nat,
    b: Builder, a: Anno, regs: Regs)
    requires IsLoop(k) && a.ALoop? && MatchK(w.alu, fin, k, b, a)
    requires GRun(w, g, gst, n) == GAt(ContBlock(a.b0, k), 0, regs, t) && RegVal(regs, SLOT) == slot && n > 0
    ensures Simulates(w, fin, g, slot, gst, m, Run(Skip, k, t), n, GAt(ContBlock(a.b0, k), 0, regs, t), AtCont(b), a)
  {
  }

  /** Landing on a label. */
  lemma LandSim(w: World, fin: Builder, g: Graph, slot: int, gst: GState, m: nat, p: (Stmt, Kont),
    b1: Builder, a1: Anno, id: BlockId,
                from: BlockId, regs: Regs, t: Trace, n: nat)
    requires Ext(fin.plain, g) && Lands(w.alu, fin, p, b1, a1, id) && n > 0
    requires GRun(w, g, gst, n) == Enter(g, from, id, regs, t) && RegVal(regs, SLOT) == slot
    ensures Simulates(w, fin, g, slot, gst, m, Run(p.0, p.1, t), n, GAt(id, 0, regs, t), Here(b1), a1)
  {
    hide *;
    LandsParts(w.alu, fin, p, b1, a1, id);
    LiveParts(b1);
    MatchKExt(w.alu, fin, g, p.1, GenStmt(w.alu, b1, p.0), a1);
    SameStack(w.alu, b1, p.0);
    ExtTrans(b1.plain, GenStmt(w.alu, b1, p.0).plain, g);
    EnterStarted(b1, id, g, from, regs, t);
    HereIntro(w, fin, g, slot, gst, m, p.0, p.1, t, n, b1, a1, regs);
  }

  lemma LandsParts(alu: Alu, fin: Builder, p: (Stmt, Kont), b1: Builder, a1: Anno, id: BlockId)
    requires Lands(alu, fin, p, b1, a1, id)
    ensures SInv(b1) && Live(b1) && Starts(b1, id) && Fits(alu, b1, p.0)
      && MatchK(alu, fin, p.1, GenStmt(alu, b1, p.0), a1)
  {
  }

  lemma StopKont(alu: Alu, b: Builder)
    requires SInv(b)
    ensures MatchK(alu, b, KStop, b, AEnd)
  {
  }

  lemma GotoIs(alu: Alu, b: Builder, l: nat)
    ensures Visit(alu, b, Goto(l)) == Jump(b, Lbl(l))
  {
  }

  lemma OfFindIs(r: Option<(Stmt, Kont)>, t: Trace)
    requires r.Some?
    ensures OfFind(r, t) == Run(r.value.0, r.value.1, t)
  {
  }

  lemma SelectsLabelIs(l: nat, b: Builder, b1: Builder, id: BlockId)
    requires Selects(SLabel(l), b, b1, id)
    ensures id == Lbl(l)
  {
  }

  lemma {:induction false} GotoSim(w: World, isMain: bool, fn: Stmt, fin: Builder, g: Graph, slot: int, l: nat,
    k: Kont, b: Builder, a: Anno, regs: Regs, t: Trace, m: nat)
    returns (n: nat, gst1: GState, wh: Where, a1: Anno)
    requires Compiled(w.alu, isMain, fn, fin, g) && l in Labels(fn)
    requires SInv(b) && Live(b) && Fits(w.alu, b, Goto(l)) && MatchK(w.alu, fin, k, Visit(w.alu, b, Goto(l)), a)
      && RegVal(regs, SLOT) == slot
    ensures Simulates(w, fin, g, slot, At(b, regs, t), m, OfFind(Find(SLabel(l), fn, KStop), t), n, gst1, wh, a1)
  {
    hide *;
    LiveParts(b);
    CompiledParts(w.alu, isMain, fn, fin, g);
    GotoIs(w.alu, b, l);
    MatchKExt(w.alu, fin, g, k, Jump(b, Lbl(l)), a);
    JumpGraph(w, b, Lbl(l), g, regs, t);
    FindGoto(l, fn, KStop);
    StopKont(w.alu, fin);
    var b1, a2, id := Found(w.alu, fin, SLabel(l), StartFunction(isMain), fn, KStop, AEnd);
    SelectsLabelIs(l, StartFunction(isMain), fin, id);
    OfFindIs(Find(SLabel(l), fn, KStop), t);
    LandSim(w, fin, g, slot, At(b, regs, t), m, Find(SLabel(l), fn, KStop).value, b1, a2, id, b.cur.value, regs, t, 1);
    n, gst1, wh, a1 := 1, GAt(id, 0, regs, t), Here(b1), a2;
  }

  /* switch */

  lemma HasDefaultPlaced(alu: Alu, b: Builder, c: Expr, body: Stmt)
    requires SInv(b) && Live(b) && Fits(alu, b, Switch(c, body))
    ensures HasDefault(body) <==> Blk(GenExpr(alu, b, c).b.nextBlock) in GenStmt(alu, SwitchBody(alu, b, c), body).plain
  {
    hide *;
    var b1, n := SwitchBody(alu, b, c), GenExpr(alu, b, c).b.nextBlock;
    var b2 := GenStmt(alu, b1, body);
    SwitchFrame(alu, b, c, body);
    SwitchBodyFrame(alu, b, c);
    if HasDefault(body) {
      FindDefault(body, KStop);
      StopKont(alu, b2);
      var b3, a3, id := Found(alu, b2, SDefault, b1, body, KStop, AEnd);
      SelectsDefaultIs(b1, b2, id);
      ExtRefl(b2.plain);
      LandsParts(alu, b2, Find(SDefault, body, KStop).value, b3, a3, id);
      var p := Find(SDefault, body, KStop).value;
      MatchKExt(alu, b2, b2.plain, p.1, GenStmt(alu, b3, p.0), a3);
      SameStack(alu, b3, p.0);
      ExtTrans(b3.plain, GenStmt(alu, b3, p.0).plain, b2.plain);
      StartsIn(b3, id, b2.plain);
    } else {
      MovesFresh(b1, b2, Labels(body), HasDefault(body), Blk(n));
    }
  }

  lemma StartsIn(b: Builder, id: BlockId, g: Graph)
    requires Starts(b, id) && Ext(b.plain, g)
    ensures id in g
  {
  }

  lemma SelectsDefaultIs(b: Builder, b1: Builder, id: BlockId)
    requires Selects(SDefault, b, b1, id)
    ensures b.sw.Some? && id == b.sw.value.dflt
  {
  }

  lemma SelectsCaseIs(v: int, b: Builder, b1: Builder, id: BlockId)
    requires Selects(SCase(v), b, b1, id) && b.sw.Some? && b.sw.value.cases == []
    ensures b1.sw.Some? && Lookup(b1.sw.value.cases, v) == Some(id)
  {
  }

  lemma SelectsNoCaseIs(v: int, b: Builder, b1: Builder)
    requires SelectsNone(SCase(v), b, b1) && b.sw.Some? && b.sw.value.cases == []
    ensures b1.sw.Some? && Lookup(b1.sw.value.cases, v) == None
  {
  }

  /** The switch instruction. */
  lemma {:induction false} SwitchJump(w: World, b: Builder, c: Expr, body: Stmt, g: Graph, v: int, regs: Regs, t: Trace)
    requires SInv(b) && Live(b) && Fits(w.alu, b, Switch(c, body))
    requires Ext(SwitchEnd(w.alu, b, c, GenStmt(w.alu, SwitchBody(w.alu, b, c), body)).plain, g)
      && Val(GenExpr(w.alu, b, c).v, regs) == v
    ensures var x, b2 := GenExpr(w.alu, b, c), GenStmt(w.alu, SwitchBody(w.alu, b, c), body);
      && b2.sw.Some? && Open(x.b) && x.b.cur.value in SwitchClosed(w.alu, b, c, b2).plain
      && Targets(SwitchClosed(w.alu, b, c, b2).plain[x.b.cur.value]) == TermTargets(SwitchTerm(w.alu, b, c, b2))
      && GRun(w, g, At(x.b, regs, t), 1) == Enter(g, x.b.cur.value, Target(SwitchTerm(w.alu, b, c, b2), regs), regs, t)
  {
    hide SInv, Moves, GenStmt, SwitchBody, Fits, GenExpr, Ext, SwitchEnd, Advances, EmitFinished;
    var x, b2 := GenExpr(w.alu, b, c), GenStmt(w.alu, SwitchBody(w.alu, b, c), body);
    SwitchFrame(w.alu, b, c, body);
    SwitchBlockKept(w.alu, b, c, b2, Labels(body), HasDefault(body));
    SwitchExt(w.alu, b, c, body);
    var b3 := SwitchClosed(w.alu, b, c, b2);
    ExtTrans(b3.plain, SwitchEnd(w.alu, b, c, b2).plain, g);
    ExtAt(b3.plain, g, x.b.cur.value);
    assert GRun(w, g, At(x.b, regs, t), 1) == GRun(w, g, GStep(w, g, At(x.b, regs, t)), 0);
  }

  lemma ExtAt(g: Graph, g1: Graph, x: BlockId)
    requires Ext(g, g1) && x in g
    ensures x in g1 && Extends(g[x], g1[x])
  {
  }

  function SwitchStep(w: World, s: Stmt, k: Kont, t: Trace): State
    requires s.Switch?
  {
    var (v, t1) := Eval(w, s.c, t);
    var r := Find(SCase(v), s.body, KSwitch(k));
    if r.Some? then OfFind(r, t1) else
    var d := Find(SDefault, s.body, KSwitch(k));
    if d.Some? then OfFind(d, t1) else Run(Skip, k, t1)
  }

  lemma SwitchStepIs(w: World, s: Stmt, k: Kont, t: Trace)
    requires s.Switch?
    ensures var (v, t1) := Eval(w, s.c, t);
      var r, d := Find(SCase(v), s.body, KSwitch(k)), Find(SDefault, s.body, KSwitch(k));
      SwitchStep(w, s, k, t) == if r.Some? then OfFind(r, t1) else if d.Some? then OfFind(d, t1) else Run(Skip, k, t1)
  {
  }

  lemma SwitchValOK(alu: Alu, b: Builder, c: Expr, body: Stmt)
    requires Fits(alu, b, Switch(c, body))
    ensures ValOK(alu, c)
  {
  }

  lemma {:induction false} SwitchSim(w: World, fin: Builder, g: Graph, slot: int, s: Stmt, k: Kont, b: Builder,
    a: Anno, regs: Regs, t: Trace, m: nat)
    returns (n: nat, gst1: GState, wh: Where, a1: Anno)
    requires s.Switch? && Ext(fin.plain, g)
    requires SInv(b) && Live(b) && Fits(w.alu, b, s) && MatchK(w.alu, fin, k, Visit(w.alu, b, s), a)
      && RegVal(regs, SLOT) == slot
    ensures Simulates(w, fin, g, slot, At(b, regs, t), m, SwitchStep(w, s, k, t), n, gst1, wh, a1)
  {
    hide *;
    LiveParts(b);
    var alu, c, body := w.alu, s.c, s.body;
    var x, bs, b2 := GenExpr(alu, b, c), SwitchBody(alu, b, c), GenStmt(alu, SwitchBody(alu, b, c), body);
    var b3, b4, i := SwitchClosed(alu, b, c, b2), SwitchEnd(alu, b, c, b2), x.b.nextBlock;
    SwitchSw(alu, b, c, body);
    SwitchValOK(alu, b, c, body);
    SwitchStepIs(w, s, k, t);
    KontSwitch(alu, fin, b, c, body, k, a);
    MatchKExt(alu, fin, g, k, b4, a);
    SwitchFrame(alu, b, c, body);
    SwitchBodyFrame(alu, b, c);
    LiveParts(x.b);
    SwitchExt(alu, b, c, body);
    ExtTrans(b2.plain, b4.plain, g);
    MovesExt(bs, b2, Labels(body), HasDefault(body));
    ExtTrans(x.b.plain, b2.plain, g);
    var gst := At(b, regs, t);
    var (v, t1) := Eval(w, c, t);
    var n1, r1 := SimValue(w, b, c, g, regs, t);
    SwitchJump(w, b, c, body, g, v, r1, t1);
    SwitchTermIs(alu, b, c, b2, r1, v);
    HasDefaultPlaced(alu, b, c, body);
    FindDefault(body, KSwitch(k));
    var term, from, sel := SwitchTerm(alu, b, c, b2), x.b.cur.value, SCase(v);
    Compose(w, g, gst, n1, At(x.b, r1, t1), 1, Enter(g, from, Target(term, r1), r1, t1));
    n := n1 + 1;
    if Find(sel, body, KSwitch(k)).Some? {
      var b1, a2, id := Found(alu, fin, sel, bs, body, KSwitch(k), ASwitch(b, c, body, a));
      SelectsCaseIs(v, bs, b2, id);
      OfFindIs(Find(sel, body, KSwitch(k)), t1);
      LandSim(w, fin, g, slot, gst, m, Find(sel, body, KSwitch(k)).value, b1, a2, id, from, r1, t1, n);
      gst1, wh, a1 := GAt(id, 0, r1, t1), Here(b1), a2;
    } else {
      NotFound(alu, sel, bs, body, KSwitch(k));
      SelectsNoCaseIs(v, bs, b2);
      if HasDefault(body) {
        var b1, a2, id := Found(alu, fin, SDefault, bs, body, KSwitch(k), ASwitch(b, c, body, a));
        SelectsDefaultIs(bs, b2, id);
        OfFindIs(Find(SDefault, body, KSwitch(k)), t1);
        LandSim(w, fin, g, slot, gst, m, Find(SDefault, body, KSwitch(k)).value, b1, a2, id, from, r1, t1, n);
        gst1, wh, a1 := GAt(id, 0, r1, t1), Here(b1), a2;
      } else {
        var end := Blk(i + 1);
        SwitchDefaultTarget(term, end);
        EnterStarted(b4, end, g, from, r1, t1);
        gst1, wh, a1 := GAt(end, 0, r1, t1), Here(b4), a;
        SkipIntro(w, fin, g, slot, gst, m, k, t1, n, b4, a, r1, end);
      }
    }
  }

  lemma SwitchDefaultTarget(term: Term, d: BlockId)
    requires term.SwitchT? && term.dflt == d
    ensures d in TermTargets(term)
  {
  }

  lemma SwitchTermIs(alu: Alu, b: Builder, c: Expr, b2: Builder, regs: Regs, v: int)
    requires b2.sw.Some? && Val(GenExpr(alu, b, c).v, regs) == v
    ensures var term, n := SwitchTerm(alu, b, c, b2), GenExpr(alu, b, c).b.nextBlock;
      && term.SwitchT? && term.dflt == (if Blk(n) in b2.plain then Blk(n) else Blk(n + 1))
      && Target(term, regs) == if Lookup(b2.sw.value.cases, v).Some? then
        Lookup(b2.sw.value.cases, v).value else term.dflt
  {
  }

  /* labelled statements */

  lemma {:induction false} FallSim(w: World, fin: Builder, g: Graph, slot: int, s: Stmt, k: Kont, b: Builder,
    id: BlockId, b1: Builder, a: Anno, regs: Regs, t: Trace, m: nat)
    returns (n: nat, gst1: GState, wh: Where, a1: Anno)
    requires Ext(fin.plain, g) && SInv(b) && Live(b) && id !in b.plain && RegVal(regs, SLOT) == slot
    requires SInv(b1) && Starts(b1, id) && b1.plain == EmitBlock(b, id).plain && Fits(w.alu, b1, s)
      && MatchK(w.alu, fin, k, GenStmt(w.alu, b1, s), a)
    ensures Simulates(w, fin, g, slot, At(b, regs, t), m, Run(s, k, t), n, gst1, wh, a1)
  {
    hide *;
    LiveParts(b);
    MatchKExt(w.alu, fin, g, k, GenStmt(w.alu, b1, s), a);
    SameStack(w.alu, b1, s);
    ExtTrans(b1.plain, GenStmt(w.alu, b1, s).plain, g);
    BlockBranchExt(b, id, g);
    SimJump(w, b, id, g, regs, t);
    EnterStarted(b1, id, g, b.cur.value, regs, t);
    LiveParts(b1);
    n, gst1, wh, a1 := 1, At(b1, regs, t), Here(b1), a;
    HereIntro(w, fin, g, slot, At(b, regs, t), m, s, k, t, 1, b1, a, regs);
  }

  lemma LabelledIs(alu: Alu, b: Builder, s: Stmt)
    requires SInv(b) && Fits(alu, b, s)
    ensures s.Label? ==> Lbl(s.l) !in b.plain
    ensures s.Default? ==> b.sw.Some? && b.sw.value.dflt !in b.plain
    ensures s.Case? ==>
        CaseStart(b, s.lo, s.hi).plain == EmitBlock(b, Blk(b.nextBlock)).plain && Blk(b.nextBlock) !in b.plain
  {
  }

  lemma {:induction false} LabelledSim(w: World, fin: Builder, g: Graph, slot: int, s: Stmt, k: Kont, b: Builder,
    a: Anno, regs: Regs, t: Trace, m: nat)
    returns (n: nat, gst1: GState, wh: Where, a1: Anno)
    requires (s.Label? || s.Case? || s.Default?) && Ext(fin.plain, g)
    requires SInv(b) && Live(b) && Fits(w.alu, b, s) && MatchK(w.alu, fin, k, Visit(w.alu, b, s), a)
      && RegVal(regs, SLOT) == slot
    ensures Simulates(w, fin, g, slot, At(b, regs, t), m, Run(s.s, k, t), n, gst1, wh, a1)
  {
    hide *;
    LabelledIs(w.alu, b, s);
    match s {
      case Label(l, s1) =>
        LabelFrame(w.alu, b, l, s1);
        PlacedStarts(b, Lbl(l));
        n, gst1, wh, a1 := FallSim(w, fin, g, slot, s1, k, b, Lbl(l), EmitBlock(b, Lbl(l)), a, regs, t, m);
      case Case(lo, hi, s1) =>
        CaseFrame(w.alu, b, s);
        CaseHasSw(w.alu, b, s);
        CaseAdvances(b, lo, hi);
        n, gst1, wh, a1 := FallSim(w, fin, g, slot, s1, k, b, Blk(b.nextBlock), CaseStart(b, lo, hi), a, regs, t, m);
      case Default(s1) =>
        DefaultFrame(w.alu, b, s1);
        PlacedStarts(b, b.sw.value.dflt);
        n, gst1, wh, a1 := FallSim(w, fin, g, slot, s1, k, b, b.sw.value.dflt,
          EmitBlock(b, b.sw.value.dflt), a, regs, t, m);
    }
  }

  /* return */

  lemma RetTargets(fin: Builder, g: Graph, b: Builder, x: BlockId)
    requires Returns(fin, g) && Ext(b.plain, fin.plain) && x in b.plain && RetBlk in Targets(b.plain[x])
    ensures RetReached(g)
  {
    ExtAt(b.plain, fin.plain, x);
  }

  lemma CompiledReturns(alu: Alu, isMain: bool, fn: Stmt, fin: Builder, g: Graph)
    requires Compiled(alu, isMain, fn, fin, g)
    ensures Returns(fin, g)
  {
  }

  lemma ReturnIs(alu: Alu, b: Builder, r: Option<Expr>)
    ensures r.None? ==> Visit(alu, b, Return(r)) == Jump(b, RetBlk)
    ensures r.Some? ==> var x := GenExpr(alu, b, r.value);
      Visit(alu, b, Return(r)) == Jump(Emit(x.b, IStore(x.v)), RetBlk)
    ensures Fits(alu, b, Return(r)) && r.Some? ==> ValOK(alu, r.value)
  {
  }

  lemma {:induction false} ReturnSim(w: World, isMain: bool, fn: Stmt, fin: Builder, g: Graph, slot: int,
    r: Option<Expr>, k: Kont, b: Builder, a: Anno, regs: Regs, t: Trace, m: nat)
    returns (n: nat, gst1: GState, wh: Where, a1: Anno)
    requires Compiled(w.alu, isMain, fn, fin, g)
    requires SInv(b) && Live(b) && Fits(w.alu, b, Return(r)) && MatchK(w.alu, fin, k, Visit(w.alu, b, Return(r)), a)
      && RegVal(regs, SLOT) == slot
    ensures Simulates(w, fin, g, slot, At(b, regs, t), m, ReturnStep(w, slot, r, t), n, gst1, wh, a1)
  {
    hide *;
    LiveParts(b);
    var bj := Visit(w.alu, b, Return(r));
    CompiledParts(w.alu, isMain, fn, fin, g);
    CompiledReturns(w.alu, isMain, fn, fin, g);
    ReturnIs(w.alu, b, r);
    ReturnStepIs(w, slot, r, t);
    MatchKExt(w.alu, fin, g, k, bj, a);
    ExtRefl(fin.plain);
    MatchKExt(w.alu, fin, fin.plain, k, bj, a);
    var gst, from := At(b, regs, t), b.cur.value;
    if r.None? {
      JumpGraph(w, b, RetBlk, g, regs, t);
      RetTargets(fin, g, bj, from);
      var n1 := RetSim(w, g, from, regs, t);
      Compose(w, g, gst, 1, Enter(g, from, RetBlk, regs, t), n1, GRet(slot, t));
      n, gst1, wh, a1 := 1 + n1, GRet(slot, t), Over, AEnd;
      OverIntro(w, fin, g, slot, gst, m, slot, t, n);
    } else {
      var x := GenExpr(w.alu, b, r.value);
      var ins := IStore(x.v);
      var b1 := Emit(x.b, ins);
      ExprMoves(w.alu, b, r.value);
      SInvInv(x.b);
      EmitGrows(x.b, ins);
      GrowsExt(x.b, b1);
      LiveParts(b1);
      LiveParts(x.b);
      JumpExt(b1, RetBlk);
      ExtTrans(b1.plain, bj.plain, g);
      ExtTrans(x.b.plain, b1.plain, g);
      var (v, t1) := Eval(w, r.value, t);
      var n1, r1 := SimValue(w, b, r.value, g, regs, t);
      SimEmit(w, x.b, ins, g, r1, t1);
      StoreIs(w, x.v, r1, t1, v);
      var r2 := ExecRegs(w, ins, r1, t1);
      Compose(w, g, gst, n1, At(x.b, r1, t1), 1, At(b1, r2, t1));
      JumpGraph(w, b1, RetBlk, g, r2, t1);
      Compose(w, g, gst, n1 + 1, At(b1, r2, t1), 1, Enter(g, b1.cur.value, RetBlk, r2, t1));
      RetTargets(fin, g, bj, b1.cur.value);
      var n2 := RetSim(w, g, b1.cur.value, r2, t1);
      Compose(w, g, gst, n1 + 1 + 1, Enter(g, b1.cur.value, RetBlk, r2, t1), n2, GRet(v, t1));
      n, gst1, wh, a1 := n1 + 1 + 1 + n2, GRet(v, t1), Over, AEnd;
      OverIntro(w, fin, g, slot, gst, m, v, t1, n);
    }
  }

  lemma JumpExt(b: Builder, to: BlockId)
    requires Live(b)
    ensures Ext(b.plain, Jump(b, to).plain)
  {
  }

  lemma StoreIs(w: World, x: Value, regs: Regs, t: Trace, v: int)
    requires Val(x, regs) == v
    ensures RegVal(ExecRegs(w, IStore(x), regs, t), SLOT) == v && ExecTrace(IStore(x), regs, t) == t
  {
  }

  function ReturnStep(w: World, slot: int, r: Option<Expr>, t: Trace): State {
    if r.None? then Done(slot, t) else var (v, t1) := Eval(w, r.value, t); Done(v, t1)
  }

  lemma ReturnStepIs(w: World, slot: int, r: Option<Expr>, t: Trace)
    ensures r.None? ==> ReturnStep(w, slot, r, t) == Done(slot, t)
    ensures r.Some? ==> var (v, t1) := Eval(w, r.value, t); ReturnStep(w, slot, r, t) == Done(v, t1)
  {
  }
}
