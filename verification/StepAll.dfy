/** One step of the source, whatever it is, is matched by a run of the emitted code. */
module StepAll {
  import opened Common
  import opened Source
  import opened Graph
  import opened Builder
  import opened CodeGen
  import opened Frames
  import opened FrameExpr
  import opened SimExpr
  import opened Static
  import opened FrameStmt
  import opened FrameLoops
  import opened FrameAll
  import opened MatchKont
  import opened Jumps
  import opened FindLabel
  import opened Simulation
  import opened StepSim
  import opened StmtSim

  /* Entering a loop. */

  function HeadStart(alu: Alu, b: Builder, s: Stmt): Builder {
    match s
    case While(_, _) => WhileStart(b)
    case DoWhile(_, _) => DoBody(b)
    case _ => ForStart(b)
  }

  lemma HeadFresh(alu: Alu, b: Builder, s: Stmt, g: Graph, regs: Regs, t: Trace)
    requires SInv(b) && Live(b) && Fits(alu, b, s) && IsLoopStmt(s) && Ext(HeadStart(alu, b, s).plain, g)
    ensures b.cur.Some? && Ext(EmitBranch(b, Blk(b.nextBlock)).plain, g)
  {
    hide Inv, Fits, Ext;
    var n, k := b.nextBlock, if s.For? then 4 else 3;
    assert Blk(n) !in b.plain by { FreshNumber(b); }
    BlockBranchExt(NewBlocks(b, k), Blk(n), g);
    assert EmitBranch(NewBlocks(b, k), Blk(n)).plain == EmitBranch(b, Blk(n)).plain;
  }

  lemma HeadStartIs(alu: Alu, b: Builder, s: Stmt)
    requires IsLoopStmt(s)
    ensures HeadStart(alu, b, s) == if s.While? then WhileStart(b) else if s.DoWhile? then DoBody(b) else ForStart(b)
  {
  }

  lemma DoStarts(alu: Alu, b: Builder, body: Stmt, c: Expr, g: Graph)
    requires SInv(b) && Live(b) && Fits(alu, b, DoWhile(body, c)) && Ext(Visit(alu, b, DoWhile(body, c)).plain, g)
    ensures Starts(DoBody(b), Blk(b.nextBlock)) && Ext(DoBody(b).plain, g)
  {
    hide *;
    DoFrameAll(alu, b, body, c);
    DoBodyFrame(b);
    DoExt(alu, b, c, body);
    var b2, b3 := GenStmt(alu, DoBody(b), body), DoEnd(alu, b, c, GenStmt(alu, DoBody(b), body)).plain;
    MovesExt(DoBody(b), b2, Labels(body), HasDefault(body));
    DoCondIs(b, b2);
    PopPlace(b2, Blk(b.nextBlock + 1));
    ExtTrans(b2.plain, DoCond(b, b2).plain, b3);
    ExtTrans(b2.plain, b3, g);
    ExtTrans(DoBody(b).plain, b2.plain, g);
  }

  lemma DoCondIs(b: Builder, b2: Builder)
    ensures DoCond(b, b2) == EmitBlock(PopFrame(b2), Blk(b.nextBlock + 1))
  {
  }

  lemma HeadStarts(alu: Alu, b: Builder, s: Stmt, g: Graph)
    requires SInv(b) && Live(b) && Fits(alu, b, s) && IsLoopStmt(s) && Ext(Visit(alu, b, s).plain, g)
    ensures Starts(HeadStart(alu, b, s), Blk(b.nextBlock)) && Ext(HeadStart(alu, b, s).plain, g)
  {
    hide *;
    HeadStartIs(alu, b, s);
    IsLoopIs(s);
    if s.While? { WhileGraph(alu, b, s.c, s.body, g); }
    else if s.DoWhile? { DoStarts(alu, b, s.body, s.c, g); }
    else { ForGraph(alu, b, s.cond, s.inc, s.body, g); }
  }

  lemma HeadRel(alu: Alu, fin: Builder, slot: int, s: Stmt, k: Kont, b: Builder, a: Anno, regs: Regs, t: Trace)
    requires IsLoopStmt(s) && SInv(b) && Live(b) && Fits(alu, b, s) && MatchK(alu, fin, k, Visit(alu, b, s), a)
      && RegVal(regs, SLOT) == slot
    ensures Rel(alu, fin, slot, Run(s, k, t), Head(b), a, GAt(Blk(b.nextBlock), 0, regs, t))
  {
  }

  lemma HeadStepIs(w: World, fn: Stmt, slot: int, s: Stmt, k: Kont, t: Trace)
    ensures s.While? ==>
        Step(w, fn, slot, Run(s, k, t)) == AfterTest(w, s.c, Run(s.body, KWhile(s.c, s.body, k), t), k, t)
    ensures s.DoWhile? ==> Step(w, fn, slot, Run(s, k, t)) == Run(s.body, KDo(s.body, s.c, k), t)
    ensures s.For? && s.init.None? ==> Step(w, fn, slot, Run(s, k, t)) == ForStep(w, s.cond, s.inc, s.body, k, t)
    ensures s.For? && s.init.Some? ==>
      Step(w, fn, slot, Run(s, k, t)) == Run(For(None, s.cond, s.inc, s.body), k, Eval(w, s.init.value, t).1)
  {
  }

  lemma IsLoopIs(s: Stmt)
    ensures IsLoopStmt(s) <==> s.While? || s.DoWhile? || (s.For? && s.init.None?)
    ensures s.For? && s.init.None? ==> s == For(None, s.cond, s.inc, s.body)
    ensures s.While? ==> s == While(s.c, s.body)
    ensures s.DoWhile? ==> s == DoWhile(s.body, s.c)
  {
  }

  lemma {:induction false} HeadSim(w: World, fn: Stmt, fin: Builder, g: Graph, slot: int, s: Stmt, k: Kont,
    b: Builder, a: Anno, regs: Regs, t: Trace)
    returns (n: nat, gst1: GState, wh: Where, a1: Anno)
    requires IsLoopStmt(s) && Ext(fin.plain, g)
    requires SInv(b) && Live(b) && Fits(w.alu, b, s) && MatchK(w.alu, fin, k, Visit(w.alu, b, s), a)
      && RegVal(regs, SLOT) == slot
    ensures Simulates(w, fin, g, slot, GAt(Blk(b.nextBlock), 0, regs, t), Measure(Run(s, k, t), Head(b)),
      Step(w, fn, slot, Run(s, k, t)), n, gst1, wh, a1)
  {
    hide *;
    HeadRel(w.alu, fin, slot, s, k, b, a, regs, t);
    HeadStepIs(w, fn, slot, s, k, t);
    IsLoopIs(s);
    if s.While? {
      n, gst1, wh, a1 := WhileHeadSim(w, fin, g, slot, b, s.c, s.body, k, a, regs, t, Measure(Run(s, k, t), Head(b)));
    } else if s.DoWhile? {
      n, gst1, wh, a1 := DoHeadSim(w, fin, g, slot, b, s.body, s.c, k, a, regs, t);
    } else {
      n, gst1, wh, a1 := ForHeadSim(w, fin, g, slot, b, s.cond, s.inc, s.body, k, a, regs, t);
    }
  }

  lemma {:induction false} LoopEntrySim(w: World, fn: Stmt, fin: Builder, g: Graph, slot: int, s: Stmt, k: Kont,
    b: Builder, a: Anno, regs: Regs, t: Trace, m: nat)
    returns (n: nat, gst1: GState, wh: Where, a1: Anno)
    requires IsLoopStmt(s) && Ext(fin.plain, g)
    requires SInv(b) && Live(b) && Fits(w.alu, b, s) && MatchK(w.alu, fin, k, Visit(w.alu, b, s), a)
      && RegVal(regs, SLOT) == slot
    ensures Simulates(w, fin, g, slot, At(b, regs, t), m, Step(w, fn, slot, Run(s, k, t)), n, gst1, wh, a1)
  {
    hide *;
    LiveParts(b);
    MatchKExt(w.alu, fin, g, k, Visit(w.alu, b, s), a);
    HeadStarts(w.alu, b, s, g);
    HeadFresh(w.alu, b, s, g, regs, t);
    var id := Blk(b.nextBlock);
    SimJump(w, b, id, g, regs, t);
    EnterStarted(HeadStart(w.alu, b, s), id, g, b.cur.value, regs, t);
    var n1: nat;
    n1, gst1, wh, a1 := HeadSim(w, fn, fin, g, slot, s, k, b, a, regs, t);
    ThenSimulates(w, fin, g, slot, At(b, regs, t), 1, GAt(id, 0, regs, t), m, Measure(Run(s, k, t), Head(b)),
      Step(w, fn, slot, Run(s, k, t)), n1, gst1, wh, a1);
    n := 1 + n1;
  }

  lemma ForInitParts(alu: Alu, b: Builder, s: Stmt)
    requires s.For? && s.init.Some? && SInv(b) && Live(b) && Fits(alu, b, s)
    ensures var b1, s1 := GenExpr(alu, b, s.init.value).b, For(None, s.cond, s.inc, s.body);
      && ValOK(alu, s.init.value) && SInv(b1) && Live(b1) && Fits(alu, b1, s1)
        && GenStmt(alu, b1, s1) == Visit(alu, b, s)
      && Ext(b1.plain, Visit(alu, b, s).plain)
  {
    hide SInv, Moves, Ext, Grows;
    ForFrameAll(alu, b, s);
    MovesExt(ForInit(alu, b, s.init), Visit(alu, b, s), Labels(s), HasDefault(s));
  }

  lemma ForInitSizes(s: Stmt, k: Kont)
    requires s.For? && s.init.Some?
    ensures Size(For(None, s.cond, s.inc, s.body)) + KSize(k) < Size(s) + KSize(k)
  {
  }

  lemma {:induction false} ForInitSim(w: World, fn: Stmt, fin: Builder, g: Graph, slot: int, s: Stmt, k: Kont,
    b: Builder, a: Anno, regs: Regs, t: Trace, m: nat)
    returns (n: nat, gst1: GState, wh: Where, a1: Anno)
    requires s.For? && s.init.Some? && Ext(fin.plain, g) && Size(s) + KSize(k) <= m
    requires SInv(b) && Live(b) && Fits(w.alu, b, s) && MatchK(w.alu, fin, k, Visit(w.alu, b, s), a)
      && RegVal(regs, SLOT) == slot
    ensures Simulates(w, fin, g, slot, At(b, regs, t), m, Step(w, fn, slot, Run(s, k, t)), n, gst1, wh, a1)
  {
    hide *;
    LiveParts(b);
    HeadStepIs(w, fn, slot, s, k, t);
    ForInitParts(w.alu, b, s);
    ForInitSizes(s, k);
    MatchKExt(w.alu, fin, g, k, Visit(w.alu, b, s), a);
    var b1, s1 := GenExpr(w.alu, b, s.init.value).b, For(None, s.cond, s.inc, s.body);
    LiveParts(b1);
    ExtTrans(b1.plain, Visit(w.alu, b, s).plain, g);
    var t1 := Eval(w, s.init.value, t).1;
    var n1, r1 := SimValue(w, b, s.init.value, g, regs, t);
    n, gst1, wh, a1 := n1, At(b1, r1, t1), Here(b1), a;
    HereIntro(w, fin, g, slot, At(b, regs, t), m, s1, k, t1, n, b1, a, r1);
  }

  /* All steps. */

  lemma StepIs(w: World, fn: Stmt, slot: int, s: Stmt, k: Kont, t: Trace)
    ensures s.Skip? ==> Step(w, fn, slot, Run(s, k, t)) == Resume(w, slot, k, t)
    ensures s.Seq? ==> Step(w, fn, slot, Run(s, k, t)) == Run(s.hd, KSeq(s.tl, k), t)
    ensures s.ExprStmt? ==>
        Step(w, fn, slot, Run(s, k, t)) == Run(Skip, k, if s.e.Some? then Eval(w, s.e.value, t).1 else t)
    ensures s.If? ==> Step(w, fn, slot, Run(s, k, t)) == IfStep(w, s, k, t)
    ensures s.Switch? ==> Step(w, fn, slot, Run(s, k, t)) == SwitchStep(w, s, k, t)
    ensures s.Label? || s.Case? || s.Default? ==> Step(w, fn, slot, Run(s, k, t)) == Run(s.s, k, t)
    ensures s.Goto? ==> Step(w, fn, slot, Run(s, k, t)) == OfFind(Find(SLabel(s.l), fn, KStop), t)
    ensures s.Break? ==> Step(w, fn, slot, Run(s, k, t)) == OfKont(AfterBreak(k), t)
    ensures s.Continue? ==> Step(w, fn, slot, Run(s, k, t)) == OfKont(AfterContinue(k), t)
    ensures s.Return? ==> Step(w, fn, slot, Run(s, k, t)) == ReturnStep(w, slot, s.r, t)
  {
  }

  lemma StmtIs(s: Stmt)
    ensures s.Seq? ==> s == Seq(s.hd, s.tl)
    ensures s.ExprStmt? ==> s == ExprStmt(s.e)
    ensures s.Switch? ==> s == Switch(s.c, s.body)
    ensures s.Goto? ==> s == Goto(s.l)
    ensures s.Return? ==> s == Return(s.r)
    ensures s.Break? ==> s == Break
    ensures s.Continue? ==> s == Continue
    ensures s.Skip? ==> s == Skip
    ensures s.Skip? || s.Seq? || s.ExprStmt? || s.If? || s.Switch? || s.Label? || s.Case? || s.Default? || s.Goto?
      || s.Break? || s.Continue? || s.Return? || s.While? || s.DoWhile? || s.For?
  {
  }

  lemma VisitSkip(alu: Alu, b: Builder)
    ensures Visit(alu, b, Skip) == b
  {
  }

  lemma MeasureHere(s: Stmt, k: Kont, t: Trace, b: Builder)
    ensures Measure(Run(s, k, t), Here(b)) == Size(s) + KSize(k) == Measure(Run(s, k, t), Head(b))
  {
  }

  /** The label of a goto is in the function. */
  predicate Resolved(fn: Stmt, s: Stmt) { s.Goto? ==> s.l in Labels(fn) }

  lemma ResolvedIs(fn: Stmt, l: nat)
    requires Resolved(fn, Goto(l))
    ensures l in Labels(fn)
  {
  }

  lemma {:induction false} HereSim(w: World, isMain: bool, fn: Stmt, fin: Builder, g: Graph, slot: int, s: Stmt,
    k: Kont, b: Builder, a: Anno, regs: Regs, t: Trace)
    returns (n: nat, gst1: GState, wh: Where, a1: Anno)
    requires Compiled(w.alu, isMain, fn, fin, g) && Resolved(fn, s)
    requires SInv(b) && Live(b) && Fits(w.alu, b, s) && MatchK(w.alu, fin, k, Visit(w.alu, b, s), a)
      && RegVal(regs, SLOT) == slot
    ensures Simulates(w, fin, g, slot, At(b, regs, t), Measure(Run(s, k, t), Here(b)),
      Step(w, fn, slot, Run(s, k, t)), n, gst1, wh, a1)
  {
    hide *;
    CompiledParts(w.alu, isMain, fn, fin, g);
    StepIs(w, fn, slot, s, k, t);
    StmtIs(s);
    IsLoopIs(s);
    MeasureHere(s, k, t, b);
    var m := Measure(Run(s, k, t), Here(b));
    if s.Skip? {
      VisitSkip(w.alu, b);
      n, gst1, wh, a1 := ResumeSim(w, isMain, fn, fin, g, slot, k, b, a, regs, t);
    } else if s.Seq? {
      n, gst1, wh, a1 := SeqSim(w, fin, g, slot, s.hd, s.tl, k, b, a, regs, t, m);
    } else if s.ExprStmt? {
      n, gst1, wh, a1 := ExprStmtSim(w, fin, g, slot, s.e, k, b, a, regs, t, m);
    } else if s.If? {
      if IfFolds(w.alu, s) {
        n, gst1, wh, a1 := IfFoldSim(w, fin, g, slot, s, k, b, a, regs, t, m);
      } else {
        n, gst1, wh, a1 := IfSim(w, fin, g, slot, s, k, b, a, regs, t, m);
      }
    } else if s.Switch? {
      n, gst1, wh, a1 := SwitchSim(w, fin, g, slot, s, k, b, a, regs, t, m);
    } else if s.Label? || s.Case? || s.Default? {
      n, gst1, wh, a1 := LabelledSim(w, fin, g, slot, s, k, b, a, regs, t, m);
    } else if s.Goto? {
      ResolvedIs(fn, s.l);
      n, gst1, wh, a1 := GotoSim(w, isMain, fn, fin, g, slot, s.l, k, b, a, regs, t, m);
    } else if s.Break? {
      n, gst1, wh, a1 := BreakSim(w, fin, g, slot, k, b, a, regs, t, m);
    } else if s.Continue? {
      n, gst1, wh, a1 := ContinueSim(w, fin, g, slot, k, b, a, regs, t, m);
    } else if s.Return? {
      n, gst1, wh, a1 := ReturnSim(w, isMain, fn, fin, g, slot, s.r, k, b, a, regs, t, m);
    } else if IsLoopStmt(s) {
      n, gst1, wh, a1 := LoopEntrySim(w, fn, fin, g, slot, s, k, b, a, regs, t, m);
    } else {
      n, gst1, wh, a1 := ForInitSim(w, fn, fin, g, slot, s, k, b, a, regs, t, m);
    }
  }

  lemma ContSizes(k: Kont, t: Trace, b: Builder)
    ensures k.KWhile? ==> Size(While(k.c, k.body)) + KSize(k.k) < Measure(Run(Skip, k, t), AtCont(b))
    ensures k.KFor? ==> Size(For(None, k.cond, k.inc, k.body)) + KSize(k.k) < Measure(Run(Skip, k, t), AtCont(b))
  {
  }

  lemma {:induction false} AtContSim(w: World, fn: Stmt, fin: Builder, g: Graph, slot: int, k: Kont, b: Builder,
    a: Anno, regs: Regs, t: Trace)
    returns (n: nat, gst1: GState, wh: Where, a1: Anno)
    requires Ext(fin.plain, g) && IsLoop(k) && a.ALoop? && MatchK(w.alu, fin, k, b, a) && RegVal(regs, SLOT) == slot
    ensures Simulates(w, fin, g, slot, GAt(ContBlock(a.b0, k), 0, regs, t), Measure(Run(Skip, k, t), AtCont(b)),
      Step(w, fn, slot, Run(Skip, k, t)), n, gst1, wh, a1)
  {
    hide *;
    var m := Measure(Run(Skip, k, t), AtCont(b));
    LoopKind(w.alu, fin, k, b, a);
    StepIs(w, fn, slot, Skip, k, t);
    ResumeIs(w, slot, k, t);
    ContSizes(k, t, b);
    if k.KWhile? {
      n, gst1, wh, a1 := WhileContSim(w, fin, g, slot, k, b, a, regs, t, m);
    } else if k.KDo? {
      n, gst1, wh, a1 := DoContSim(w, fin, g, slot, k, b, a, regs, t, m);
    } else {
      n, gst1, wh, a1 := ForContSim(w, fin, g, slot, k, b, a, regs, t, m);
    }
  }

  lemma RunIs(st: State)
    requires st.Run?
    ensures st == Run(st.s, st.k, st.t)
  {
  }

  lemma RelParts(alu: Alu, fin: Builder, slot: int, st: State, wh: Where, a: Anno, gst: GState)
    requires Rel(alu, fin, slot, st, wh, a, gst) && st.Run?
    ensures gst.GAt? && RegVal(gst.regs, SLOT) == slot && !wh.Over? && TraceOf(gst) == st.t
    ensures wh.Here? ==>
      && SInv(wh.b) && Live(wh.b) && Open(wh.b) && Fits(alu, wh.b, st.s)
        && MatchK(alu, fin, st.k, Visit(alu, wh.b, st.s), a) && gst == At(wh.b, gst.regs, st.t)
    ensures wh.Head? ==>
      && IsLoopStmt(st.s) && SInv(wh.b0) && Live(wh.b0) && Fits(alu, wh.b0, st.s)
        && MatchK(alu, fin, st.k, Visit(alu, wh.b0, st.s), a)
      && gst == GAt(Blk(wh.b0.nextBlock), 0, gst.regs, st.t)
    ensures wh.AtCont? ==>
      && st.s == Skip && IsLoop(st.k) && a.ALoop? && MatchK(alu, fin, st.k, wh.b, a)
      && gst == GAt(ContBlock(a.b0, st.k), 0, gst.regs, st.t)
  {
  }

  /** The heart of the simulation. */
  lemma {:induction false} StepMatched(w: World, isMain: bool, fn: Stmt, fin: Builder, g: Graph, slot: int, st: State,
    wh: Where, a: Anno, gst: GState)
    returns (n: nat, gst1: GState, wh1: Where, a1: Anno)
    requires Compiled(w.alu, isMain, fn, fin, g) && st.Run? && Resolved(fn, st.s)
      && Rel(w.alu, fin, slot, st, wh, a, gst)
    ensures Simulates(w, fin, g, slot, gst, Measure(st, wh), Step(w, fn, slot, st), n, gst1, wh1, a1)
  {
    hide *;
    CompiledParts(w.alu, isMain, fn, fin, g);
    RelParts(w.alu, fin, slot, st, wh, a, gst);
    RunIs(st);
    match wh
    case Here(b) => n, gst1, wh1, a1 := HereSim(w, isMain, fn, fin, g, slot, st.s, st.k, b, a, gst.regs, st.t);
    case Head(b0) => n, gst1, wh1, a1 := HeadSim(w, fn, fin, g, slot, st.s, st.k, b0, a, gst.regs, st.t);
    case AtCont(b) => n, gst1, wh1, a1 := AtContSim(w, fn, fin, g, slot, st.k, b, a, gst.regs, st.t);
    case Over =>
  }
}
