/** The compiled function does what the function does. */
module Behaviour {
  import opened Common
  import opened Source
  import opened Graph
  import opened Builder
  import opened CodeGen
  import opened Frames
  import opened SimExpr
  import opened FrameStmt
  import opened FrameLoops
  import opened FrameAll
  import opened MatchKont
  import opened Simulation
  import opened StepSim
  import opened Resolve
  import opened Correctness
  import opened Finish
  import opened Removal

  /** The blocks of the finished function. */
  function Code(alu: Alu, isMain: bool, fn: Stmt): Graph {
    var b := GenFunction(alu, isMain, fn);
    Real(b.plain, b.gone)
  }

  /** Before the first store the slot holds anything. */
  function SlotAtStart(isMain: bool, regs: Regs): int { if isMain then 0 else RegVal(regs, SLOT) }

  function SourceRun(w: World, isMain: bool, fn: Stmt, regs: Regs, n: nat): State {
    Steps(w, fn, SlotAtStart(isMain, regs), Run(fn, KStop, []), n)
  }
  function CodeRun(w: World, isMain: bool, fn: Stmt, regs: Regs, m: nat): GState {
    GRun(w, Code(w.alu, isMain, fn), GAt(ENTRY, 0, regs, []), m)
  }

  lemma FunctionCompiled(alu: Alu, isMain: bool, fn: Stmt)
    requires FunctionOK(alu, fn)
    ensures var fin, b := GenStmt(alu, StartFunction(isMain), fn), GenFunction(alu, isMain, fn);
      && Compiled(alu, isMain, fn, fin, b.plain) && Inv(b) && Live(StartFunction(isMain)) && b.stack == [] && b.sw.None?
      && ENTRY !in b.gone && MatchK(alu, fin, KStop, fin, AEnd)
  {
    hide Moves, SInv, Inv, Ext, Advances, Fits, FinishFunction, StartFunction, Returns, GoneOK;
    var b0, fin, b := StartFunction(isMain), GenStmt(alu, StartFunction(isMain), fn), GenFunction(alu, isMain, fn);
    StartFacts(alu, isMain, fn);
    StmtFrame(alu, b0, fn);
    ReturnFresh(b0, fin, Labels(fn), HasDefault(fn));
    MovesStack(b0, fin, Labels(fn), HasDefault(fn));
    FinishReturns(fin);
    FinishInv(fin);
    MovesExt(b0, fin, Labels(fn), HasDefault(fn));
    ExtTrans(b0.plain, fin.plain, b.plain);
    EntryStays(isMain, b);
  }

  lemma MovesStack(b: Builder, b1: Builder, ls: set<nat>, d: bool)
    requires Moves(b, b1, ls, d)
    ensures b1.stack == b.stack && (b1.sw.None? <==> b.sw.None?)
  {
  }

  lemma EntryStays(isMain: bool, b: Builder)
    requires Inv(b) && Ext(StartFunction(isMain).plain, b.plain)
    ensures ENTRY !in b.gone && ENTRY in b.plain && EntryInstrs(isMain) <= b.plain[ENTRY].instrs
  {
    hide GoneOK;
    StartIs(isMain);
    assert Extends(StartFunction(isMain).plain[ENTRY], b.plain[ENTRY]);
    if ENTRY in b.gone { GoneClosed(b.plain, b.gone, ENTRY); }
  }

  /** The entry block stores the value that main returns by default. */
  lemma EntryRun(w: World, isMain: bool, g: Graph, regs: Regs) returns (n: nat, regs1: Regs)
    requires ENTRY in g && EntryInstrs(isMain) <= g[ENTRY].instrs
    ensures Open(StartFunction(isMain))
    ensures GRun(w, g, GAt(ENTRY, 0, regs, []), n) == At(StartFunction(isMain), regs1, [])
      && RegVal(regs1, SLOT) == SlotAtStart(isMain, regs)
  {
    StartIs(isMain);
    var code, st := g[ENTRY].instrs, GAt(ENTRY, 0, regs, []);
    assert code[0] == EntryInstrs(isMain)[0] == INop;
    assert GStep(w, g, st) == GAt(ENTRY, 1, regs, []);
    NoRun(w, g, GAt(ENTRY, 1, regs, []));
    n, regs1 := 1, regs;
    assert GRun(w, g, st, 1) == GAt(ENTRY, 1, regs, []);
    if isMain {
      assert code[1] == EntryInstrs(isMain)[1] == IStore(Imm(0));
      regs1 := regs[SLOT := 0];
      assert GStep(w, g, GAt(ENTRY, 1, regs, [])) == GAt(ENTRY, 2, regs1, []);
      NoRun(w, g, GAt(ENTRY, 2, regs1, []));
      assert GRun(w, g, GAt(ENTRY, 1, regs, []), 1) == GAt(ENTRY, 2, regs1, []);
      Compose(w, g, st, 1, GAt(ENTRY, 1, regs, []), 1, GAt(ENTRY, 2, regs1, []));
      n := 2;
    }
  }

  /** The run stands where the source starts. */
  lemma StartRel(w: World, isMain: bool, fn: Stmt, regs: Regs) returns (n: nat, regs1: Regs)
    requires FunctionOK(w.alu, fn)
    ensures var b0, fin, g := StartFunction(isMain), GenStmt(w.alu, StartFunction(isMain), fn),
      GenFunction(w.alu, isMain, fn).plain;
      && Open(b0) && GRun(w, g, GAt(ENTRY, 0, regs, []), n) == At(b0, regs1, [])
      && Rel(w.alu, fin, SlotAtStart(isMain, regs), Run(fn, KStop, []), Here(b0), AEnd, At(b0, regs1, []))
  {
    hide *;
    var b0, fin, b := StartFunction(isMain), GenStmt(w.alu, StartFunction(isMain), fn), GenFunction(w.alu, isMain, fn);
    FunctionCompiled(w.alu, isMain, fn);
    CompiledParts(w.alu, isMain, fn, fin, b.plain);
    StartFacts(w.alu, isMain, fn);
    LiveParts(b0);
    MatchKExt(w.alu, fin, fin.plain, KStop, fin, AEnd) by { ExtRefl(fin.plain); }
    StartExt(w.alu, isMain, fn);
    EntryStays(isMain, b);
    n, regs1 := EntryRun(w, isMain, b.plain, regs);
    RelStart(w.alu, fin, SlotAtStart(isMain, regs), fn, b0, regs1);
  }

  lemma StartExt(alu: Alu, isMain: bool, fn: Stmt)
    requires FunctionOK(alu, fn)
    ensures Ext(StartFunction(isMain).plain, GenFunction(alu, isMain, fn).plain)
  {
    hide *;
    var b0, fin := StartFunction(isMain), GenStmt(alu, StartFunction(isMain), fn);
    FunctionCompiled(alu, isMain, fn);
    CompiledParts(alu, isMain, fn, fin, GenFunction(alu, isMain, fn).plain);
    StmtFrame(alu, b0, fn);
    MovesExt(b0, fin, Labels(fn), HasDefault(fn));
    ExtTrans(b0.plain, fin.plain, GenFunction(alu, isMain, fn).plain);
  }

  lemma RelStart(alu: Alu, fin: Builder, slot: int, fn: Stmt, b0: Builder, regs: Regs)
    requires SInv(b0) && Live(b0) && Fits(alu, b0, fn) && MatchK(alu, fin, KStop, GenStmt(alu, b0, fn), AEnd)
      && RegVal(regs, SLOT) == slot
    ensures Rel(alu, fin, slot, Run(fn, KStop, []), Here(b0), AEnd, At(b0, regs, []))
  {
  }

  lemma FunctionParts(alu: Alu, fn: Stmt)
    requires FunctionOK(alu, fn)
    ensures GotosIn(fn, Labels(fn)) && RunGotosIn(Run(fn, KStop, []), Labels(fn))
  {
  }

  lemma CodeIs(alu: Alu, isMain: bool, fn: Stmt)
    ensures var b := GenFunction(alu, isMain, fn); Code(alu, isMain, fn) == Real(b.plain, b.gone)
  {
  }

  lemma InvGone(b: Builder)
    requires Inv(b)
    ensures GoneOK(b.plain, b.gone)
  {
  }

  lemma RunsAre(w: World, isMain: bool, fn: Stmt, regs: Regs, n: nat)
    ensures SourceRun(w, isMain, fn, regs, n) == Steps(w, fn, SlotAtStart(isMain, regs), Run(fn, KStop, []), n)
    ensures CodeRun(w, isMain, fn, regs, n) == GRun(w, Code(w.alu, isMain, fn), GAt(ENTRY, 0, regs, []), n)
    ensures TraceOf(CodeRun(w, isMain, fn, regs, n)) == CodeRun(w, isMain, fn, regs, n).t
  {
  }

  /** The graph with the removed blocks runs along with the code. */
  lemma {:induction false} PlainRun(w: World, isMain: bool, fn: Stmt, regs: Regs, m: nat) returns (m1: nat)
    requires FunctionOK(w.alu, fn)
    ensures m <= m1 && GRun(w, GenFunction(w.alu, isMain, fn).plain, GAt(ENTRY, 0, regs, []), m1) ==
      CodeRun(w, isMain, fn, regs, m)
  {
    hide *;
    var b := GenFunction(w.alu, isMain, fn);
    FunctionCompiled(w.alu, isMain, fn);
    InvGone(b);
    CodeIs(w.alu, isMain, fn);
    RunsAre(w, isMain, fn, regs, m);
    m1 := RealRun(w, b.plain, b.gone, GAt(ENTRY, 0, regs, []), m);
  }

  /** Whatever the source does, the code does. */
  lemma {:induction false} SourceToCode(w: World, isMain: bool, fn: Stmt, regs: Regs, n: nat) returns (m: nat)
    requires FunctionOK(w.alu, fn)
    ensures var st, gst := SourceRun(w, isMain, fn, regs, n), CodeRun(w, isMain, fn, regs, m);
      !st.Wrong? && st.t <= gst.t && (st.Done? ==> gst == GRet(st.v, st.t))
  {
    hide *;
    var slot, b0, fin, g := SlotAtStart(isMain, regs), StartFunction(isMain),
      GenStmt(w.alu, StartFunction(isMain), fn), GenFunction(w.alu, isMain, fn).plain;
    FunctionCompiled(w.alu, isMain, fn);
    FunctionParts(w.alu, fn);
    var n0, r0 := StartRel(w, isMain, fn, regs);
    var st := SourceRun(w, isMain, fn, regs, n);
    var m1, gst1, wh1, a1 := RunMatched(w, isMain, fn, fin, g, slot, Run(fn, KStop, []), Here(b0),
      AEnd, At(b0, r0, []), n);
    Compose(w, g, GAt(ENTRY, 0, regs, []), n0, At(b0, r0, []), m1, gst1);
    m := n0 + m1;
    RunsAre(w, isMain, fn, regs, n);
    RunsAre(w, isMain, fn, regs, m);
    RelFinal(w.alu, fin, slot, st, wh1, a1, gst1);
    var m2 := PlainRun(w, isMain, fn, regs, m);
    GRunLater(w, g, GAt(ENTRY, 0, regs, []), m, m2);
  }

  /** Whatever the code does, the source does; the code never gets stuck. */
  lemma {:induction false} CodeToSource(w: World, isMain: bool, fn: Stmt, regs: Regs, m: nat) returns (n: nat)
    requires FunctionOK(w.alu, fn)
    ensures var st, gst := SourceRun(w, isMain, fn, regs, n), CodeRun(w, isMain, fn, regs, m);
      !gst.GStuck? && gst.t <= st.t && (gst.GRet? ==> st == Done(gst.v, gst.t))
  {
    hide *;
    var slot, b0, fin, g := SlotAtStart(isMain, regs), StartFunction(isMain),
      GenStmt(w.alu, StartFunction(isMain), fn), GenFunction(w.alu, isMain, fn).plain;
    FunctionCompiled(w.alu, isMain, fn);
    FunctionParts(w.alu, fn);
    var n0, r0 := StartRel(w, isMain, fn, regs);
    var m1 := PlainRun(w, isMain, fn, regs, m);
    var n1, m2, gst1, wh1, a1 := RunCaught(w, isMain, fn, fin, g, slot, Run(fn, KStop, []), Here(b0),
      AEnd, At(b0, r0, []), m1);
    Compose(w, g, GAt(ENTRY, 0, regs, []), n0, At(b0, r0, []), m2, gst1);
    n := n1;
    RunsAre(w, isMain, fn, regs, n);
    RunsAre(w, isMain, fn, regs, m);
    RelFinal(w.alu, fin, slot, SourceRun(w, isMain, fn, regs, n), wh1, a1, gst1);
    GRunLater(w, g, GAt(ENTRY, 0, regs, []), m1, n0 + m2);
  }

  /** The trace so far of some run, and the result of a finished one. */
  ghost predicate SourceShows(w: World, isMain: bool, fn: Stmt, regs: Regs, tr: Trace) {
    exists n: nat :: tr <= SourceRun(w, isMain, fn, regs, n).t
  }
  ghost predicate CodeShows(w: World, isMain: bool, fn: Stmt, regs: Regs, tr: Trace) {
    exists m: nat :: tr <= CodeRun(w, isMain, fn, regs, m).t
  }
  ghost predicate SourceReturns(w: World, isMain: bool, fn: Stmt, regs: Regs, v: int, tr: Trace) {
    exists n: nat :: SourceRun(w, isMain, fn, regs, n) == Done(v, tr)
  }
  ghost predicate CodeReturns(w: World, isMain: bool, fn: Stmt, regs: Regs, v: int, tr: Trace) {
    exists m: nat :: CodeRun(w, isMain, fn, regs, m) == GRet(v, tr)
  }

  lemma ShowsSame(w: World, isMain: bool, fn: Stmt, regs: Regs, tr: Trace)
    requires FunctionOK(w.alu, fn)
    ensures SourceShows(w, isMain, fn, regs, tr) <==> CodeShows(w, isMain, fn, regs, tr)
  {
    hide FunctionOK, SourceRun, CodeRun;
    if SourceShows(w, isMain, fn, regs, tr) {
      var n: nat :| tr <= SourceRun(w, isMain, fn, regs, n).t;
      var m := SourceToCode(w, isMain, fn, regs, n);
      assert tr <= CodeRun(w, isMain, fn, regs, m).t;
    }
    if CodeShows(w, isMain, fn, regs, tr) {
      var m: nat :| tr <= CodeRun(w, isMain, fn, regs, m).t;
      var n := CodeToSource(w, isMain, fn, regs, m);
      assert tr <= SourceRun(w, isMain, fn, regs, n).t;
    }
  }

  lemma ReturnsSame(w: World, isMain: bool, fn: Stmt, regs: Regs, v: int, tr: Trace)
    requires FunctionOK(w.alu, fn)
    ensures SourceReturns(w, isMain, fn, regs, v, tr) <==> CodeReturns(w, isMain, fn, regs, v, tr)
  {
    hide FunctionOK, SourceRun, CodeRun;
    if SourceReturns(w, isMain, fn, regs, v, tr) {
      var n: nat :| SourceRun(w, isMain, fn, regs, n) == Done(v, tr);
      var m := SourceToCode(w, isMain, fn, regs, n);
    }
    if CodeReturns(w, isMain, fn, regs, v, tr) {
      var m: nat :| CodeRun(w, isMain, fn, regs, m) == GRet(v, tr);
      var n := CodeToSource(w, isMain, fn, regs, m);
    }
  }

  ghost predicate SourceRunsOn(w: World, isMain: bool, fn: Stmt, regs: Regs) {
    forall n: nat :: SourceRun(w, isMain, fn, regs, n).Run? }
  ghost predicate CodeRunsOn(w: World, isMain: bool, fn: Stmt, regs: Regs) {
    forall m: nat :: CodeRun(w, isMain, fn, regs, m).GAt? }

  lemma RunsOnSame(w: World, isMain: bool, fn: Stmt, regs: Regs)
    requires FunctionOK(w.alu, fn)
    ensures SourceRunsOn(w, isMain, fn, regs) <==> CodeRunsOn(w, isMain, fn, regs)
  {
    hide FunctionOK, SourceRun, CodeRun;
    if SourceRunsOn(w, isMain, fn, regs) {
      forall m: nat ensures CodeRun(w, isMain, fn, regs, m).GAt? { var n := CodeToSource(w, isMain, fn, regs, m); }
    }
    if CodeRunsOn(w, isMain, fn, regs) {
      forall n: nat ensures SourceRun(w, isMain, fn, regs, n).Run? { var m := SourceToCode(w, isMain, fn, regs, n); }
    }
  }

  /** Effects, result and termination of the compiled function are those of its body. */
  lemma {:induction false} CompiledFunctionBehaves(w: World, isMain: bool, fn: Stmt, regs: Regs,
    v: int, tr: Trace, m: nat)
    requires FunctionOK(w.alu, fn)
    ensures SourceShows(w, isMain, fn, regs, tr) <==> CodeShows(w, isMain, fn, regs, tr)
    ensures SourceReturns(w, isMain, fn, regs, v, tr) <==> CodeReturns(w, isMain, fn, regs, v, tr)
    ensures SourceRunsOn(w, isMain, fn, regs) <==> CodeRunsOn(w, isMain, fn, regs)
    ensures !CodeRun(w, isMain, fn, regs, m).GStuck? && !SourceRun(w, isMain, fn, regs, m).Wrong?
  {
    hide *;
    ShowsSame(w, isMain, fn, regs, tr);
    ReturnsSame(w, isMain, fn, regs, v, tr);
    RunsOnSame(w, isMain, fn, regs);
    var n := CodeToSource(w, isMain, fn, regs, m);
    var m1 := SourceToCode(w, isMain, fn, regs, m);
  }
}
