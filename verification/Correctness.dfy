/** Whole runs: the plain graph of a function behaves as its body does. */
module Correctness {
  import opened Common
  import opened Source
  import opened Graph
  import opened Builder
  import opened CodeGen
  import opened Frames
  import opened FrameExpr
  import opened SimExpr
  import opened FrameStmt
  import opened MatchKont
  import opened Simulation
  import opened StepSim
  import opened StmtSim
  import opened StepAll
  import opened Resolve

  lemma {:induction false} StepsSnoc(w: World, fn: Stmt, slot: int, st: State, n: nat)
    ensures Steps(w, fn, slot, st, n + 1) == Step(w, fn, slot, Steps(w, fn, slot, st, n))
    decreases n
  {
    if n > 0 { StepsSnoc(w, fn, slot, Step(w, fn, slot, st), n - 1); }
  }

  lemma ResolvedNow(fn: Stmt, st: State)
    requires st.Run? && RunGotosIn(st, Labels(fn))
    ensures Resolved(fn, st.s)
  {
  }

  lemma SimulatesParts(w: World, fin: Builder, g: Graph, slot: int, gst: GState, m: nat, st1: State, n: nat,
    gst1: GState, wh: Where, a: Anno)
    requires Simulates(w, fin, g, slot, gst, m, st1, n, gst1, wh, a)
    ensures GRun(w, g, gst, n) == gst1 && Rel(w.alu, fin, slot, st1, wh, a, gst1) && (n > 0 || Measure(st1, wh) < m)
  {
  }

  lemma RelFinal(alu: Alu, fin: Builder, slot: int, st: State, wh: Where, a: Anno, gst: GState)
    requires Rel(alu, fin, slot, st, wh, a, gst)
    ensures TraceOf(gst) == st.t && !gst.GStuck? && !st.Wrong?
    ensures st.Done? <==> gst.GRet?
    ensures st.Done? ==> gst == GRet(st.v, st.t)
  {
  }

  lemma DoneSteps(w: World, fn: Stmt, slot: int, st: State, n: nat)
    requires st.Done?
    ensures Steps(w, fn, slot, st, n) == st
    decreases n
  {
  }

  /** `n` steps of the source are matched. */
  lemma {:induction false} RunMatched(w: World, isMain: bool, fn: Stmt, fin: Builder, g: Graph, slot: int, st: State,
    wh: Where, a: Anno, gst: GState, n: nat)
    returns (m: nat, gst1: GState, wh1: Where, a1: Anno)
    requires Compiled(w.alu, isMain, fn, fin, g) && GotosIn(fn, Labels(fn)) && RunGotosIn(st, Labels(fn))
    requires Rel(w.alu, fin, slot, st, wh, a, gst)
    ensures GRun(w, g, gst, m) == gst1 && Rel(w.alu, fin, slot, Steps(w, fn, slot, st, n), wh1, a1, gst1)
    decreases n
  {
    hide Compiled, Rel, Simulates, RunGotosIn, Step, GRun, GotosIn, Resolved;
    RelFinal(w.alu, fin, slot, st, wh, a, gst);
    NoRun(w, g, gst);
    if n == 0 || st.Done? {
      if st.Done? { DoneSteps(w, fn, slot, st, n); }
      m, gst1, wh1, a1 := 0, gst, wh, a;
    } else {
      ResolvedNow(fn, st);
      var n1, gst2, wh2, a2 := StepMatched(w, isMain, fn, fin, g, slot, st, wh, a, gst);
      var st2 := Step(w, fn, slot, st);
      SimulatesParts(w, fin, g, slot, gst, Measure(st, wh), st2, n1, gst2, wh2, a2);
      StepGotosIn(w, fn, slot, st, Labels(fn));
      var m2: nat;
      m2, gst1, wh1, a1 := RunMatched(w, isMain, fn, fin, g, slot, st2, wh2, a2, gst2, n - 1);
      Compose(w, g, gst, n1, gst2, m2, gst1);
      m := n1 + m2;
    }
  }

  /** `m` steps of the code belong to a run of the source. */
  lemma {:induction false} RunCaught(w: World, isMain: bool, fn: Stmt, fin: Builder, g: Graph, slot: int, st: State,
    wh: Where, a: Anno, gst: GState, m: nat)
    returns (n: nat, m1: nat, gst1: GState, wh1: Where, a1: Anno)
    requires Compiled(w.alu, isMain, fn, fin, g) && GotosIn(fn, Labels(fn)) && RunGotosIn(st, Labels(fn))
    requires Rel(w.alu, fin, slot, st, wh, a, gst)
    ensures m <= m1 && GRun(w, g, gst, m1) == gst1 && Rel(w.alu, fin, slot, Steps(w, fn, slot, st, n), wh1, a1, gst1)
    decreases m, Measure(st, wh)
  {
    hide Compiled, Rel, Simulates, RunGotosIn, Step, GRun, GotosIn, Resolved, Measure;
    RelFinal(w.alu, fin, slot, st, wh, a, gst);
    NoRun(w, g, gst);
    if st.Done? {
      n, m1, gst1, wh1, a1 := 0, m, gst, wh, a;
      GRunFinal(w, g, gst, m);
    } else if m == 0 {
      n, m1, gst1, wh1, a1 := 0, 0, gst, wh, a;
    } else {
      ResolvedNow(fn, st);
      var n1, gst2, wh2, a2 := StepMatched(w, isMain, fn, fin, g, slot, st, wh, a, gst);
      var st2 := Step(w, fn, slot, st);
      SimulatesParts(w, fin, g, slot, gst, Measure(st, wh), st2, n1, gst2, wh2, a2);
      StepGotosIn(w, fn, slot, st, Labels(fn));
      var n2, m2: nat;
      n2, m2, gst1, wh1, a1 := RunCaught(w, isMain, fn, fin, g, slot, st2, wh2, a2, gst2, if n1 > m then 0 else m - n1);
      Compose(w, g, gst, n1, gst2, m2, gst1);
      n, m1 := n2 + 1, n1 + m2;
    }
  }

  lemma {:induction false} GRunTrace(w: World, g: Graph, st: GState, m: nat)
    ensures TraceOf(st) <= TraceOf(GRun(w, g, st, m))
    decreases m
  {
    if m > 0 { GRunTrace(w, g, GStep(w, g, st), m - 1); }
  }

  lemma GRunLater(w: World, g: Graph, st: GState, m: nat, m1: nat)
    requires m <= m1
    ensures TraceOf(GRun(w, g, st, m)) <= TraceOf(GRun(w, g, st, m1))
    ensures !GRun(w, g, st, m).GAt? ==> GRun(w, g, st, m1) == GRun(w, g, st, m)
  {
    GRunAdd(w, g, st, m, m1 - m);
    GRunTrace(w, g, GRun(w, g, st, m), m1 - m);
    if !GRun(w, g, st, m).GAt? { GRunFinal(w, g, GRun(w, g, st, m), m1 - m); }
  }
}
