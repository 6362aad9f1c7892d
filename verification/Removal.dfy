/** Removing forwarding blocks from the graph keeps its behaviour. */
module Removal {
  import opened Common
  import opened Source
  import opened Graph
  import opened Builder
  import opened Frames
  import opened SimExpr
  import opened Simulation

  lemma {:induction false} LookupRedirect(gone: map<BlockId, BlockId>, cases: seq<(int, BlockId)>, d: BlockId, v: int)
    ensures var cs := RedirectTerm(gone, SwitchT(Imm(0), cases, d)).cases;
      Lookup(cs, v) == if Lookup(cases, v).Some? then Some(Redirect(gone, Lookup(cases, v).value)) else None
  {
    var cs := RedirectTerm(gone, SwitchT(Imm(0), cases, d)).cases;
    if cases != [] {
      LookupRedirect(gone, cases[1..], d, v);
      assert cs[1..] == RedirectTerm(gone, SwitchT(Imm(0), cases[1..], d)).cases;
    }
  }

  lemma TargetRedirect(gone: map<BlockId, BlockId>, t: Term, regs: Regs)
    requires !t.Ret?
    ensures !RedirectTerm(gone, t).Ret? && Target(RedirectTerm(gone, t), regs) == Redirect(gone, Target(t, regs))
  {
    if t.SwitchT? {
      LookupRedirect(gone, t.cases, t.dflt, Val(t.x, regs));
      assert RedirectTerm(gone, SwitchT(Imm(0), t.cases, t.dflt)).cases == RedirectTerm(gone, t).cases;
    }
  }

  lemma {:induction false} ChainRun(w: World, g: Graph, f: BlockId, to: BlockId, n: nat, regs: Regs, t: Trace)
    requires Chain(g, f, to, n)
    ensures GRun(w, g, GAt(f, 0, regs, t), n) == GAt(to, 0, regs, t)
    decreases n
  {
    if n > 0 { ChainRun(w, g, g[f].term.value.to, to, n - 1, regs, t); }
  }

  lemma {:induction false} ChainEnd(g: Graph, f: BlockId, to: BlockId, n: nat)
    requires Chain(g, f, to, n) && n > 0
    ensures f in g && g[f].phi.None? && to in g && g[to].phi.None?
    decreases n
  {
    if n > 1 { ChainEnd(g, g[f].term.value.to, to, n - 1); }
  }

  /** Entering a block of the graph, or its replacement. */
  lemma EnterReal(w: World, g: Graph, gone: map<BlockId, BlockId>, from: BlockId, to: BlockId, regs: Regs,
    t: Trace) returns (n: nat)
    requires GoneOK(g, gone)
    ensures var st := Enter(Real(g, gone), from, Redirect(gone, to), regs, t);
      GRun(w, g, Enter(g, from, to, regs, t), n) == st && (st.GAt? ==> st.b !in gone)
  {
    n := 0;
    if to in gone {
      assert Forwards(g, gone, to);
      n :| n > 0 && Chain(g, to, gone[to], n);
      ChainEnd(g, to, gone[to], n);
      ChainRun(w, g, to, gone[to], n, regs, t);
    }
  }

  /** A step without the removed blocks is one or more steps with them. */
  lemma RealStep(w: World, g: Graph, gone: map<BlockId, BlockId>, st: GState) returns (n: nat)
    requires GoneOK(g, gone) && (st.GAt? ==> st.b !in gone)
    ensures var st1 := GStep(w, Real(g, gone), st);
      GRun(w, g, st, n) == st1 && n > 0 && (st1.GAt? ==> st1.b !in gone)
  {
    hide GoneOK;
    assert GRun(w, g, st, 1) == GStep(w, g, st) by { NoRun(w, g, GStep(w, g, st)); }
    n := 1;
    if st.GAt? && st.b in g && st.i == |g[st.b].instrs| && g[st.b].term.Some? && !g[st.b].term.value.Ret? {
      var term := g[st.b].term.value;
      TargetRedirect(gone, term, st.regs);
      var to := Target(term, st.regs);
      var n1 := EnterReal(w, g, gone, st.b, to, st.regs, st.t);
      Compose(w, g, st, 1, Enter(g, st.b, to, st.regs, st.t), n1,
        Enter(Real(g, gone), st.b, Redirect(gone, to), st.regs, st.t));
      n := 1 + n1;
    }
  }

  lemma {:induction false} RealRun(w: World, g: Graph, gone: map<BlockId, BlockId>, st: GState, m: nat) returns (n: nat)
    requires GoneOK(g, gone) && (st.GAt? ==> st.b !in gone)
    ensures m <= n && GRun(w, g, st, n) == GRun(w, Real(g, gone), st, m)
    decreases m
  {
    hide GoneOK, GStep, Real;
    n := 0;
    if m > 0 {
      var n1 := RealStep(w, g, gone, st);
      var st1 := GStep(w, Real(g, gone), st);
      var n2 := RealRun(w, g, gone, st1, m - 1);
      Compose(w, g, st, n1, st1, n2, GRun(w, Real(g, gone), st, m));
      n := n1 + n2;
    }
  }
}
