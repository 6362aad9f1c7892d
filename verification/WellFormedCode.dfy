/** The blocks of a finished function form a well-formed graph. */
module WellFormedCode {
  import opened Common
  import opened Source
  import opened Graph
  import opened Builder
  import opened CodeGen
  import opened Frames
  import opened FrameExpr
  import opened SimExpr
  import opened Static
  import opened FrameStmt
  import opened FrameLoops
  import opened FrameAll
  import opened MatchKont
  import opened Jumps
  import opened FindLabel
  import opened Simulation
  import opened StepSim
  import opened StmtSim
  import opened Resolve
  import opened Finish
  import opened Behaviour
  import opened WellFormedExpr
  import opened WellFormedStmt
  import opened WellFormedAll

  /** Every block is closed, every branch leads to a block of the function, every phi has one entry
      for each block that branches to it and no other, and one block returns. */
  predicate WellFormed(g: Graph, ret: BlockId) {
    && (forall x :: x in g ==> g[x].term.Some? && Targets(g[x]) <= g.Keys)
    && (forall x :: x in g && g[x].phi.Some? ==> g[x].phi.value.incoming.Keys == Preds(g, x))
    && ret in g && g[ret].term == Some(Ret) && forall x :: x in g && g[x].term == Some(Ret) ==> x == ret
  }

  /** Every label of the function has been emitted. */
  lemma {:induction false} LabelEmitted(alu: Alu, isMain: bool, fn: Stmt, l: nat)
    requires FunctionOK(alu, fn) && l in Labels(fn)
    ensures Lbl(l) in GenStmt(alu, StartFunction(isMain), fn).plain
  {
    hide *;
    var b0, fin := StartFunction(isMain), GenStmt(alu, StartFunction(isMain), fn);
    StartFacts(alu, isMain, fn);
    FunctionCompiled(alu, isMain, fn);
    FindGoto(l, fn, KStop);
    var b1, a1, id := Found(alu, fin, SLabel(l), b0, fn, KStop, AEnd);
    var q := Find(SLabel(l), fn, KStop).value;
    SelectsLabelIs(l, b0, fin, id);
    LandsParts(alu, fin, q, b1, a1, id);
    ExtRefl(fin.plain);
    MatchKExt(alu, fin, fin.plain, q.1, GenStmt(alu, b1, q.0), a1);
    SameStack(alu, b1, q.0);
    ExtTrans(b1.plain, GenStmt(alu, b1, q.0).plain, fin.plain);
    StartsIn(b1, id, fin.plain);
  }

  /** No label is ever removed. */
  lemma LabelsStay(alu: Alu, isMain: bool, fn: Stmt)
    requires FunctionOK(alu, fn)
    ensures forall x :: x in GenStmt(alu, StartFunction(isMain), fn).gone ==> x.Blk?
  {
    hide GenStmt, Fits, Inv;
    var b := StartFunction(isMain);
    StartFacts(alu, isMain, fn);
    StmtFrame(alu, b, fn);
    StartIs(isMain);
    assert b.gone == map[];
  }

  lemma FinishKeepsLabels(b: Builder, l: nat)
    requires Lbl(l) in b.plain && Lbl(l) !in b.gone
    ensures Lbl(l) in Real(FinishFunction(b).plain, FinishFunction(b).gone)
  {
  }

  /** Every label of the function has a block in the finished code. */
  lemma LabelPlaced(alu: Alu, isMain: bool, fn: Stmt, l: nat)
    requires FunctionOK(alu, fn) && l in Labels(fn)
    ensures Lbl(l) in Code(alu, isMain, fn)
  {
    hide *;
    LabelEmitted(alu, isMain, fn, l);
    LabelsStay(alu, isMain, fn);
    FinishKeepsLabels(GenStmt(alu, StartFunction(isMain), fn), l);
    GenFunctionIs(alu, isMain, fn);
    CodeIs(alu, isMain, fn);
  }

  function NoPlan(fn: Stmt): Plan { Plan({}, {}, Labels(fn)) }

  lemma StartReady(isMain: bool, fn: Stmt)
    ensures Ready(StartFunction(isMain), NoPlan(fn)) && StartFunction(isMain).sw.None?
  {
    StartIs(isMain);
  }

  lemma BodyWell(alu: Alu, isMain: bool, fn: Stmt)
    requires FunctionOK(alu, fn)
    ensures var fin := GenStmt(alu, StartFunction(isMain), fn);
      Formed(fin, NoPlan(fn)) && SInv(fin) && RetBlk !in fin.plain
  {
    hide *;
    StartFacts(alu, isMain, fn);
    StartReady(isMain, fn);
    KnownAtStart(alu, fn);
    StmtWell(alu, StartFunction(isMain), fn, NoPlan(fn));
    StmtFrame(alu, StartFunction(isMain), fn);
    ResultReady(StartFunction(isMain), GenStmt(alu, StartFunction(isMain), fn), NoPlan(fn), HasDefault(fn));
    AfterNoSwitch(StartFunction(isMain), NoPlan(fn), HasDefault(fn));
    ReadyParts(GenStmt(alu, StartFunction(isMain), fn), NoPlan(fn));
    FormedRet(GenStmt(alu, StartFunction(isMain), fn), NoPlan(fn));
  }

  lemma FormedRet(b: Builder, p: Plan)
    requires Formed(b, p)
    ensures RetBlk !in b.plain
  {
  }

  lemma KnownAtStart(alu: Alu, fn: Stmt)
    requires FunctionOK(alu, fn)
    ensures LabelsKnown(fn, NoPlan(fn).labels)
  {
  }

  lemma AfterNoSwitch(b: Builder, p: Plan, d: bool)
    requires b.sw.None?
    ensures After(p, b, d) == p
  {
  }

  /** Before the end of the function: what is missing is the return block, and the terminator of the
      current block. */
  predicate AlmostWellFormed(b: Builder) {
    && (forall x :: x in b.plain ==> (b.plain[x].term.None? ==> Some(x) == b.cur) && b.plain[x].term != Some(Ret))
    && (forall x :: x in b.plain ==> Targets(b.plain[x]) <= b.plain.Keys + {RetBlk})
    && (forall x ::
        x in b.plain && b.plain[x].phi.Some? ==> x != RetBlk && b.plain[x].phi.value.incoming.Keys == Preds(b.plain, x))
    && RetBlk !in b.plain
  }

  lemma FormedAlmost(b: Builder, p: Plan)
    requires Formed(b, p) && p.due == {} && p.wait == {} && forall l :: l in p.labels ==> Lbl(l) in b.plain
    ensures AlmostWellFormed(b)
  {
    hide Preds;
    forall x | x in b.plain
      ensures (b.plain[x].term.None? ==> Some(x) == b.cur) && b.plain[x].term != Some(Ret)
        && Targets(b.plain[x]) <= b.plain.Keys + {RetBlk}
      ensures b.plain[x].phi.Some? ==> x != RetBlk && b.plain[x].phi.value.incoming.Keys == Preds(b.plain, x)
    {
      assert BlockOK(b, p, x);
    }
  }

  /** Closing the current block, or placing a block, does not add branches to a phi. */
  lemma CloseWith(g: Graph, x: BlockId, blk: Block, y: BlockId)
    requires (x in g ==> Targets(g[x]) == {}) && y !in Targets(blk)
    ensures Preds(g[x := blk], y) == Preds(g, y)
  {
    PredsOfChange(g, x, blk, y);
  }

  lemma FinishPlain(fin: Builder)
    requires SInv(fin) && RetBlk !in fin.plain
    ensures var g, g1, used := fin.plain, FinishFunction(fin).plain, Preds(Real(fin.plain, fin.gone), RetBlk) != {};
      if Merges(fin) then
        var closed := g[fin.cur.value].(term := Some(Ret));
        g1 == (if used then g[RetBlk := Block(None, [], Some(Br(fin.cur.value)))] else g)[fin.cur.value := closed]
      else
        g1 == (if fin.cur.Some? then g[fin.cur.value := g[fin.cur.value].(term := Some(Br(RetBlk)))]
          else g)[RetBlk := Block(None, [], Some(Ret))]
  {
    hide GoneOK, Real, Preds;
  }

  /** Where the function returns. */
  function ReturnBlock(fin: Builder): BlockId { if Merges(fin) then fin.cur.value else RetBlk }

  lemma FinishWell(fin: Builder)
    requires SInv(fin) && AlmostWellFormed(fin)
    ensures WellFormed(FinishFunction(fin).plain, ReturnBlock(fin))
  {
    hide Preds, FinishFunction, Real, GoneOK, Inv;
    FinishPlain(fin);
    SInvInv(fin);
    RealPreds(fin, RetBlk);
    var g, g1, ret := fin.plain, FinishFunction(fin).plain, ReturnBlock(fin);
    if Preds(g, RetBlk) == {} { forall x | x in g ensures RetBlk !in Targets(g[x]) { PredsIn(g, x, RetBlk); } }
    if Merges(fin) {
      var cur := fin.cur.value;
      var g0 := if Preds(g, RetBlk) != {} then g[RetBlk := Block(None, [], Some(Br(cur)))] else g;
      forall x | x in g1 && g1[x].phi.Some? ensures g1[x].phi.value.incoming.Keys == Preds(g1, x) {
        if g0 != g { CloseWith(g, RetBlk, g0[RetBlk], x); }
        CloseWith(g0, cur, g1[cur], x);
      }
    } else {
      var g0 := if fin.cur.Some? then g[fin.cur.value := g[fin.cur.value].(term := Some(Br(RetBlk)))] else g;
      forall x | x in g1 && g1[x].phi.Some? ensures g1[x].phi.value.incoming.Keys == Preds(g1, x) {
        if fin.cur.Some? { CloseWith(g, fin.cur.value, g0[fin.cur.value], x); }
        CloseWith(g0, RetBlk, g1[RetBlk], x);
      }
    }
  }

  /* Without the removed blocks. */

  lemma RedirectTargets(gone: map<BlockId, BlockId>, t: Term, y: BlockId)
    ensures y in TermTargets(RedirectTerm(gone, t)) <==> exists z :: z in TermTargets(t) && Redirect(gone, z) == y
  {
    if t.SwitchT? {
      var r := RedirectTerm(gone, t);
      if y in TermTargets(r) && y != r.dflt {
        var i :| 0 <= i < |r.cases| && r.cases[i].1 == y;
        assert t.cases[i].1 in TermTargets(t) && Redirect(gone, t.cases[i].1) == y;
      }
      if z :| z in TermTargets(t) && Redirect(gone, z) == y && z != t.dflt {
        var i :| 0 <= i < |t.cases| && t.cases[i].1 == z;
        assert r.cases[i].1 == y;
      }
      if y == r.dflt { assert t.dflt in TermTargets(t) && Redirect(gone, t.dflt) == y; }
    } else if t.Br? {
      assert t.to in TermTargets(t);
    } else if t.CondBr? {
      assert t.t in TermTargets(t) && t.f in TermTargets(t);
    }
  }

  lemma {:induction false} ChainNext(g: Graph, f: BlockId, to: BlockId, n: nat)
    requires Chain(g, f, to, n) && n > 0
    ensures f in g && g[f].phi.None? && g[f].term.Some? && g[f].term.value.Br? && g[f].term.value.to in g
      && g[g[f].term.value.to].phi.None?
  {
  }

  /** What a removed block and its replacement look like. */
  predicate Removed(g: Graph, gone: map<BlockId, BlockId>, f: BlockId)
    requires f in gone
  {
    && gone[f] in g && gone[f] !in gone && g[gone[f]].phi.None?
    && f in g && g[f].phi.None? && g[f].term.Some? && g[f].term.value.Br? && g[f].term.value.to in g
      && g[g[f].term.value.to].phi.None?
  }

  lemma GoneRemoved(g: Graph, gone: map<BlockId, BlockId>)
    requires GoneOK(g, gone)
    ensures forall f :: f in gone ==> Removed(g, gone, f)
  {
    forall f | f in gone ensures Removed(g, gone, f) {
      assert Forwards(g, gone, f);
      var n: nat :| n > 0 && Chain(g, f, gone[f], n);
      ChainLast(g, f, gone[f], n);
      ChainNext(g, f, gone[f], n);
    }
  }

  lemma RealBlock(g: Graph, gone: map<BlockId, BlockId>, ret: BlockId, x: BlockId)
    requires WellFormed(g, ret) && (forall f :: f in gone ==> Removed(g, gone, f)) && x in g && x !in gone
    ensures var r := Real(g, gone);
      && x in r && r[x].term.Some? && Targets(r[x]) <= r.Keys && r[x].phi == g[x].phi
      && (r[x].term == Some(Ret) <==> g[x].term == Some(Ret))
  {
    hide Preds;
    var r := Real(g, gone);
    forall y | y in Targets(r[x]) ensures y in r {
      RedirectTargets(gone, g[x].term.value, y);
      var z :| z in TermTargets(g[x].term.value) && Redirect(gone, z) == y;
      assert z in g;
      if z in gone { assert Removed(g, gone, z); }
    }
  }

  /** A block with a phi replaces no other block. */
  lemma NoReplacement(g: Graph, gone: map<BlockId, BlockId>, x: BlockId, z: BlockId)
    requires (forall f :: f in gone ==> Removed(g, gone, f)) && x in g && g[x].phi.Some?
    ensures Redirect(gone, z) == x ==> z == x
  {
    assert z in gone ==> Removed(g, gone, z);
  }

  lemma RealPhi(g: Graph, gone: map<BlockId, BlockId>, ret: BlockId, x: BlockId)
    requires WellFormed(g, ret) && (forall f :: f in gone ==> Removed(g, gone, f)) && x in g
      && x !in gone && g[x].phi.Some?
    ensures Preds(Real(g, gone), x) == Preds(g, x)
  {
    var r := Real(g, gone);
    forall y ensures y in Preds(r, x) <==> y in Preds(g, x) {
      if y in g {
        RedirectTargets(gone, g[y].term.value, x);
        if y in gone { assert Removed(g, gone, y); }
        else {
          RealBlock(g, gone, ret, y);
          if x in Targets(g[y]) { assert Redirect(gone, x) == x; }
          forall z ensures Redirect(gone, z) == x ==> z == x { NoReplacement(g, gone, x, z); }
        }
      }
    }
  }

  lemma RealWell(g: Graph, gone: map<BlockId, BlockId>, ret: BlockId)
    requires WellFormed(g, ret) && GoneOK(g, gone)
    ensures WellFormed(Real(g, gone), ret)
  {
    hide Preds, GoneOK, Removed, TermTargets;
    GoneRemoved(g, gone);
    var r := Real(g, gone);
    forall x | x in r ensures r[x].term.Some? && Targets(r[x]) <= r.Keys && (r[x].term == Some(Ret) ==> x == ret) {
      RealBlock(g, gone, ret, x); }
    forall x | x in r && r[x].phi.Some? ensures r[x].phi.value.incoming.Keys == Preds(r, x) {
      RealBlock(g, gone, ret, x);
      RealPhi(g, gone, ret, x);
    }
    RetStays(g, gone, ret);
    RealBlock(g, gone, ret, ret);
  }

  lemma RetStays(g: Graph, gone: map<BlockId, BlockId>, ret: BlockId)
    requires WellFormed(g, ret) && forall f :: f in gone ==> Removed(g, gone, f)
    ensures ret !in gone
  {
  }

  /** Every function that C allows is compiled to a well-formed graph, of which one block
      returns. */
  lemma {:induction false} FunctionWellFormed(alu: Alu, isMain: bool, fn: Stmt)
    requires FunctionOK(alu, fn)
    ensures WellFormed(Code(alu, isMain, fn), ReturnBlock(GenStmt(alu, StartFunction(isMain), fn)))
  {
    hide *;
    var fin, b := GenStmt(alu, StartFunction(isMain), fn), GenFunction(alu, isMain, fn);
    BodyWell(alu, isMain, fn);
    forall l | l in Labels(fn) ensures Lbl(l) in fin.plain { LabelEmitted(alu, isMain, fn, l); }
    NoPlanIs(fn);
    FormedAlmost(fin, NoPlan(fn));
    FinishWell(fin);
    FunctionCompiled(alu, isMain, fn);
    InvGone(b);
    CodeIs(alu, isMain, fn);
    GenFunctionIs(alu, isMain, fn);
    RealWell(b.plain, b.gone, ReturnBlock(fin));
  }

  lemma NoPlanIs(fn: Stmt)
    ensures NoPlan(fn).due == {} && NoPlan(fn).wait == {} && NoPlan(fn).labels == Labels(fn)
  {
  }

  lemma GenFunctionIs(alu: Alu, isMain: bool, fn: Stmt)
    ensures GenFunction(alu, isMain, fn) == FinishFunction(GenStmt(alu, StartFunction(isMain), fn))
  {
  }
}
