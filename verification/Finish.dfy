/** The start and the end of a function, and the graph that is left when the removed blocks are. */
module Finish {
  import opened Common
  import opened Source
  import opened Graph
  import opened Builder
  import opened CodeGen
  import opened Frames
  import opened FrameExpr
  import opened SimExpr
  import opened FrameStmt
  import opened FrameLoops
  import opened FrameAll
  import opened MatchKont
  import opened Jumps
  import opened Simulation
  import opened StepSim
  import opened StmtSim
  import opened StepAll
  import opened Resolve
  import opened Correctness

  const ENTRY: BlockId := Blk(0)

  /** What C asks of a function body; the two expressions that are compiled wrongly do not occur in it. */
  predicate FunctionOK(alu: Alu, fn: Stmt) {
    StmtOK(alu, fn) && JumpsOK(fn, false, false) && !HasCase(fn) && GotosIn(fn, Labels(fn))
  }

  lemma {:induction false} DefaultIsCase(s: Stmt)
    requires HasDefault(s)
    ensures HasCase(s)
  {
    match s
    case Seq(a, b) => if HasDefault(a) { DefaultIsCase(a); } else { DefaultIsCase(b); }
    case If(_, a, b) => if HasDefault(a) { DefaultIsCase(a); } else { DefaultIsCase(b.value); }
    case While(_, body) => DefaultIsCase(body);
    case DoWhile(body, _) => DefaultIsCase(body);
    case For(_, _, _, body) => DefaultIsCase(body);
    case Label(_, s1) => DefaultIsCase(s1);
    case _ =>
  }

  function EntryInstrs(isMain: bool): seq<Instr> { if isMain then [INop, IStore(Imm(0))] else [INop] }

  lemma StartIs(isMain: bool)
    ensures StartFunction(isMain) == Builder(map[ENTRY := Block(None, EntryInstrs(isMain), None)], map[],
      Some(ENTRY), 1, SLOT + 1, [], None)
  {
    var b := Place(Builder(map[], map[], None, 1, SLOT + 1, [], None), ENTRY, None);
    assert [] + [INop] == [INop] && [INop] + [IStore(Imm(0))] == [INop, IStore(Imm(0))];
    assert b.plain == map[ENTRY := EMPTY] && Open(b);
    assert Emit(b, INop).plain == map[ENTRY := Block(None, [INop], None)];
    assert Emit(Emit(b, INop), IStore(Imm(0))).plain == map[ENTRY := Block(None, [INop, IStore(Imm(0))], None)];
  }

  lemma StartFacts(alu: Alu, isMain: bool, fn: Stmt)
    requires FunctionOK(alu, fn)
    ensures var b := StartFunction(isMain);
      SInv(b) && Live(b) && Fits(alu, b, fn) && b.stack == [] && b.sw.None? && b.plain.Keys == {ENTRY}
  {
    StartIs(isMain);
    if HasDefault(fn) { DefaultIsCase(fn); }
  }

  lemma ReturnFresh(b: Builder, b1: Builder, ls: set<nat>, d: bool)
    requires Moves(b, b1, ls, d) && RetBlk !in b.plain && (b.sw.Some? ==> b.sw.value.dflt.Blk?)
    ensures RetBlk !in b1.plain
  {
  }

  predicate Merges(fin: Builder) {
    Open(fin) && (Preds(Real(fin.plain, fin.gone), RetBlk) == {} || fin.plain[fin.cur.value] == EMPTY)
  }

  lemma FinishIs(fin: Builder)
    requires SInv(fin) && RetBlk !in fin.plain
    ensures var g, cur := FinishFunction(fin).plain, fin.cur;
      if Merges(fin) then
        Closes(fin.plain, g, cur.value, Ret, Preds(Real(fin.plain, fin.gone), RetBlk) != {})
      else
        (cur.Some? ==> Closes(fin.plain, g, cur.value, Br(RetBlk), false))
          && (cur.None? ==> Kept(fin.plain, g, None)) && IsReturn(g, RetBlk)
  {
    hide GoneOK, Real, Preds, Bounded, Inv, Advances, Redirect, RedirectTerm;
  }

  /** The block at the end of the body has been closed; `merged`: the return block leads to it. */
  predicate Closes(g: Graph, g1: Graph, cur: BlockId, t: Term, merged: bool) {
    && cur in g && g[cur].term.None? && Kept(g, g1, Some(cur)) && g1[cur] == g[cur].(term := Some(t))
    && (merged ==> IsReturn(g1, cur) && RetBlk in g1 && g1[RetBlk] == Block(None, [], Some(Br(cur))))
  }

  lemma FinishReturns(fin: Builder)
    requires SInv(fin) && RetBlk !in fin.plain
    ensures var b := FinishFunction(fin); Ext(fin.plain, b.plain) && Returns(fin, b.plain)
  {
    hide GoneOK, FinishFunction, Real, Preds, SInv, Targets;
    FinishIs(fin);
    forall x | x in fin.plain && RetBlk in Targets(fin.plain[x])
      ensures Preds(Real(fin.plain, fin.gone), RetBlk) != {}
    {
      SInvInv(fin);
      EarlyPred(fin, RetBlk, x);
    }
  }

  lemma FinishInv(fin: Builder)
    requires SInv(fin) && RetBlk !in fin.plain
    ensures Inv(FinishFunction(fin)) && FinishFunction(fin).stack == fin.stack && FinishFunction(fin).sw == fin.sw
  {
    var used := Preds(Real(fin.plain, fin.gone), RetBlk) != {};
    if Open(fin) && (!used || fin.plain[fin.cur.value] == Block(None, [], None)) {
      if used { MergeInv(fin); } else { TerminateGrows(fin, Ret); }
    } else {
      EmitBlockAdvances(fin, RetBlk);
      TerminateGrows(EmitBlock(fin, RetBlk), Ret);
    }
  }

  lemma MergeInv(fin: Builder)
    requires SInv(fin) && RetBlk !in fin.plain && Open(fin) && fin.plain[fin.cur.value] == Block(None, [], None)
    ensures Inv(Replace(fin, RetBlk, fin.cur.value)) && Inv(Terminate(Replace(fin, RetBlk, fin.cur.value), Ret))
  {
    hide GoneOK;
    var to := fin.cur.value;
    LiveNotGone(fin);
    var b := fin.(plain := fin.plain[RetBlk := Block(None, [], Some(Br(to)))]);
    GoneExt(fin.plain, b.plain, fin.gone);
    GoneTargets(fin.plain, fin.gone);
    ReplaceOK(b, RetBlk, to);
    var b2 := Replace(b, RetBlk, to);
    assert b2 == Replace(fin, RetBlk, to);
    TerminateKeepsGone(b2, Ret);
  }

  lemma TerminateKeepsGone(b: Builder, t: Term)
    requires Inv(b) && Live(b)
    ensures Inv(Terminate(b, t))
  {
    TerminateGrows(b, t);
  }

  lemma GoneClosed(g: Graph, gone: map<BlockId, BlockId>, f: BlockId)
    requires GoneOK(g, gone) && f in gone
    ensures f in g && g[f].phi.None? && g[f].instrs == [] && g[f].term.Some?
  {
    assert Forwards(g, gone, f);
  }

  /** The block at the insertion point is open, so it has not been removed. */
  lemma LiveNotGone(b: Builder)
    requires Inv(b) && Live(b)
    ensures b.cur.value !in b.gone
  {
    if b.cur.value in b.gone { GoneClosed(b.plain, b.gone, b.cur.value); }
  }
}
