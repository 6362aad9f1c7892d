/** The simulation, statement by statement. */
module StepSim {
  import opened Common
  import opened Source
  import opened Graph
  import opened Builder
  import opened CodeGen
  import opened Frames
  import opened FrameExpr
  import opened SimExpr
  import opened Static
  import opened FrameStmt
  import opened FrameLoops
  import opened FrameAll
  import opened MatchKont
  import opened Jumps
  import opened FindLabel
  import opened Simulation

  /** `fin` is the state after the body of function `fn`, and `g` the finished function. */
  ghost predicate Compiled(alu: Alu, isMain: bool, fn: Stmt, fin: Builder, g: Graph) {
    && Fits(alu, StartFunction(isMain), fn) && SInv(StartFunction(isMain)) && Live(StartFunction(isMain))
    && fin == GenStmt(alu, StartFunction(isMain), fn) && SInv(fin) && fin.stack == []
    && Ext(fin.plain, g) && Returns(fin, g)
  }

  /** The return block is there, or forwards to the block where the body ends; and the end of the
      body leads to the return of the value in the slot. */
  predicate Returns(fin: Builder, g: Graph) {
    && (forall x :: x in fin.plain && RetBlk in Targets(fin.plain[x]) ==> RetReached(g))
    && (fin.cur.Some? ==> EndReached(fin, g))
  }
  predicate IsReturn(g: Graph, b: BlockId) { b in g && g[b] == Block(None, [], Some(Ret)) }
  predicate RetReached(g: Graph) {
    || IsReturn(g, RetBlk)
    || (RetBlk in g && g[RetBlk].phi.None? && g[RetBlk].instrs == [] && g[RetBlk].term.Some?
      && g[RetBlk].term.value.Br? && IsReturn(g, g[RetBlk].term.value.to))
  }
  predicate EndReached(fin: Builder, g: Graph) {
    && fin.cur.Some? && fin.cur.value in fin.plain && fin.cur.value in g
    && g[fin.cur.value].instrs == fin.plain[fin.cur.value].instrs && g[fin.cur.value].term.Some?
    && (g[fin.cur.value].term == Some(Ret) || (g[fin.cur.value].term == Some(Br(RetBlk)) && RetReached(g)))
  }

  /** Leaving through the return block. */
  lemma RetSim(w: World, g: Graph, from: BlockId, regs: Regs, t: Trace) returns (n: nat)
    requires RetReached(g)
    ensures GRun(w, g, Enter(g, from, RetBlk, regs, t), n) == GRet(RegVal(regs, SLOT), t)
  {
    var st := GAt(RetBlk, 0, regs, t);
    assert Enter(g, from, RetBlk, regs, t) == st;
    if IsReturn(g, RetBlk) {
      n := 1;
      assert GRun(w, g, st, 1) == GRun(w, g, GStep(w, g, st), 0);
    } else {
      n := 2;
      var st1 := GStep(w, g, st);
      assert st1 == GAt(g[RetBlk].term.value.to, 0, regs, t);
      assert GRun(w, g, st, 2) == GRun(w, g, st1, 1) == GRun(w, g, GStep(w, g, st1), 0);
    }
  }

  lemma OverIntro(w: World, fin: Builder, g: Graph, slot: int, gst: GState, m: nat, v: int, t: Trace, n: nat)
    requires GRun(w, g, gst, n) == GRet(v, t) && n > 0
    ensures Simulates(w, fin, g, slot, gst, m, Done(v, t), n, GRet(v, t), Over, AEnd)
  {
  }

  /** The body has run to its end. */
  lemma {:induction false} EndSim(w: World, isMain: bool, fn: Stmt, fin: Builder, g: Graph, slot: int, regs: Regs,
    t: Trace, m: nat) returns (n: nat)
    requires Compiled(w.alu, isMain, fn, fin, g) && Live(fin) && RegVal(regs, SLOT) == slot
    ensures Simulates(w, fin, g, slot, At(fin, regs, t), m, Done(slot, t), n, GRet(slot, t), Over, AEnd)
  {
    hide Ext, SInv, Fits, GenStmt, RetReached;
    var st := At(fin, regs, t);
    var c := fin.cur.value;
    assert GRun(w, g, st, 1) == GRun(w, g, GStep(w, g, st), 0);
    if g[c].term == Some(Ret) {
      n := 1;
    } else {
      var n1 := RetSim(w, g, c, regs, t);
      Compose(w, g, st, 1, Enter(g, c, RetBlk, regs, t), n1, GRet(slot, t));
      n := 1 + n1;
    }
    OverIntro(w, fin, g, slot, st, m, slot, t, n);
  }

  lemma CompiledParts(alu: Alu, isMain: bool, fn: Stmt, fin: Builder, g: Graph)
    requires Compiled(alu, isMain, fn, fin, g)
    ensures Ext(fin.plain, g) && fin.stack == [] && SInv(fin) && fin == GenStmt(alu, StartFunction(isMain), fn)
    ensures Fits(alu, StartFunction(isMain), fn) && SInv(StartFunction(isMain)) && Live(StartFunction(isMain))
  {
  }

  /** A statement has finished at the insertion point of `b`. */
  lemma {:induction false} ResumeSim(w: World, isMain: bool, fn: Stmt, fin: Builder, g: Graph, slot: int, k: Kont,
    b: Builder, a: Anno, regs: Regs, t: Trace)
    returns (n: nat, gst1: GState, wh: Where, a1: Anno)
    requires Compiled(w.alu, isMain, fn, fin, g) && MatchK(w.alu, fin, k, b, a) && SInv(b) && Live(b)
      && RegVal(regs, SLOT) == slot
    ensures Simulates(w, fin, g, slot, At(b, regs, t), Measure(Run(Skip, k, t), Here(b)),
      Resume(w, slot, k, t), n, gst1, wh, a1)
    decreases a, 1
  {
    hide Compiled, SInv, Fits, GenStmt, WhileEnd, DoEnd, ForEnd, SwitchEnd, WhileBody, DoBody, ForBody, SwitchBody,
      GenExpr, Visit, Simulates, GRun, Ext, Measure, Eval, EmitBranch, EmitFinished, Size, KSize, Starts, At, Rel,
      Targets, Inv, Moves, StmtOK;
    var m := Measure(Run(Skip, k, t), Here(b));
    match a
    case AEnd =>
      n := EndSim(w, isMain, fn, fin, g, slot, regs, t, m);
      gst1, wh, a1 := GRet(slot, t), Over, AEnd;
    case AOn(rest) =>
      n, gst1, wh, a1 := 0, At(b, regs, t), Here(b), rest;
      NoRun(w, g, gst1);
      SeqSizes(k, t, b);
      HereIntro(w, fin, g, slot, gst1, m, k.s, k.k, t, 0, b, rest, regs);
    case AJoin(_, _, _) =>
      n, gst1, wh, a1 := JoinResumeSim(w, isMain, fn, fin, g, slot, k, b, a, regs, t);
    case ALoop(b0, rest) =>
      CompiledParts(w.alu, isMain, fn, fin, g);
      n, gst1, wh, a1 := LoopResumeSim(w, fin, g, slot, k, b, a, regs, t, m);
    case ASwitch(b0, c, body, rest) =>
      CompiledParts(w.alu, isMain, fn, fin, g);
      n, gst1, wh, a1 := SwitchResumeSim(w, fin, g, slot, k, b, a, regs, t, m);
  }

  /** The end of a branch of an if. */
  lemma {:induction false} JoinResumeSim(w: World, isMain: bool, fn: Stmt, fin: Builder, g: Graph, slot: int, k: Kont,
    b: Builder, a: Anno, regs: Regs, t: Trace)
    returns (n: nat, gst1: GState, wh: Where, a1: Anno)
    requires Compiled(w.alu, isMain, fn, fin, g) && MatchK(w.alu, fin, k, b, a) && SInv(b) && Live(b)
      && RegVal(regs, SLOT) == slot && a.AJoin?
    ensures Simulates(w, fin, g, slot, At(b, regs, t), Measure(Run(Skip, k, t), Here(b)),
      Resume(w, slot, k, t), n, gst1, wh, a1)
    decreases a, 0
  {
    hide Compiled, SInv, Fits, GenStmt, WhileEnd, DoEnd, ForEnd, SwitchEnd, WhileBody, DoBody, ForBody, SwitchBody,
      GenExpr, Visit, Simulates, GRun, Ext, Measure, Eval, EmitBranch, EmitFinished, Size, KSize, Starts, At, Rel,
      Targets, Inv, Moves, StmtOK;
    var m, end, next, rest := Measure(Run(Skip, k, t), Here(b)), a.end, a.next, a.rest;
    CompiledParts(w.alu, isMain, fn, fin, g);
    JoinFalls(w, fin, g, k, b, end, next, rest, regs, t);
    StartsLive(next, end, regs, t);
    MatchKSInv(w.alu, fin, k, next, rest);
    var n1, gst2, wh2, a2 := ResumeSim(w, isMain, fn, fin, g, slot, k, next, rest, regs, t);
    ThenSimulates(w, fin, g, slot, At(b, regs, t), 1, At(next, regs, t), m, Measure(Run(Skip, k, t), Here(next)),
      Resume(w, slot, k, t), n1, gst2, wh2, a2);
    n, gst1, wh, a1 := 1 + n1, gst2, wh2, a2;
  }

  lemma SeqSizes(k: Kont, t: Trace, b: Builder)
    requires k.KSeq?
    ensures Size(k.s) + KSize(k.k) < Measure(Run(Skip, k, t), Here(b))
  {
  }

  lemma MatchKSInv(alu: Alu, fin: Builder, k: Kont, b: Builder, a: Anno)
    requires MatchK(alu, fin, k, b, a)
    ensures SInv(b)
  {
  }

  lemma JoinFalls(w: World, fin: Builder, g: Graph, k: Kont, b: Builder, end: BlockId, next: Builder,
    rest: Anno, regs: Regs, t: Trace)
    requires MatchK(w.alu, fin, k, b, AJoin(end, next, rest)) && Live(b) && Ext(fin.plain, g)
    ensures Starts(next, end) && MatchK(w.alu, fin, k, next, rest)
      && GRun(w, g, At(b, regs, t), 1) == GAt(end, 0, regs, t) && Open(next)
      && At(next, regs, t) == GAt(end, 0, regs, t)
  {
    hide SInv, Ext, GRun;
    MatchKExt(w.alu, fin, g, k, next, rest);
    ExtTrans(EmitBranch(b, end).plain, next.plain, g);
    SimJump(w, b, end, g, regs, t);
    EnterStarted(next, end, g, b.cur.value, regs, t);
  }

  /** The branch at the end of a loop body. */
  lemma {:induction false} LoopResumeSim(w: World, fin: Builder, g: Graph, slot: int, k: Kont, b: Builder, a: Anno,
    regs: Regs, t: Trace, m: nat)
    returns (n: nat, gst1: GState, wh: Where, a1: Anno)
    requires Ext(fin.plain, g) && a.ALoop? && MatchK(w.alu, fin, k, b, a) && Live(b) && RegVal(regs, SLOT) == slot
    ensures Simulates(w, fin, g, slot, At(b, regs, t), m, Resume(w, slot, k, t), n, gst1, wh, a1)
  {
    hide *;
    var b0, cont := a.b0, ContBlock(a.b0, k);
    LoopKind(w.alu, fin, k, b, a);
    LoopFalls(w, fin, g, k, b, a, regs, t);
    LiveParts(b);
    var gst, gst2 := At(b, regs, t), GAt(cont, 0, regs, t);
    var n1: nat;
    ResumeIs(w, slot, k, t);
    if k.KWhile? {
      var m1 := Size(While(k.c, k.body)) + KSize(k.k) + 1;
      n1, gst1, wh, a1 := WhileContSim(w, fin, g, slot, k, b, a, regs, t, m1);
      ThenSimulates(w, fin, g, slot, gst, 1, gst2, m, m1, Resume(w, slot, k, t), n1, gst1, wh, a1);
    } else if k.KDo? {
      n1, gst1, wh, a1 := DoContSim(w, fin, g, slot, k, b, a, regs, t, m);
      ThenSimulates(w, fin, g, slot, gst, 1, gst2, m, m, Resume(w, slot, k, t), n1, gst1, wh, a1);
    } else {
      var m1 := Size(For(None, k.cond, k.inc, k.body)) + KSize(k.k) + 1;
      n1, gst1, wh, a1 := ForContSim(w, fin, g, slot, k, b, a, regs, t, m1);
      ThenSimulates(w, fin, g, slot, gst, 1, gst2, m, m1, Resume(w, slot, k, t), n1, gst1, wh, a1);
    }
    n := 1 + n1;
  }

  lemma ResumeIs(w: World, slot: int, k: Kont, t: Trace)
    ensures k.KWhile? ==> Resume(w, slot, k, t) == Run(While(k.c, k.body), k.k, t)
    ensures k.KDo? ==> Resume(w, slot, k, t) == AfterTest(w, k.c, Run(DoWhile(k.body, k.c), k.k, t), k.k, t)
    ensures k.KFor? ==> Resume(w, slot, k, t) == Run(For(None, k.cond, k.inc, k.body), k.k, if k.inc.Some? then
      Eval(w, k.inc.value, t).1 else t)
    ensures k.KSwitch? ==> Resume(w, slot, k, t) == Run(Skip, k.k, t)
  {
  }

  lemma LoopKind(alu: Alu, fin: Builder, k: Kont, b: Builder, a: Anno)
    requires a.ALoop? && MatchK(alu, fin, k, b, a)
    ensures (k.KWhile? || k.KDo? || k.KFor?) && IsLoop(k) && MatchK(alu, fin, k, b, ALoop(a.b0, a.rest))
      && a == ALoop(a.b0, a.rest)
  {
  }

  /** A continue enters the block where the loop goes on. */
  lemma {:induction false} ContEnter(w: World, fin: Builder, g: Graph, k: Kont, b: Builder, a: Anno,
    from: BlockId, regs: Regs, t: Trace)
    requires Ext(fin.plain, g) && a.ALoop? && MatchK(w.alu, fin, k, b, a)
    ensures Enter(g, from, ContBlock(a.b0, k), regs, t) == GAt(ContBlock(a.b0, k), 0, regs, t)
    ensures Ext(EmitBranch(PopFrame(b), ContBlock(a.b0, k)).plain, g)
  {
    hide *;
    var alu, b0 := w.alu, a.b0;
    LoopKind(alu, fin, k, b, a);
    MatchLoop(alu, fin, k, b, b0, a.rest);
    ContIs(b0, k);
    PopPlain(b);
    var i, p := b0.nextBlock, PopFrame(b);
    if k.KWhile? {
      var b3 := WhileEnd(alu, b0, k.c, b);
      MatchKExt(alu, fin, g, k.k, b3, a.rest);
      LoopParts(alu, b0, While(k.c, k.body));
      WhileGraph(alu, b0, k.c, k.body, g);
      EnterStarted(WhileStart(b0), Blk(i), g, from, regs, t);
    } else if k.KDo? {
      var b3 := DoEnd(alu, b0, k.c, b);
      MatchKExt(alu, fin, g, k.k, b3, a.rest);
      DoExt(alu, b0, k.c, k.body);
      ExtTrans(DoCond(b0, b).plain, b3.plain, g);
      DoTestIs(alu, b0, k.c, b);
      BlockBranchExt(p, Blk(i + 1), g);
      EnterStarted(DoCond(b0, b), Blk(i + 1), g, from, regs, t);
    } else {
      var b4 := ForEnd(alu, b0, k.cond, k.inc, b);
      MatchKExt(alu, fin, g, k.k, b4, a.rest);
      ForExt(alu, b0, k.cond, k.inc, k.body);
      if k.inc.Some? {
        var bl := ForLast(b0, k.inc, b);
        ExtTrans(bl.plain, b4.plain, g);
        ForIncIs(alu, b0, k.inc, b);
        BlockBranchExt(p, Blk(i + 3), g);
        EnterStarted(bl, Blk(i + 3), g, from, regs, t);
      } else {
        ExtTrans(EmitBranch(p, Blk(i)).plain, b4.plain, g);
        ForVisit(alu, b0, k.cond, k.inc, k.body);
        ForGraph(alu, b0, k.cond, k.inc, k.body, g);
        EnterStarted(ForStart(b0), Blk(i), g, from, regs, t);
      }
    }
  }

  lemma BlockBranchExt(b: Builder, id: BlockId, g: Graph)
    requires id !in b.plain && Ext(EmitBlock(b, id).plain, g)
    ensures Ext(EmitBranch(b, id).plain, g)
  {
    forall x | x in EmitBranch(b, id).plain ensures x in g && Extends(EmitBranch(b, id).plain[x], g[x]) {
      assert x in EmitBlock(b, id).plain;
    }
  }

  lemma {:induction false} LoopFalls(w: World, fin: Builder, g: Graph, k: Kont, b: Builder,
    a: Anno, regs: Regs, t: Trace)
    requires Ext(fin.plain, g) && a.ALoop? && MatchK(w.alu, fin, k, b, a) && Live(b)
    ensures GRun(w, g, At(b, regs, t), 1) == GAt(ContBlock(a.b0, k), 0, regs, t)
  {
    hide *;
    LiveParts(b);
    PopLive(b, regs, t);
    ContEnter(w, fin, g, k, b, a, b.cur.value, regs, t);
    SimJump(w, PopFrame(b), ContBlock(a.b0, k), g, regs, t);
  }

  lemma PopLive(b: Builder, regs: Regs, t: Trace)
    requires Live(b)
    ensures Live(PopFrame(b)) && PopFrame(b).cur == b.cur && At(PopFrame(b), regs, t) == At(b, regs, t)
      && PopFrame(b).plain == b.plain
  {
  }

  /** Falling out of a switch body. */
  lemma {:induction false} SwitchResumeSim(w: World, fin: Builder, g: Graph, slot: int, k: Kont, b: Builder, a: Anno,
    regs: Regs, t: Trace, m: nat)
    returns (n: nat, gst1: GState, wh: Where, a1: Anno)
    requires Ext(fin.plain, g) && a.ASwitch? && MatchK(w.alu, fin, k, b, a) && Live(b) && RegVal(regs, SLOT) == slot
    ensures Simulates(w, fin, g, slot, At(b, regs, t), m, Resume(w, slot, k, t), n, gst1, wh, a1)
  {
    hide *;
    var alu, b0, c, body, end := w.alu, a.b0, a.c, a.body, Blk(GenExpr(w.alu, a.b0, a.c).b.nextBlock + 1);
    SwitchKind(alu, fin, k, b, a);
    ResumeIs(w, slot, k, t);
    LiveParts(b);
    var b3, b4 := SwitchClosed(alu, b0, c, b), SwitchEnd(alu, b0, c, b);
    MatchKExt(alu, fin, g, k.k, b4, a.rest);
    SwitchExt(alu, b0, c, body);
    ExtTrans(EmitBranch(b3, end).plain, b4.plain, g);
    ClosedLive(alu, b0, c, body, regs, t);
    SimJump(w, b3, end, g, regs, t);
    EnterStarted(b4, end, g, b3.cur.value, regs, t);
    n, gst1, wh, a1 := 1, GAt(end, 0, regs, t), Here(b4), a.rest;
    SkipIntro(w, fin, g, slot, At(b, regs, t), m, k.k, t, 1, b4, a.rest, regs, end);
  }

  lemma SwitchKind(alu: Alu, fin: Builder, k: Kont, b: Builder, a: Anno)
    requires a.ASwitch? && MatchK(alu, fin, k, b, a)
    ensures k.KSwitch? && SInv(a.b0) && Live(a.b0) && Fits(alu, a.b0, Switch(a.c, a.body))
      && b == GenStmt(alu, SwitchBody(alu, a.b0, a.c), a.body)
    ensures MatchK(alu, fin, k.k, SwitchEnd(alu, a.b0, a.c, b), a.rest)
  {
  }

  /** Closing the switch leaves the end of its body as it was. */
  lemma ClosedLive(alu: Alu, b0: Builder, c: Expr, body: Stmt, regs: Regs, t: Trace)
    requires SInv(b0) && Live(b0) && Fits(alu, b0, Switch(c, body)) && Live(GenStmt(alu, SwitchBody(alu, b0, c), body))
    ensures var b := GenStmt(alu, SwitchBody(alu, b0, c), body);
      var b3 := SwitchClosed(alu, b0, c, b);
      Live(b3) && b3.cur == b.cur && At(b3, regs, t) == At(b, regs, t)
  {
    hide GenExpr, GenStmt, SwitchBody, SInv, Moves, Ext, Fits;
    var b := GenStmt(alu, SwitchBody(alu, b0, c), body);
    SwitchFrame(alu, b0, c, body);
    SwitchBlockKept(alu, b0, c, b, Labels(body), HasDefault(body));
  }
}
