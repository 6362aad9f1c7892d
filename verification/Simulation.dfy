/** Each step of the source is matched by a run of the emitted code. */
module Simulation {
  import opened Common
  import opened Source
  import opened Graph
  import opened Builder
  import opened CodeGen
  import opened Frames
  import opened FrameExpr
  import opened SimExpr
  import opened Static
  import opened FrameStmt
  import opened FrameLoops
  import opened FrameAll
  import opened MatchKont
  import opened Jumps
  import opened FindLabel

  /** Where a run of the code stands when the source is about to run a statement: where the
      emitter stood in state `b`, at the block a loop comes back to, at the block a continue
      leads to, or nowhere because both have returned. */
  datatype Where = Here(b: Builder) | Head(b0: Builder) | AtCont(b: Builder) | Over

  predicate IsLoopStmt(s: Stmt) { s.While? || s.DoWhile? || (s.For? && s.init.None?) }

  ghost predicate Rel(alu: Alu, fin: Builder, slot: int, st: State, wh: Where, a: Anno, gst: GState) {
    match wh
    case Over => st.Done? && gst == GRet(st.v, st.t)
    case Here(b) =>
      && st.Run? && gst.GAt? && RegVal(gst.regs, SLOT) == slot
      && SInv(b) && Live(b) && Fits(alu, b, st.s) && MatchK(alu, fin, st.k, GenStmt(alu, b, st.s), a)
      && gst == At(b, gst.regs, st.t)
    case Head(b0) =>
      && st.Run? && gst.GAt? && RegVal(gst.regs, SLOT) == slot && IsLoopStmt(st.s)
      && SInv(b0) && Live(b0) && Fits(alu, b0, st.s) && MatchK(alu, fin, st.k, Visit(alu, b0, st.s), a)
      && gst == GAt(Blk(b0.nextBlock), 0, gst.regs, st.t)
    case AtCont(b) =>
      && st.Run? && gst.GAt? && RegVal(gst.regs, SLOT) == slot && st.s.Skip? && IsLoop(st.k)
      && a.ALoop? && MatchK(alu, fin, st.k, b, a)
      && gst == GAt(ContBlock(a.b0, st.k), 0, gst.regs, st.t)
  }

  /** What decreases while the code takes no step. */
  function Size(s: Stmt): nat {
    match s
    case Skip => 1
    case Seq(a, b) => 1 + Size(a) + Size(b)
    case If(_, a, b) => 2 + Size(a) + if b.Some? then Size(b.value) else 0
    case Switch(_, body) => 2 + Size(body)
    case While(_, body) => 3 + Size(body)
    case DoWhile(body, _) => 3 + Size(body)
    case For(init, _, _, body) => 3 + Size(body) + if init.Some? then 1 else 0
    case Label(_, s1) => 1 + Size(s1)
    case Case(_, _, s1) => 1 + Size(s1)
    case Default(s1) => 1 + Size(s1)
    case _ => 2
  }
  function KSize(k: Kont): nat {
    match k
    case KStop => 0
    case KSeq(s, k1) => Size(s) + KSize(k1)
    case KWhile(_, _, k1) => 1 + KSize(k1)
    case KDo(_, _, k1) => 1 + KSize(k1)
    case KFor(_, _, _, k1) => 1 + KSize(k1)
    case KSwitch(k1) => 1 + KSize(k1)
  }
  function Measure(st: State, wh: Where): nat {
    if !st.Run? then 0
    else Size(st.s) + KSize(st.k) + if wh.AtCont? && IsLoop(st.k) then 3 + Size(LoopBody(st.k)) else 0
  }
  function LoopBody(k: Kont): Stmt
    requires IsLoop(k)
  {
    match k
    case KWhile(_, body, _) => body
    case KDo(body, _, _) => body
    case KFor(_, _, body, _) => body
  }

  /** The result of simulating one step. */
  ghost predicate Simulates(w: World, fin: Builder, g: Graph, slot: int, gst: GState, m: nat, st1: State, n: nat,
    gst1: GState, wh: Where, a: Anno) {
    GRun(w, g, gst, n) == gst1 && Rel(w.alu, fin, slot, st1, wh, a, gst1) && (n > 0 || Measure(st1, wh) < m)
  }

  lemma ThenSimulates(w: World, fin: Builder, g: Graph, slot: int, gst: GState, n0: nat, gst0: GState, m: nat,
    m0: nat, st1: State, n: nat, gst1: GState, wh: Where, a: Anno)
    requires GRun(w, g, gst, n0) == gst0 && n0 > 0 && Simulates(w, fin, g, slot, gst0, m0, st1, n, gst1, wh, a)
    ensures Simulates(w, fin, g, slot, gst, m, st1, n0 + n, gst1, wh, a)
  {
    Compose(w, g, gst, n0, gst0, n, gst1);
  }

  lemma HereIntro(w: World, fin: Builder, g: Graph, slot: int, gst: GState, m: nat, s: Stmt, k: Kont, t: Trace,
    n: nat, b: Builder, a: Anno, regs: Regs)
    requires SInv(b) && Live(b) && Fits(w.alu, b, s) && MatchK(w.alu, fin, k, GenStmt(w.alu, b, s), a)
    requires GRun(w, g, gst, n) == At(b, regs, t) && RegVal(regs, SLOT) == slot && (n > 0 || Size(s) + KSize(k) < m)
    ensures Simulates(w, fin, g, slot, gst, m, Run(s, k, t), n, At(b, regs, t), Here(b), a)
  {
  }

  /** Arriving at the block after a statement. */
  lemma SkipIntro(w: World, fin: Builder, g: Graph, slot: int, gst: GState, m: nat, k: Kont, t: Trace, n: nat,
    b: Builder, a: Anno, regs: Regs, id: BlockId)
    requires SInv(b) && Starts(b, id) && MatchK(w.alu, fin, k, b, a)
    requires GRun(w, g, gst, n) == GAt(id, 0, regs, t) && RegVal(regs, SLOT) == slot && n > 0
    ensures Simulates(w, fin, g, slot, gst, m, Run(Skip, k, t), n, GAt(id, 0, regs, t), Here(b), a)
  {
  }

  lemma HeadIntro(w: World, fin: Builder, g: Graph, slot: int, gst: GState, m: nat, s: Stmt, k: Kont, t: Trace,
    n: nat, b0: Builder, a: Anno, regs: Regs)
    requires IsLoopStmt(s) && SInv(b0) && Live(b0) && Fits(w.alu, b0, s)
      && MatchK(w.alu, fin, k, Visit(w.alu, b0, s), a)
    requires GRun(w, g, gst, n) == GAt(Blk(b0.nextBlock), 0, regs, t) && RegVal(regs, SLOT) == slot
      && (n > 0 || Size(s) + KSize(k) < m)
    ensures Simulates(w, fin, g, slot, gst, m, Run(s, k, t), n, GAt(Blk(b0.nextBlock), 0, regs, t), Head(b0), a)
  {
  }

  lemma SlotKept(b: Builder, regs: Regs, regs1: Regs)
    requires SInv(b) && Agree(regs, regs1, b.nextReg)
    ensures RegVal(regs1, SLOT) == RegVal(regs, SLOT)
  {
  }

  /** Entering a block of the final graph that the emitter had just started. */
  lemma EnterStarted(b: Builder, id: BlockId, g: Graph, from: BlockId, regs: Regs, t: Trace)
    requires Starts(b, id) && Ext(b.plain, g)
    ensures Enter(g, from, id, regs, t) == GAt(id, 0, regs, t) && Live(b) && At(b, regs, t) == GAt(id, 0, regs, t)
  {
    assert Extends(b.plain[id], g[id]);
  }

  /** The branch at the insertion point. */
  lemma SimJump(w: World, b: Builder, to: BlockId, g: Graph, regs: Regs, t: Trace)
    requires Live(b) && Ext(EmitBranch(b, to).plain, g)
    ensures GRun(w, g, At(b, regs, t), 1) == Enter(g, b.cur.value, to, regs, t)
  {
    SimTerminate(w, b, Br(to), g, regs, t);
  }

  lemma StartsLive(b: Builder, id: BlockId, regs: Regs, t: Trace)
    requires Starts(b, id)
    ensures Live(b) && At(b, regs, t) == GAt(id, 0, regs, t)
  {
  }

  lemma LiveParts(b: Builder)
    requires Live(b)
    ensures Open(b) && b.cur.Some?
  {
  }

  /** Running the code of an expression, with the slot kept. */
  lemma SimValue(w: World, b: Builder, e: Expr, g: Graph, regs: Regs, t: Trace) returns (n: nat, regs1: Regs)
    requires SInv(b) && Live(b) && ValOK(w.alu, e) && Ext(GenExpr(w.alu, b, e).b.plain, g)
    ensures var x := GenExpr(w.alu, b, e); Open(x.b)
    ensures var x := GenExpr(w.alu, b, e); GRun(w, g, At(b, regs, t), n) == At(x.b, regs1, Eval(w, e, t).1)
    ensures Val(GenExpr(w.alu, b, e).v, regs1) == Eval(w, e, t).0 && RegVal(regs1, SLOT) == RegVal(regs, SLOT)
  {
    hide Inv, Ext, GRun;
    SInvInv(b);
    n, regs1 := ExprSim(w, b, e, g, regs, t);
    SlotKept(b, regs, regs1);
  }

  /** Deciding a condition, with the slot kept; the chosen block is entered next. */
  lemma SimDecide(w: World, b: Builder, e: Expr, tb: BlockId, fb: BlockId, g: Graph, regs: Regs, t: Trace)
    returns (n: nat, regs1: Regs, from: BlockId)
    requires Inv(b) && Live(b) && BrOK(w.alu, e) && Ext(GenBranch(w.alu, b, e, tb, fb).plain, g)
    ensures var to := if Eval(w, e, t).0 != 0 then tb else fb;
      && GRun(w, g, At(b, regs, t), n) == Enter(g, from, to, regs1, Eval(w, e, t).1) && n > 0
        && RegVal(regs1, SLOT) == RegVal(regs, SLOT)
      && from in GenBranch(w.alu, b, e, tb, fb).plain && to in Targets(GenBranch(w.alu, b, e, tb, fb).plain[from])
  {
    hide Ext, GRun;
    n, regs1, from := BranchSim(w, b, e, tb, fb, g, regs, t);
  }

  /* Loops at their head. */

  lemma WhileGraph(alu: Alu, b0: Builder, c: Expr, body: Stmt, g: Graph)
    requires SInv(b0) && Live(b0) && Fits(alu, b0, While(c, body)) && Ext(Visit(alu, b0, While(c, body)).plain, g)
    ensures var n, b1, b2 := b0.nextBlock, WhileBody(alu, b0, c), GenStmt(alu, WhileBody(alu, b0, c), body);
      && Visit(alu, b0, While(c, body)) == WhileEnd(alu, b0, c, b2)
      && Ext(WhileEnd(alu, b0, c, b2).plain, g) && Ext(EmitBranch(PopFrame(b2), Blk(n)).plain, g)
        && Ext(b2.plain, g) && Ext(b1.plain, g)
      && Ext(WhileTested(alu, b0, c).plain, g) && Ext(WhileTested(alu, b0, c).plain, b2.plain)
        && Ext(WhileTest(alu, b0, c).b.plain, g) && Ext(WhileStart(b0).plain, g)
      && SInv(b1) && Starts(b1, Blk(n + 1)) && Fits(alu, b1, body) && ValOK(alu, c) && SInv(WhileEnd(alu, b0, c, b2))
      && Starts(WhileStart(b0), Blk(n)) && Inv(WhileStart(b0)) && Live(WhileStart(b0)) && SInv(WhileStart(b0))
        && Live(WhileTest(alu, b0, c).b)
      && Blk(n + 1) !in WhileTest(alu, b0, c).b.plain && WhileTest(alu, b0, c) == GenBool(alu, WhileStart(b0), c)
      && WhileStart(b0).nextReg == b0.nextReg && Blk(n) !in b0.plain
      && (WhileTest(alu, b0, c).v == Imm(1) ==> b1 == EmitBlock(WhileTest(alu, b0, c).b, Blk(n + 1)))
  {
    hide *;
    var n, b1, b2 := b0.nextBlock, WhileBody(alu, b0, c), GenStmt(alu, WhileBody(alu, b0, c), body);
    var x := WhileTest(alu, b0, c);
    LoopParts(alu, b0, While(c, body));
    WhileFrameAll(alu, b0, c, body);
    WhileBodyFrame(alu, b0, c);
    WhileExt(alu, b0, c, body);
    WhileTestFrame(alu, b0, c);
    WhileTestedFrame(alu, b0, c);
    WhileBodyIs(alu, b0, c);
    WhileTestIs(alu, b0, c);
    WhileStartIs(b0);
    OwnBlockInside(b0, 3, WhileFrame(b0));
    WhileSlot(b0);
    AfterExprFacts(WhileStart(b0), x);
    MovesExt(b1, b2, Labels(body), HasDefault(body));
    InsideSInv(b0, WhileStart(b0), WhileFrame(b0));
    var g3 := WhileEnd(alu, b0, c, b2).plain;
    ExtTrans(EmitBranch(PopFrame(b2), Blk(n)).plain, g3, g);
    ExtTrans(b2.plain, g3, g);
    ExtTrans(b1.plain, b2.plain, g);
    ExtTrans(WhileTested(alu, b0, c).plain, b1.plain, b2.plain);
    ExtTrans(WhileTested(alu, b0, c).plain, b2.plain, g);
    WhileTestedExt(alu, b0, c);
    ExtTrans(x.b.plain, WhileTested(alu, b0, c).plain, g);
    ExtTrans(WhileStart(b0).plain, x.b.plain, g);
    SInvInv(b0);
    InvNumbered(b0, 1);
    FreshNumber(b0);
  }

  lemma FreshNumber(b: Builder)
    requires SInv(b)
    ensures forall i :: i >= b.nextBlock ==> Blk(i) !in b.plain
  {
  }

  lemma WhileSlot(b0: Builder)
    ensures WhileStart(b0).nextReg == b0.nextReg
  {
  }

  lemma WhileTestedExt(alu: Alu, b0: Builder, c: Expr)
    requires Live(WhileTest(alu, b0, c).b)
    ensures Ext(WhileTest(alu, b0, c).b.plain, WhileTested(alu, b0, c).plain)
  {
  }

  /** A test passed, going on with `st`, or failed. */
  function AfterTest(w: World, c: Expr, st: State, k: Kont, t: Trace): State
    requires st.Run?
  {
    var (v, t1) := Eval(w, c, t);
    if v != 0 then Run(st.s, st.k, t1) else Run(Skip, k, t1)
  }

  lemma AfterTestIs(w: World, c: Expr, st: State, k: Kont, t: Trace)
    requires st.Run?
    ensures AfterTest(w, c, st, k, t) == var (v, t1) := Eval(w, c, t);
      if v != 0 then Run(st.s, st.k, t1) else Run(Skip, k, t1)
  {
  }

  /** The test of a while: the constant 1 falls into the body, anything else is tested. */
  lemma {:induction false} WhileHeadSim(w: World, fin: Builder, g: Graph, slot: int, b0: Builder, c: Expr, body: Stmt,
    k: Kont, a: Anno, regs: Regs, t: Trace, m: nat)
    returns (n: nat, gst1: GState, wh: Where, a1: Anno)
    requires Ext(fin.plain, g)
    requires Rel(w.alu, fin, slot, Run(While(c, body), k, t), Head(b0), a, GAt(Blk(b0.nextBlock), 0, regs, t))
    ensures Simulates(w, fin, g, slot, GAt(Blk(b0.nextBlock), 0, regs, t), m,
      AfterTest(w, c, Run(body, KWhile(c, body, k), t), k, t), n, gst1, wh, a1)
  {
    hide *;
    RelHead(w.alu, fin, slot, While(c, body), k, t, b0, a, regs);
    var alu, i, s := w.alu, b0.nextBlock, While(c, body);
    var b1, b2, x, st := WhileBody(alu, b0, c), GenStmt(alu, WhileBody(alu, b0, c), body),
      WhileTest(alu, b0, c), WhileStart(b0);
    MatchKExt(alu, fin, g, k, Visit(alu, b0, s), a);
    WhileGraph(alu, b0, c, body, g);
    AfterTestIs(w, c, Run(body, KWhile(c, body, k), t), k, t);
    var gst := GAt(Blk(i), 0, regs, t);
    StartsLive(st, Blk(i), regs, t);
    var (v, t1) := Eval(w, c, t);
    var n1, r1 := BoolSim(w, st, c, g, regs, t);
    ComputesParts(w, g, st, x, Truth(v), regs, t, n1, r1, t1);
    KontLoopWhile(alu, fin, b0, c, body, k, a);
    if x.v == Imm(1) {
      SimFall(w, x.b, Blk(i + 1), g, r1, t1);
      Compose(w, g, gst, n1, At(x.b, r1, t1), 1, At(b1, r1, t1));
      StartsLive(b1, Blk(i + 1), r1, t1);
      TruthOne(v);
      n, gst1, wh, a1 := n1 + 1, At(b1, r1, t1), Here(b1), ALoop(b0, a);
      HereIntro(w, fin, g, slot, gst, m, body, KWhile(c, body, k), t1, n, b1, a1, r1);
    } else {
      WhileTestedIs(alu, b0, c);
      var term := CondBr(x.v, Blk(i + 1), Blk(i + 2));
      SimTerminate(w, x.b, term, g, r1, t1);
      TargetOf(x.v, Blk(i + 1), Blk(i + 2), r1, v);
      if v != 0 {
        EnterStarted(b1, Blk(i + 1), g, x.b.cur.value, r1, t1);
        Compose(w, g, gst, n1, At(x.b, r1, t1), 1, At(b1, r1, t1));
        n, gst1, wh, a1 := n1 + 1, At(b1, r1, t1), Here(b1), ALoop(b0, a);
        HereIntro(w, fin, g, slot, gst, m, body, KWhile(c, body, k), t1, n, b1, a1, r1);
      } else {
        TestedTargets(x.b, term);
        TargetKept(WhileTested(alu, b0, c).plain, b2.plain, x.b.cur.value, Blk(i + 2));
        WhileExt(alu, b0, c, body);
        var b3 := WhileEnd(alu, b0, c, b2);
        EnterStarted(b3, Blk(i + 2), g, x.b.cur.value, r1, t1);
        Compose(w, g, gst, n1, At(x.b, r1, t1), 1, GAt(Blk(i + 2), 0, r1, t1));
        n, gst1, wh, a1 := n1 + 1, GAt(Blk(i + 2), 0, r1, t1), Here(b3), a;
        SkipIntro(w, fin, g, slot, gst, m, k, t1, n, b3, a, r1, Blk(i + 2));
      }
    }
  }

  lemma RelHead(alu: Alu, fin: Builder, slot: int, s: Stmt, k: Kont, t: Trace, b0: Builder, a: Anno, regs: Regs)
    requires Rel(alu, fin, slot, Run(s, k, t), Head(b0), a, GAt(Blk(b0.nextBlock), 0, regs, t))
    ensures RegVal(regs, SLOT) == slot && IsLoopStmt(s) && SInv(b0) && Live(b0) && Fits(alu, b0, s)
      && MatchK(alu, fin, k, Visit(alu, b0, s), a)
  {
  }

  lemma ComputesParts(w: World, g: Graph, b: Builder, x: EV, v: int, regs: Regs, t: Trace, n: nat,
    regs1: Regs, t1: Trace)
    requires Computes(w, g, b, x, v, regs, t, n, regs1, t1) && SInv(b)
    ensures Open(b) && Open(x.b) && GRun(w, g, At(b, regs, t), n) == At(x.b, regs1, t1) && Val(x.v, regs1) == v
    ensures RegVal(regs1, SLOT) == RegVal(regs, SLOT)
  {
    SlotKept(b, regs, regs1);
  }

  lemma KontLoopWhile(alu: Alu, fin: Builder, b: Builder, c: Expr, body: Stmt, k: Kont, a: Anno)
    requires SInv(b) && Live(b) && Fits(alu, b, While(c, body)) && MatchK(alu, fin, k, Visit(alu, b, While(c, body)), a)
    ensures MatchK(alu, fin, KWhile(c, body, k), GenStmt(alu, WhileBody(alu, b, c), body), ALoop(b, a))
  {
    KontLoop(alu, fin, b, While(c, body), k, a);
  }

  lemma TruthOne(v: int)
    ensures Val(Imm(1), map[]) == 1 && (Truth(v) == 1 ==> v != 0) && (Truth(v) == 0 ==> v == 0)
      && (v != 0 ==> Truth(v) == 1) && (v == 0 ==> Truth(v) == 0)
    ensures forall regs: Regs :: Val(Imm(1), regs) == 1
    ensures forall regs: Regs :: Val(Imm(0), regs) == 0
  {
  }

  lemma WhileTestedIs(alu: Alu, b: Builder, c: Expr)
    ensures var x := WhileTest(alu, b, c);
      WhileTested(alu, b, c) == if x.v == Imm(1) then x.b
        else Terminate(x.b, CondBr(x.v, Blk(b.nextBlock + 1), Blk(b.nextBlock + 2)))
  {
  }

  lemma TargetOf(x: Value, t: BlockId, f: BlockId, regs: Regs, v: int)
    requires Val(x, regs) == Truth(v)
    ensures Target(CondBr(x, t, f), regs) == if v != 0 then t else f
  {
  }

  lemma TestedTargets(b: Builder, term: Term)
    requires Live(b) && term.CondBr?
    ensures var g := Terminate(b, term).plain;
      b.cur.value in g && term.t in Targets(g[b.cur.value]) && term.f in Targets(g[b.cur.value])
  {
  }

  /** A do at its head is at the start of its body. */
  lemma {:induction false} DoHeadSim(w: World, fin: Builder, g: Graph, slot: int, b0: Builder, body: Stmt, c: Expr,
    k: Kont, a: Anno, regs: Regs, t: Trace)
    returns (n: nat, gst1: GState, wh: Where, a1: Anno)
    requires Rel(w.alu, fin, slot, Run(DoWhile(body, c), k, t), Head(b0), a, GAt(Blk(b0.nextBlock), 0, regs, t))
    ensures Simulates(w, fin, g, slot, GAt(Blk(b0.nextBlock), 0, regs, t),
      Measure(Run(DoWhile(body, c), k, t), Head(b0)),
                      Run(body, KDo(body, c, k), t), n, gst1, wh, a1)
  {
    hide *;
    var s := DoWhile(body, c);
    RelHead(w.alu, fin, slot, s, k, t, b0, a, regs);
    DoFrameAll(w.alu, b0, body, c);
    DoBodyFrame(b0);
    DoKont(w.alu, fin, b0, body, c, k, a);
    var gst := GAt(Blk(b0.nextBlock), 0, regs, t);
    StartsLive(DoBody(b0), Blk(b0.nextBlock), regs, t);
    NoRun(w, g, gst);
    n, gst1, wh, a1 := 0, gst, Here(DoBody(b0)), ALoop(b0, a);
    DoSizes(body, c, k, t, b0);
    HereIntro(w, fin, g, slot, gst, Measure(Run(s, k, t), Head(b0)), body, KDo(body, c, k), t, 0, DoBody(b0), a1, regs);
  }

  lemma NoRun(w: World, g: Graph, st: GState)
    ensures GRun(w, g, st, 0) == st
  {
  }

  lemma DoSizes(body: Stmt, c: Expr, k: Kont, t: Trace, b0: Builder)
    ensures Size(body) + KSize(KDo(body, c, k)) < Measure(Run(DoWhile(body, c), k, t), Head(b0))
  {
  }

  lemma DoKont(alu: Alu, fin: Builder, b: Builder, body: Stmt, c: Expr, k: Kont, a: Anno)
    requires SInv(b) && Live(b) && Fits(alu, b, DoWhile(body, c))
      && MatchK(alu, fin, k, Visit(alu, b, DoWhile(body, c)), a)
    ensures MatchK(alu, fin, KDo(body, c, k), GenStmt(alu, DoBody(b), body), ALoop(b, a))
  {
    KontLoop(alu, fin, b, DoWhile(body, c), k, a);
  }

  lemma ForGraph(alu: Alu, b0: Builder, c: Option<Expr>, i: Option<Expr>, body: Stmt, g: Graph)
    requires SInv(b0) && Live(b0) && Fits(alu, b0, For(None, c, i, body))
      && Ext(Visit(alu, b0, For(None, c, i, body)).plain, g)
    ensures var n, b1, b2 := b0.nextBlock, ForBody(alu, b0, c, i), GenStmt(alu, ForBody(alu, b0, c, i), body);
      && Visit(alu, b0, For(None, c, i, body)) == ForEnd(alu, b0, c, i, b2)
      && Ext(ForEnd(alu, b0, c, i, b2).plain, g) && Ext(b2.plain, g) && Ext(b1.plain, g) && Ext(b1.plain, b2.plain)
      && Starts(ForStart(b0), Blk(n)) && Inv(ForStart(b0)) && Live(ForStart(b0)) && SInv(ForStart(b0))
        && Ext(ForStart(b0).plain, g)
      && Starts(b1, Blk(if c.Some? then n + 2 else n)) && SInv(b1) && Fits(alu, b1, body)
        && SInv(ForEnd(alu, b0, c, i, b2))
      && (c.Some? ==> BrOK(alu, c.value) && Ext(GenBranch(alu, ForStart(b0), c.value, Blk(n + 2), Blk(n + 1)).plain, g)
                      && Ext(GenBranch(alu, ForStart(b0), c.value, Blk(n + 2), Blk(n + 1)).plain, b2.plain))
  {
    hide *;
    var n, b1, b2 := b0.nextBlock, ForBody(alu, b0, c, i), GenStmt(alu, ForBody(alu, b0, c, i), body);
    ForVisit(alu, b0, c, i, body);
    ForExt(alu, b0, c, i, body);
    ForHeadFrame(alu, b0, c);
    ForBodyFrame(alu, b0, c, i);
    ForStartSInv(b0);
    MovesExt(b1, b2, Labels(body), HasDefault(body));
    ExtTrans(b2.plain, ForEnd(alu, b0, c, i, b2).plain, g);
    ExtTrans(b1.plain, b2.plain, g);
    ExtTrans(ForStart(b0).plain, b1.plain, g);
    SameStarts(ForHead(alu, b0, c), b1, Blk(if c.Some? then n + 2 else n));
    if c.Some? {
      var b3 := GenBranch(alu, ForStart(b0), c.value, Blk(n + 2), Blk(n + 1));
      ExtTrans(b3.plain, b1.plain, b2.plain);
      ExtTrans(b3.plain, b2.plain, g);
    }
  }

  lemma SameStarts(b: Builder, b1: Builder, id: BlockId)
    requires Starts(b, id) && b1.plain == b.plain && b1.cur == b.cur
    ensures Starts(b1, id)
  {
  }

  lemma ForStartSInv(b: Builder)
    requires SInv(b)
    ensures SInv(ForStart(b))
  {
    OwnBlockAdvances(b, 4);
  }

  lemma ForVisit(alu: Alu, b: Builder, c: Option<Expr>, i: Option<Expr>, body: Stmt)
    ensures Visit(alu, b, For(None, c, i, body)) == ForEnd(alu, b, c, i, GenStmt(alu, ForBody(alu, b, c, i), body))
  {
  }

  lemma ForKont(alu: Alu, fin: Builder, b: Builder, c: Option<Expr>, i: Option<Expr>, body: Stmt, k: Kont, a: Anno)
    requires SInv(b) && Live(b) && Fits(alu, b, For(None, c, i, body))
      && MatchK(alu, fin, k, Visit(alu, b, For(None, c, i, body)), a)
    ensures MatchK(alu, fin, KFor(c, i, body, k), GenStmt(alu, ForBody(alu, b, c, i), body), ALoop(b, a))
  {
    ForVisit(alu, b, c, i, body);
    KontFor(alu, fin, b, c, i, body, k, a);
  }

  /** The step of a for whose initialization is done. */
  function ForStep(w: World, c: Option<Expr>, i: Option<Expr>, body: Stmt, k: Kont, t: Trace): State {
    if c.None? then Run(body, KFor(c, i, body, k), t)
      else AfterTest(w, c.value, Run(body, KFor(c, i, body, k), t), k, t)
  }

  lemma ForStepIs(w: World, c: Option<Expr>, i: Option<Expr>, body: Stmt, k: Kont, t: Trace)
    ensures c.None? ==> ForStep(w, c, i, body, k, t) == Run(body, KFor(c, i, body, k), t)
    ensures c.Some? ==> var (v, t1) := Eval(w, c.value, t);
      ForStep(w, c, i, body, k, t) == if v != 0 then Run(body, KFor(c, i, body, k), t1) else Run(Skip, k, t1)
  {
  }

  lemma {:induction false} ForHeadSim(w: World, fin: Builder, g: Graph, slot: int, b0: Builder, c: Option<Expr>,
    i: Option<Expr>, body: Stmt, k: Kont, a: Anno, regs: Regs, t: Trace)
    returns (n: nat, gst1: GState, wh: Where, a1: Anno)
    requires Ext(fin.plain, g)
    requires Rel(w.alu, fin, slot, Run(For(None, c, i, body), k, t), Head(b0), a, GAt(Blk(b0.nextBlock), 0, regs, t))
    ensures Simulates(w, fin, g, slot, GAt(Blk(b0.nextBlock), 0, regs, t),
      Measure(Run(For(None, c, i, body), k, t), Head(b0)),
                      ForStep(w, c, i, body, k, t), n, gst1, wh, a1)
  {
    hide *;
    var s, e, alu := For(None, c, i, body), b0.nextBlock, w.alu;
    RelHead(alu, fin, slot, s, k, t, b0, a, regs);
    MatchKExt(alu, fin, g, k, Visit(alu, b0, s), a);
    ForGraph(alu, b0, c, i, body, g);
    ForKont(alu, fin, b0, c, i, body, k, a);
    ForStepIs(w, c, i, body, k, t);
    ForSizes(c, i, body, k, t, b0);
    var b1, b2, m := ForBody(alu, b0, c, i), GenStmt(alu, ForBody(alu, b0, c, i), body),
      Measure(Run(s, k, t), Head(b0));
    var gst := GAt(Blk(e), 0, regs, t);
    if c.None? {
      StartsLive(b1, Blk(e), regs, t);
      NoRun(w, g, gst);
      n, gst1, wh, a1 := 0, gst, Here(b1), ALoop(b0, a);
      HereIntro(w, fin, g, slot, gst, m, body, KFor(c, i, body, k), t, 0, b1, a1, regs);
    } else {
      StartsLive(ForStart(b0), Blk(e), regs, t);
      var (v, t1) := Eval(w, c.value, t);
      var n1, r1, from := SimDecide(w, ForStart(b0), c.value, Blk(e + 2), Blk(e + 1), g, regs, t);
      n := n1;
      if v != 0 {
        EnterStarted(b1, Blk(e + 2), g, from, r1, t1);
        gst1, wh, a1 := At(b1, r1, t1), Here(b1), ALoop(b0, a);
        HereIntro(w, fin, g, slot, gst, m, body, KFor(c, i, body, k), t1, n, b1, a1, r1);
      } else {
        var b4 := ForEnd(alu, b0, c, i, b2);
        TargetKept(GenBranch(alu, ForStart(b0), c.value, Blk(e + 2), Blk(e + 1)).plain, b2.plain, from, Blk(e + 1));
        ForExt(alu, b0, c, i, body);
        EnterStarted(b4, Blk(e + 1), g, from, r1, t1);
        gst1, wh, a1 := GAt(Blk(e + 1), 0, r1, t1), Here(b4), a;
        SkipIntro(w, fin, g, slot, gst, m, k, t1, n, b4, a, r1, Blk(e + 1));
      }
    }
  }

  lemma ForSizes(c: Option<Expr>, i: Option<Expr>, body: Stmt, k: Kont, t: Trace, b0: Builder)
    ensures Size(body) + KSize(KFor(c, i, body, k)) < Measure(Run(For(None, c, i, body), k, t), Head(b0))
  {
  }

  /* The end of a loop body, where a continue leads. */

  lemma MatchLoop(alu: Alu, fin: Builder, k: Kont, b: Builder, b0: Builder, rest: Anno)
    requires (k.KWhile? || k.KDo? || k.KFor?) && MatchK(alu, fin, k, b, ALoop(b0, rest))
    ensures SInv(b) && SInv(b0) && Live(b0)
    ensures k.KWhile? ==> Fits(alu, b0, While(k.c, k.body)) && b == GenStmt(alu, WhileBody(alu, b0, k.c), k.body)
    ensures k.KWhile? ==>
        MatchK(alu, fin, k.k, WhileEnd(alu, b0, k.c, b), rest)
          && MatchK(alu, fin, k.k, Visit(alu, b0, While(k.c, k.body)), rest)
    ensures k.KDo? ==> Fits(alu, b0, DoWhile(k.body, k.c)) && b == GenStmt(alu, DoBody(b0), k.body)
    ensures k.KDo? ==>
        MatchK(alu, fin, k.k, DoEnd(alu, b0, k.c, b), rest)
          && MatchK(alu, fin, k.k, Visit(alu, b0, DoWhile(k.body, k.c)), rest)
    ensures k.KFor? ==>
        Fits(alu, b0, For(None, k.cond, k.inc, k.body)) && b == GenStmt(alu, ForBody(alu, b0, k.cond, k.inc), k.body)
    ensures k.KFor? ==> MatchK(alu, fin, k.k, ForEnd(alu, b0, k.cond, k.inc, b), rest)
    ensures k.KFor? ==> MatchK(alu, fin, k.k, Visit(alu, b0, For(None, k.cond, k.inc, k.body)), rest)
  {
    hide SInv, Fits, GenStmt, WhileEnd, DoEnd, ForEnd, WhileBody, DoBody, ForBody, Live;
    if k.KWhile? { LoopParts(alu, b0, While(k.c, k.body)); }
    else if k.KDo? { LoopParts(alu, b0, DoWhile(k.body, k.c)); }
    else { ForVisit(alu, b0, k.cond, k.inc, k.body); }
  }

  lemma {:induction false} WhileContSim(w: World, fin: Builder, g: Graph, slot: int, k: Kont, b: Builder, a: Anno,
    regs: Regs, t: Trace, m: nat)
    returns (n: nat, gst1: GState, wh: Where, a1: Anno)
    requires k.KWhile? && a.ALoop? && MatchK(w.alu, fin, k, b, a) && RegVal(regs, SLOT) == slot
      && Size(While(k.c, k.body)) + KSize(k.k) < m
    ensures Simulates(w, fin, g, slot, GAt(ContBlock(a.b0, k), 0, regs, t), m,
      Run(While(k.c, k.body), k.k, t), n, gst1, wh, a1)
  {
    hide MatchK, SInv, Fits, Simulates, GenStmt, Visit, GRun, Live, Size, KSize;
    MatchLoop(w.alu, fin, k, b, a.b0, a.rest);
    n, gst1, wh, a1 := 0, GAt(ContBlock(a.b0, k), 0, regs, t), Head(a.b0), a.rest;
    NoRun(w, g, gst1);
    HeadIntro(w, fin, g, slot, gst1, m, While(k.c, k.body), k.k, t, 0, a.b0, a.rest, regs);
  }

  lemma {:induction false} ForContSim(w: World, fin: Builder, g: Graph, slot: int, k: Kont, b: Builder, a: Anno,
    regs: Regs, t: Trace, m: nat)
    returns (n: nat, gst1: GState, wh: Where, a1: Anno)
    requires Ext(fin.plain, g)
    requires k.KFor? && a.ALoop? && MatchK(w.alu, fin, k, b, a) && RegVal(regs, SLOT) == slot
      && Size(For(None, k.cond, k.inc, k.body)) + KSize(k.k) < m
    ensures Simulates(w, fin, g, slot, GAt(ContBlock(a.b0, k), 0, regs, t), m,
                      Run(For(None, k.cond, k.inc, k.body), k.k, if k.inc.Some? then Eval(w, k.inc.value, t).1
                        else t), n, gst1, wh, a1)
  {
    hide *;
    var alu, b0, i, s := w.alu, a.b0, k.inc, For(None, k.cond, k.inc, k.body);
    MatchLoop(alu, fin, k, b, b0, a.rest);
    ContIs(b0, k);
    IsHead(s);
    var gst := GAt(ContBlock(b0, k), 0, regs, t);
    wh, a1 := Head(b0), a.rest;
    if i.None? {
      n, gst1 := 0, gst;
      NoRun(w, g, gst);
      HeadIntro(w, fin, g, slot, gst, m, s, k.k, t, 0, b0, a.rest, regs);
    } else {
      var b4 := ForEnd(alu, b0, k.cond, i, b);
      MatchKExt(alu, fin, g, k.k, b4, a.rest);
      ForExt(alu, b0, k.cond, i, k.body);
      var b3, bl := ForInc(alu, b0, i, b), ForLast(b0, i, b);
      ExtTrans(bl.plain, b4.plain, g);
      ExtTrans(b3.plain, b4.plain, g);
      ExtTrans(EmitBranch(b3, Blk(b0.nextBlock)).plain, b4.plain, g);
      StartsLive(bl, Blk(b0.nextBlock + 3), regs, t);
      var t1 := Eval(w, i.value, t).1;
      var n1, r1 := SimValue(w, bl, i.value, g, regs, t);
      LiveParts(b3);
      SimJump(w, b3, Blk(b0.nextBlock), g, r1, t1);
      ForGraph(alu, b0, k.cond, i, k.body, g) by {
        ForVisit(alu, b0, k.cond, i, k.body); ExtTrans(b4.plain, b4.plain, g) by { ExtRefl(b4.plain); } }
      EnterStarted(ForStart(b0), Blk(b0.nextBlock), g, b3.cur.value, r1, t1);
      gst1 := GAt(Blk(b0.nextBlock), 0, r1, t1);
      Compose(w, g, gst, n1, At(b3, r1, t1), 1, gst1);
      n := n1 + 1;
      HeadIntro(w, fin, g, slot, gst, m, s, k.k, t1, n, b0, a.rest, r1);
    }
  }

  lemma IsHead(s: Stmt)
    ensures (s.While? || s.DoWhile? || (s.For? && s.init.None?)) ==> IsLoopStmt(s)
  {
  }

  lemma ContIs(b0: Builder, k: Kont)
    ensures k.KWhile? ==> ContBlock(b0, k) == Blk(b0.nextBlock)
    ensures k.KDo? ==> ContBlock(b0, k) == Blk(b0.nextBlock + 1)
    ensures k.KFor? ==> ContBlock(b0, k) == Blk(if k.inc.Some? then b0.nextBlock + 3 else b0.nextBlock)
  {
  }

  lemma {:induction false} DoContSim(w: World, fin: Builder, g: Graph, slot: int, k: Kont, b: Builder, a: Anno,
    regs: Regs, t: Trace, m: nat)
    returns (n: nat, gst1: GState, wh: Where, a1: Anno)
    requires Ext(fin.plain, g)
    requires k.KDo? && a.ALoop? && MatchK(w.alu, fin, k, b, a) && RegVal(regs, SLOT) == slot
    ensures Simulates(w, fin, g, slot, GAt(ContBlock(a.b0, k), 0, regs, t), m,
      AfterTest(w, k.c, Run(DoWhile(k.body, k.c), k.k, t), k.k, t), n, gst1, wh, a1)
  {
    hide *;
    var alu, b0, c, s := w.alu, a.b0, k.c, DoWhile(k.body, k.c);
    MatchLoop(alu, fin, k, b, b0, a.rest);
    ContIs(b0, k);
    IsHead(s);
    AfterTestIs(w, c, Run(s, k.k, t), k.k, t);
    var i, b3, x, bc, b5 := b0.nextBlock, DoEnd(alu, b0, c, b), DoTest(alu, b0, c, b), DoCond(b0, b),
      DoTested(alu, b0, c, b);
    MatchKExt(alu, fin, g, k.k, b3, a.rest);
    DoExt(alu, b0, c, k.body);
    ExtTrans(bc.plain, b3.plain, g);
    ExtTrans(x.b.plain, b3.plain, g);
    ExtTrans(b5.plain, b3.plain, g);
    ExtTrans(EmitBlock(b5, Blk(i + 2)).plain, b3.plain, g);
    var gst := GAt(Blk(i + 1), 0, regs, t);
    StartsLive(bc, Blk(i + 1), regs, t);
    var (v, t1) := Eval(w, c, t);
    var n1, r1 := BoolSim(w, bc, c, g, regs, t);
    LiveComputes(w, g, bc, x, Truth(v), regs, t, n1, r1, t1);
    DoTestedIs(alu, b0, c, b);
    TruthOne(v);
    if x.v == Imm(0) {
      SimFall(w, x.b, Blk(i + 2), g, r1, t1);
      EnterStarted(b3, Blk(i + 2), g, x.b.cur.value, r1, t1);
      PlacedStarts(x.b, Blk(i + 2));
      StartsLive(EmitBlock(x.b, Blk(i + 2)), Blk(i + 2), r1, t1);
      n, gst1, wh, a1 := n1 + 1, GAt(Blk(i + 2), 0, r1, t1), Here(b3), a.rest;
      Compose(w, g, gst, n1, At(x.b, r1, t1), 1, gst1);
      SkipIntro(w, fin, g, slot, gst, m, k.k, t1, n, b3, a.rest, r1, Blk(i + 2));
    } else {
      SimTerminate(w, x.b, CondBr(x.v, Blk(i), Blk(i + 2)), g, r1, t1);
      TargetOf(x.v, Blk(i), Blk(i + 2), r1, v);
      LiveParts(x.b);
      if v != 0 {
        DoFrameAll(alu, b0, k.body, c);
        DoBodyFrame(b0);
        MovesExt(DoBody(b0), b, Labels(k.body), HasDefault(k.body));
        ExtTrans(b.plain, b3.plain, g);
        ExtTrans(DoBody(b0).plain, b.plain, g);
        EnterStarted(DoBody(b0), Blk(i), g, x.b.cur.value, r1, t1);
        n, gst1, wh, a1 := n1 + 1, GAt(Blk(i), 0, r1, t1), Head(b0), a.rest;
        Compose(w, g, gst, n1, At(x.b, r1, t1), 1, gst1);
        HeadIntro(w, fin, g, slot, gst, m, s, k.k, t1, n, b0, a.rest, r1);
      } else {
        EnterStarted(b3, Blk(i + 2), g, x.b.cur.value, r1, t1);
        n, gst1, wh, a1 := n1 + 1, GAt(Blk(i + 2), 0, r1, t1), Here(b3), a.rest;
        Compose(w, g, gst, n1, At(x.b, r1, t1), 1, gst1);
        SkipIntro(w, fin, g, slot, gst, m, k.k, t1, n, b3, a.rest, r1, Blk(i + 2));
      }
    }
  }

  lemma LiveComputes(w: World, g: Graph, b: Builder, x: EV, v: int, regs: Regs, t: Trace, n: nat,
    regs1: Regs, t1: Trace)
    requires Computes(w, g, b, x, v, regs, t, n, regs1, t1) && Inv(b)
    ensures Open(b) && Open(x.b) && GRun(w, g, At(b, regs, t), n) == At(x.b, regs1, t1) && Val(x.v, regs1) == v
    ensures RegVal(regs1, SLOT) == RegVal(regs, SLOT)
  {
  }
}
