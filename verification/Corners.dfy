/** The two expressions that are compiled wrongly, and exactly when. */
module Corners {
  import opened Common
  import opened Source
  import opened Graph
  import opened Builder
  import opened CodeGen
  import opened Frames
  import opened FrameExpr
  import opened SimExpr
  import opened Static
  import opened FrameStmt
  import opened FrameLoops
  import opened FrameAll
  import opened Simulation
  import opened Resolve
  import opened Finish
  import opened Behaviour

  /* A constant left operand of && other than 0 and 1, used as a value. */

  function ReturnAnd(l: Expr, r: Expr): Stmt { Return(Some(And(l, r))) }

  lemma ReturnedAtOnce(w: World, isMain: bool, e: Expr, regs: Regs, n: nat)
    requires n > 0
    ensures SourceRun(w, isMain, Return(Some(e)), regs, n) == Done(Eval(w, e, []).0, Eval(w, e, []).1)
  {
    var slot := SlotAtStart(isMain, regs);
    var st := Step(w, Return(Some(e)), slot, Run(Return(Some(e)), KStop, []));
    Correctness.DoneSteps(w, Return(Some(e)), slot, st, n - 1);
  }

  /** A return returns the value of its expression, once. */
  lemma ReturnsValue(w: World, isMain: bool, e: Expr, regs: Regs, v: int, tr: Trace)
    ensures SourceReturns(w, isMain, Return(Some(e)), regs, v, tr) <==> (v, tr) == Eval(w, e, [])
  {
    hide SourceRun;
    var fn := Return(Some(e));
    ReturnedAtOnce(w, isMain, e, regs, 1);
    if SourceReturns(w, isMain, fn, regs, v, tr) {
      var n: nat :| SourceRun(w, isMain, fn, regs, n) == Done(v, tr);
      if n > 0 { ReturnedAtOnce(w, isMain, e, regs, n); } else { RunsAre(w, isMain, fn, regs, 0); }
    }
  }

  lemma CodeOfAnd(alu: Alu, isMain: bool, l: Expr, r: Expr)
    requires Calc(alu, l).Some? && Calc(alu, l).value != 1
    ensures Code(alu, isMain, ReturnAnd(l, r)) == Code(alu, isMain, Return(Some(Const(0))))
  {
    hide FinishFunction, Real;
    StartIs(isMain);
    var b := StartFunction(isMain);
    assert GenExpr(alu, b, And(l, r)) == EV(b, Imm(0)) == GenExpr(alu, b, Const(0));
    assert Visit(alu, b, ReturnAnd(l, r)) == Visit(alu, b, Return(Some(Const(0))));
  }

  /** So the code returns 0, and has no effect. */
  lemma CodeReturnsZero(w: World, isMain: bool, l: Expr, r: Expr, regs: Regs, v: int, tr: Trace)
    requires Calc(w.alu, l).Some? && Calc(w.alu, l).value != 1
    ensures CodeReturns(w, isMain, ReturnAnd(l, r), regs, v, tr) <==> (v, tr) == (0, [])
  {
    hide SourceRun, CodeRun, Code, SourceReturns;
    var fn, zero := ReturnAnd(l, r), Return(Some(Const(0)));
    ReturnsValue(w, isMain, Const(0), regs, v, tr);
    ReturnsSame(w, isMain, zero, regs, v, tr);
    CodeOfAnd(w.alu, isMain, l, r);
    forall m: nat ensures CodeRun(w, isMain, fn, regs, m) == CodeRun(w, isMain, zero, regs, m) {
      RunsAre(w, isMain, fn, regs, m);
      RunsAre(w, isMain, zero, regs, m);
    }
  }

  /** `return l && r;` with a constant `l` behaves as it should exactly when `l` is 0 or 1, or `r` is 0
      and has no effects. */
  lemma {:induction false} ConstantAndExact(w: World, isMain: bool, l: Expr, r: Expr, regs: Regs)
    requires Calc(w.alu, l).Some? && (Calc(w.alu, l) == Some(1) ==> ValOK(w.alu, r))
    ensures (forall v, tr :: SourceReturns(w, isMain, ReturnAnd(l, r), regs, v, tr) <==>
        CodeReturns(w, isMain, ReturnAnd(l, r), regs, v, tr))
      <==> Calc(w.alu, l).value in {0, 1} || Eval(w, r, []) == (0, [])
  {
    hide SourceRun, CodeRun, FunctionOK, SourceReturns, CodeReturns, Code;
    var fn, c := ReturnAnd(l, r), Calc(w.alu, l).value;
    if c == 0 || c == 1 {
      assert FunctionOK(w.alu, fn) by { AndOK(w.alu, l, r); }
      forall v, tr ensures SourceReturns(w, isMain, fn, regs, v, tr) <==> CodeReturns(w, isMain, fn, regs, v, tr) {
        ReturnsSame(w, isMain, fn, regs, v, tr);
      }
    } else {
      CalcSound(w, l, []);
      forall v, tr ensures (SourceReturns(w, isMain, fn, regs, v, tr) <==> CodeReturns(w, isMain, fn, regs, v, tr))
        <==> ((v, tr) == Eval(w, And(l, r), []) <==> (v, tr) == (0, [])) {
        ReturnsValue(w, isMain, And(l, r), regs, v, tr);
        CodeReturnsZero(w, isMain, l, r, regs, v, tr);
      }
      assert Eval(w, And(l, r), []) == (0, []) <==> Eval(w, r, []) == (0, []);
      var zero := Eval(w, And(l, r), []);
      assert (SourceReturns(w, isMain, fn, regs, zero.0, zero.1)
        <==> CodeReturns(w, isMain, fn, regs, zero.0, zero.1)) <==> zero == (0, []);
    }
  }

  lemma AndOK(alu: Alu, l: Expr, r: Expr)
    requires Calc(alu, l) == Some(0) || (Calc(alu, l) == Some(1) && ValOK(alu, r))
    ensures FunctionOK(alu, ReturnAnd(l, r))
  {
    assert ValOK(alu, And(l, r));
    assert StmtOK(alu, ReturnAnd(l, r));
  }

  /* A loop condition that folds to a constant and performs effects. */

  lemma {:induction false} EvalExtends(w: World, e: Expr, t: Trace)
    ensures t <= Eval(w, e, t).1
    decreases e, 1
  {
    match e
    case Const(_) =>
    case Act(a, args) => ArgsExtend(w, args, t);
    case Bin(_, l, r) => EvalExtends(w, l, t); EvalExtends(w, r, Eval(w, l, t).1);
    case Comma(l, r) => EvalExtends(w, l, t); EvalExtends(w, r, Eval(w, l, t).1);
    case Not(x) => EvalExtends(w, x, t);
    case And(l, r) => EvalExtends(w, l, t); EvalExtends(w, r, Eval(w, l, t).1);
    case Or(l, r) => EvalExtends(w, l, t); EvalExtends(w, r, Eval(w, l, t).1);
    case Cond(c, l, r) => EvalExtends(w, c, t); EvalExtends(w, l, Eval(w, c, t).1); EvalExtends(w, r, Eval(w, c, t).1);
  }

  lemma {:induction false} ArgsExtend(w: World, es: seq<Expr>, t: Trace)
    ensures t <= EvalArgs(w, es, t).1
    decreases es, 0
  {
    if es != [] {
      EvalExtends(w, es[0], t);
      ArgsExtend(w, es[1..], Eval(w, es[0], t).1);
    }
  }

  /** Effects that the code performs in one block show in every run. */
  lemma {:induction false} EffectsShow(w: World, e: Expr, t: Trace)
    requires Effects(w.alu, e) && !Splits(w.alu, e)
    ensures |t| < |Eval(w, e, t).1|
    decreases e, 1
  {
    match e
    case Act(a, args) => ArgsExtend(w, args, t);
    case Bin(_, l, r) => EffectsInOrder(w, e, l, r, t);
    case Comma(l, r) => EffectsInOrder(w, e, l, r, t);
    case Not(x) => EffectsShow(w, x, t);
    case And(l, r) => CalcSound(w, l, t); EffectsShow(w, r, t);
    case Or(l, r) => CalcSound(w, l, t); EffectsShow(w, r, t);
    case Cond(c, l, r) =>
      if Calc(w.alu, c).Some? {
        CalcSound(w, c, t);
        EffectsShow(w, if Calc(w.alu, c).value != 0 then l else r, t);
      } else {
        EffectsShow(w, c, t);
        EvalExtends(w, l, Eval(w, c, t).1);
        EvalExtends(w, r, Eval(w, c, t).1);
      }
  }

  lemma {:induction false} EffectsInOrder(w: World, e: Expr, l: Expr, r: Expr, t: Trace)
    requires Effects(w.alu, l) || Effects(w.alu, r)
    requires !Splits(w.alu, l) && !Splits(w.alu, r) && l < e && r < e
    ensures |t| < |Eval(w, r, Eval(w, l, t).1).1|
    decreases e, 0
  {
    EvalExtends(w, l, t);
    EvalExtends(w, r, Eval(w, l, t).1);
    if Effects(w.alu, l) { EffectsShow(w, l, t); } else { EffectsShow(w, r, Eval(w, l, t).1); }
  }

  /** A function that does nothing: entry, one block, a last one. */
  predicate Idle(g: Graph, isMain: bool, mid: BlockId, end: BlockId) {
    && ENTRY in g && mid in g && end in g && mid != ENTRY && end != ENTRY
    && g[ENTRY] == Block(None, EntryInstrs(isMain), Some(Br(mid)))
    && g[mid] == Block(None, [], Some(Br(end))) && g[end] == Block(None, [], Some(Ret))
  }

  lemma {:induction false} IdleRun(w: World, isMain: bool, g: Graph, mid: BlockId, end: BlockId, st: GState, n: nat)
    requires Idle(g, isMain, mid, end) && TraceOf(st) == []
    requires st.GAt? ==> st.b in {ENTRY, mid, end}
    ensures TraceOf(GRun(w, g, st, n)) == []
    decreases n
  {
    if n > 0 {
      if st.GAt? && st.b == ENTRY && st.i < |g[st.b].instrs| { assert g[ENTRY].instrs[st.i] in {INop, IStore(Imm(0))}; }
      IdleRun(w, isMain, g, mid, end, GStep(w, g, st), n - 1);
    }
  }

  /** The end of a function whose last block is empty. */
  lemma FinishEmpty(b: Builder, x: BlockId)
    requires RetBlk !in b.plain && RetBlk !in b.gone && Open(b) && b.plain[b.cur.value] == EMPTY
    requires x in b.plain && x !in b.gone && (Targets(b.plain[x]) <= b.plain.Keys) && forall y ::
        y in b.gone ==> b.gone[y] != RetBlk
    ensures var fb := FinishFunction(b);
      && b.cur.value in fb.plain && fb.plain[b.cur.value] == Block(None, [], Some(Ret)) && x !in fb.gone
        && (x != b.cur.value ==> x in fb.plain && fb.plain[x] == b.plain[x])
      && (forall y :: y in b.plain ==> Redirect(fb.gone, y) == Redirect(b.gone, y))
  {
  }

  /** What is left of `fin` when the removed blocks are taken out. */
  lemma IdleCode(isMain: bool, fin: Builder, mid: BlockId, end: BlockId, f: BlockId, m1: BlockId, e1: BlockId)
    requires RetBlk !in fin.plain && fin.cur == Some(end) && end in fin.plain && fin.plain[end] == EMPTY
    requires ENTRY in fin.plain && fin.plain[ENTRY] == Block(None, EntryInstrs(isMain), Some(Br(m1)))
    requires mid in fin.plain && fin.plain[mid] == Block(None, [], Some(Br(e1)))
    requires f in fin.plain && f !in {ENTRY, mid, end} && fin.gone.Keys == {f} && fin.gone[f] in {mid, end}
    requires ENTRY != mid && ENTRY != end && mid != end && m1 in fin.plain && e1 in fin.plain
    requires Redirect(fin.gone, m1) == mid && Redirect(fin.gone, e1) == end
    ensures var fb := FinishFunction(fin); Idle(Real(fb.plain, fb.gone), isMain, mid, end)
  {
    hide FinishFunction;
    FinishEmpty(fin, ENTRY);
    FinishEmpty(fin, mid);
    FinishEmpty(fin, end);
    var fb := FinishFunction(fin);
    var g := Real(fb.plain, fb.gone);
    assert g[end] == Block(None, [], Some(Ret)) && g[mid] == RedirectBlock(fb.gone, fin.plain[mid]);
  }

  /** The code of a condition in one block that folds. */
  predicate OneBlock(b: Builder, x: EV, v: int) {
    && x.v == Imm(v) && x.b.cur == b.cur && Live(x.b) && Kept(b.plain, x.b.plain, b.cur)
      && RetBlk !in x.b.plain && RetBlk !in x.b.gone
    && x.b.gone == b.gone && x.b.stack == b.stack
    && (forall i :: 0 <= i && i != b.nextBlock && i < b.nextBlock ==> Blk(i) in b.plain || Blk(i) !in x.b.plain)
  }

  lemma FoldedCondition(alu: Alu, b: Builder, c: Expr, v: int)
    requires Inv(b) && Live(b) && FoldBool(alu, c) == Some(v) && !Splits(alu, c)
      && RetBlk !in b.plain && RetBlk !in b.gone
    ensures OneBlock(b, GenBool(alu, b, c), v)
  {
    hide GoneOK;
    BoolFrame(alu, b, c);
    ExprShape(alu, b, c);
    TestShape(alu, b, c);
  }

  function WhileBreak(c: Expr): Stmt { While(c, Break) }

  lemma StartSInv(isMain: bool)
    ensures SInv(StartFunction(isMain)) && Live(StartFunction(isMain)) && StartFunction(isMain).nextBlock == 1
  {
    StartIs(isMain);
  }

  /** The condition block is removed, whatever is in it. */
  lemma WhileRemoved(alu: Alu, isMain: bool, c: Expr)
    requires FoldBool(alu, c) == Some(1) && !Splits(alu, c)
    ensures Idle(Code(alu, isMain, WhileBreak(c)), isMain, Blk(2), Blk(3))
  {
    hide GenExpr, Fold, Splits, Inv, Real;
    var b, bs := StartFunction(isMain), WhileStart(StartFunction(isMain));
    StartIs(isMain);
    StartSInv(isMain);
    OwnBlockInside(b, 3, WhileFrame(b));
    FoldedCondition(alu, bs, c, 1);
    var x, entry := GenBool(alu, bs, c), Block(None, EntryInstrs(isMain), Some(Br(Blk(1))));
    assert bs.plain.Keys == {ENTRY, Blk(1)} && bs.plain[ENTRY] == entry && bs.plain[Blk(1)] == EMPTY
      && bs.cur == Some(Blk(1)) && bs.nextBlock == 4;
    WhileBreakEnds(alu, b, c, x);
    IdleCode(isMain, GenStmt(alu, b, WhileBreak(c)), Blk(2), Blk(3), Blk(1), Blk(1), Blk(3));
  }

  lemma WhileBreakEnds(alu: Alu, b: Builder, c: Expr, x: EV)
    requires b.cur == Some(ENTRY) && b.nextBlock == 1 && b.gone == map[] && b.stack == []
    requires x == GenBool(alu, WhileStart(b), c) && x.v == Imm(1) && x.b.cur == Some(Blk(1))
      && Live(x.b) && x.b.gone == map[]
    requires Blk(2) !in x.b.plain && Blk(3) !in x.b.plain && ENTRY in x.b.plain && RetBlk !in x.b.plain
    requires x.b.stack == [WhileFrame(b)]
    ensures var fin := GenStmt(alu, b, WhileBreak(c));
      && fin.cur == Some(Blk(3)) && Blk(3) in fin.plain && fin.plain[Blk(3)] == EMPTY
        && fin.gone == map[Blk(1) := Blk(2)] && RetBlk !in fin.plain
      && Blk(2) in fin.plain && fin.plain[Blk(2)] == Block(None, [], Some(Br(Blk(3)))) && Blk(1) in fin.plain
      && ENTRY in fin.plain && fin.plain[ENTRY] == x.b.plain[ENTRY]
  {
    hide GenBool, Preds, Real, Calc, StmtOK;
    var b1 := WhileBody(alu, b, c);
    WhileTestIs(alu, b, c);
    assert b1 == EmitBlock(x.b, Blk(2));
    var b2 := GenStmt(alu, b1, Break);
    assert b2 == Jump(b1, Blk(3));
    var b3 := EmitBranch(PopFrame(b2), Blk(1));
    assert b3.plain == b2.plain;
    assert Blk(2) in Preds(Real(b3.plain, map[]), Blk(3)) by {
      assert b3.plain[Blk(2)] == Block(None, [], Some(Br(Blk(3)))); InPreds(b3.plain, Blk(2), Blk(3)); }
    var b4 := EmitFinished(b3, Blk(3));
    assert b4 == Place(b3, Blk(3), None);
  }

  lemma InPreds(g: Graph, x: BlockId, y: BlockId)
    requires x in g && g[x] == Block(None, [], Some(Br(y)))
    ensures x in Preds(Real(g, map[]), y)
  {
  }

  /** `do ; while (c);` */
  function DoOnce(c: Expr): Stmt { DoWhile(Skip, c) }

  lemma DoRemoved(alu: Alu, isMain: bool, c: Expr)
    requires FoldBool(alu, c) == Some(0) && !Splits(alu, c)
    ensures Idle(Code(alu, isMain, DoOnce(c)), isMain, Blk(1), Blk(3))
  {
    hide GenExpr, Fold, Splits, Inv, Real;
    var b := StartFunction(isMain);
    var b1 := DoBody(b);
    var bc := DoCond(b, b1);
    StartIs(isMain);
    StartSInv(isMain);
    DoBodyFrame(b);
    InsideSInv(b, b1, DoFrame(b));
    PopSInv(b1);
    SInvInv(PopFrame(b1));
    EmitBlockAdvances(PopFrame(b1), Blk(2));
    FoldedCondition(alu, bc, c, 0);
    var x := GenBool(alu, bc, c);
    assert b1.plain[ENTRY] == Block(None, EntryInstrs(isMain), Some(Br(Blk(1)))) && b1.plain[Blk(1)] == EMPTY;
    assert bc.plain[ENTRY] == b1.plain[ENTRY] && bc.plain[Blk(1)] == Block(None, [], Some(Br(Blk(2))));
    DoOnceEnds(alu, b, c, x);
    IdleCode(isMain, GenStmt(alu, b, DoOnce(c)), Blk(1), Blk(3), Blk(2), Blk(1), Blk(2));
  }

  lemma DoOnceIs(alu: Alu, b: Builder, c: Expr)
    requires b.cur.Some? && b.nextBlock == 1
    ensures GenStmt(alu, b, DoOnce(c)) == DoEnd(alu, b, c, DoBody(b))
      && DoTest(alu, b, c, DoBody(b)) == GenBool(alu, DoCond(b, DoBody(b)), c)
  {
    hide GenBool, SimplifyForwarding;
    assert GenStmt(alu, DoBody(b), Skip) == DoBody(b);
    assert Visit(alu, b, DoOnce(c)) == DoEnd(alu, b, c, DoBody(b));
  }

  /** An empty block 2 in front of block 3 is removed. */
  lemma ForwardsTo3(b: Builder)
    requires b.cur == Some(Blk(2)) && Live(b) && b.gone == map[] && Blk(3) !in b.plain && ENTRY in b.plain
      && RetBlk !in b.plain && Blk(1) in b.plain
    ensures var fin := SimplifyForwarding(EmitBlock(b, Blk(3)), Blk(2));
      && fin.cur == Some(Blk(3)) && Blk(3) in fin.plain && fin.plain[Blk(3)] == EMPTY
        && fin.gone == map[Blk(2) := Blk(3)] && RetBlk !in fin.plain
      && Blk(1) in fin.plain && fin.plain[Blk(1)] == b.plain[Blk(1)] && Blk(2) in fin.plain && ENTRY in fin.plain
        && fin.plain[ENTRY] == b.plain[ENTRY]
  {
  }

  lemma DoOnceEnds(alu: Alu, b: Builder, c: Expr, x: EV)
    requires b.cur == Some(ENTRY) && b.nextBlock == 1 && b.gone == map[] && b.stack == []
    requires x == GenBool(alu, DoCond(b, DoBody(b)), c) && x.v == Imm(0) && x.b.cur == Some(Blk(2))
      && Live(x.b) && x.b.gone == map[]
    requires Blk(3) !in x.b.plain && ENTRY in x.b.plain && RetBlk !in x.b.plain && Blk(1) in x.b.plain
    ensures var fin := GenStmt(alu, b, DoOnce(c));
      && fin.cur == Some(Blk(3)) && Blk(3) in fin.plain && fin.plain[Blk(3)] == EMPTY
        && fin.gone == map[Blk(2) := Blk(3)] && RetBlk !in fin.plain
      && Blk(1) in fin.plain && fin.plain[Blk(1)] == x.b.plain[Blk(1)] && Blk(2) in fin.plain && ENTRY in fin.plain
        && fin.plain[ENTRY] == x.b.plain[ENTRY]
  {
    hide GenBool, GenStmt, SimplifyForwarding, EmitBlock, DoBody;
    var b4 := EmitBlock(x.b, Blk(3));
    DoOnceIs(alu, b, c);
    assert GenStmt(alu, b, DoOnce(c)) == SimplifyForwarding(b4, Blk(2));
    ForwardsTo3(x.b);
  }

  lemma {:induction false} IdleShows(w: World, isMain: bool, fn: Stmt, regs: Regs, mid: BlockId,
    end: BlockId, tr: Trace)
    requires Idle(Code(w.alu, isMain, fn), isMain, mid, end)
    ensures CodeShows(w, isMain, fn, regs, tr) ==> tr == []
  {
    hide CodeRun;
    if m: nat :| tr <= CodeRun(w, isMain, fn, regs, m).t {
      RunsAre(w, isMain, fn, regs, m);
      IdleRun(w, isMain, Code(w.alu, isMain, fn), mid, end, GAt(ENTRY, 0, regs, []), m);
    }
  }

  /** `while (c) break;` with a condition that folds to 1 has its effects exactly when the
      condition is not in the family that LoopCondOK excludes. */
  lemma {:induction false} EffectfulWhileExact(w: World, isMain: bool, c: Expr, regs: Regs)
    requires FoldBool(w.alu, c) == Some(1) && ValOK(w.alu, c)
    ensures (forall tr ::
        SourceShows(w, isMain, WhileBreak(c), regs, tr) <==> CodeShows(w, isMain, WhileBreak(c), regs, tr))
          <==> LoopCondOK(w.alu, c, 1)
  {
    hide SourceRun, CodeRun, FunctionOK, SourceShows, CodeShows, Code, FoldBool, Splits, Effects, ValOK;
    var fn := WhileBreak(c);
    if LoopCondOK(w.alu, c, 1) {
      assert FunctionOK(w.alu, fn) by { LoopFunctionsOK(w.alu, c); }
      forall tr ensures SourceShows(w, isMain, fn, regs, tr)
        <==> CodeShows(w, isMain, fn, regs, tr) { ShowsSame(w, isMain, fn, regs, tr); }
    } else {
      WhileRemoved(w.alu, isMain, c);
      EffectsShow(w, c, []);
      var tr := Eval(w, c, []).1;
      IdleShows(w, isMain, fn, regs, Blk(2), Blk(3), tr);
      assert SourceShows(w, isMain, fn, regs, tr) by { FirstTest(w, isMain, c, regs); }
    }
  }

  lemma {:induction false} EffectfulDoExact(w: World, isMain: bool, c: Expr, regs: Regs)
    requires FoldBool(w.alu, c) == Some(0) && ValOK(w.alu, c)
    ensures (forall tr :: SourceShows(w, isMain, DoOnce(c), regs, tr) <==> CodeShows(w, isMain, DoOnce(c), regs, tr))
      <==> LoopCondOK(w.alu, c, 0)
  {
    hide SourceRun, CodeRun, FunctionOK, SourceShows, CodeShows, Code, FoldBool, Splits, Effects, ValOK;
    var fn := DoOnce(c);
    if LoopCondOK(w.alu, c, 0) {
      assert FunctionOK(w.alu, fn) by { LoopFunctionsOK(w.alu, c); }
      forall tr ensures SourceShows(w, isMain, fn, regs, tr)
        <==> CodeShows(w, isMain, fn, regs, tr) { ShowsSame(w, isMain, fn, regs, tr); }
    } else {
      DoRemoved(w.alu, isMain, c);
      EffectsShow(w, c, []);
      var tr := Eval(w, c, []).1;
      IdleShows(w, isMain, fn, regs, Blk(1), Blk(3), tr);
      assert SourceShows(w, isMain, fn, regs, tr) by { FirstTest(w, isMain, c, regs); }
    }
  }

  lemma LoopFunctionsOK(alu: Alu, c: Expr)
    requires ValOK(alu, c)
    ensures LoopCondOK(alu, c, 1) ==> FunctionOK(alu, WhileBreak(c))
    ensures LoopCondOK(alu, c, 0) ==> FunctionOK(alu, DoOnce(c))
  {
    hide ValOK, LoopCondOK;
    assert StmtOK(alu, Break) && StmtOK(alu, Skip) && JumpsOK(Break, true, true);
    assert LoopCondOK(alu, c, 1) ==> StmtOK(alu, WhileBreak(c));
    assert LoopCondOK(alu, c, 0) ==> StmtOK(alu, DoOnce(c));
    assert JumpsOK(WhileBreak(c), false, false) && JumpsOK(DoOnce(c), false, false);
    assert !HasCase(Break) && !HasCase(Skip);
    assert !HasCase(WhileBreak(c)) && !HasCase(DoOnce(c));
    assert GotosIn(Break, Labels(WhileBreak(c))) && GotosIn(Skip, Labels(DoOnce(c)));
  }

  /** Both loops evaluate their condition. */
  lemma FirstTest(w: World, isMain: bool, c: Expr, regs: Regs)
    ensures SourceShows(w, isMain, WhileBreak(c), regs, Eval(w, c, []).1)
      && SourceShows(w, isMain, DoOnce(c), regs, Eval(w, c, []).1)
  {
    hide Eval, Code;
    var slot, fn := SlotAtStart(isMain, regs), WhileBreak(c);
    var st := Run(fn, KStop, []);
    Correctness.StepsSnoc(w, fn, slot, st, 0);
    assert SourceRun(w, isMain, fn, regs, 1).t == Eval(w, c, []).1;
    var fn2 := DoOnce(c);
    var st2 := Run(fn2, KStop, []);
    Correctness.StepsSnoc(w, fn2, slot, st2, 0);
    Correctness.StepsSnoc(w, fn2, slot, st2, 1);
    assert SourceRun(w, isMain, fn2, regs, 2).t == Eval(w, c, []).1;
  }
}
