/** The code of an expression computes its value: same effects, same result. */
module SimExpr {
  import opened Common
  import opened Source
  import opened Graph
  import opened Builder
  import opened CodeGen
  import opened Frames
  import opened FrameExpr

  /** Excludes the one expression whose code is wrong: && used as a value, with a constant left
      operand other than 0 and 1 (see Corners.ConstantAndExact). */
  predicate ValOK(alu: Alu, e: Expr)
    decreases e, 0
  {
    match e
    case Const(_) => true
    case Act(_, args) => forall i :: 0 <= i < |args| ==> ValOK(alu, args[i])
    case Bin(_, l, r) => ValOK(alu, l) && ValOK(alu, r)
    case Comma(l, r) => ValOK(alu, l) && ValOK(alu, r)
    case Not(x) => ValOK(alu, x)
    case And(l, r) =>
      if Calc(alu, l).Some? then (Calc(alu, l) == Some(1) && ValOK(alu, r)) || Calc(alu, l) == Some(0)
      else BrOK(alu, l) && ValOK(alu, r)
    case Or(l, r) =>
      if Calc(alu, l).Some? then Calc(alu, l) == Some(0) ==> ValOK(alu, r)
      else BrOK(alu, l) && ValOK(alu, r)
    case Cond(c, l, r) =>
      var v := Calc(alu, c);
      if v.Some? then ValOK(alu, if v.value != 0 then l else r)
      else if l.Const? && r.Const? then ValOK(alu, c)
      else BrOK(alu, c) && ValOK(alu, l) && ValOK(alu, r)
  }

  /** The same for an expression used as a condition. */
  predicate BrOK(alu: Alu, e: Expr)
    decreases e, 1
  {
    match e
    case And(l, r) => BrOK(alu, l) && BrOK(alu, r)
    case Or(l, r) => BrOK(alu, l) && BrOK(alu, r)
    case Not(x) => BrOK(alu, x)
    case Cond(c, l, r) => BrOK(alu, c) && BrOK(alu, l) && BrOK(alu, r)
    case _ => ValOK(alu, e)
  }

  /** A run that has reached the insertion point. */
  function At(b: Builder, regs: Regs, t: Trace): GState
    requires Open(b)
  {
    GAt(b.cur.value, |b.plain[b.cur.value].instrs|, regs, t)
  }

  predicate Agree(r0: Regs, r1: Regs, n: nat) {
    forall r: nat :: r < n ==> RegVal(r0, r) == RegVal(r1, r)
  }

  lemma AgreeTrans(r0: Regs, r1: Regs, r2: Regs, m: nat, n: nat)
    requires Agree(r0, r1, m) && Agree(r1, r2, n) && m <= n
    ensures Agree(r0, r2, m)
  {
  }

  lemma Compose(w: World, g: Graph, x: GState, m: nat, y: GState, n: nat, z: GState)
    requires GRun(w, g, x, m) == y && GRun(w, g, y, n) == z
    ensures GRun(w, g, x, m + n) == z
  {
    GRunAdd(w, g, x, m, n);
  }

  lemma ExtFrom(b: Builder, b1: Builder, g: Graph)
    requires Grows(b, b1) && Ext(b1.plain, g)
    ensures Ext(b.plain, g)
  {
    AdvancesExt(b, b1, {});
    ExtTrans(b.plain, b1.plain, g);
  }

  /** The primitive operations, run. */
  lemma SimEmit(w: World, b: Builder, ins: Instr, g: Graph, regs: Regs, t: Trace)
    requires Live(b) && Ext(Emit(b, ins).plain, g)
    ensures Open(Emit(b, ins))
    ensures GRun(w, g, At(b, regs, t), 1) == At(Emit(b, ins), ExecRegs(w, ins, regs, t), ExecTrace(ins, regs, t))
  {
    var c := b.cur.value;
    var blk := Emit(b, ins).plain[c];
    assert blk.instrs[|b.plain[c].instrs|] == ins;
    assert Extends(blk, g[c]);
    assert g[c].instrs[|b.plain[c].instrs|] == ins;
    assert GRun(w, g, At(b, regs, t), 1) == GRun(w, g, GStep(w, g, At(b, regs, t)), 0);
  }

  lemma SimTerminate(w: World, b: Builder, term: Term, g: Graph, regs: Regs, t: Trace)
    requires Live(b) && !term.Ret? && Ext(Terminate(b, term).plain, g)
    ensures GRun(w, g, At(b, regs, t), 1) == Enter(g, b.cur.value, Target(term, regs), regs, t)
  {
    var c := b.cur.value;
    assert Extends(Terminate(b, term).plain[c], g[c]);
    assert GRun(w, g, At(b, regs, t), 1) == GRun(w, g, GStep(w, g, At(b, regs, t)), 0);
  }

  /** Entering a block that has been placed without a phi. */
  lemma EnterBlock(b: Builder, id: BlockId, g: Graph, from: BlockId, regs: Regs, t: Trace)
    requires Ext(EmitBlock(b, id).plain, g)
    ensures Open(EmitBlock(b, id)) && Enter(g, from, id, regs, t) == At(EmitBlock(b, id), regs, t)
  {
    assert id in EmitBlock(b, id).plain;
    assert Extends(EmitBlock(b, id).plain[id], g[id]);
  }

  /** Falling from the insertion point into the next block. */
  lemma SimFall(w: World, b: Builder, id: BlockId, g: Graph, regs: Regs, t: Trace)
    requires Live(b) && id !in b.plain && Ext(EmitBlock(b, id).plain, g)
    ensures Open(EmitBlock(b, id)) && GRun(w, g, At(b, regs, t), 1) == At(EmitBlock(b, id), regs, t)
  {
    var c := b.cur.value;
    assert Extends(EmitBlock(b, id).plain[c], g[c]);
    assert Ext(Terminate(b, Br(id)).plain, g) by {
      forall x | x in Terminate(b, Br(id)).plain ensures x in g && Extends(Terminate(b, Br(id)).plain[x], g[x]) {
        assert x in EmitBlock(b, id).plain;
      }
    }
    SimTerminate(w, b, Br(id), g, regs, t);
    EnterBlock(b, id, g, c, regs, t);
  }

  /** A fresh result register keeps what stood below. */
  lemma SimDefine(w: World, b: Builder, ins: Instr, g: Graph, regs: Regs, t: Trace, v: int)
    requires Live(b) && Ext(Define(b, ins).b.plain, g)
    requires ExecRegs(w, ins, regs, t) == regs[b.nextReg := v]
    ensures var x := Define(b, ins);
      && Open(x.b)
      && GRun(w, g, At(b, regs, t), 1) == At(x.b, regs[b.nextReg := v], ExecTrace(ins, regs, t))
      && Val(x.v, regs[b.nextReg := v]) == v && Agree(regs, regs[b.nextReg := v], b.nextReg)
  {
    SimEmit(w, b, ins, g, regs, t);
  }

  /** What the code of `e`, between states `b` and `x`, does. */
  predicate Computes(w: World, g: Graph, b: Builder, x: EV, v: int, regs: Regs, t: Trace, n: nat,
    regs1: Regs, t1: Trace) {
    && Open(b) && Open(x.b) && GRun(w, g, At(b, regs, t), n) == At(x.b, regs1, t1)
    && Val(x.v, regs1) == v && Agree(regs, regs1, b.nextReg)
  }

  lemma ThenComputes(w: World, g: Graph, b: Builder, x: EV, y: EV, v1: int, v2: int, regs: Regs, t: Trace,
                     n: nat, regs1: Regs, t1: Trace, n2: nat, regs2: Regs, t2: Trace)
    requires Computes(w, g, b, x, v1, regs, t, n, regs1, t1) && Computes(w, g, x.b, y, v2, regs1, t1, n2, regs2, t2)
    requires b.nextReg <= x.b.nextReg && Below(x.v, x.b.nextReg)
    ensures Computes(w, g, b, y, v2, regs, t, n + n2, regs2, t2) && Val(x.v, regs2) == v1
  {
    Compose(w, g, At(b, regs, t), n, At(x.b, regs1, t1), n2, At(y.b, regs2, t2));
    AgreeTrans(regs, regs1, regs2, b.nextReg, x.b.nextReg);
  }

  lemma ThenDefine(w: World, g: Graph, b: Builder, x: EV, ins: Instr, v1: int, v2: int, regs: Regs, t: Trace, n: nat,
    regs1: Regs, t1: Trace)
    requires Computes(w, g, b, x, v1, regs, t, n, regs1, t1) && Live(x.b)
    requires b.nextReg <= x.b.nextReg && Below(x.v, x.b.nextReg) && Ext(Define(x.b, ins).b.plain, g)
    requires ExecRegs(w, ins, regs1, t1) == regs1[x.b.nextReg := v2]
    ensures Computes(w, g, b, Define(x.b, ins), v2, regs, t, n + 1, regs1[x.b.nextReg := v2], ExecTrace(ins, regs1, t1))
  {
    SimDefine(w, x.b, ins, g, regs1, t1, v2);
    ThenComputes(w, g, b, x, Define(x.b, ins), v1, v2, regs, t, n, regs1, t1, 1, regs1[x.b.nextReg := v2],
      ExecTrace(ins, regs1, t1));
  }

  lemma {:induction false} ExprSim(w: World, b: Builder, e: Expr, g: Graph, regs: Regs, t: Trace)
    returns (n: nat, regs1: Regs)
    requires Inv(b) && Live(b) && ValOK(w.alu, e) && Ext(GenExpr(w.alu, b, e).b.plain, g)
    ensures Computes(w, g, b, GenExpr(w.alu, b, e), Eval(w, e, t).0, regs, t, n, regs1, Eval(w, e, t).1)
    decreases e, 1
  {
    var alu := w.alu;
    n, regs1 := 0, regs;
    match e
    case Const(_) =>
    case Act(_, _) => n, regs1 := ActSim(w, b, e, g, regs, t);
    case Bin(_, _, _) => n, regs1 := BinSim(w, b, e, g, regs, t);
    case Comma(_, _) => n, regs1 := CommaSim(w, b, e, g, regs, t);
    case Not(_) => n, regs1 := NotSim(w, b, e, g, regs, t);
    case And(l, r) =>
      if Calc(alu, l).None? { n, regs1 := LogicSim(w, b, e, g, regs, t); }
      else {
        CalcSound(w, l, t);
        if Calc(alu, l) == Some(1) { n, regs1 := BoolSim(w, b, r, g, regs, t); }
      }
    case Or(l, r) =>
      if Calc(alu, l).None? { n, regs1 := LogicSim(w, b, e, g, regs, t); }
      else {
        CalcSound(w, l, t);
        if Calc(alu, l) == Some(0) { n, regs1 := BoolSim(w, b, r, g, regs, t); }
      }
    case Cond(c, l, r) =>
      var v := Calc(alu, c);
      if v.Some? {
        CalcSound(w, c, t);
        n, regs1 := ExprSim(w, b, if v.value != 0 then l else r, g, regs, t);
      } else if l.Const? && r.Const? {
        n, regs1 := SelectSim(w, b, e, g, regs, t);
      } else {
        n, regs1 := CondSim(w, b, e, g, regs, t);
      }
  }

  lemma {:induction false} ActSim(w: World, b: Builder, e: Expr, g: Graph, regs: Regs, t: Trace)
    returns (n: nat, regs1: Regs)
    requires e.Act?
    requires Inv(b) && Live(b) && ValOK(w.alu, e) && Ext(GenExpr(w.alu, b, e).b.plain, g)
    ensures Computes(w, g, b, GenExpr(w.alu, b, e), Eval(w, e, t).0, regs, t, n, regs1, Eval(w, e, t).1)
    decreases e, 0
  {
    hide Computes, Grows, Ext, Inv, Agree;
    var r := GenArgs(w.alu, b, e.args);
    var ins := IAct(r.b.nextReg, e.a, r.vs);
    ArgsFrame(w.alu, b, e.args);
    DefineGrows(r.b, ins);
    ExtFrom(r.b, Define(r.b, ins).b, g);
    n, regs1 := ArgsSim(w, b, e.args, g, regs, t);
    var (vs, t1) := EvalArgs(w, e.args, t);
    var v := w.act(t1, e.a, vs);
    ThenDefine(w, g, b, EV(r.b, Imm(0)), ins, 0, v, regs, t, n, regs1, t1);
    n, regs1 := n + 1, regs1[r.b.nextReg := v];
  }

  lemma {:induction false} BinSim(w: World, b: Builder, e: Expr, g: Graph, regs: Regs, t: Trace)
    returns (n: nat, regs1: Regs)
    requires e.Bin?
    requires Inv(b) && Live(b) && ValOK(w.alu, e) && Ext(GenExpr(w.alu, b, e).b.plain, g)
    ensures Computes(w, g, b, GenExpr(w.alu, b, e), Eval(w, e, t).0, regs, t, n, regs1, Eval(w, e, t).1)
    decreases e, 0
  {
    hide Computes, Grows, Ext, Inv, Agree;
    var x := GenExpr(w.alu, b, e.l);
    var y := GenExpr(w.alu, x.b, e.r);
    ExprFrame(w.alu, b, e.l);
    ExprFrame(w.alu, x.b, e.r);
    var ins := IBin(y.b.nextReg, e.op, x.v, y.v);
    var folds := x.v.Imm? && y.v.Imm?;
    if !folds { DefineGrows(y.b, ins); ExtFrom(y.b, Define(y.b, ins).b, g); }
    ExtFrom(x.b, y.b, g);
    n, regs1 := ExprSim(w, b, e.l, g, regs, t);
    var (v1, t1) := Eval(w, e.l, t);
    var n2, regs2 := ExprSim(w, x.b, e.r, g, regs1, t1);
    var (v2, t2) := Eval(w, e.r, t1);
    ThenComputes(w, g, b, x, y, v1, v2, regs, t, n, regs1, t1, n2, regs2, t2);
    ComputesValue(w, g, b, y, v2, regs, t, n + n2, regs2, t2);
    n, regs1 := n + n2, regs2;
    var d := w.alu(e.op, v1, v2);
    if folds {
      ComputesConst(w, g, b, y, v2, d, regs, t, n, regs1, t2);
    } else {
      ThenDefine(w, g, b, y, ins, v2, d, regs, t, n, regs1, t2);
      n, regs1 := n + 1, regs1[y.b.nextReg := d];
    }
  }

  lemma ComputesValue(w: World, g: Graph, b: Builder, x: EV, v: int, regs: Regs, t: Trace, n: nat,
    regs1: Regs, t1: Trace)
    requires Computes(w, g, b, x, v, regs, t, n, regs1, t1)
    ensures Val(x.v, regs1) == v
  {
  }

  /** No code is needed for a constant. */
  lemma ComputesConst(w: World, g: Graph, b: Builder, x: EV, v: int, d: int, regs: Regs, t: Trace, n: nat,
    regs1: Regs, t1: Trace)
    requires Computes(w, g, b, x, v, regs, t, n, regs1, t1)
    ensures Computes(w, g, b, EV(x.b, Imm(d)), d, regs, t, n, regs1, t1)
  {
  }

  lemma {:induction false} CommaSim(w: World, b: Builder, e: Expr, g: Graph, regs: Regs, t: Trace)
    returns (n: nat, regs1: Regs)
    requires e.Comma?
    requires Inv(b) && Live(b) && ValOK(w.alu, e) && Ext(GenExpr(w.alu, b, e).b.plain, g)
    ensures Computes(w, g, b, GenExpr(w.alu, b, e), Eval(w, e, t).0, regs, t, n, regs1, Eval(w, e, t).1)
    decreases e, 0
  {
    hide Computes, Grows, Ext, Inv, Agree;
    var x := GenExpr(w.alu, b, e.l);
    var y := GenExpr(w.alu, x.b, e.r);
    ExprFrame(w.alu, b, e.l);
    ExprFrame(w.alu, x.b, e.r);
    ExtFrom(x.b, y.b, g);
    n, regs1 := ExprSim(w, b, e.l, g, regs, t);
    var (v1, t1) := Eval(w, e.l, t);
    var n2, regs2 := ExprSim(w, x.b, e.r, g, regs1, t1);
    var (v2, t2) := Eval(w, e.r, t1);
    ThenComputes(w, g, b, x, y, v1, v2, regs, t, n, regs1, t1, n2, regs2, t2);
    n, regs1 := n + n2, regs2;
  }

  lemma {:induction false} NotSim(w: World, b: Builder, e: Expr, g: Graph, regs: Regs, t: Trace)
    returns (n: nat, regs1: Regs)
    requires e.Not?
    requires Inv(b) && Live(b) && ValOK(w.alu, e) && Ext(GenExpr(w.alu, b, e).b.plain, g)
    ensures Computes(w, g, b, GenExpr(w.alu, b, e), Eval(w, e, t).0, regs, t, n, regs1, Eval(w, e, t).1)
    decreases e, 0
  {
    hide Computes, Grows, Ext, Inv, Agree;
    var c := GenBool(w.alu, b, e.e);
    BoolFrame(w.alu, b, e.e);
    var ins := INot(c.b.nextReg, c.v);
    if !c.v.Imm? { DefineGrows(c.b, ins); ExtFrom(c.b, Define(c.b, ins).b, g); }
    n, regs1 := BoolSim(w, b, e.e, g, regs, t);
    var (v, t1) := Eval(w, e.e, t);
    ComputesValue(w, g, b, c, Truth(v), regs, t, n, regs1, t1);
    if c.v.Imm? {
      ComputesConst(w, g, b, c, Truth(v), 1 - Truth(v), regs, t, n, regs1, t1);
    } else {
      ThenDefine(w, g, b, c, ins, Truth(v), 1 - Truth(v), regs, t, n, regs1, t1);
      n, regs1 := n + 1, regs1[c.b.nextReg := 1 - Truth(v)];
    }
  }

  lemma {:induction false} BoolSim(w: World, b: Builder, e: Expr, g: Graph, regs: Regs, t: Trace)
    returns (n: nat, regs1: Regs)
    requires Inv(b) && Live(b) && ValOK(w.alu, e) && Ext(GenBool(w.alu, b, e).b.plain, g)
    ensures Computes(w, g, b, GenBool(w.alu, b, e), Truth(Eval(w, e, t).0), regs, t, n, regs1, Eval(w, e, t).1)
    decreases e, 2
  {
    hide Computes, Grows, Ext, Inv, Agree;
    var x := GenExpr(w.alu, b, e);
    ExprFrame(w.alu, b, e);
    var ins := ITest(x.b.nextReg, x.v);
    if !x.v.Imm? { DefineGrows(x.b, ins); ExtFrom(x.b, Define(x.b, ins).b, g); }
    n, regs1 := ExprSim(w, b, e, g, regs, t);
    var (v, t1) := Eval(w, e, t);
    ComputesValue(w, g, b, x, v, regs, t, n, regs1, t1);
    if x.v.Imm? {
      ComputesConst(w, g, b, x, v, Truth(v), regs, t, n, regs1, t1);
    } else {
      ThenDefine(w, g, b, x, ins, v, Truth(v), regs, t, n, regs1, t1);
      n, regs1 := n + 1, regs1[x.b.nextReg := Truth(v)];
    }
  }

  lemma {:induction false} SelectSim(w: World, b: Builder, e: Expr, g: Graph, regs: Regs, t: Trace)
    returns (n: nat, regs1: Regs)
    requires e.Cond? && Calc(w.alu, e.c).None? && e.l.Const? && e.r.Const?
    requires Inv(b) && Live(b) && ValOK(w.alu, e) && Ext(GenExpr(w.alu, b, e).b.plain, g)
    ensures Computes(w, g, b, GenExpr(w.alu, b, e), Eval(w, e, t).0, regs, t, n, regs1, Eval(w, e, t).1)
    decreases e, 0
  {
    hide Computes, Grows, Ext, Inv, Agree;
    var y := GenBool(w.alu, b, e.c);
    BoolFrame(w.alu, b, e.c);
    var ins := ISelect(y.b.nextReg, y.v, Imm(e.l.v), Imm(e.r.v));
    if !y.v.Imm? { DefineGrows(y.b, ins); ExtFrom(y.b, Define(y.b, ins).b, g); }
    n, regs1 := BoolSim(w, b, e.c, g, regs, t);
    var (v, t1) := Eval(w, e.c, t);
    var d := if v != 0 then e.l.v else e.r.v;
    ComputesValue(w, g, b, y, Truth(v), regs, t, n, regs1, t1);
    if y.v.Imm? {
      ComputesConst(w, g, b, y, Truth(v), d, regs, t, n, regs1, t1);
    } else {
      ThenDefine(w, g, b, y, ins, Truth(v), d, regs, t, n, regs1, t1);
      n, regs1 := n + 1, regs1[y.b.nextReg := d];
    }
  }

  lemma NoArgs(w: World, b: Builder, g: Graph, regs: Regs, t: Trace)
    requires Live(b)
    ensures Computes(w, g, b, EV(b, Imm(0)), 0, regs, t, 0, regs, t)
  {
  }

  lemma {:induction false} ArgsSim(w: World, b: Builder, es: seq<Expr>, g: Graph, regs: Regs, t: Trace)
    returns (n: nat, regs1: Regs)
    requires Inv(b) && Live(b) && (forall i :: 0 <= i < |es| ==> ValOK(w.alu, es[i]))
      && Ext(GenArgs(w.alu, b, es).b.plain, g)
    ensures Computes(w, g, b, EV(GenArgs(w.alu, b, es).b, Imm(0)), 0, regs, t, n, regs1, EvalArgs(w, es, t).1)
    ensures Vals(GenArgs(w.alu, b, es).vs, regs1) == EvalArgs(w, es, t).0
    decreases es, 0
  {
    hide Computes, Grows, Ext, Inv, Agree, Live, GRun;
    n, regs1 := 0, regs;
    if es == [] { NoArgs(w, b, g, regs, t); }
    else {
      var x := GenExpr(w.alu, b, es[0]);
      var r := GenArgs(w.alu, x.b, es[1..]);
      ExprFrame(w.alu, b, es[0]);
      ArgsFrame(w.alu, x.b, es[1..]);
      ExtFrom(x.b, r.b, g);
      n, regs1 := ExprSim(w, b, es[0], g, regs, t);
      var (v1, t1) := Eval(w, es[0], t);
      var n2, regs2 := ArgsSim(w, x.b, es[1..], g, regs1, t1);
      ThenComputes(w, g, b, x, EV(r.b, Imm(0)), v1, 0, regs, t, n, regs1, t1, n2, regs2, EvalArgs(w, es[1..], t1).1);
      assert Vals([x.v] + r.vs, regs2) == [v1] + Vals(r.vs, regs2);
      n, regs1 := n + n2, regs2;
    }
  }

  /** The code of a condition ends with a jump, from some block `from`, to the right target. */
  predicate Decides(w: World, g: Graph, b: Builder, b1: Builder, v: int, t: BlockId, f: BlockId,
                    regs: Regs, tr: Trace, n: nat, regs1: Regs, tr1: Trace, from: BlockId) {
    var to := if v != 0 then t else f;
    && Open(b) && n > 0 && from in b1.plain && to in Targets(b1.plain[from])
    && GRun(w, g, At(b, regs, tr), n) == Enter(g, from, to, regs1, tr1) && Agree(regs, regs1, b.nextReg)
  }

  /** A condition is decided by jumping once from `b` to the block `mid`, and going on there. */
  lemma DecidesLater(w: World, g: Graph, b: Builder, b1: Builder, mid: BlockId, other: BlockId, b2: Builder, v1: int,
    v: int, t: BlockId, f: BlockId,
                     t1: BlockId, f1: BlockId, regs: Regs, tr: Trace, n: nat, regs1: Regs, tr1: Trace, from: BlockId,
                     n2: nat, regs2: Regs, tr2: Trace, from2: BlockId)
    requires Decides(w, g, b, b1, v1, t1, f1, regs, tr, n, regs1, tr1, from)
    requires mid == (if v1 != 0 then t1 else f1)
    requires Ext(EmitBlock(b1, mid).plain, g) && b.nextReg <= EmitBlock(b1, mid).nextReg
    requires Decides(w, g, EmitBlock(b1, mid), b2, v, t, f, regs1, tr1, n2, regs2, tr2, from2)
    ensures Decides(w, g, b, b2, v, t, f, regs, tr, n + n2, regs2, tr2, from2)
  {
    EnterBlock(b1, mid, g, from, regs1, tr1);
    Compose(w, g, At(b, regs, tr), n, Enter(g, from, mid, regs1, tr1), n2,
      Enter(g, from2, if v != 0 then t else f, regs2, tr2));
    AgreeTrans(regs, regs1, regs2, b.nextReg, EmitBlock(b1, mid).nextReg);
  }

  /** A condition decided before the last piece of code was added. */
  lemma DecidesNow(w: World, g: Graph, b: Builder, b1: Builder, b2: Builder, v1: int, t1: BlockId, f1: BlockId,
    v: int, t: BlockId, f: BlockId,
                   regs: Regs, tr: Trace, n: nat, regs1: Regs, tr1: Trace, from: BlockId)
    requires Decides(w, g, b, b1, v1, t1, f1, regs, tr, n, regs1, tr1, from) && Ext(b1.plain, b2.plain)
    requires (if v1 != 0 then t1 else f1) == (if v != 0 then t else f)
    ensures Decides(w, g, b, b2, v, t, f, regs, tr, n, regs1, tr1, from)
  {
    assert Extends(b1.plain[from], b2.plain[from]);
  }

  lemma DecidesNot(w: World, g: Graph, b: Builder, b1: Builder, v: int, t: BlockId, f: BlockId,
                   regs: Regs, tr: Trace, n: nat, regs1: Regs, tr1: Trace, from: BlockId)
    requires Decides(w, g, b, b1, v, t, f, regs, tr, n, regs1, tr1, from)
    ensures Decides(w, g, b, b1, 1 - Truth(v), f, t, regs, tr, n, regs1, tr1, from)
  {
  }

  lemma DecidesTruth(w: World, g: Graph, b: Builder, b1: Builder, v: int, t: BlockId, f: BlockId,
                     regs: Regs, tr: Trace, n: nat, regs1: Regs, tr1: Trace, from: BlockId)
    requires Decides(w, g, b, b1, v, t, f, regs, tr, n, regs1, tr1, from)
    ensures Decides(w, g, b, b1, Truth(v), t, f, regs, tr, n, regs1, tr1, from)
  {
  }

  lemma DecidesTest(w: World, g: Graph, b: Builder, x: EV, v: int, t: BlockId, f: BlockId, regs: Regs, tr: Trace,
    n: nat, regs1: Regs, tr1: Trace)
    requires Computes(w, g, b, x, Truth(v), regs, tr, n, regs1, tr1) && Live(x.b)
    requires Ext(Terminate(x.b, CondBr(x.v, t, f)).plain, g)
    ensures Decides(w, g, b, Terminate(x.b, CondBr(x.v, t, f)), v, t, f, regs, tr, n + 1, regs1, tr1, x.b.cur.value)
  {
    var from, to := x.b.cur.value, Target(CondBr(x.v, t, f), regs1);
    SimTerminate(w, x.b, CondBr(x.v, t, f), g, regs1, tr1);
    Compose(w, g, At(b, regs, tr), n, At(x.b, regs1, tr1), 1, Enter(g, from, to, regs1, tr1));
  }

  lemma {:induction false} BranchSim(w: World, b: Builder, e: Expr, t: BlockId, f: BlockId,
    g: Graph, regs: Regs, tr: Trace)
    returns (n: nat, regs1: Regs, from: BlockId)
    requires Inv(b) && Live(b) && BrOK(w.alu, e) && Ext(GenBranch(w.alu, b, e, t, f).plain, g)
    ensures Decides(w, g, b, GenBranch(w.alu, b, e, t, f), Eval(w, e, tr).0, t, f, regs, tr, n, regs1,
      Eval(w, e, tr).1, from)
    decreases e, 3
  {
    hide Decides, Computes, Grows, Ext, Inv, Agree;
    var alu := w.alu;
    match e
    case And(l, r) =>
      var mid := Blk(b.nextBlock);
      n, regs1, from := TwoStepSim(w, b, e, l, mid, f, 1, mid, r, t, f, g, regs, tr);
      var (v1, tr1) := Eval(w, l, tr);
      var b2 := EmitBlock(GenBranch(alu, NewBlocks(b, 1), l, mid, f), mid);
      if v1 != 0 {
        var n2, regs2, from2 := BranchSim(w, b2, r, t, f, g, regs1, tr1);
        DecidesLater(w, g, b, GenBranch(alu, NewBlocks(b, 1), l, mid, f), mid, f, GenBranch(alu, b, e, t, f), v1,
          Eval(w, r, tr1).0, t, f, mid, f,
                     regs, tr, n, regs1, tr1, from, n2, regs2, Eval(w, r, tr1).1, from2);
        n, regs1, from := n + n2, regs2, from2;
        DecidesTruth(w, g, b, GenBranch(alu, b, e, t, f), Eval(w, r, tr1).0, t, f, regs, tr, n, regs1,
          Eval(w, r, tr1).1, from);
      } else {
        DecidesNow(w, g, b, GenBranch(alu, NewBlocks(b, 1), l, mid, f), GenBranch(alu, b, e, t, f), v1, mid, f, 0, t,
          f, regs, tr, n, regs1, tr1, from);
      }
    case Or(l, r) =>
      var mid := Blk(b.nextBlock);
      n, regs1, from := TwoStepSim(w, b, e, l, t, mid, 1, mid, r, t, f, g, regs, tr);
      var (v1, tr1) := Eval(w, l, tr);
      var b2 := EmitBlock(GenBranch(alu, NewBlocks(b, 1), l, t, mid), mid);
      if v1 == 0 {
        var n2, regs2, from2 := BranchSim(w, b2, r, t, f, g, regs1, tr1);
        DecidesLater(w, g, b, GenBranch(alu, NewBlocks(b, 1), l, t, mid), mid, t, GenBranch(alu, b, e, t, f), v1,
          Eval(w, r, tr1).0, t, f, t, mid,
                     regs, tr, n, regs1, tr1, from, n2, regs2, Eval(w, r, tr1).1, from2);
        n, regs1, from := n + n2, regs2, from2;
        DecidesTruth(w, g, b, GenBranch(alu, b, e, t, f), Eval(w, r, tr1).0, t, f, regs, tr, n, regs1,
          Eval(w, r, tr1).1, from);
      } else {
        DecidesNow(w, g, b, GenBranch(alu, NewBlocks(b, 1), l, t, mid), GenBranch(alu, b, e, t, f), v1, t, mid, 1, t,
          f, regs, tr, n, regs1, tr1, from);
      }
    case Not(x) =>
      n, regs1, from := BranchSim(w, b, x, f, t, g, regs, tr);
      DecidesNot(w, g, b, GenBranch(alu, b, e, t, f), Eval(w, x, tr).0, f, t, regs, tr, n, regs1,
        Eval(w, x, tr).1, from);
    case Cond(c, l, r) =>
      n, regs1, from := CondBranchSim(w, b, e, t, f, g, regs, tr);
    case _ =>
      BoolFrame(alu, b, e);
      var x := GenBool(alu, b, e);
      TerminateGrows(x.b, CondBr(x.v, t, f));
      ExtFrom(x.b, Terminate(x.b, CondBr(x.v, t, f)), g);
      n, regs1 := BoolSim(w, b, e, g, regs, tr);
      DecidesTest(w, g, b, x, Eval(w, e, tr).0, t, f, regs, tr, n, regs1, Eval(w, e, tr).1);
      n, from := n + 1, x.b.cur.value;
  }

  /** The first decision of a compound condition; the code that follows it is in `g` as well. */
  lemma {:induction false} TwoStepSim(w: World, b: Builder, e: Expr, l: Expr, lt: BlockId, lf: BlockId, k: nat,
    mid: BlockId, r: Expr, t: BlockId, f: BlockId,
                   g: Graph, regs: Regs, tr: Trace) returns (n: nat, regs1: Regs, from: BlockId)
    requires Inv(b) && Live(b) && mid == Blk(b.nextBlock) && 1 <= k && l < e && r < e && BrOK(w.alu, l)
    requires Ext(GenBranch(w.alu, EmitBlock(GenBranch(w.alu, NewBlocks(b, k), l, lt, lf), mid), r, t, f).plain, g)
    ensures var b1 := GenBranch(w.alu, NewBlocks(b, k), l, lt, lf);
      var b2 := EmitBlock(b1, mid);
      var b3 := GenBranch(w.alu, b2, r, t, f);
      && Inv(b2) && Live(b2) && Inv(b3) && Cut(b3) && Ext(b2.plain, g) && Ext(b1.plain, b3.plain)
        && b.nextReg <= b2.nextReg
      && Ext(b1.plain, g)
      && Decides(w, g, b, b1, Eval(w, l, tr).0, lt, lf, regs, tr, n, regs1, Eval(w, l, tr).1, from)
    decreases e, 1
  {
    hide *;
    var b1 := GenBranch(w.alu, NewBlocks(b, k), l, lt, lf);
    var b2 := EmitBlock(b1, mid);
    var b3 := GenBranch(w.alu, b2, r, t, f);
    TwoStepFrame(w.alu, b, e, l, lt, lf, k, mid, r, t, f);
    NumberedBranch(w.alu, b, k, l, lt, lf);
    AfterBranchFacts(b2, b3);
    ThenBlock(b, b1, mid);
    ExtTrans(b2.plain, b3.plain, g);
    ExtTrans(b1.plain, b2.plain, b3.plain);
    ExtTrans(b1.plain, b2.plain, g);
    InvNumbered(b, k);
    n, regs1, from := BranchSim(w, NewBlocks(b, k), l, lt, lf, g, regs, tr);
    DecidesUnnumbered(w, g, b, k, b1, Eval(w, l, tr).0, lt, lf, regs, tr, n, regs1, Eval(w, l, tr).1, from);
  }

  lemma NumberedBranch(alu: Alu, b: Builder, k: nat, e: Expr, t: BlockId, f: BlockId)
    requires Inv(b) && Live(b)
    ensures var b1 := GenBranch(alu, NewBlocks(b, k), e, t, f);
      && Inv(b1) && Cut(b1) && Open(b1) && Grows(b, b1) && b.nextBlock + k <= b1.nextBlock && b.nextReg <= b1.nextReg
      && forall i :: b.nextBlock <= i < b.nextBlock + k ==> Blk(i) !in b1.plain
  {
    InvNumbered(b, k);
    BranchFrame(alu, NewBlocks(b, k), e, t, f);
    NumberedGrows(b, k, GenBranch(alu, NewBlocks(b, k), e, t, f));
  }

  lemma {:induction false} CondBranchParts(w: World, b: Builder, e: Expr, t: BlockId, f: BlockId, tr: Trace)
    requires e.Cond? && BrOK(w.alu, e)
    ensures var lhs, rhs := Blk(b.nextBlock), Blk(b.nextBlock + 1);
      var b1 := GenBranch(w.alu, NewBlocks(b, 2), e.c, lhs, rhs);
      var b3 := GenBranch(w.alu, EmitBlock(b1, lhs), e.l, t, f);
      GenBranch(w.alu, b, e, t, f) == GenBranch(w.alu, EmitBlock(b3, rhs), e.r, t, f)
    ensures var (v1, tr1) := Eval(w, e.c, tr);
      Eval(w, e, tr) == if v1 != 0 then Eval(w, e.l, tr1) else Eval(w, e.r, tr1)
    ensures BrOK(w.alu, e.c) && BrOK(w.alu, e.l) && BrOK(w.alu, e.r)
  {
  }

  lemma {:induction false} CondBranchSim(w: World, b: Builder, e: Expr, t: BlockId, f: BlockId,
    g: Graph, regs: Regs, tr: Trace)
    returns (n: nat, regs1: Regs, from: BlockId)
    requires e.Cond?
    requires Inv(b) && Live(b) && BrOK(w.alu, e) && Ext(GenBranch(w.alu, b, e, t, f).plain, g)
    ensures Decides(w, g, b, GenBranch(w.alu, b, e, t, f), Eval(w, e, tr).0, t, f, regs, tr, n, regs1,
      Eval(w, e, tr).1, from)
    decreases e, 2
  {
    hide *;
    var lhs, rhs := Blk(b.nextBlock), Blk(b.nextBlock + 1);
    var b1 := GenBranch(w.alu, NewBlocks(b, 2), e.c, lhs, rhs);
    var b2 := EmitBlock(b1, lhs);
    var b3 := GenBranch(w.alu, b2, e.l, t, f);
    var b4 := EmitBlock(b3, rhs);
    var b5 := GenBranch(w.alu, b4, e.r, t, f);
    var (v1, tr1) := Eval(w, e.c, tr);
    CondBranchParts(w, b, e, t, f, tr);
    TwoStepFrame(w.alu, b, e, e.c, lhs, rhs, 2, lhs, e.l, t, f);
    AfterBranchFacts(b, b1);
    AfterBranchFacts(b2, b3);
    AfterBranchFacts(b, b3);
    ThenBlock(b, b3, rhs);
    BranchFrame(w.alu, b4, e.r, t, f);
    AfterBranchFacts(b4, b5);
    ExtTrans(b4.plain, b5.plain, g);
    ExtTrans(b3.plain, b4.plain, b5.plain);
    ExtTrans(b3.plain, b4.plain, g);
    n, regs1, from := TwoStepSim(w, b, e, e.c, lhs, rhs, 2, lhs, e.l, t, f, g, regs, tr);
    if v1 != 0 {
      var n2, regs2, from2 := BranchSim(w, b2, e.l, t, f, g, regs1, tr1);
      var (v2, tr2) := Eval(w, e.l, tr1);
      DecidesLater(w, g, b, b1, lhs, rhs, b3, v1, v2, t, f, lhs, rhs, regs, tr, n, regs1, tr1, from,
        n2, regs2, tr2, from2);
      n, regs1, from := n + n2, regs2, from2;
      DecidesNow(w, g, b, b3, b5, v2, t, f, v2, t, f, regs, tr, n, regs1, tr2, from);
    } else {
      DecidesNow(w, g, b, b1, b3, v1, lhs, rhs, v1, lhs, rhs, regs, tr, n, regs1, tr1, from);
      var n2, regs2, from2 := BranchSim(w, b4, e.r, t, f, g, regs1, tr1);
      var (v2, tr2) := Eval(w, e.r, tr1);
      DecidesLater(w, g, b, b3, rhs, lhs, b5, v1, v2, t, f, lhs, rhs, regs, tr, n, regs1, tr1, from,
        n2, regs2, tr2, from2);
      n, regs1, from := n + n2, regs2, from2;
    }
  }

  lemma GrowsRegs(b: Builder, b1: Builder)
    requires Grows(b, b1)
    ensures b.nextReg <= b1.nextReg
  {
  }

  /** Entering the block where two values meet: the phi picks the one of the block we come from. */
  lemma JoinSim(b: Builder, end: BlockId, incoming: map<BlockId, Value>, g: Graph, from: BlockId,
    v: int, regs: Regs, t: Trace)
    requires Ext(JoinValue(b, end, incoming).b.plain, g) && from in incoming && Val(incoming[from], regs) == v
    ensures var x := JoinValue(b, end, incoming);
      && Open(x.b) && Enter(g, from, end, regs, t) == At(x.b, regs[b.nextReg := v], t)
      && Val(x.v, regs[b.nextReg := v]) == v && Agree(regs, regs[b.nextReg := v], b.nextReg)
  {
    var x := JoinValue(b, end, incoming);
    assert end in x.b.plain && Extends(x.b.plain[end], g[end]);
  }

  /** A value computed at the insertion point is carried to the join. */
  lemma CarrySim(w: World, b0: Builder, y: EV, b: Builder, end: BlockId, incoming: map<BlockId,
    Value>, g: Graph, v: int,
                 regs0: Regs, t0: Trace, n: nat, regs: Regs, t: Trace)
    requires Computes(w, g, b0, y, v, regs0, t0, n, regs, t) && Live(y.b)
    requires Ext(Terminate(y.b, Br(end)).plain, g) && Ext(JoinValue(b, end, incoming).b.plain, g)
    requires y.b.cur.value in incoming && incoming[y.b.cur.value] == y.v && b0.nextReg <= b.nextReg
    ensures Computes(w, g, b0, JoinValue(b, end, incoming), v, regs0, t0, n + 1, regs[b.nextReg := v], t)
  {
    SimTerminate(w, y.b, Br(end), g, regs, t);
    JoinSim(b, end, incoming, g, y.b.cur.value, v, regs, t);
    var x := JoinValue(b, end, incoming);
    Compose(w, g, At(b0, regs0, t0), n, At(y.b, regs, t), 1, At(x.b, regs[b.nextReg := v], t));
    AgreeTrans(regs0, regs, regs[b.nextReg := v], b0.nextReg, b.nextReg);
  }

  /** What the graph extending JoinValue contains. */
  lemma JoinExt(b: Builder, end: BlockId, incoming: map<BlockId, Value>, g: Graph)
    requires Live(b) && end !in b.plain && Ext(JoinValue(b, end, incoming).b.plain, g)
    ensures Ext(Terminate(b, Br(end)).plain, g) && Ext(b.plain, g)
  {
    forall x | x in Terminate(b, Br(end)).plain ensures x in g && Extends(Terminate(b, Br(end)).plain[x], g[x]) {
      assert x in JoinValue(b, end, incoming).b.plain;
    }
  }

  /** A decision to enter block `mid`, placed next, starts what is computed there. */
  lemma DecidedCompute(w: World, g: Graph, b: Builder, b1: Builder, mid: BlockId, v1: int, t1: BlockId,
    f1: BlockId, x: EV, v: int,
                       regs: Regs, tr: Trace, n: nat, regs1: Regs, tr1: Trace, from: BlockId, n2: nat, regs2: Regs,
                         tr2: Trace, c: Builder)
    requires Decides(w, g, b, c, v1, t1, f1, regs, tr, n, regs1, tr1, from) && mid == (if v1 != 0 then t1 else f1)
    requires Ext(EmitBlock(b1, mid).plain, g) && b.nextReg <= b1.nextReg
    requires Computes(w, g, EmitBlock(b1, mid), x, v, regs1, tr1, n2, regs2, tr2)
    ensures Computes(w, g, b, x, v, regs, tr, n + n2, regs2, tr2)
  {
    EnterBlock(b1, mid, g, from, regs1, tr1);
    Compose(w, g, At(b, regs, tr), n, At(EmitBlock(b1, mid), regs1, tr1), n2, At(x.b, regs2, tr2));
    AgreeTrans(regs, regs1, regs2, b.nextReg, EmitBlock(b1, mid).nextReg);
  }

  /** A block that branches to the fresh block `end` is not a forwarding block, so it is among the
      predecessors LLVM reports. */
  lemma EarlyPred(b: Builder, end: BlockId, from: BlockId)
    requires Inv(b) && end !in b.plain && from in b.plain && end in Targets(b.plain[from])
    ensures from in Preds(Real(b.plain, b.gone), end)
  {
    GoneTargets(b.plain, b.gone);
    var term := b.plain[from].term.value;
    if term.SwitchT? && end != term.dflt {
      var i :| 0 <= i < |term.cases| && term.cases[i].1 == end;
      var r := RedirectTerm(b.gone, term);
      assert r.cases[i].1 == end;
    }
  }

  lemma {:induction false} LogicParts(w: World, b: Builder, e: Expr, t: Trace)
    requires (e.And? || e.Or?) && Calc(w.alu, e.l).None? && ValOK(w.alu, e)
    ensures var rhs, end := Blk(b.nextBlock), Blk(b.nextBlock + 1);
      var b1 := GenBranch(w.alu, NewBlocks(b, 2), e.l, if e.Or? then end else rhs, if e.Or? then rhs else end);
      var x := GenBool(w.alu, EmitBlock(b1, rhs), e.r);
      var early := map c | c in Preds(Real(b1.plain, b1.gone), end) :: Imm(if e.Or? then 1 else 0);
      x.b.cur.Some? ==> GenLogic(w.alu, b, e) == JoinValue(x.b, end, early + map[x.b.cur.value := x.v])
    ensures var (v1, t1) := Eval(w, e.l, t);
      var (v2, t2) := Eval(w, e.r, t1);
      Eval(w, e, t) == if (v1 != 0) == e.And? then (Truth(v2), t2) else (if e.Or? then 1 else 0, t1)
    ensures BrOK(w.alu, e.l) && ValOK(w.alu, e.r)
  {
  }

  lemma {:induction false} LogicSim(w: World, b: Builder, e: Expr, g: Graph, regs: Regs, t: Trace)
    returns (n: nat, regs1: Regs)
    requires (e.And? || e.Or?) && Calc(w.alu, e.l).None?
    requires Inv(b) && Live(b) && ValOK(w.alu, e) && Ext(GenLogic(w.alu, b, e).b.plain, g)
    ensures Computes(w, g, b, GenLogic(w.alu, b, e), Eval(w, e, t).0, regs, t, n, regs1, Eval(w, e, t).1)
    decreases e, 0
  {
    hide *;
    var rhs, end := Blk(b.nextBlock), Blk(b.nextBlock + 1);
    var tb, fb := if e.Or? then end else rhs, if e.Or? then rhs else end;
    var b1 := GenBranch(w.alu, NewBlocks(b, 2), e.l, tb, fb);
    var b2 := EmitBlock(b1, rhs);
    var x := GenBool(w.alu, b2, e.r);
    var v := if e.Or? then 1 else 0;
    var early := map c | c in Preds(Real(b1.plain, b1.gone), end) :: Imm(v);
    InvNumbered(b, 2);
    NumberedBranch(w.alu, b, 2, e.l, tb, fb);
    assert Blk(b.nextBlock) !in b1.plain && Blk(b.nextBlock + 1) !in b1.plain;
    ThenBlock(b, b1, rhs);
    PlacedFresh(b1, rhs, end);
    BoolFrame(w.alu, b2, e.r);
    AfterExprFacts(b2, x);
    var incoming := early + map[x.b.cur.value := x.v];
    var (v1, t1) := Eval(w, e.l, t);
    LogicParts(w, b, e, t);
    StillFresh(b2, x.b, end);
    JoinExt(x.b, end, incoming, g);
    ExtTrans(b2.plain, x.b.plain, g);
    ExtTrans(b1.plain, b2.plain, g);
    var n1, r1, from := BranchSim(w, NewBlocks(b, 2), e.l, tb, fb, g, regs, t);
    DecidesUnnumbered(w, g, b, 2, b1, v1, tb, fb, regs, t, n1, r1, t1, from);
    if (v1 != 0) == e.And? {
      var n2, r2 := BoolSim(w, b2, e.r, g, r1, t1);
      var (v2, t2) := Eval(w, e.r, t1);
      CarrySim(w, b2, x, x.b, end, incoming, g, Truth(v2), r1, t1, n2, r2, t2);
      DecidedCompute(w, g, b, b1, rhs, v1, tb, fb, GenLogic(w.alu, b, e), Truth(v2), regs, t, n1, r1, t1, from,
        n2 + 1, r2[x.b.nextReg := Truth(v2)], t2, b1);
      n, regs1 := n1 + (n2 + 1), r2[x.b.nextReg := Truth(v2)];
    } else {
      DecidesFrom(w, g, b, b1, v1, tb, fb, regs, t, n1, r1, t1, from);
      EarlyPred(b1, end, from);
      ClosedNotCur(b1, rhs, x.b, from);
      assert incoming[from] == Imm(v);
      ValImm(v, r1);
      DecidedJoin(w, g, b, b1, end, x.b, incoming, v1, tb, fb, v, regs, t, n1, r1, t1, from);
      n, regs1 := n1, r1[x.b.nextReg := v];
    }
  }

  lemma ValImm(v: int, regs: Regs)
    ensures Val(Imm(v), regs) == v
  {
  }

  lemma DecidesUnnumbered(w: World, g: Graph, b: Builder, k: nat, b1: Builder, v: int, t: BlockId, f: BlockId,
                          regs: Regs, tr: Trace, n: nat, regs1: Regs, tr1: Trace, from: BlockId)
    requires Decides(w, g, NewBlocks(b, k), b1, v, t, f, regs, tr, n, regs1, tr1, from)
    ensures Decides(w, g, b, b1, v, t, f, regs, tr, n, regs1, tr1, from)
  {
  }

  lemma DecidesFrom(w: World, g: Graph, b: Builder, b1: Builder, v: int, t: BlockId, f: BlockId,
                    regs: Regs, tr: Trace, n: nat, regs1: Regs, tr1: Trace, from: BlockId)
    requires Decides(w, g, b, b1, v, t, f, regs, tr, n, regs1, tr1, from)
    ensures from in b1.plain && b1.plain[from].term.Some? && (if v != 0 then t else f) in Targets(b1.plain[from])
  {
  }

  /** A block closed earlier is not the current one. */
  lemma ClosedNotCur(b1: Builder, id: BlockId, x: Builder, from: BlockId)
    requires from in b1.plain && b1.plain[from].term.Some? && id !in b1.plain
    requires Grows(EmitBlock(b1, id), x) && Live(x)
    ensures x.cur != Some(from)
  {
    assert from in EmitBlock(b1, id).plain && EmitBlock(b1, id).plain[from].term.Some?;
    assert Extends(EmitBlock(b1, id).plain[from], x.plain[from]);
  }

  lemma DecidedJoin(w: World, g: Graph, b: Builder, b1: Builder, end: BlockId, b2: Builder, incoming: map<BlockId,
    Value>, v1: int, tb: BlockId, fb: BlockId,
                    v: int, regs: Regs, t: Trace, n: nat, regs1: Regs, t1: Trace, from: BlockId)
    requires Decides(w, g, b, b1, v1, tb, fb, regs, t, n, regs1, t1, from) && end == (if v1 != 0 then tb else fb)
    requires Ext(JoinValue(b2, end, incoming).b.plain, g) && from in incoming && Val(incoming[from], regs1) == v
      && b.nextReg <= b2.nextReg
    ensures Computes(w, g, b, JoinValue(b2, end, incoming), v, regs, t, n, regs1[b2.nextReg := v], t1)
  {
    JoinSim(b2, end, incoming, g, from, v, regs1, t1);
    AgreeTrans(regs, regs1, regs1[b2.nextReg := v], b.nextReg, b2.nextReg);
  }

  lemma {:induction false} CondParts(w: World, b: Builder, e: Expr, t: Trace)
    requires e.Cond? && Calc(w.alu, e.c).None? && !(e.l.Const? && e.r.Const?) && ValOK(w.alu, e)
    ensures var lhs, rhs, end := Blk(b.nextBlock), Blk(b.nextBlock + 1), Blk(b.nextBlock + 2);
      var b1 := GenBranch(w.alu, NewBlocks(b, 3), e.c, lhs, rhs);
      var x := GenExpr(w.alu, EmitBlock(b1, lhs), e.l);
      var y := GenExpr(w.alu, EmitBlock(EmitBranch(x.b, end), rhs), e.r);
      GenExpr(w.alu, b, e) == JoinValue(y.b, end, JoinPhi(x.b.cur, x.v, y.b.cur, y.v))
    ensures var (v1, t1) := Eval(w, e.c, t);
      Eval(w, e, t) == if v1 != 0 then Eval(w, e.l, t1) else Eval(w, e.r, t1)
    ensures BrOK(w.alu, e.c) && ValOK(w.alu, e.l) && ValOK(w.alu, e.r)
  {
  }

  lemma {:induction false} CondSim(w: World, b: Builder, e: Expr, g: Graph, regs: Regs, t: Trace)
    returns (n: nat, regs1: Regs)
    requires e.Cond? && Calc(w.alu, e.c).None? && !(e.l.Const? && e.r.Const?)
    requires Inv(b) && Live(b) && ValOK(w.alu, e) && Ext(GenExpr(w.alu, b, e).b.plain, g)
    ensures Computes(w, g, b, GenExpr(w.alu, b, e), Eval(w, e, t).0, regs, t, n, regs1, Eval(w, e, t).1)
    decreases e, 0
  {
    hide *;
    var lhs, rhs, end := Blk(b.nextBlock), Blk(b.nextBlock + 1), Blk(b.nextBlock + 2);
    var b1 := GenBranch(w.alu, NewBlocks(b, 3), e.c, lhs, rhs);
    var b2 := EmitBlock(b1, lhs);
    var x := GenExpr(w.alu, b2, e.l);
    var b3 := EmitBranch(x.b, end);
    var b4 := EmitBlock(b3, rhs);
    var y := GenExpr(w.alu, b4, e.r);
    var incoming := JoinPhi(x.b.cur, x.v, y.b.cur, y.v);
    var (v1, t1) := Eval(w, e.c, t);
    CondParts(w, b, e, t);
    InvNumbered(b, 3);
    NumberedBranch(w.alu, b, 3, e.c, lhs, rhs);
    assert rhs !in b1.plain && end !in b1.plain;
    ThenBlock(b, b1, lhs);
    PlacedFresh(b1, lhs, rhs);
    PlacedFresh(b1, lhs, end);
    ExprFrame(w.alu, b2, e.l);
    AfterExprFacts(b2, x);
    StillFresh(b2, x.b, rhs);
    StillFresh(b2, x.b, end);
    EmitBranchGrows(x.b, end);
    GrowsTrans(b, b2, x.b);
    GrowsTrans(b, x.b, b3);
    StillFresh(x.b, b3, rhs);
    StillFresh(x.b, b3, end);
    BranchedCur(x.b, end);
    ThenBlock(b, b3, rhs);
    PlacedFresh(b3, rhs, end);
    ExprFrame(w.alu, b4, e.r);
    AfterExprFacts(b4, y);
    StillFresh(b4, y.b, end);
    JoinExt(y.b, end, incoming, g);
    ExtTrans(b4.plain, y.b.plain, g);
    ExtTrans(b3.plain, b4.plain, g);
    ExtFrom(x.b, b3, g);
    ExtTrans(b2.plain, x.b.plain, g);
    ExtTrans(b1.plain, b2.plain, g);
    BranchIsTerminate(x.b, end, g);
    BranchedNotCur(x.b, end, rhs, y.b);
    JoinPhiHas(x.b.cur.value, x.v, y.b.cur.value, y.v);
    GrowsRegs(x.b, b3);
    var n1, r1, from := BranchSim(w, NewBlocks(b, 3), e.c, lhs, rhs, g, regs, t);
    DecidesUnnumbered(w, g, b, 3, b1, v1, lhs, rhs, regs, t, n1, r1, t1, from);
    if v1 != 0 {
      var n2, r2 := ExprSim(w, b2, e.l, g, r1, t1);
      var (v2, t2) := Eval(w, e.l, t1);
      CarrySim(w, b2, x, y.b, end, incoming, g, v2, r1, t1, n2, r2, t2);
      DecidedCompute(w, g, b, b1, lhs, v1, lhs, rhs, GenExpr(w.alu, b, e), v2, regs, t, n1, r1, t1, from, n2 + 1,
        r2[y.b.nextReg := v2], t2, b1);
      n, regs1 := n1 + (n2 + 1), r2[y.b.nextReg := v2];
    } else {
      var n2, r2 := ExprSim(w, b4, e.r, g, r1, t1);
      var (v2, t2) := Eval(w, e.r, t1);
      CarrySim(w, b4, y, y.b, end, incoming, g, v2, r1, t1, n2, r2, t2);
      DecidedCompute(w, g, b, b3, rhs, v1, lhs, rhs, GenExpr(w.alu, b, e), v2, regs, t, n1, r1, t1, from, n2 + 1,
        r2[y.b.nextReg := v2], t2, b1);
      n, regs1 := n1 + (n2 + 1), r2[y.b.nextReg := v2];
    }
  }

  lemma JoinPhiHas(x: BlockId, xv: Value, y: BlockId, yv: Value)
    requires x != y
    ensures var m := JoinPhi(Some(x), xv, Some(y), yv); x in m && m[x] == xv && y in m && m[y] == yv
  {
  }

  lemma BranchIsTerminate(b: Builder, to: BlockId, g: Graph)
    requires Live(b) && Ext(EmitBranch(b, to).plain, g)
    ensures Ext(Terminate(b, Br(to)).plain, g)
  {
  }

  lemma BranchedNotCur(x: Builder, end: BlockId, rhs: BlockId, y: Builder)
    requires Live(x) && rhs !in EmitBranch(x, end).plain
    requires Grows(EmitBlock(EmitBranch(x, end), rhs), y) && Live(y)
    ensures x.cur != y.cur
  {
    ClosedNotCur(EmitBranch(x, end), rhs, y, x.cur.value);
  }
}
