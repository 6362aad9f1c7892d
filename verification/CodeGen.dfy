/** Code generation for expressions and statements, as functions on the emitter's state. */
module CodeGen {
  import opened Common
  import opened Source
  import opened Graph
  import opened Builder

  /** The value of an expression, in straight line or through a phi. */
  function GenExpr(alu: Alu, b: Builder, e: Expr): EV
    decreases e, 1
  {
    match e
    case Const(v) => EV(b, Imm(v))
    case Act(a, args) =>
      var r := GenArgs(alu, b, args);
      Define(r.b, IAct(r.b.nextReg, a, r.vs))
    case Bin(op, l, r) =>
      var x := GenExpr(alu, b, l);
      var y := GenExpr(alu, x.b, r);
      EmitBin(alu, y.b, op, x.v, y.v)
    case Comma(l, r) => GenExpr(alu, GenExpr(alu, b, l).b, r)
    case Not(x) =>
      var r := GenExpr(alu, b, x);
      var c := EmitTest(r.b, r.v);
      EmitNot(c.b, c.v)
    case And(l, r) =>
      var c := Calc(alu, l);
      if c.Some? then
        if c.value == 1 then var x := GenExpr(alu, b, r); EmitTest(x.b, x.v) else EV(b, Imm(0))
      else GenLogic(alu, b, e)
    case Or(l, r) =>
      var c := Calc(alu, l);
      if c.Some? then
        if c.value == 0 then var x := GenExpr(alu, b, r); EmitTest(x.b, x.v) else EV(b, Imm(1))
      else GenLogic(alu, b, e)
    case Cond(c, l, r) =>
      var v := Calc(alu, c);
      if v.Some? then GenExpr(alu, b, if v.value != 0 then l else r)
      else if l.Const? && r.Const? then
        var x := GenExpr(alu, b, c);
        var y := EmitTest(x.b, x.v);
        EmitSelect(y.b, y.v, Imm(l.v), Imm(r.v))
      else
        var lhs, rhs, end := Blk(b.nextBlock), Blk(b.nextBlock + 1), Blk(b.nextBlock + 2);
        var b1 := GenBranch(alu, NewBlocks(b, 3), c, lhs, rhs);
        var x := GenExpr(alu, EmitBlock(b1, lhs), l);
        var b2 := EmitBranch(x.b, end);
        var y := GenExpr(alu, EmitBlock(b2, rhs), r);
        JoinValue(y.b, end, JoinPhi(x.b.cur, x.v, y.b.cur, y.v))
  }

  function GenBool(alu: Alu, b: Builder, e: Expr): EV
    decreases e, 2
  {
    var x := GenExpr(alu, b, e);
    EmitTest(x.b, x.v)
  }

  function GenArgs(alu: Alu, b: Builder, es: seq<Expr>): EVs
    decreases es, 0
  {
    if es == [] then EVs(b, [])
    else
      var x := GenExpr(alu, b, es[0]);
      var r := GenArgs(alu, x.b, es[1..]);
      EVs(r.b, [x.v] + r.vs)
  }

  function JoinPhi(x: Option<BlockId>, xv: Value, y: Option<BlockId>, yv: Value): map<BlockId, Value> {
    (if x.Some? then map[x.value := xv] else map[]) + (if y.Some? then map[y.value := yv] else map[])
  }

  /** Closes the current block with a branch to `end`, which starts with a phi. */
  function JoinValue(b: Builder, end: BlockId, incoming: map<BlockId, Value>): EV {
    var b1 := EmitBranch(b, end);
    EV(Place(b1, end, Some(Phi(b.nextReg, incoming))).(nextReg := b.nextReg + 1), Reg(b.nextReg))
  }

  /** && and || as values: LogicAndOp and LogicOrOp. Every block that leaves early contributes
      the value already known to the phi. */
  function GenLogic(alu: Alu, b: Builder, e: Expr): EV
    requires e.And? || e.Or?
    decreases e, 0
  {
    var rhs, end := Blk(b.nextBlock), Blk(b.nextBlock + 1);
    var b1 := GenBranch(alu, NewBlocks(b, 2), e.l, if e.Or? then end else rhs, if e.Or? then rhs else end);
    var early := map c | c in Preds(Real(b1.plain, b1.gone), end) :: Imm(if e.Or? then 1 else 0);
    var x := GenBool(alu, EmitBlock(b1, rhs), e.r);
    JoinValue(x.b, end, early + (if x.b.cur.Some? then map[x.b.cur.value := x.v] else map[]))
  }

  /** A branch on the truth of an expression: EmitBranchOnBoolExpr. */
  function GenBranch(alu: Alu, b: Builder, e: Expr, t: BlockId, f: BlockId): Builder
    decreases e, 3
  {
    match e
    case And(l, r) =>
      var mid := Blk(b.nextBlock);
      GenBranch(alu, EmitBlock(GenBranch(alu, NewBlocks(b, 1), l, mid, f), mid), r, t, f)
    case Or(l, r) =>
      var mid := Blk(b.nextBlock);
      GenBranch(alu, EmitBlock(GenBranch(alu, NewBlocks(b, 1), l, t, mid), mid), r, t, f)
    case Not(x) => GenBranch(alu, b, x, f, t)
    case Cond(c, l, r) =>
      var lhs, rhs := Blk(b.nextBlock), Blk(b.nextBlock + 1);
      var b1 := GenBranch(alu, NewBlocks(b, 2), c, lhs, rhs);
      var b2 := GenBranch(alu, EmitBlock(b1, lhs), l, t, f);
      GenBranch(alu, EmitBlock(b2, rhs), r, t, f)
    case _ =>
      var x := GenBool(alu, b, e);
      Terminate(x.b, CondBr(x.v, t, f))
  }

  function PushFrame(b: Builder, brk: BlockId, cont: Option<BlockId>): Builder {
    b.(stack := b.stack + [Frame(brk, cont)]) }
  function PopFrame(b: Builder): Builder { if b.stack == [] then b else b.(stack := b.stack[..|b.stack| - 1]) }
  function TopCont(b: Builder): Option<BlockId> { if b.stack == [] then None else b.stack[|b.stack| - 1].cont }

  /** EmitBranchThroughCleanup. */
  function Jump(b: Builder, to: BlockId): Builder {
    if b.cur.None? then b else Terminate(b, Br(to)).(cur := None)
  }

  predicate IsSimple(s: Stmt) {
    s.Label? || s.Case? || s.Default? || s.Skip? || s.Seq? || s.Goto? || s.Continue? || s.Break?
  }

  function EnsureInsertPoint(b: Builder): Builder {
    if b.cur.Some? then b else EmitBlock(NewBlocks(b, 1), Blk(b.nextBlock))
  }

  /** EmitStmt: unreachable statements without labels are dropped. */
  function GenStmt(alu: Alu, b: Builder, s: Stmt): Builder
    decreases s, 1
  {
    if IsSimple(s) || b.cur.Some? then Visit(alu, b, s)
    else if !ContainsLabel(s) then b
    else Visit(alu, EnsureInsertPoint(b), s)
  }

  function Visit(alu: Alu, b: Builder, s: Stmt): Builder
    decreases s, 0
  {
    match s
    case Skip => b
    case Seq(hd, tl) => GenStmt(alu, GenStmt(alu, b, hd), tl)
    case ExprStmt(e) => if e.Some? then GenExpr(alu, b, e.value).b else b
    case If(c, thn, els) =>
      var v := Calc(alu, c);
      var skipped := if v == Some(0) then Some(thn) else els;
      if v.Some? && (skipped.None? || !ContainsLabel(skipped.value)) then
        if v.value != 0 then GenStmt(alu, b, thn)
        else if els.Some? then GenStmt(alu, b, els.value)
        else b
      else
        var b1 := GenStmt(alu, IfThen(alu, b, c, els.Some?), thn);
        var b2 := IfElse(b, b1, els.Some?);
        IfEnd(b, if els.Some? then GenStmt(alu, b2, els.value) else b2, els.Some?)
    case Switch(c, body) => SwitchEnd(alu, b, c, GenStmt(alu, SwitchBody(alu, b, c), body))
    case While(c, body) => WhileEnd(alu, b, c, GenStmt(alu, WhileBody(alu, b, c), body))
    case DoWhile(body, c) => DoEnd(alu, b, c, GenStmt(alu, DoBody(b), body))
    case For(init, c, i, body) =>
      var b0 := if init.Some? then GenExpr(alu, b, init.value).b else b;
      ForEnd(alu, b0, c, i, GenStmt(alu, ForBody(alu, b0, c, i), body))
    case Label(l, s1) => GenStmt(alu, EmitBlock(b, Lbl(l)), s1)
    case Case(lo, hi, s1) =>
      var blk := Blk(b.nextBlock);
      GenStmt(alu, AddCases(EmitBlock(NewBlocks(b, 1), blk), lo, hi, blk), s1)
    case Default(s1) => if b.sw.None? then b else GenStmt(alu, EmitBlock(b, b.sw.value.dflt), s1)
    case Goto(l) => Jump(b, Lbl(l))
    case Break => if b.stack == [] then b else Jump(b, b.stack[|b.stack| - 1].brk)
    case Continue => if TopCont(b).None? then b else Jump(b, TopCont(b).value)
    case Return(r) =>
      if r.None? then Jump(b, RetBlk)
      else
        var x := GenExpr(alu, b, r.value);
        Jump(Emit(x.b, IStore(x.v)), RetBlk)
  }

  /** The pieces of an if: its condition, up to the start of the then branch; the end of that
      branch, up to the start of the else branch; the end. Blocks are numbered then, end, else. */
  function IfThen(alu: Alu, b: Builder, c: Expr, els: bool): Builder {
    var n := b.nextBlock;
    EmitBlock(GenBranch(alu, NewBlocks(b, if els then 3 else 2), c, Blk(n), Blk(if els then n + 2 else n + 1)), Blk(n))
  }
  function IfElse(b: Builder, b1: Builder, els: bool): Builder {
    var b2 := EmitBranch(b1, Blk(b.nextBlock + 1));
    if els then EmitBlock(b2, Blk(b.nextBlock + 2)) else b2
  }
  function IfEnd(b: Builder, b1: Builder, els: bool): Builder {
    EmitFinished(if els then EmitBranch(b1, Blk(b.nextBlock + 1)) else b1, Blk(b.nextBlock + 1))
  }

  /** Blocks of a switch: default, end. */
  function SwitchBody(alu: Alu, b: Builder, c: Expr): Builder {
    var x := GenExpr(alu, b, c);
    var n := x.b.nextBlock;
    PushFrame(NewBlocks(x.b, 2), Blk(n + 1), TopCont(b)).(cur := None, sw := Some(OpenSwitch([], Blk(n))))
  }
  function SwitchEnd(alu: Alu, b: Builder, c: Expr, b1: Builder): Builder {
    var x := GenExpr(alu, b, c);
    var n := x.b.nextBlock;
    if b1.sw.None? || x.b.cur.None? || x.b.cur.value !in b1.plain then b1 else
    var dflt := if Blk(n) in b1.plain then Blk(n) else Blk(n + 1);
    var blk := b1.plain[x.b.cur.value].(term := Some(SwitchT(x.v, b1.sw.value.cases, dflt)));
    EmitFinished(PopFrame(SetBlock(b1, x.b.cur.value, blk)), Blk(n + 1)).(sw := b.sw)
  }

  /** Blocks of a while: condition, body, end. A condition that is the constant 1 is not tested,
      and its block is then removed. */
  function WhileTest(alu: Alu, b: Builder, c: Expr): EV {
    var n := b.nextBlock;
    GenBool(alu, PushFrame(EmitBlock(NewBlocks(b, 3), Blk(n)), Blk(n + 2), Some(Blk(n))), c)
  }
  function WhileBody(alu: Alu, b: Builder, c: Expr): Builder {
    var n := b.nextBlock;
    var x := WhileTest(alu, b, c);
    EmitBlock(if x.v == Imm(1) then x.b else Terminate(x.b, CondBr(x.v, Blk(n + 1), Blk(n + 2))), Blk(n + 1))
  }
  function WhileEnd(alu: Alu, b: Builder, c: Expr, b1: Builder): Builder {
    var n := b.nextBlock;
    var b2 := EmitFinished(EmitBranch(PopFrame(b1), Blk(n)), Blk(n + 2));
    if WhileTest(alu, b, c).v == Imm(1) then SimplifyForwarding(b2, Blk(n)) else b2
  }

  /** Blocks of a do: body, condition, end. */
  function DoBody(b: Builder): Builder {
    var n := b.nextBlock;
    PushFrame(EmitBlock(NewBlocks(b, 3), Blk(n)), Blk(n + 2), Some(Blk(n + 1)))
  }
  function DoTest(alu: Alu, b: Builder, c: Expr, b1: Builder): EV {
    GenBool(alu, EmitBlock(PopFrame(b1), Blk(b.nextBlock + 1)), c)
  }
  function DoEnd(alu: Alu, b: Builder, c: Expr, b1: Builder): Builder {
    var n := b.nextBlock;
    var x := DoTest(alu, b, c, b1);
    if x.v == Imm(0) then SimplifyForwarding(EmitBlock(x.b, Blk(n + 2)), Blk(n + 1))
    else EmitBlock(Terminate(x.b, CondBr(x.v, Blk(n), Blk(n + 2))), Blk(n + 2))
  }

  /** Blocks of a for: condition, end, body and, when there is one, increment. Without a condition
      the body is emitted into the condition block. */
  function ForHead(alu: Alu, b: Builder, c: Option<Expr>): Builder {
    var n := b.nextBlock;
    var b1 := EmitBlock(NewBlocks(b, 4), Blk(n));
    if c.None? then b1 else EmitBlock(GenBranch(alu, b1, c.value, Blk(n + 2), Blk(n + 1)), Blk(n + 2))
  }
  function ForCont(b: Builder, i: Option<Expr>): BlockId { Blk(if i.Some? then b.nextBlock + 3 else b.nextBlock) }
  function ForBody(alu: Alu, b: Builder, c: Option<Expr>, i: Option<Expr>): Builder {
    PushFrame(ForHead(alu, b, c), Blk(b.nextBlock + 1), Some(ForCont(b, i)))
  }
  function ForInc(alu: Alu, b: Builder, i: Option<Expr>, b1: Builder): Builder {
    if i.None? then PopFrame(b1) else GenExpr(alu, EmitBlock(PopFrame(b1), ForCont(b, i)), i.value).b
  }
  function ForEnd(alu: Alu, b: Builder, c: Option<Expr>, i: Option<Expr>, b1: Builder): Builder {
    EmitFinished(EmitBranch(ForInc(alu, b, i, b1), Blk(b.nextBlock)), Blk(b.nextBlock + 1))
  }

  /** One case of the switch for every value of the range. */
  function AddCases(b: Builder, lo: int, hi: int, blk: BlockId): Builder {
    if b.sw.None? then b else
    b.(sw := Some(b.sw.value.(cases := b.sw.value.cases + CaseList(lo, hi, blk))))
  }
  function CaseList(lo: int, hi: int, blk: BlockId): seq<(int, BlockId)>
    decreases hi - lo
  {
    if lo > hi then [] else [(lo, blk)] + CaseList(lo + 1, hi, blk)
  }

  /** A whole function: entry block, body, return block. In the entry block stands the marker
      after which stack objects are allocated; `isMain` stores 0 as the value to return. */
  function StartFunction(isMain: bool): Builder {
    var b := Place(Builder(map[], map[], None, 1, SLOT + 1, [], None), Blk(0), None);
    var b1 := Emit(b, INop);
    if isMain then Emit(b1, IStore(Imm(0))) else b1
  }

  /** EmitReturnBlock and EmitFunctionEpilog. The return block is merged into the current block
      when that is empty, or when nobody returns. */
  function FinishFunction(b: Builder): Builder {
    var used := Preds(Real(b.plain, b.gone), RetBlk) != {};
    if Open(b) && (!used || b.plain[b.cur.value] == Block(None, [], None)) then
      Terminate(if used then Replace(b, RetBlk, b.cur.value) else b, Ret)
    else Terminate(EmitBlock(b, RetBlk), Ret)
  }

  function GenFunction(alu: Alu, isMain: bool, body: Stmt): Builder {
    FinishFunction(GenStmt(alu, StartFunction(isMain), body))
  }
}
