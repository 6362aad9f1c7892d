/** Statements, too, only add to the graph. */
module FrameStmt {
  import opened Common
  import opened Source
  import opened Graph
  import opened Builder
  import opened CodeGen
  import opened Frames
  import opened FrameExpr
  import opened SimExpr
  import opened Static

  function Labels(s: Stmt): set<nat> {
    match s
    case Seq(a, b) => Labels(a) + Labels(b)
    case If(_, a, b) => Labels(a) + if b.Some? then Labels(b.value) else {}
    case Switch(_, body) => Labels(body)
    case While(_, body) => Labels(body)
    case DoWhile(body, _) => Labels(body)
    case For(_, _, _, body) => Labels(body)
    case Label(l, s1) => {l} + Labels(s1)
    case Case(_, _, s1) => Labels(s1)
    case Default(s1) => Labels(s1)
    case _ => {}
  }

  /** A default label, or a case or default label, of the switch around `s`. */
  predicate HasDefault(s: Stmt) {
    match s
    case Seq(a, b) => HasDefault(a) || HasDefault(b)
    case If(_, a, b) => HasDefault(a) || (b.Some? && HasDefault(b.value))
    case While(_, body) => HasDefault(body)
    case DoWhile(body, _) => HasDefault(body)
    case For(_, _, _, body) => HasDefault(body)
    case Label(_, s1) => HasDefault(s1)
    case Case(_, _, s1) => HasDefault(s1)
    case Default(s1) => true
    case _ => false
  }
  predicate HasCase(s: Stmt) {
    match s
    case Seq(a, b) => HasCase(a) || HasCase(b)
    case If(_, a, b) => HasCase(a) || (b.Some? && HasCase(b.value))
    case While(_, body) => HasCase(body)
    case DoWhile(body, _) => HasCase(body)
    case For(_, _, _, body) => HasCase(body)
    case Label(_, s1) => HasCase(s1)
    case Case(_, _, s1) => true
    case Default(s1) => true
    case _ => false
  }

  /** `brk`: a break is allowed here; `cont`: a continue. A continue in a switch belongs to the
      loop around it. */
  predicate JumpsOK(s: Stmt, brk: bool, cont: bool) {
    match s
    case Seq(a, b) => JumpsOK(a, brk, cont) && JumpsOK(b, brk, cont)
    case If(_, a, b) => JumpsOK(a, brk, cont) && (b.Some? ==> JumpsOK(b.value, brk, cont))
    case Switch(_, body) => JumpsOK(body, true, cont)
    case While(_, body) => JumpsOK(body, true, true)
    case DoWhile(body, _) => JumpsOK(body, true, true)
    case For(_, _, _, body) => JumpsOK(body, true, true)
    case Label(_, s1) => JumpsOK(s1, brk, cont)
    case Case(_, _, s1) => JumpsOK(s1, brk, cont)
    case Default(s1) => JumpsOK(s1, brk, cont)
    case Break => brk
    case Continue => cont
    case _ => true
  }

  /** A well-formed statement: no label twice, at most one default to a switch, and none of the
      two expressions kcc compiles wrongly. */
  predicate StmtOK(alu: Alu, s: Stmt) {
    match s
    case Seq(a, b) => StmtOK(alu, a) && StmtOK(alu, b) && Labels(a) !! Labels(b) && !(HasDefault(a) && HasDefault(b))
    case ExprStmt(e) => e.Some? ==> ValOK(alu, e.value)
    case If(c, a, b) =>
      && BrOK(alu, c) && StmtOK(alu, a)
      && (b.Some? ==> StmtOK(alu, b.value) && Labels(a) !! Labels(b.value) && !(HasDefault(a) && HasDefault(b.value)))
    case Switch(c, body) => ValOK(alu, c) && StmtOK(alu, body)
    case While(c, body) => ValOK(alu, c) && LoopCondOK(alu, c, 1) && StmtOK(alu, body)
    case DoWhile(body, c) => ValOK(alu, c) && LoopCondOK(alu, c, 0) && StmtOK(alu, body)
    case For(init, c, i, body) =>
      && (init.Some? ==> ValOK(alu, init.value)) && (c.Some? ==> BrOK(alu, c.value))
        && (i.Some? ==> ValOK(alu, i.value))
      && StmtOK(alu, body)
    case Label(l, s1) => l !in Labels(s1) && StmtOK(alu, s1)
    case Case(_, _, s1) => StmtOK(alu, s1)
    case Default(s1) => !HasDefault(s1) && StmtOK(alu, s1)
    case Return(r) => r.Some? ==> ValOK(alu, r.value)
    case _ => true
  }

  /** The state between two statements. */
  ghost predicate SInv(b: Builder) {
    && Inv(b) && (b.cur.Some? ==> Live(b))
    && (b.sw.Some? ==> b.sw.value.dflt.Blk? && b.sw.value.dflt.n < b.nextBlock)
  }

  predicate DefaultFree(b: Builder) { b.sw.Some? && b.sw.value.dflt !in b.plain }
  predicate LabelsFree(b: Builder, ls: set<nat>) { forall l :: l in ls ==> Lbl(l) !in b.plain }

  /** `s` may be emitted in state `b`. */
  predicate Fits(alu: Alu, b: Builder, s: Stmt) {
    && StmtOK(alu, s) && JumpsOK(s, b.stack != [], TopCont(b).Some?)
    && LabelsFree(b, Labels(s))
    && (HasDefault(s) ==> DefaultFree(b)) && (HasCase(s) ==> b.sw.Some?)
  }

  predicate SwGrows(x: Option<OpenSwitch>, y: Option<OpenSwitch>) {
    (x.None? <==> y.None?) && (x.Some? ==> x.value.dflt == y.value.dflt && x.value.cases <= y.value.cases)
  }

  function Extra(b: Builder, ls: set<nat>, d: bool): set<BlockId> {
    (set l | l in ls :: Lbl(l)) + if d && b.sw.Some? then {b.sw.value.dflt} else {}
  }

  /** From `b` to `b1` a statement with labels `ls`, and a default label if `d`, was emitted. */
  predicate Moves(b: Builder, b1: Builder, ls: set<nat>, d: bool) {
    Advances(b, b1, Extra(b, ls, d)) && b.stack == b1.stack && SwGrows(b.sw, b1.sw)
  }

  lemma MovesTrans(b0: Builder, b1: Builder, b2: Builder, ls0: set<nat>, d0: bool, ls1: set<nat>, d1: bool)
    requires Moves(b0, b1, ls0, d0) && Moves(b1, b2, ls1, d1)
    ensures Moves(b0, b2, ls0 + ls1, d0 || d1)
  {
    AdvancesTrans(b0, b1, b2, Extra(b0, ls0, d0), Extra(b1, ls1, d1));
    assert forall x :: x in Extra(b0, ls0, d0) + Extra(b1, ls1, d1) ==> x in Extra(b0, ls0 + ls1, d0 || d1);
  }

  lemma MovesMore(b: Builder, b1: Builder, ls0: set<nat>, d0: bool, ls1: set<nat>, d1: bool)
    requires Moves(b, b1, ls0, d0) && ls0 <= ls1 && (d0 ==> d1)
    ensures Moves(b, b1, ls1, d1)
  {
    assert Extra(b, ls0, d0) <= Extra(b, ls1, d1);
  }

  lemma MovesRefl(b: Builder, ls: set<nat>, d: bool)
    ensures Moves(b, b, ls, d)
  {
  }

  lemma GrowsMoves(b: Builder, b1: Builder, ls: set<nat>, d: bool)
    requires Grows(b, b1)
    ensures Moves(b, b1, ls, d)
  {
  }

  lemma MovesExt(b: Builder, b1: Builder, ls: set<nat>, d: bool)
    requires Moves(b, b1, ls, d)
    ensures Ext(b.plain, b1.plain) && b.nextReg <= b1.nextReg && b.nextBlock <= b1.nextBlock && b.stack == b1.stack
  {
  }

  /** A number given out before is not taken by the statement. */
  lemma MovesFresh(b: Builder, b1: Builder, ls: set<nat>, d: bool, id: BlockId)
    requires Moves(b, b1, ls, d) && id.Blk? && id.n < b.nextBlock && id !in b.plain
    requires d && b.sw.Some? ==> id != b.sw.value.dflt
    ensures id !in b1.plain && id.n < b1.nextBlock
  {
  }

  /** What may be emitted at first may still be emitted after a statement with other labels. */
  lemma FitsAfter(alu: Alu, b: Builder, b1: Builder, ls: set<nat>, d: bool, s: Stmt)
    requires SInv(b) && Moves(b, b1, ls, d) && Fits(alu, b, s) && ls !! Labels(s) && !(d && HasDefault(s))
    ensures Fits(alu, b1, s)
  {
  }

  lemma LabelAdvances(b: Builder, l: nat)
    requires SInv(b) && Lbl(l) !in b.plain
    ensures var b1 := EmitBlock(b, Lbl(l)); SInv(b1) && Live(b1) && Moves(b, b1, {l}, false)
  {
    EmitBlockAdvances(b, Lbl(l));
    assert forall x :: x in {Lbl(l)} ==> x in Extra(b, {l}, false);
  }

  lemma DefaultAdvances(b: Builder)
    requires SInv(b) && DefaultFree(b)
    ensures var b1 := EmitBlock(b, b.sw.value.dflt); SInv(b1) && Live(b1) && Moves(b, b1, {}, true)
  {
    EmitBlockAdvances(b, b.sw.value.dflt);
  }

  /** A block of its own. */
  lemma OwnBlockAdvances(b: Builder, k: nat)
    requires SInv(b) && k > 0
    ensures var b1 := EmitBlock(NewBlocks(b, k), Blk(b.nextBlock));
      && SInv(b1) && Live(b1) && Grows(b, b1) && b1.nextBlock == b.nextBlock + k && b1.nextReg == b.nextReg
      && (forall i :: b.nextBlock < i ==> Blk(i) !in b1.plain)
      && b1.plain[Blk(b.nextBlock)] == Block(None, [], None) && b1.cur == Some(Blk(b.nextBlock))
  {
    var b1 := EmitBlock(NewBlocks(b, k), Blk(b.nextBlock));
    EmitBlockAdvances(NewBlocks(b, k), Blk(b.nextBlock));
    Absorb(b, b1, {Blk(b.nextBlock)});
  }

  lemma FinishedAdvances(b: Builder, id: BlockId)
    requires SInv(b) && id !in b.plain && id.Blk? && id.n < b.nextBlock
    ensures var b1 := EmitFinished(b, id);
      && SInv(b1) && Advances(b, b1, {id}) && b1.stack == b.stack && b1.sw == b.sw && b1.gone == b.gone
      && b1.nextReg == b.nextReg && b1.nextBlock == b.nextBlock
      && (b1.cur.Some? ==> b1.cur == Some(id) && b1.plain[id] == Block(None, [], None))
  {
    EmitBranchGrows(b, id);
    var b1 := EmitBranch(b, id);
    if Preds(Real(b1.plain, b1.gone), id) != {} {
      PlaceAdvances(b1, id, None);
      AdvancesTrans(b, b1, Place(b1, id, None), {}, {id});
    }
  }

  lemma JumpGrows(b: Builder, to: BlockId)
    requires SInv(b)
    ensures SInv(Jump(b, to)) && Grows(b, Jump(b, to)) && Jump(b, to).cur.None?
  {
    if b.cur.Some? { TerminateGrows(b, Br(to)); }
  }

  lemma ExprMoves(alu: Alu, b: Builder, e: Expr)
    requires SInv(b) && Live(b)
    ensures var b1 := GenExpr(alu, b, e).b; SInv(b1) && Live(b1) && Grows(b, b1)
  {
    ExprFrame(alu, b, e);
  }

  lemma {:induction false} ReturnMoves(alu: Alu, b: Builder, r: Option<Expr>)
    requires SInv(b) && (r.Some? ==> Live(b))
    ensures SInv(Visit(alu, b, Return(r))) && Grows(b, Visit(alu, b, Return(r)))
  {
    if r.None? { JumpGrows(b, RetBlk); }
    else {
      hide Grows, Inv, GenExpr, Emit, Live, Jump;
      ReturnValueIs(alu, b, r.value);
      ExprMoves(alu, b, r.value);
      var x := GenExpr(alu, b, r.value);
      var b1 := Emit(x.b, IStore(x.v));
      EmitMoves(x.b, IStore(x.v));
      JumpGrows(b1, RetBlk);
      GrowsTrans(b, x.b, b1);
      GrowsTrans(b, b1, Jump(b1, RetBlk));
    }
  }

  lemma ReturnValueIs(alu: Alu, b: Builder, e: Expr)
    ensures var x := GenExpr(alu, b, e); Visit(alu, b, Return(Some(e))) == Jump(Emit(x.b, IStore(x.v)), RetBlk)
  {
    hide Jump, Emit, GenExpr;
  }

  lemma EmitMoves(b: Builder, ins: Instr)
    requires SInv(b) && Live(b)
    ensures SInv(Emit(b, ins)) && Grows(b, Emit(b, ins))
  {
    EmitGrows(b, ins);
  }

  /** Block `id` is closed, and if it only branches on, then as an empty block, to block `to`. */
  predicate Forwardable(b: Builder, id: BlockId, to: BlockId) {
    && id in b.plain && id !in b.gone && b.plain[id].term.Some?
    && (b.plain[id].term.value.Br? ==>
          b.plain[id] == Block(None, [], Some(Br(to))) && to in b.plain && b.plain[to].phi.None?
            && to != id && to !in b.gone)
  }

  lemma ForwardableLater(b: Builder, b1: Builder, id: BlockId, to: BlockId)
    requires Forwardable(b, id, to) && Ext(b.plain, b1.plain) && id !in b1.gone && to !in b1.gone
    ensures Forwardable(b1, id, to)
  {
    assert Extends(b.plain[id], b1.plain[id]);
    if b.plain[id].term.value.Br? { assert Extends(b.plain[to], b1.plain[to]); }
  }

  lemma {:induction false} ChainSnoc(g: Graph, f: BlockId, m: BlockId, t: BlockId, n: nat, k: nat)
    requires Chain(g, f, m, n) && Chain(g, m, t, k)
    ensures Chain(g, f, t, n + k)
    decreases n
  {
    if n > 0 { ChainSnoc(g, g[f].term.value.to, m, t, n - 1, k); }
  }

  lemma ReplaceOK(b: Builder, f: BlockId, to: BlockId)
    requires Inv(b) && f in b.plain && f !in b.gone && f != to && to !in b.gone
    requires b.plain[f] == Block(None, [], Some(Br(to))) && to in b.plain && b.plain[to].phi.None?
    ensures Replace(b, f, to).plain == b.plain && Inv(Replace(b, f, to))
  {
    var b1 := Replace(b, f, to);
    assert b1.plain == b.plain;
    forall x | x in b1.gone ensures Forwards(b1.plain, b1.gone, x) {
      assert Chain(b.plain, to, to, 0) && Chain(b.plain, f, to, 1);
      if x == f {
      } else {
        assert Forwards(b.plain, b.gone, x);
        var n: nat :| n > 0 && Chain(b.plain, x, b.gone[x], n);
        if b.gone[x] == f { ChainSnoc(b.plain, x, f, to, n, 1); }
      }
    }
  }

  /** Removing a forwarding block changes nothing in the plain graph. */
  lemma SimplifyOK(b: Builder, id: BlockId, to: BlockId)
    requires SInv(b) && Forwardable(b, id, to)
    ensures SInv(SimplifyForwarding(b, id))
    ensures SimplifyForwarding(b, id) == b.(gone := SimplifyForwarding(b, id).gone)
    ensures forall x :: x in SimplifyForwarding(b, id).gone ==> x in b.gone || x == id
  {
    if b.plain[id].term.value.Br? { ReplaceOK(b, id, to); }
  }
}
