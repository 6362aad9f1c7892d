/** The emitter itself: an object whose insertion point, block list, break/continue stack and open
    switch every operation updates in place. */
module Emitter {
  import opened Common
  import opened Source
  import opened Graph
  import opened Builder
  import opened CodeGen
  import opened Frames
  import opened FrameExpr
  import opened SimExpr
  import opened Static
  import opened FrameStmt
  import opened FrameLoops
  import opened FrameAll
  import opened MatchKont
  import opened Jumps
  import opened FindLabel
  import opened Simulation
  import opened StmtSim
  import opened Settled
  import opened EmitterStates
  import opened Finish
  import opened Behaviour

  class Emitter {
    const alu: Alu
    var blocks: Graph
    var cur: Option<BlockId>
    var nextBlock: nat
    var nextReg: nat
    var stack: seq<Frame>
    var sw: Option<OpenSwitch>
    /** The graph with the removed blocks still in it. */
    ghost var plain: Graph
    ghost var gone: map<BlockId, BlockId>

    ghost function Model(): Builder
      reads this
    {
      Builder(plain, gone, cur, nextBlock, nextReg, stack, sw)
    }

    ghost predicate Synced()
      reads this
    {
      Inv(Model()) && blocks == Real(plain, gone)
    }

    /* Primitive operations. */

    method EmitInstr(ins: Instr)
      requires Synced() && Live(Model())
      modifies this
      ensures Synced() && Live(Model()) && Model() == Emit(old(Model()), ins)
    {
      ghost var b := Model();
      LiveNotGone(b);
      EmitGrows(b, ins);
      var blk := blocks[cur.value];
      SetReal(b, cur.value, Emit(b, ins).plain[cur.value]);
      blocks := blocks[cur.value := blk.(instrs := blk.instrs + [ins])];
      plain := Emit(b, ins).plain;
    }

    method EmitTerm(t: Term)
      requires Synced() && Live(Model()) && TermTargets(t) !! gone.Keys
      modifies this
      ensures Synced() && Cut(Model()) && Model() == Terminate(old(Model()), t)
    {
      ghost var b := Model();
      LiveNotGone(b);
      TerminateGrows(b, t);
      NotRedirected(gone, t);
      SetReal(b, cur.value, Terminate(b, t).plain[cur.value]);
      blocks := blocks[cur.value := blocks[cur.value].(term := Some(t))];
      plain := Terminate(b, t).plain;
    }

    method NewBlock() returns (id: BlockId)
      modifies this
      ensures id == Blk(old(nextBlock)) && Model() == NewBlocks(old(Model()), 1) && blocks == old(blocks)
      ensures old(Synced()) ==> Synced()
    {
      id := Blk(nextBlock);
      nextBlock := nextBlock + 1;
    }

    method NewReg() returns (r: nat)
      modifies this
      ensures r == old(nextReg) && Model() == old(Model()).(nextReg := old(nextReg) + 1) && blocks == old(blocks)
      ensures old(Synced()) ==> Synced()
    {
      r := nextReg;
      nextReg := nextReg + 1;
    }

    /** EmitBranch. */
    method BranchTo(to: BlockId)
      requires Synced() && (Open(Model()) || cur.None?) && to !in gone
      modifies this
      ensures Synced() && Model() == EmitBranch(old(Model()), to)
    {
      ghost var b := Model();
      EmitBranchGrows(b, to);
      if cur.Some? && cur.value in blocks && blocks[cur.value].term.None? {
        EmitTerm(Br(to));
      }
      cur := None;
    }

    method PlaceBlock(id: BlockId, phi: Option<Phi>)
      requires Synced() && id !in plain && (id.Blk? ==> id.n < nextBlock)
      modifies this
      ensures Synced() && Live(Model()) && Model() == Place(old(Model()), id, phi)
    {
      ghost var b := Model();
      NotGone(b, id);
      PlaceAdvances(b, id, phi);
      SetReal(b, id, Block(phi, [], None));
      blocks := blocks[id := Block(phi, [], None)];
      cur := Some(id);
      plain := Place(b, id, phi).plain;
    }

    /** EmitBlock. */
    method StartBlock(id: BlockId)
      requires Synced() && (Open(Model()) || cur.None?) && id !in plain && (id.Blk? ==> id.n < nextBlock)
      modifies this
      ensures Synced() && Live(Model()) && Model() == EmitBlock(old(Model()), id)
    {
      NotGone(Model(), id);
      EmitBranchGrows(Model(), id);
      BranchKeys(Model(), id);
      BranchTo(id);
      PlaceBlock(id, None);
    }

    /** EmitBlock with is_finished. */
    method FinishBlock(id: BlockId)
      requires Synced() && (Open(Model()) || cur.None?) && id !in plain && (id.Blk? ==> id.n < nextBlock)
      modifies this
      ensures Synced() && Model() == EmitFinished(old(Model()), id)
    {
      NotGone(Model(), id);
      BranchKeys(Model(), id);
      BranchTo(id);
      if Preds(blocks, id) != {} {
        PlaceBlock(id, None);
      }
    }

    /** SimplifyForwardingBlocks. */
    method SimplifyForwardingBlocks(id: BlockId, ghost to: BlockId)
      requires Synced() && SInv(Model()) && Forwardable(Model(), id, to)
      modifies this
      ensures Synced() && Model() == SimplifyForwarding(old(Model()), id)
    {
      ghost var b := Model();
      SimplifyOK(b, id, to);
      if blocks[id].term.value.Br? {
        EraseReal(b, id, plain[id].term.value.to);
        ghost var b1 := SimplifyForwarding(b, id);
        blocks := Erase(blocks, id, blocks[id].term.value.to);
        plain, gone := b1.plain, b1.gone;
      }
    }

    method Push(f: Frame)
      modifies this
      ensures Model() == old(Model()).(stack := old(stack) + [f]) && blocks == old(blocks)
      ensures old(Synced()) ==> Synced()
    {
      stack := stack + [f];
    }

    method Pop()
      modifies this
      ensures Model() == PopFrame(old(Model())) && blocks == old(blocks)
      ensures old(Synced()) ==> Synced()
    {
      if stack != [] { stack := stack[..|stack| - 1]; }
    }

    /* Expressions. */

    method Compute(ins: Instr) returns (v: Value)
      requires Synced() && Live(Model())
      modifies this
      ensures Synced() && Live(Model()) && EV(Model(), v) == Define(old(Model()), ins)
    {
      EmitInstr(ins);
      var r := NewReg();
      v := Reg(r);
    }

    method CastToBool(x: Value) returns (v: Value)
      requires Synced() && Live(Model())
      modifies this
      ensures Synced() && Live(Model()) && EV(Model(), v) == EmitTest(old(Model()), x)
    {
      if x.Imm? { v := Imm(Truth(x.v)); } else { v := Compute(ITest(nextReg, x)); }
    }

    method VisitExpr(e: Expr) returns (v: Value)
      requires Synced() && Live(Model())
      modifies this
      ensures Synced() && Live(Model()) && EV(Model(), v) == GenExpr(alu, old(Model()), e)
        && AfterExpr(old(Model()), EV(Model(), v))
      decreases e, 1
    {
      hide Inv, Grows, Emit, GenBranch, Calc, Live, EmitBlock, JoinValue, Real, AfterExpr;
      ghost var b := Model();
      ExprFrame(alu, b, e);
      match e
      case Const(c) => v := Imm(c);
      case Act(a, args) =>
        var vs := VisitArgs(args);
        v := Compute(IAct(nextReg, a, vs));
      case Bin(op, l, r) =>
        var x := VisitExpr(l);
        var y := VisitExpr(r);
        if x.Imm? && y.Imm? { v := Imm(alu(op, x.v, y.v)); } else { v := Compute(IBin(nextReg, op, x, y)); }
      case Comma(l, r) =>
        var x := VisitExpr(l);
        v := VisitExpr(r);
      case Not(x) =>
        var y := EvaluateAsBool(x);
        if y.Imm? { v := Imm(1 - y.v); } else { v := Compute(INot(nextReg, y)); }
      case And(l, r) =>
        var c := Calc(alu, l);
        if c.Some? {
          if c.value == 1 { v := EvaluateAsBool(r); } else { v := Imm(0); }
        } else { v := LogicOp(e); }
      case Or(l, r) =>
        var c := Calc(alu, l);
        if c.Some? {
          if c.value == 0 { v := EvaluateAsBool(r); } else { v := Imm(1); }
        } else { v := LogicOp(e); }
      case Cond(c, l, r) =>
        var k := Calc(alu, c);
        if k.Some? {
          v := VisitExpr(if k.value != 0 then l else r);
        } else if l.Const? && r.Const? {
          var y := EvaluateAsBool(c);
          if y.Imm? { v := if y.v != 0 then Imm(l.v) else Imm(r.v); } else {
            v := Compute(ISelect(nextReg, y, Imm(l.v), Imm(r.v))); }
        } else { v := ConditionOp(e); }
    }

    /** EvaluateExprAsBool. */
    method EvaluateAsBool(e: Expr) returns (v: Value)
      requires Synced() && Live(Model())
      modifies this
      ensures Synced() && Live(Model()) && EV(Model(), v) == GenBool(alu, old(Model()), e)
      ensures AfterExpr(old(Model()), EV(Model(), v))
      decreases e, 2
    {
      hide Inv, Grows, AfterExpr;
      BoolFrame(alu, Model(), e);
      var x := VisitExpr(e);
      v := CastToBool(x);
    }

    method VisitArgs(es: seq<Expr>) returns (vs: seq<Value>)
      requires Synced() && Live(Model())
      modifies this
      ensures Synced() && Live(Model()) && EVs(Model(), vs) == GenArgs(alu, old(Model()), es)
      decreases es, 0
    {
      hide Inv, Grows, AfterExpr, Live;
      ghost var b := Model();
      vs := [];
      var i := 0;
      while i < |es|
        invariant 0 <= i <= |es| && Synced() && Live(Model())
        invariant var r := GenArgs(alu, Model(), es[i..]); GenArgs(alu, b, es) == EVs(r.b, vs + r.vs)
      {
        ghost var b1, vs1 := Model(), vs;
        var x := VisitExpr(es[i]);
        assert es[i..][1..] == es[i + 1..] && es[i..][0] == es[i];
        vs := vs + [x];
        i := i + 1;
        ghost var r := GenArgs(alu, Model(), es[i..]);
        assert vs1 + ([x] + r.vs) == vs + r.vs;
      }
      assert vs + [] == vs;
    }

    /** A block that starts with a phi. */
    method Join(end: BlockId, incoming: map<BlockId, Value>) returns (v: Value)
      requires Synced() && Open(Model()) && end !in plain && (end.Blk? ==> end.n < nextBlock)
      modifies this
      ensures Synced() && Live(Model()) && EV(Model(), v) == JoinValue(old(Model()), end, incoming)
    {
      NotGone(Model(), end);
      EmitBranchGrows(Model(), end);
      BranchKeys(Model(), end);
      BranchTo(end);
      PlaceBlock(end, Some(Phi(nextReg, incoming)));
      var r := NewReg();
      v := Reg(r);
    }

    /** LogicAndOp and LogicOrOp, for a left operand that is not constant. */
    method LogicOp(e: Expr) returns (v: Value)
      requires e.And? || e.Or?
      requires Synced() && Live(Model())
      modifies this
      ensures Synced() && Live(Model()) && EV(Model(), v) == GenLogic(alu, old(Model()), e)
      decreases e, 0
    {
      hide Inv, Grows, AfterExpr, Emit, GenBranch, GenExpr, GenBool, EmitBlock, JoinValue, Real, AfterBranch, Preds;
      ghost var b := Model();
      LogicPieces(alu, b, e);
      var rhs := NewBlock();
      var end := NewBlock();
      BranchOnBoolExpr(e.l, if e.Or? then end else rhs, if e.Or? then rhs else end);
      var early := map c | c in Preds(blocks, end) :: Imm(if e.Or? then 1 else 0);
      StartBlock(rhs);
      var x := EvaluateAsBool(e.r);
      v := Join(end, early + map[cur.value := x]);
    }

    method ConditionOp(e: Expr) returns (v: Value)
      requires e.Cond? && Calc(alu, e.c).None? && !(e.l.Const? && e.r.Const?)
      requires Synced() && Live(Model())
      modifies this
      ensures Synced() && Live(Model()) && EV(Model(), v) == GenExpr(alu, old(Model()), e)
      decreases e, 0
    {
      hide Inv, Grows, AfterExpr, Emit, GenBranch, GenExpr, GenBool, EmitBlock, EmitBranch, JoinValue,
        Real, AfterBranch, Preds;
      ghost var b := Model();
      CondPieces(alu, b, e);
      var lhs := NewBlock();
      var rhs := NewBlock();
      var end := NewBlock();
      BranchOnBoolExpr(e.c, lhs, rhs);
      StartBlock(lhs);
      var x := VisitExpr(e.l);
      var from := cur.value;
      BranchTo(end);
      StartBlock(rhs);
      var y := VisitExpr(e.r);
      v := Join(end, map[from := x] + map[cur.value := y]);
    }

    /** EmitBranchOnBoolExpr. */
    method BranchOnBoolExpr(e: Expr, t: BlockId, f: BlockId)
      requires Synced() && Live(Model()) && t !in gone && f !in gone
      modifies this
      ensures Synced() && AfterBranch(old(Model()), Model()) && Model() == GenBranch(alu, old(Model()), e, t, f)
      decreases e, 3
    {
      hide Inv, Grows, AfterExpr, Emit, GenExpr, GenBool, EmitBlock, EmitBranch, JoinValue, Real, AfterBranch, Preds,
        Bounded, Advances, Kept, GoneOK, Ext, Define, Terminate, EmitTest;
      ghost var b := Model();
      BranchFrame(alu, b, e, t, f);
      match e
      case And(l, r) =>
        TwoStepPieces(alu, b, e, l, Blk(b.nextBlock), f, 1, r, t, f);
        var mid := NewBlock();
        BranchOnBoolExpr(l, mid, f);
        StartBlock(mid);
        BranchOnBoolExpr(r, t, f);
      case Or(l, r) =>
        TwoStepPieces(alu, b, e, l, t, Blk(b.nextBlock), 1, r, t, f);
        var mid := NewBlock();
        BranchOnBoolExpr(l, t, mid);
        StartBlock(mid);
        BranchOnBoolExpr(r, t, f);
      case Not(x) => BranchOnBoolExpr(x, f, t);
      case Cond(_, _, _) => BranchOnCond(e, t, f);
      case _ =>
        var v := EvaluateAsBool(e);
        BoolKeeps(alu, b, e);
        EmitTerm(CondBr(v, t, f));
    }

    method BranchOnCond(e: Expr, t: BlockId, f: BlockId)
      requires e.Cond? && Synced() && Live(Model()) && t !in gone && f !in gone
      modifies this
      ensures Synced() && AfterBranch(old(Model()), Model()) && Model() == GenBranch(alu, old(Model()), e, t, f)
      decreases e, 2
    {
      hide Inv, Grows, AfterExpr, Emit, GenExpr, GenBool, EmitBlock, EmitBranch, JoinValue, Real, AfterBranch, Preds,
        Bounded, Advances, Kept, GoneOK, Ext, Define, Terminate, EmitTest;
      ghost var b := Model();
      BranchFrame(alu, b, e, t, f);
      TwoStepPieces(alu, b, e, e.c, Blk(b.nextBlock), Blk(b.nextBlock + 1), 2, e.l, t, f);
      var lhs := NewBlock();
      var rhs := NewBlock();
      BranchOnBoolExpr(e.c, lhs, rhs);
      StartBlock(lhs);
      BranchOnBoolExpr(e.l, t, f);
      StartBlock(rhs);
      BranchOnBoolExpr(e.r, t, f);
    }

    /* Statements. */

    ghost predicate Valid()
      reads this
    {
      Synced() && SInv(Model()) && Safe(Model())
    }

    /** EmitStmt. */
    method EmitStmt(s: Stmt)
      requires Valid() && Fits(alu, Model(), s)
      modifies this
      ensures Valid() && Model() == GenStmt(alu, old(Model()), s)
      decreases s, 1
    {
      hide Inv, SInv, Moves, Fits, Safe, Visit;
      ghost var b := Model();
      SInvOpen(b);
      if IsSimple(s) {
        VisitStmt(s);
      } else {
        if cur.None? {
          if !ContainsLabel(s) { return; }
          EnsureFrame(alu, b, s);
          FreshIds(b);
          SafeSame(b, EnsureInsertPoint(b));
          var id := NewBlock();
          StartBlock(id);
        }
        VisitStmt(s);
      }
    }

    method VisitStmt(s: Stmt)
      requires Valid() && Fits(alu, Model(), s) && (IsSimple(s) || Live(Model()))
      modifies this
      ensures Valid() && Model() == Visit(alu, old(Model()), s)
      decreases s, 0
    {
      hide Inv, SInv, Moves, Fits, Safe, GenStmt, GenExpr, Grows, Jump, EmitBlock, IfThen, IfElse, IfEnd, WhileBody,
        WhileEnd, DoBody, DoEnd, ForBody, ForEnd, SwitchBody, SwitchEnd, Synced;
      ghost var b := Model();
      SInvInv(b);
      match s
      case Skip =>
      case Seq(x, y) =>
        SeqFrame(alu, b, x, y);
        EmitStmt(x);
        EmitStmt(y);
      case ExprStmt(e) =>
        if e.Some? { var _ := EmitExpr(e.value); }
      case If(_, _, _) => VisitIf(s);
      case Switch(c, body) => VisitSwitch(c, body);
      case While(c, body) => VisitWhile(c, body);
      case DoWhile(body, c) => VisitDoWhile(body, c);
      case For(_, _, _, _) => VisitFor(s);
      case Label(l, s1) => VisitLabel(l, s1);
      case Case(_, _, _) => VisitCase(s);
      case Default(s1) => VisitDefault(s1);
      case Goto(l) => BranchThroughCleanup(Lbl(l));
      case Break => BreakIs(alu, b); TopKnown(b); BranchThroughCleanup(stack[|stack| - 1].brk);
      case Continue => ContinueIs(alu, b); TopKnown(b); BranchThroughCleanup(stack[|stack| - 1].cont.value);
      case Return(r) =>
        if r.Some? {
          var v := EmitExpr(r.value);
          EmitStore(v);
        }
        BranchThroughCleanup(RetBlk);
    }

    method EmitExpr(e: Expr) returns (v: Value)
      requires Valid() && Live(Model())
      modifies this
      ensures Valid() && Live(Model()) && EV(Model(), v) == GenExpr(alu, old(Model()), e)
    {
      hide Inv, Moves, Safe, GenExpr, Grows;
      ghost var b := Model();
      ExprMoves(alu, b, e);
      v := VisitExpr(e);
      SafeGrows(b, Model());
    }

    method EmitStore(v: Value)
      requires Valid() && Live(Model())
      modifies this
      ensures Valid() && Live(Model()) && Model() == Emit(old(Model()), IStore(v))
    {
      hide Inv, Moves, Safe, Grows;
      ghost var b := Model();
      EmitMoves(b, IStore(v));
      EmitInstr(IStore(v));
      SafeGrows(b, Model());
    }

    /** EmitBranchThroughCleanup. */
    method BranchThroughCleanup(to: BlockId)
      requires Valid() && (to.Blk? ==> Known(Model(), to))
      modifies this
      ensures Valid() && Model() == Jump(old(Model()), to)
    {
      hide Inv, Moves, Grows, GoneOK;
      ghost var b := Model();
      JumpGrows(b, to);
      if cur.Some? {
        EmitTerm(Br(to));
        cur := None;
      }
      SafeGrows(b, Model());
    }

    method VisitLabel(l: nat, s: Stmt)
      requires Valid() && Fits(alu, Model(), Label(l, s))
      modifies this
      ensures Valid() && Model() == Visit(alu, old(Model()), Label(l, s))
      decreases Label(l, s), 0, 0
    {
      hide Inv, Moves, Fits, Safe, GenStmt, EmitBlock;
      ghost var b := Model();
      LabelFrame(alu, b, l, s);
      LabelledIs(alu, b, Label(l, s));
      BlockSame(b, Lbl(l));
      StartBlock(Lbl(l));
      SafeSame(b, Model());
      EmitStmt(s);
    }

    method VisitDefault(s: Stmt)
      requires Valid() && Fits(alu, Model(), Default(s))
      modifies this
      ensures Valid() && Model() == Visit(alu, old(Model()), Default(s))
      decreases Default(s), 0, 0
    {
      hide Inv, Moves, Fits, Safe, GenStmt, EmitBlock;
      ghost var b := Model();
      DefaultFrame(alu, b, s);
      LabelledIs(alu, b, Default(s));
      BlockSame(b, sw.value.dflt);
      StartBlock(sw.value.dflt);
      SafeSame(b, Model());
      EmitStmt(s);
    }

    /** One case of the switch instruction for every value of the range. */
    method AddSwitchCases(lo: int, hi: int, blk: BlockId)
      requires sw.Some?
      modifies this`sw
      ensures Model() == AddCases(old(Model()), lo, hi, blk)
    {
      ghost var was := sw.value.cases;
      var i := lo;
      assert sw.value.cases + CaseList(i, hi, blk) == was + CaseList(lo, hi, blk);
      while i <= hi
        invariant sw.Some? && sw.value.dflt == old(sw.value.dflt)
        invariant sw.value.cases + CaseList(i, hi, blk) == was + CaseList(lo, hi, blk)
      {
        ghost var cs := sw.value.cases;
        sw := Some(OpenSwitch(sw.value.cases + [(i, blk)], sw.value.dflt));
        i := i + 1;
        assert cs + ([(i - 1, blk)] + CaseList(i, hi, blk)) == (cs + [(i - 1, blk)]) + CaseList(i, hi, blk);
      }
      assert sw.value.cases + [] == sw.value.cases;
    }

    method VisitCase(s: Stmt)
      requires s.Case? && Valid() && Fits(alu, Model(), s)
      modifies this
      ensures Valid() && Model() == Visit(alu, old(Model()), s)
      decreases s, 0, 0
    {
      hide Inv, Moves, Fits, Safe, GenStmt, EmitBlock, AddCases;
      ghost var b := Model();
      CaseFrame(alu, b, s);
      CaseHasSw(alu, b, s);
      FreshIds(b);
      SafeCase(b, s.lo, s.hi);
      var blk := NewBlock();
      BlockSame(Model(), blk);
      StartBlock(blk);
      AddSwitchCases(s.lo, s.hi, blk);
      EmitStmt(s.s);
    }

    method VisitIf(s: Stmt)
      requires s.If? && Valid() && Live(Model()) && Fits(alu, Model(), s)
      modifies this
      ensures Valid() && Model() == Visit(alu, old(Model()), s)
      decreases s, 0, 0
    {
      hide Inv, SInv, Moves, Fits, Safe, GenStmt, EmitBlock, EmitBranch, EmitFinished, GenBranch, Visit, Calc,
        Grows, AfterBranch, Ext;
      ghost var b := Model();
      IfIs(alu, b, s);
      IfFits(alu, b, s);
      var v := Calc(alu, s.c);
      var skipped := if v == Some(0) then Some(s.thn) else s.els;
      if v.Some? && (skipped.None? || !ContainsLabel(skipped.value)) {
        if v.value != 0 { EmitStmt(s.thn); } else if s.els.Some? { EmitStmt(s.els.value); }
      } else {
        EmitIf(s);
      }
    }

    /** An if whose condition is tested. */
    method EmitIf(s: Stmt)
      requires s.If? && !IfFolds(alu, s) && Valid() && Live(Model()) && Fits(alu, Model(), s)
      modifies this
      ensures Valid() && Model() == Visit(alu, old(Model()), s)
      decreases s, 0, -1
    {
      hide Inv, SInv, Moves, Fits, Safe, GenStmt, EmitBlock, EmitBranch, EmitFinished, GenBranch, Visit, Calc, Grows,
        AfterBranch, Ext, Live, IfFolds, IfThen, IfElse, IfElseStart, IfElseEnd, IfThenEnd, IfTest, Bounded, Advances,
        Kept, Real, StmtOK, JumpsOK, LabelsFree, DefaultFree, GoneOK, Terminate, Define, AfterExpr;
      ghost var b := Model();
      IfStates(alu, b, s);
      IfParts(alu, b, s);
      OpenLive(b);
      var thenBlock := NewBlock();
      var endBlock := NewBlock();
      var elseBlock := endBlock;
      if s.els.Some? { elseBlock := NewBlock(); }
      BranchOnBoolExpr(s.c, thenBlock, elseBlock);
      StartBlock(thenBlock);
      SafeGrows(b, Model());
      EmitStmt(s.thn);
      IfMiddle(alu, b, s, Model());
      BranchTo(endBlock);
      if s.els.Some? {
        StartBlock(elseBlock);
        EmitStmt(s.els.value);
        IfLast(alu, b, s, Model());
        BranchTo(endBlock);
      }
      FinishBlock(endBlock);
    }

    method VisitWhile(c: Expr, body: Stmt)
      requires Valid() && Live(Model()) && Fits(alu, Model(), While(c, body))
      modifies this
      ensures Valid() && Model() == Visit(alu, old(Model()), While(c, body))
      decreases While(c, body), 0, 0
    {
      hide Inv, SInv, Moves, Fits, Safe, GenStmt, EmitBlock, EmitBranch, EmitFinished, GenBool, Visit, Grows, Ext,
        AfterExpr, Live, SimplifyForwarding, Terminate, PopFrame, Bounded, Advances, Kept, Real, StmtOK, JumpsOK,
        LabelsFree, DefaultFree, GoneOK;
      ghost var b := Model();
      WhileStates(alu, b, c, body);
      var condBlock := NewBlock();
      var bodyBlock := NewBlock();
      var endBlock := NewBlock();
      StartBlock(condBlock);
      Push(Frame(endBlock, Some(condBlock)));
      var v := EvaluateAsBool(c);
      var emitBr := v != Imm(1);
      if emitBr { EmitTerm(CondBr(v, bodyBlock, endBlock)); }
      StartBlock(bodyBlock);
      EmitStmt(body);
      WhileMiddle(alu, b, c, body, Model());
      Pop();
      BranchTo(condBlock);
      FinishBlock(endBlock);
      if !emitBr { SimplifyForwardingBlocks(condBlock, bodyBlock); }
    }

    method VisitDoWhile(body: Stmt, c: Expr)
      requires Valid() && Live(Model()) && Fits(alu, Model(), DoWhile(body, c))
      modifies this
      ensures Valid() && Model() == Visit(alu, old(Model()), DoWhile(body, c))
      decreases DoWhile(body, c), 0, 0
    {
      hide Inv, SInv, Moves, Fits, Safe, GenStmt, EmitBlock, EmitBranch, EmitFinished, GenBool, Visit, Grows, Ext,
        AfterExpr, Live, SimplifyForwarding, Terminate, PopFrame, DoBody, Bounded, Advances, Kept, Real, StmtOK,
        JumpsOK, LabelsFree, DefaultFree, GoneOK, DoTest, DoTested;
      ghost var b := Model();
      DoStates(alu, b, body, c);
      var bodyBlock := NewBlock();
      var condBlock := NewBlock();
      var endBlock := NewBlock();
      StartBlock(bodyBlock);
      Push(Frame(endBlock, Some(condBlock)));
      EmitStmt(body);
      DoMiddle(alu, b, body, c, Model());
      DoBeforeParts(alu, b, body, c, Model());
      DoEndsParts(alu, b, body, c, Model());
      PopSInv(Model());
      SInvOpen(PopFrame(Model()));
      Pop();
      StartBlock(condBlock);
      var v := EvaluateAsBool(c);
      var emitBr := v != Imm(0);
      if emitBr { EmitTerm(CondBr(v, bodyBlock, endBlock)); }
      StartBlock(endBlock);
      if !emitBr { SimplifyForwardingBlocks(condBlock, endBlock); }
    }

    /** Up to the body of a for. */
    method OpenFor(s: Stmt, ghost b: Builder) returns (condBlock: BlockId, endBlock: BlockId, incBlock: BlockId)
      requires s.For? && SInv(b) && Live(b) && Fits(alu, b, s) && Model() == ForInit(alu, b, s.init) && Valid()
      modifies this
      ensures Synced() && Model() == ForBody(alu, old(Model()), s.cond, s.inc)
      ensures var n := old(nextBlock); condBlock == Blk(n) && endBlock == Blk(n + 1) && incBlock == Blk(n + 3)
      decreases s, 0, -1
    {
      hide Inv, SInv, Moves, Fits, Safe, GenStmt, EmitBlock, EmitBranch, EmitFinished, GenExpr, GenBranch, Visit,
        Grows, Ext, AfterExpr, AfterBranch, Live, PopFrame, Bounded, Advances, Kept, Real, StmtOK, JumpsOK,
        LabelsFree, DefaultFree, GoneOK, SimplifyForwarding, Terminate, Define, EmitTest, TermTargets, AfterExpr, Emit;
      ForStates(alu, b, Model(), s);
      condBlock := NewBlock();
      endBlock := NewBlock();
      var bodyBlock := NewBlock();
      incBlock := NewBlock();
      StartBlock(condBlock);
      if s.cond.Some? {
        BranchOnBoolExpr(s.cond.value, bodyBlock, endBlock);
        StartBlock(bodyBlock);
      }
      Push(Frame(endBlock, Some(if s.inc.Some? then incBlock else condBlock)));
    }

    method VisitFor(s: Stmt)
      requires s.For? && Valid() && Live(Model()) && Fits(alu, Model(), s)
      modifies this
      ensures Valid() && Model() == Visit(alu, old(Model()), s)
      decreases s, 0, 0
    {
      hide Inv, SInv, Moves, Fits, Safe, GenStmt, EmitBlock, EmitBranch, EmitFinished, GenExpr, GenBranch, Visit,
        Grows, Ext, AfterExpr, AfterBranch, Live, PopFrame, Bounded, Advances, Kept, Real, StmtOK, JumpsOK,
        LabelsFree, DefaultFree, GoneOK, SimplifyForwarding, Terminate, Define, EmitTest, TermTargets, AfterExpr, Emit;
      ghost var b := Model();
      ForFrameAll(alu, b, s);
      if s.init.Some? { var _ := EmitExpr(s.init.value); }
      ghost var b0 := Model();
      ForStates(alu, b, b0, s);
      var condBlock, endBlock, incBlock := OpenFor(s, b);
      EmitStmt(s.body);
      ForMiddle(alu, b, b0, s, Model());
      Pop();
      if s.inc.Some? {
        StartBlock(incBlock);
        var _ := VisitExpr(s.inc.value);
      }
      BranchTo(condBlock);
      FinishBlock(endBlock);
    }

    method VisitSwitch(c: Expr, body: Stmt)
      requires Valid() && Live(Model()) && Fits(alu, Model(), Switch(c, body))
      modifies this
      ensures Valid() && Model() == Visit(alu, old(Model()), Switch(c, body))
      decreases Switch(c, body), 0, 0
    {
      hide Inv, SInv, Moves, Fits, Safe, GenStmt, EmitBlock, EmitBranch, EmitFinished, GenExpr, Visit, Grows, Ext,
        Live, PopFrame, TopCont, Bounded, Advances, Kept, Real, StmtOK, JumpsOK, LabelsFree, DefaultFree, SwitchBody,
        SetBlock, Terminate, GoneOK, TermTargets;
      ghost var b := Model();
      SwitchStates(alu, b, c, body);
      var saved, cont := sw, if stack == [] then None else stack[|stack| - 1].cont;
      var v := EmitExpr(c);
      OpenLive(Model());
      var from := cur.value;
      var defaultBlock := NewBlock();
      var endBlock := NewBlock();
      Push(Frame(endBlock, cont));
      sw := Some(OpenSwitch([], defaultBlock));
      cur := None;
      EmitStmt(body);
      SwitchMiddle(alu, b, c, body, Model());
      CloseSwitch(from, SwitchT(v, sw.value.cases, if defaultBlock in blocks then defaultBlock else endBlock));
      Pop();
      FinishBlock(endBlock);
      sw := saved;
    }

    /** Writes the switch instruction into the block that it closes. */
    method CloseSwitch(from: BlockId, t: Term)
      requires Synced() && from in plain && from !in gone && plain[from].term.None? && TermTargets(t) !! gone.Keys
      modifies this
      ensures Synced() && Model() == SetBlock(old(Model()), from, old(plain)[from].(term := Some(t)))
    {
      ghost var b := Model();
      NotRedirected(gone, t);
      SetReal(b, from, plain[from].(term := Some(t)));
      CloseKeeps(b, from, t);
      blocks := blocks[from := blocks[from].(term := Some(t))];
      plain := plain[from := plain[from].(term := Some(t))];
    }

    /* Functions. */

    constructor (alu: Alu)
      ensures this.alu == alu
    {
      this.alu := alu;
    }

    method StartFunctionBody(isMain: bool)
      modifies this
      ensures Synced() && Live(Model()) && Model() == StartFunction(isMain)
    {
      blocks, cur, nextBlock, nextReg, stack, sw := map[], None, 1, SLOT + 1, [], None;
      plain, gone := map[], map[];
      PlaceBlock(ENTRY, None);
      EmitInstr(INop);
      if isMain { EmitInstr(IStore(Imm(0))); }
    }

    /** EmitReturnBlock and EmitFunctionEpilog. */
    method FinishFunctionBody()
      requires Valid() && RetBlk !in plain
      modifies this
      ensures Synced() && Model() == FinishFunction(old(Model()))
    {
      hide GoneOK, Safe, Preds;
      ghost var b := Model();
      SInvOpen(b);
      NotGone(b, RetBlk);
      if cur.Some? {
        LiveNotGone(b);
        if blocks[cur.value] == Block(None, [], None) || Preds(blocks, RetBlk) == {} {
          MergeReal(b);
          MergeSynced(b);
          if Preds(blocks, RetBlk) != {} {
            ghost var b1 := Replace(b, RetBlk, cur.value);
            plain, gone := b1.plain, b1.gone;
          }
          blocks := Erase(blocks, RetBlk, cur.value);
          EmitTerm(Ret);
          return;
        }
      }
      StartBlock(RetBlk);
      EmitTerm(Ret);
    }

    /** Visit(FuncDef): the blocks of the function. */
    method CompileFunction(isMain: bool, fn: Stmt)
      requires FunctionOK(alu, fn)
      modifies this
      ensures blocks == Code(alu, isMain, fn)
      ensures stack == [] && sw.None?
    {
      hide Inv, SInv, Moves, Fits, Safe, GenStmt, FinishFunction, StartFunction, Advances;
      StartFacts(alu, isMain, fn);
      StartSafe(isMain);
      StartFunctionBody(isMain);
      EmitStmt(fn);
      StmtFrame(alu, StartFunction(isMain), fn);
      StartIs(isMain);
      ReturnFresh(StartFunction(isMain), Model(), Labels(fn), HasDefault(fn));
      FunctionCompiled(alu, isMain, fn);
      FinishFunctionBody();
    }
  }
}
