/** Every statement only adds to the graph: the induction. */
module FrameAll {
  import opened Common
  import opened Source
  import opened Graph
  import opened Builder
  import opened CodeGen
  import opened Frames
  import opened FrameExpr
  import opened SimExpr
  import opened Static
  import opened FrameStmt
  import opened FrameLoops

  lemma EnsureFrame(alu: Alu, b: Builder, s: Stmt)
    requires SInv(b) && Fits(alu, b, s)
    ensures var b1 := EnsureInsertPoint(b); SInv(b1) && Live(b1) && Grows(b, b1) && Fits(alu, b1, s)
  {
    if b.cur.None? {
      OwnBlockAdvances(b, 1);
      GrowsMoves(b, EnsureInsertPoint(b), {}, false);
      FitsAfter(alu, b, EnsureInsertPoint(b), {}, false, s);
    }
  }

  lemma {:induction false} StmtFrame(alu: Alu, b: Builder, s: Stmt)
    requires SInv(b) && Fits(alu, b, s)
    ensures SInv(GenStmt(alu, b, s)) && Moves(b, GenStmt(alu, b, s), Labels(s), HasDefault(s))
    decreases s, 1
  {
    if IsSimple(s) || b.cur.Some? {
      VisitFrame(alu, b, s);
    } else if ContainsLabel(s) {
      hide SInv, Inv, Moves, Fits, Visit;
      EnsureFrame(alu, b, s);
      var b1 := EnsureInsertPoint(b);
      VisitFrame(alu, b1, s);
      GrowsMoves(b, b1, {}, false);
      MovesTrans(b, b1, Visit(alu, b1, s), {}, false, Labels(s), HasDefault(s));
      MovesMore(b, Visit(alu, b1, s), {} + Labels(s), false || HasDefault(s), Labels(s), HasDefault(s));
    }
  }

  lemma {:induction false} VisitFrame(alu: Alu, b: Builder, s: Stmt)
    requires SInv(b) && Fits(alu, b, s) && (IsSimple(s) || Live(b))
    ensures SInv(Visit(alu, b, s)) && Moves(b, Visit(alu, b, s), Labels(s), HasDefault(s))
    decreases s, 0
  {
    hide SInv, Inv, Moves, Grows, Advances, WhileBody, WhileEnd, DoBody, DoEnd, ForBody, ForEnd,
      SwitchEnd, SwitchBody, GenExpr;
    match s
    case Skip => MovesRefl(b, {}, false);
    case Seq(x, y) => SeqFrame(alu, b, x, y);
    case ExprStmt(e) =>
      if e.Some? {
        ExprMoves(alu, b, e.value);
        GrowsMoves(b, GenExpr(alu, b, e.value).b, {}, false);
      } else { MovesRefl(b, {}, false); }
    case If(_, _, _) => IfFrame(alu, b, s);
    case Switch(c, body) => SwitchFrame(alu, b, c, body);
    case While(c, body) => WhileFrameAll(alu, b, c, body);
    case DoWhile(body, c) => DoFrameAll(alu, b, body, c);
    case For(_, _, _, _) => ForFrameAll(alu, b, s);
    case Label(l, s1) => LabelFrame(alu, b, l, s1);
    case Case(_, _, _) => CaseFrame(alu, b, s);
    case Default(s1) => DefaultFrame(alu, b, s1);
    case Goto(l) => JumpGrows(b, Lbl(l)); GrowsMoves(b, Jump(b, Lbl(l)), {}, false);
    case Break =>
      var to := b.stack[|b.stack| - 1].brk;
      JumpGrows(b, to);
      GrowsMoves(b, Jump(b, to), {}, false);
    case Continue =>
      var to := TopCont(b).value;
      JumpGrows(b, to);
      GrowsMoves(b, Jump(b, to), {}, false);
    case Return(r) =>
      ReturnMoves(alu, b, r);
      GrowsMoves(b, Visit(alu, b, s), {}, false);
  }

  lemma {:induction false} WhileFrameAll(alu: Alu, b: Builder, c: Expr, body: Stmt)
    requires SInv(b) && Live(b) && Fits(alu, b, While(c, body))
    ensures var b1, b2 := WhileBody(alu, b, c), Visit(alu, b, While(c, body));
      && SInv(b1) && Fits(alu, b1, body) && LoopCondOK(alu, c, 1) && ValOK(alu, c)
      && SInv(GenStmt(alu, b1, body)) && Moves(b1, GenStmt(alu, b1, body), Labels(body), HasDefault(body))
      && b2 == WhileEnd(alu, b, c, GenStmt(alu, b1, body)) && SInv(b2) && Moves(b, b2, Labels(body), HasDefault(body))
    decreases While(c, body), 0, 0
  {
    hide *;
    LoopParts(alu, b, While(c, body));
    WhileBodyFrame(alu, b, c);
    var b1 := WhileBody(alu, b, c);
    LoopFits(alu, b, b1, WhileFrame(b), While(c, body), body);
    InsideSInv(b, b1, WhileFrame(b));
    StmtFrame(alu, b1, body);
    WhileEndFrame(alu, b, c, GenStmt(alu, b1, body), Labels(body), HasDefault(body));
  }

  lemma {:induction false} DoFrameAll(alu: Alu, b: Builder, body: Stmt, c: Expr)
    requires SInv(b) && Live(b) && Fits(alu, b, DoWhile(body, c))
    ensures var b1, b2 := DoBody(b), Visit(alu, b, DoWhile(body, c));
      && SInv(b1) && Fits(alu, b1, body) && LoopCondOK(alu, c, 0) && ValOK(alu, c)
      && SInv(GenStmt(alu, b1, body)) && Moves(b1, GenStmt(alu, b1, body), Labels(body), HasDefault(body))
      && b2 == DoEnd(alu, b, c, GenStmt(alu, b1, body)) && SInv(b2) && Moves(b, b2, Labels(body), HasDefault(body))
    decreases DoWhile(body, c), 0, 0
  {
    hide *;
    LoopParts(alu, b, DoWhile(body, c));
    DoBodyFrame(b);
    var b1 := DoBody(b);
    LoopFits(alu, b, b1, DoFrame(b), DoWhile(body, c), body);
    InsideSInv(b, b1, DoFrame(b));
    StmtFrame(alu, b1, body);
    DoEndFrame(alu, b, c, GenStmt(alu, b1, body), Labels(body), HasDefault(body));
  }

  lemma LoopParts(alu: Alu, b: Builder, s: Stmt)
    requires Fits(alu, b, s)
    ensures s.While? ==> LoopCondOK(alu, s.c, 1) && ValOK(alu, s.c) && WhileFrame(b).cont.Some?
    ensures s.While? ==> Visit(alu, b, s) == WhileEnd(alu, b, s.c, GenStmt(alu, WhileBody(alu, b, s.c), s.body))
    ensures s.DoWhile? ==> LoopCondOK(alu, s.c, 0) && ValOK(alu, s.c) && DoFrame(b).cont.Some?
    ensures s.DoWhile? ==> Visit(alu, b, s) == DoEnd(alu, b, s.c, GenStmt(alu, DoBody(b), s.body))
  {
  }

  lemma LoopFits(alu: Alu, b: Builder, b1: Builder, f: Frame, s: Stmt, body: Stmt)
    requires SInv(b) && Inside(b, b1, f) && b1.sw == b.sw && f.cont.Some? && Fits(alu, b, s)
    requires (s.While? && s.body == body) || (s.DoWhile? && s.body == body) || (s.For? && s.body == body)
    ensures Fits(alu, b1, body)
  {
    InsideFits(alu, b, b1, f, body);
  }

  lemma {:induction false} SeqFrame(alu: Alu, b: Builder, x: Stmt, y: Stmt)
    requires SInv(b) && Fits(alu, b, Seq(x, y))
    ensures var b1, b2 := GenStmt(alu, b, x), Visit(alu, b, Seq(x, y));
      && SInv(b1) && Moves(b, b1, Labels(x), HasDefault(x)) && Fits(alu, b, x) && Fits(alu, b1, y)
        && b2 == GenStmt(alu, b1, y)
      && SInv(b2) && Moves(b, b2, Labels(x) + Labels(y), HasDefault(x) || HasDefault(y))
      && Moves(b1, b2, Labels(y), HasDefault(y))
    decreases Seq(x, y), 0, 0
  {
    hide SInv, Inv, Moves;
    var b1 := GenStmt(alu, b, x);
    StmtFrame(alu, b, x);
    FitsAfter(alu, b, b1, Labels(x), HasDefault(x), y);
    StmtFrame(alu, b1, y);
    MovesTrans(b, b1, GenStmt(alu, b1, y), Labels(x), HasDefault(x), Labels(y), HasDefault(y));
  }

  lemma {:induction false} LabelFrame(alu: Alu, b: Builder, l: nat, s: Stmt)
    requires SInv(b) && Fits(alu, b, Label(l, s))
    ensures var b1, b2 := EmitBlock(b, Lbl(l)), Visit(alu, b, Label(l, s));
      && SInv(b1) && Live(b1) && Fits(alu, b1, s) && b2 == GenStmt(alu, b1, s) && SInv(b2)
        && Moves(b1, b2, Labels(s), HasDefault(s))
      && Moves(b, b1, {l}, false)
      && Moves(b, b2, {l} + Labels(s), HasDefault(s))
    decreases Label(l, s), 0, 0
  {
    hide SInv, Inv, Moves;
    LabelAdvances(b, l);
    var b1 := EmitBlock(b, Lbl(l));
    FitsAfter(alu, b, b1, {l}, false, s);
    StmtFrame(alu, b1, s);
    MovesTrans(b, b1, GenStmt(alu, b1, s), {l}, false, Labels(s), HasDefault(s));
  }

  lemma {:induction false} DefaultFrame(alu: Alu, b: Builder, s: Stmt)
    requires SInv(b) && Fits(alu, b, Default(s))
    ensures b.sw.Some? && var b1, b2 := EmitBlock(b, b.sw.value.dflt), Visit(alu, b, Default(s));
      && SInv(b1) && Live(b1) && Fits(alu, b1, s) && b2 == GenStmt(alu, b1, s) && SInv(b2)
        && Moves(b1, b2, Labels(s), HasDefault(s))
      && Moves(b, b1, {}, true)
      && Moves(b, b2, Labels(s), true)
    decreases Default(s), 0, 0
  {
    hide SInv, Inv, Moves;
    DefaultAdvances(b);
    var b1 := EmitBlock(b, b.sw.value.dflt);
    FitsAfter(alu, b, b1, {}, true, s);
    StmtFrame(alu, b1, s);
    var b2 := GenStmt(alu, b1, s);
    MovesTrans(b, b1, b2, {}, true, Labels(s), HasDefault(s));
    MovesMore(b, b2, {} + Labels(s), true || HasDefault(s), Labels(s), true);
  }

  function CaseStart(b: Builder, lo: int, hi: int): Builder {
    AddCases(EmitBlock(NewBlocks(b, 1), Blk(b.nextBlock)), lo, hi, Blk(b.nextBlock))
  }

  lemma CaseAdvances(b: Builder, lo: int, hi: int)
    requires SInv(b) && b.sw.Some?
    ensures var b1 := CaseStart(b, lo, hi);
      && SInv(b1) && Live(b1) && Moves(b, b1, {}, false) && Starts(b1, Blk(b.nextBlock))
      && b1.sw == Some(b.sw.value.(cases := b.sw.value.cases + CaseList(lo, hi, Blk(b.nextBlock))))
  {
    OwnBlockAdvances(b, 1);
    GrowsMoves(b, EmitBlock(NewBlocks(b, 1), Blk(b.nextBlock)), {}, false);
  }

  lemma {:induction false} CaseFrame(alu: Alu, b: Builder, s: Stmt)
    requires s.Case? && SInv(b) && Fits(alu, b, s)
    ensures var b1, b2 := CaseStart(b, s.lo, s.hi), Visit(alu, b, s);
      && SInv(b1) && Live(b1) && Fits(alu, b1, s.s) && b2 == GenStmt(alu, b1, s.s) && SInv(b2)
        && Moves(b1, b2, Labels(s.s), HasDefault(s.s))
      && Moves(b, b1, {}, false)
      && Moves(b, b2, Labels(s), HasDefault(s))
    decreases s, 0, 0
  {
    hide SInv, Inv, Moves;
    CaseAdvances(b, s.lo, s.hi);
    var b1 := CaseStart(b, s.lo, s.hi);
    FitsAfter(alu, b, b1, {}, false, s.s);
    StmtFrame(alu, b1, s.s);
    var b2 := GenStmt(alu, b1, s.s);
    MovesTrans(b, b1, b2, {}, false, Labels(s.s), HasDefault(s.s));
    MovesMore(b, b2, {} + Labels(s.s), false || HasDefault(s.s), Labels(s), HasDefault(s));
  }

  lemma SwitchFits(alu: Alu, b: Builder, c: Expr, body: Stmt)
    requires SInv(b) && Live(b) && Fits(alu, b, Switch(c, body))
    ensures Fits(alu, SwitchBody(alu, b, c), body)
  {
    hide GenExpr, Inv, Ext;
    SwitchBodyFrame(alu, b, c);
  }

  lemma {:induction false} SwitchFrame(alu: Alu, b: Builder, c: Expr, body: Stmt)
    requires SInv(b) && Live(b) && Fits(alu, b, Switch(c, body))
    ensures var b1, b2 := SwitchBody(alu, b, c), Visit(alu, b, Switch(c, body));
      && Fits(alu, b1, body) && SInv(b1) && SInv(GenStmt(alu, b1, body))
        && Moves(b1, GenStmt(alu, b1, body), Labels(body), HasDefault(body))
      && SInv(b2) && Moves(b, b2, Labels(body), false)
    decreases Switch(c, body), 0, 0
  {
    hide SInv, Inv, Moves, SwitchBody, SwitchEnd, Advances;
    SwitchFits(alu, b, c, body);
    SwitchBodyFrame(alu, b, c);
    StmtFrame(alu, SwitchBody(alu, b, c), body);
    SwitchEndFrame(alu, b, c, GenStmt(alu, SwitchBody(alu, b, c), body), Labels(body), HasDefault(body));
  }

  function ForInit(alu: Alu, b: Builder, init: Option<Expr>): Builder {
    if init.Some? then GenExpr(alu, b, init.value).b else b }

  lemma {:induction false} ForFrameAll(alu: Alu, b: Builder, s: Stmt)
    requires s.For? && SInv(b) && Live(b) && Fits(alu, b, s)
    ensures var b0, b2 := ForInit(alu, b, s.init), Visit(alu, b, s);
      && SInv(b0) && Live(b0) && Grows(b, b0) && Fits(alu, b0, s) && SInv(b2)
        && Moves(b0, b2, Labels(s), HasDefault(s)) && Moves(b, b2, Labels(s), HasDefault(s))
      && Fits(alu, ForBody(alu, b0, s.cond, s.inc), s.body)
      && b2 == ForEnd(alu, b0, s.cond, s.inc, GenStmt(alu, ForBody(alu, b0, s.cond, s.inc), s.body))
    decreases s, 0, 0
  {
    hide SInv, Inv, Moves, Inside, Advances, ForBody, ForEnd, Fits, Grows;
    var b0 := ForInit(alu, b, s.init);
    GrowsRefl(b);
    if s.init.Some? { ExprMoves(alu, b, s.init.value); }
    GrowsMoves(b, b0, {}, false);
    FitsAfter(alu, b, b0, {}, false, s);
    ForBodyFrame(alu, b0, s.cond, s.inc);
    var b1 := ForBody(alu, b0, s.cond, s.inc);
    LoopFits(alu, b0, b1, ForFrame(b0, s.inc), s, s.body);
    InsideSInv(b0, b1, ForFrame(b0, s.inc));
    StmtFrame(alu, b1, s.body);
    var b2 := GenStmt(alu, b1, s.body);
    ForEndFrame(alu, b0, s.cond, s.inc, b2, Labels(s), HasDefault(s));
    var b3 := ForEnd(alu, b0, s.cond, s.inc, b2);
    MovesTrans(b, b0, b3, {}, false, Labels(s), HasDefault(s));
    MovesMore(b, b3, {} + Labels(s), false || HasDefault(s), Labels(s), HasDefault(s));
  }

  lemma InsideSInv(b: Builder, b1: Builder, f: Frame)
    requires Inside(b, b1, f)
    ensures SInv(b1)
  {
  }

  predicate IfFolds(alu: Alu, s: Stmt)
    requires s.If?
  {
    var v := Calc(alu, s.c);
    var skipped := if v == Some(0) then Some(s.thn) else s.els;
    v.Some? && (skipped.None? || !ContainsLabel(skipped.value))
  }

  function IfThenEnd(alu: Alu, b: Builder, s: Stmt): Builder
    requires s.If?
  {
    GenStmt(alu, IfThen(alu, b, s.c, s.els.Some?), s.thn)
  }
  function IfElseStart(alu: Alu, b: Builder, s: Stmt): Builder
    requires s.If?
  {
    IfElse(b, IfThenEnd(alu, b, s), s.els.Some?)
  }
  function IfElseEnd(alu: Alu, b: Builder, s: Stmt): Builder
    requires s.If?
  {
    if s.els.Some? then GenStmt(alu, IfElseStart(alu, b, s), s.els.value) else IfElseStart(alu, b, s)
  }

  lemma IfIs(alu: Alu, b: Builder, s: Stmt)
    requires s.If?
    ensures !IfFolds(alu, s) ==> Visit(alu, b, s) == IfEnd(b, IfElseEnd(alu, b, s), s.els.Some?)
    ensures IfFolds(alu, s) ==> Calc(alu, s.c).Some?
    ensures IfFolds(alu, s) && Calc(alu, s.c).value != 0 ==> Visit(alu, b, s) == GenStmt(alu, b, s.thn)
    ensures IfFolds(alu, s) && Calc(alu, s.c).value == 0
      ==> Visit(alu, b, s) == if s.els.Some? then GenStmt(alu, b, s.els.value) else b
  {
  }

  lemma IfFits(alu: Alu, b: Builder, s: Stmt)
    requires s.If? && Fits(alu, b, s)
    ensures Fits(alu, b, s.thn) && (s.els.Some? ==>
        Fits(alu, b, s.els.value) && Labels(s.thn) !! Labels(s.els.value)
          && !(HasDefault(s.thn) && HasDefault(s.els.value)))
    ensures Labels(s.thn) <= Labels(s) && (s.els.Some?
      ==> Labels(s.els.value) <= Labels(s) && Labels(s) == Labels(s.thn) + Labels(s.els.value))
    ensures HasDefault(s) == (HasDefault(s.thn) || (s.els.Some? && HasDefault(s.els.value)))
    ensures s.els.None? ==> Labels(s) == Labels(s.thn)
  {
  }

  /** An if that is not folded, piece by piece. */
  lemma {:induction false} IfPieces(alu: Alu, b: Builder, s: Stmt)
    requires s.If? && SInv(b) && Live(b) && Fits(alu, b, s)
    ensures var n, b1, b2, b3, b4 := b.nextBlock, IfThen(alu, b, s.c, s.els.Some?), IfThenEnd(alu, b, s),
      IfElseStart(alu, b, s), IfElseEnd(alu, b, s);
      var b5 := IfEnd(b, b4, s.els.Some?);
      && SInv(b1) && Live(b1) && Starts(b1, Blk(n)) && Fits(alu, b1, s.thn) && Grows(b, b1)
      && SInv(b2) && Moves(b1, b2, Labels(s.thn), HasDefault(s.thn)) && Blk(n + 1) !in b2.plain
      && Ext(EmitBranch(b2, Blk(n + 1)).plain, b3.plain)
      && SInv(b3) && (s.els.Some? ==>
          Starts(b3, Blk(n + 2)) && Live(b3) && Fits(alu, b3, s.els.value)
            && Moves(b3, b4, Labels(s.els.value), HasDefault(s.els.value)))
      && (s.els.None? ==> b3.cur.None?)
      && SInv(b4) && Ext(b3.plain, b4.plain) && Blk(n + 1) !in b4.plain
      && SInv(b5) && (b5.cur.Some? ==> Starts(b5, Blk(n + 1))) && Ext(EmitBranch(b4, Blk(n + 1)).plain, b5.plain)
        && Ext(b4.plain, b5.plain)
      && Moves(b, b5, Labels(s), HasDefault(s))
      && b1.stack == b.stack && b2.stack == b.stack && b4.stack == b.stack && b5.stack == b.stack
      && Ext(b3.plain, b5.plain) && Ext(b1.plain, b5.plain) && Moves(b, b3, Labels(s.thn), HasDefault(s.thn))
    decreases s, 0, 0
  {
    hide *;
    var n, e := b.nextBlock, s.els.Some?;
    var b1, b2, b3, b4 := IfThen(alu, b, s.c, e), IfThenEnd(alu, b, s), IfElseStart(alu, b, s), IfElseEnd(alu, b, s);
    var b5 := IfEnd(b, b4, e);
    IfParts(alu, b, s);
    IfFits(alu, b, s);
    IfThenFrame(alu, b, s.c, e);
    GrowsMoves(b, b1, {}, false);
    FitsAfter(alu, b, b1, {}, false, s.thn);
    StmtFrame(alu, b1, s.thn);
    IfElseFrame(b, b1, b2, Labels(s.thn), HasDefault(s.thn), e);
    MovesExt(b, b1, {}, false);
    MovesExt(b1, b2, Labels(s.thn), HasDefault(s.thn));
    MovesExt(b, b3, Labels(s.thn), HasDefault(s.thn));
    if e {
      FitsAfter(alu, b, b3, Labels(s.thn), HasDefault(s.thn), s.els.value);
      StmtFrame(alu, b3, s.els.value);
      MovesExt(b3, b4, Labels(s.els.value), HasDefault(s.els.value));
      IfEndFrame(b, b3, b4, Labels(s.thn), HasDefault(s.thn), Labels(s.els.value), HasDefault(s.els.value), e);
      MovesMore(b, b5, Labels(s.thn) + Labels(s.els.value), HasDefault(s.thn)
        || HasDefault(s.els.value), Labels(s), HasDefault(s));
    } else {
      MovesRefl(b3, {}, false);
      MovesExt(b3, b4, {}, false);
      IfEndFrame(b, b3, b4, Labels(s.thn), HasDefault(s.thn), {}, false, e);
      MovesMore(b, b5, Labels(s.thn) + {}, HasDefault(s.thn) || false, Labels(s), HasDefault(s));
    }
    MovesExt(b, b5, Labels(s), HasDefault(s));
    ExtTrans(b1.plain, b2.plain, b3.plain);
    ExtTrans(b3.plain, b4.plain, b5.plain);
    ExtTrans(b1.plain, b3.plain, b5.plain);
  }

  lemma IfParts(alu: Alu, b: Builder, s: Stmt)
    requires s.If?
    ensures IfThenEnd(alu, b, s) == GenStmt(alu, IfThen(alu, b, s.c, s.els.Some?), s.thn)
    ensures IfElseStart(alu, b, s) == IfElse(b, IfThenEnd(alu, b, s), s.els.Some?)
    ensures IfElseEnd(alu, b, s) == if s.els.Some? then GenStmt(alu, IfElseStart(alu, b, s), s.els.value)
      else IfElseStart(alu, b, s)
  {
  }

  lemma {:induction false} IfFrame(alu: Alu, b: Builder, s: Stmt)
    requires s.If? && SInv(b) && Live(b) && Fits(alu, b, s)
    ensures SInv(Visit(alu, b, s)) && Moves(b, Visit(alu, b, s), Labels(s), HasDefault(s))
    decreases s, 0, 1
  {
    hide *;
    IfIs(alu, b, s);
    IfFits(alu, b, s);
    if IfFolds(alu, s) {
      MovesRefl(b, Labels(s), HasDefault(s));
      if Calc(alu, s.c).value != 0 {
        StmtFrame(alu, b, s.thn);
        MovesMore(b, GenStmt(alu, b, s.thn), Labels(s.thn), HasDefault(s.thn), Labels(s), HasDefault(s));
      } else if s.els.Some? {
        StmtFrame(alu, b, s.els.value);
        MovesMore(b, GenStmt(alu, b, s.els.value), Labels(s.els.value), HasDefault(s.els.value),
          Labels(s), HasDefault(s));
      }
    } else {
      IfPieces(alu, b, s);
    }
  }
}
