/** A jump into a statement lands in the block emitted for the label it selects. */
module FindLabel {
  import opened Common
  import opened Source
  import opened Graph
  import opened Builder
  import opened CodeGen
  import opened Frames
  import opened FrameExpr
  import opened SimExpr
  import opened Static
  import opened FrameStmt
  import opened FrameLoops
  import opened FrameAll
  import opened MatchKont
  import opened Jumps

  /** The labelled statement `p` starts in block `id`, in state `b1`. */
  ghost predicate Lands(alu: Alu, fin: Builder, p: (Stmt, Kont), b1: Builder, a1: Anno, id: BlockId) {
    && SInv(b1) && Live(b1) && Starts(b1, id) && Fits(alu, b1, p.0) && MatchK(alu, fin, p.1, GenStmt(alu, b1, p.0), a1)
  }

  lemma LandsIntro(alu: Alu, fin: Builder, s: Stmt, k: Kont, b1: Builder, a1: Anno, id: BlockId)
    requires SInv(b1) && Live(b1) && Starts(b1, id) && Fits(alu, b1, s) && MatchK(alu, fin, k, GenStmt(alu, b1, s), a1)
    ensures Lands(alu, fin, (s, k), b1, a1, id)
  {
  }

  lemma {:induction false} FindDefault(s: Stmt, k: Kont)
    ensures Find(SDefault, s, k).Some? <==> HasDefault(s)
  {
    match s
    case Seq(a, b) => FindDefault(a, KSeq(b, k)); FindDefault(b, k);
    case If(_, a, b) => FindDefault(a, k); if b.Some? { FindDefault(b.value, k); }
    case While(c, body) => FindDefault(body, KWhile(c, body, k));
    case DoWhile(body, c) => FindDefault(body, KDo(body, c, k));
    case For(_, c, i, body) => FindDefault(body, KFor(c, i, body, k));
    case Label(_, s1) => FindDefault(s1, k);
    case Case(_, _, s1) => FindDefault(s1, k);
    case Default(s1) => if HasDefault(s1) { FindDefault(s1, k); }
    case _ =>
  }

  lemma {:induction false} FindGoto(l: nat, s: Stmt, k: Kont)
    requires l in Labels(s)
    ensures Find(SLabel(l), s, k).Some?
  {
    match s
    case Seq(a, b) => if l in Labels(a) { FindGoto(l, a, KSeq(b, k)); } else { FindGoto(l, b, k); }
    case If(_, a, b) => if l in Labels(a) { FindGoto(l, a, k); } else { FindGoto(l, b.value, k); }
    case Switch(_, body) => FindGoto(l, body, KSwitch(k));
    case While(c, body) => FindGoto(l, body, KWhile(c, body, k));
    case DoWhile(body, c) => FindGoto(l, body, KDo(body, c, k));
    case For(_, c, i, body) => FindGoto(l, body, KFor(c, i, body, k));
    case Label(l1, s1) => if l != l1 { FindGoto(l, s1, k); }
    case Case(_, _, s1) => FindGoto(l, s1, k);
    case Default(s1) => FindGoto(l, s1, k);
    case _ =>
  }

  /** A label that the statement does not have is selected by no emitted case. */
  lemma {:induction false} NotFound(alu: Alu, sel: Selector, b: Builder, s: Stmt, k: Kont)
    requires SInv(b) && Fits(alu, b, s) && Find(sel, s, k).None?
    ensures SelectsNone(sel, b, GenStmt(alu, b, s))
    decreases s, 1
  {
    hide SInv, Fits, SelectsNone, Moves, Grows, Visit;
    GenIs(alu, b, s);
    if IsSimple(s) || b.cur.Some? {
      CurLive(b);
      NotFoundVisit(alu, sel, b, s, k);
    } else if ContainsLabel(s) {
      EnsureFrame(alu, b, s);
      var b1 := EnsureInsertPoint(b);
      NotFoundVisit(alu, sel, b1, s, k);
      GrowsAdvances(b, b1);
      NoneSame(sel, b, b1);
      NoneTrans(sel, b, b1, Visit(alu, b1, s));
    } else { NoneSame(sel, b, b); }
  }

  lemma CurLive(b: Builder)
    requires SInv(b)
    ensures b.cur.Some? ==> Live(b)
  {
  }

  lemma GenIs(alu: Alu, b: Builder, s: Stmt)
    ensures IsSimple(s) || b.cur.Some? ==> GenStmt(alu, b, s) == Visit(alu, b, s)
    ensures !(IsSimple(s) || b.cur.Some?) && ContainsLabel(s)
      ==> GenStmt(alu, b, s) == Visit(alu, EnsureInsertPoint(b), s)
    ensures !(IsSimple(s) || b.cur.Some?) && !ContainsLabel(s) ==> GenStmt(alu, b, s) == b
  {
  }

  lemma {:induction false} NotFoundVisit(alu: Alu, sel: Selector, b: Builder, s: Stmt, k: Kont)
    requires SInv(b) && Fits(alu, b, s) && (IsSimple(s) || Live(b)) && Find(sel, s, k).None?
    ensures SelectsNone(sel, b, Visit(alu, b, s))
    decreases s, 0
  {
    hide SInv, Fits, SelectsNone, Moves, Grows, Visit, GenStmt, WhileBody, WhileEnd, DoBody, DoEnd, ForBody,
      ForEnd, EmitBlock, Live;
    match s
    case Seq(x, y) =>
      SeqFrame(alu, b, x, y);
      NotFound(alu, sel, b, x, KSeq(y, k));
      var b1 := GenStmt(alu, b, x);
      NotFound(alu, sel, b1, y, k);
      NoneTrans(sel, b, b1, GenStmt(alu, b1, y));
    case If(_, _, _) => NotFoundIf(alu, sel, b, s, k);
    case Switch(c, body) => SwitchSw(alu, b, c, body); NoneSame(sel, b, Visit(alu, b, s));
    case While(c, body) =>
      LoopSw(alu, b, s);
      NotFoundLoop(alu, sel, b, WhileBody(alu, b, c), body, KWhile(c, body, k), Visit(alu, b, s));
    case DoWhile(body, c) =>
      LoopSw(alu, b, s);
      NotFoundLoop(alu, sel, b, DoBody(b), body, KDo(body, c, k), Visit(alu, b, s));
    case For(init, c, i, body) =>
      LoopSw(alu, b, s);
      NotFoundLoop(alu, sel, b, ForBody(alu, ForInit(alu, b, init), c, i), body, KFor(c, i, body, k), Visit(alu, b, s));
    case Label(l, s1) =>
      LabelFrame(alu, b, l, s1);
      var b1 := EmitBlock(b, Lbl(l));
      EnterSw(b, Lbl(l));
      NoneSame(sel, b, b1);
      NotFound(alu, sel, b1, s1, k);
      NoneTrans(sel, b, b1, GenStmt(alu, b1, s1));
    case Case(lo, hi, s1) =>
      CaseFrame(alu, b, s);
      var b1 := CaseStart(b, lo, hi);
      CaseHasSw(alu, b, s);
      CaseSelects(sel, b, lo, hi);
      NotFound(alu, sel, b1, s1, k);
      NoneTrans(sel, b, b1, GenStmt(alu, b1, s1));
    case Default(s1) =>
      DefaultFrame(alu, b, s1);
      var b1 := EmitBlock(b, b.sw.value.dflt);
      EnterSw(b, b.sw.value.dflt);
      NoneSame(sel, b, b1);
      NotFound(alu, sel, b1, s1, k);
      NoneTrans(sel, b, b1, GenStmt(alu, b1, s1));
    case _ =>
      PlainSw(alu, b, s);
      NoneSame(sel, b, Visit(alu, b, s));
  }

  lemma CaseHasSw(alu: Alu, b: Builder, s: Stmt)
    requires s.Case? && Fits(alu, b, s)
    ensures b.sw.Some?
  {
  }

  lemma {:induction false} NotFoundLoop(alu: Alu, sel: Selector, b: Builder, b1: Builder,
    body: Stmt, k: Kont, b3: Builder)
    requires LoopSwOK(alu, b, b1, body, b3) && Find(sel, body, k).None?
    ensures SelectsNone(sel, b, b3)
    decreases body, 2
  {
    NotFound(alu, sel, b1, body, k);
  }

  lemma PlainSw(alu: Alu, b: Builder, s: Stmt)
    requires SInv(b) && Fits(alu, b, s) && (IsSimple(s) || Live(b))
    requires s.Skip? || s.ExprStmt? || s.Goto? || s.Break? || s.Continue? || s.Return?
    ensures Visit(alu, b, s).sw == b.sw
  {
    hide Inv, Ext, Kept;
    if s.ExprStmt? && s.e.Some? { ExprMoves(alu, b, s.e.value); }
    if s.Return? { ReturnMoves(alu, b, s.r); }
  }

  lemma SwitchSw(alu: Alu, b: Builder, c: Expr, body: Stmt)
    requires SInv(b) && Live(b) && Fits(alu, b, Switch(c, body))
    ensures Visit(alu, b, Switch(c, body)).sw == b.sw
    ensures Visit(alu, b, Switch(c, body)) == SwitchEnd(alu, b, c, GenStmt(alu, SwitchBody(alu, b, c), body))
    ensures Fits(alu, SwitchBody(alu, b, c), body) && SInv(SwitchBody(alu, b, c))
  {
    hide *;
    var b2 := GenStmt(alu, SwitchBody(alu, b, c), body);
    SwitchFrame(alu, b, c, body);
    SwitchIs(alu, b, c, body);
    SwitchClosedFrame(alu, b, c, b2, Labels(body), HasDefault(body));
    SwOf(EmitFinished(SwitchClosed(alu, b, c, b2), Blk(GenExpr(alu, b, c).b.nextBlock + 1)), b.sw);
  }

  lemma SwOf(b: Builder, sw: Option<OpenSwitch>)
    ensures b.(sw := sw).sw == sw
  {
  }

  lemma SwitchIs(alu: Alu, b: Builder, c: Expr, body: Stmt)
    ensures Visit(alu, b, Switch(c, body)) == SwitchEnd(alu, b, c, GenStmt(alu, SwitchBody(alu, b, c), body))
  {
  }

  /** The switch seen from the pieces of an if. */
  lemma IfSw(alu: Alu, b: Builder, s: Stmt)
    requires s.If? && SInv(b) && Live(b) && Fits(alu, b, s)
    ensures var b1, b2, b3, b4 := IfThen(alu, b, s.c, s.els.Some?), IfThenEnd(alu, b, s),
      IfElseStart(alu, b, s), IfElseEnd(alu, b, s);
      b1.sw == b.sw && b3.sw == b2.sw && IfEnd(b, b4, s.els.Some?).sw == b4.sw
  {
    hide Inv, Ext, Kept, GenStmt, GenBranch, Fits, Live, Bounded, StmtOK, Starts;
    IfThenFrame(alu, b, s.c, s.els.Some?);
  }

  lemma {:induction false} NotFoundIf(alu: Alu, sel: Selector, b: Builder, s: Stmt, k: Kont)
    requires s.If? && SInv(b) && Live(b) && Fits(alu, b, s) && Find(sel, s, k).None?
    ensures SelectsNone(sel, b, Visit(alu, b, s))
    decreases s, 0, 0
  {
    hide *;
    IfIs(alu, b, s);
    IfFits(alu, b, s);
    IfFind(sel, s, k);
    if IfFolds(alu, s) {
      NoneSame(sel, b, b);
      if Calc(alu, s.c).value != 0 { NotFound(alu, sel, b, s.thn, k); }
      else if s.els.Some? { NotFound(alu, sel, b, s.els.value, k); }
    } else {
      IfPieces(alu, b, s);
      IfParts(alu, b, s);
      IfSw(alu, b, s);
      var b1, b2, b3, b4 := IfThen(alu, b, s.c, s.els.Some?), IfThenEnd(alu, b, s),
        IfElseStart(alu, b, s), IfElseEnd(alu, b, s);
      var b5 := IfEnd(b, b4, s.els.Some?);
      NoneSame(sel, b, b1);
      NotFound(alu, sel, b1, s.thn, k);
      NoneTrans(sel, b, b1, b2);
      NoneSame(sel, b2, b3);
      NoneTrans(sel, b, b2, b3);
      NoneSame(sel, b3, b3);
      if s.els.Some? { NotFound(alu, sel, b3, s.els.value, k); }
      NoneTrans(sel, b, b3, b4);
      NoneSame(sel, b4, b5);
      NoneTrans(sel, b, b4, b5);
    }
  }

  lemma IfFind(sel: Selector, s: Stmt, k: Kont)
    requires s.If?
    ensures Find(sel, s, k) == if Find(sel, s.thn, k).Some? || s.els.None? then Find(sel, s.thn, k)
      else Find(sel, s.els.value, k)
  {
  }

  /** The main lemma: the labelled statement that a selector finds in `s` starts in the block that
      the emitted code selects. */
  lemma {:induction false} Found(alu: Alu, fin: Builder, sel: Selector, b: Builder, s: Stmt, k: Kont, a: Anno)
    returns (b1: Builder, a1: Anno, id: BlockId)
    requires SInv(b) && Fits(alu, b, s) && MatchK(alu, fin, k, GenStmt(alu, b, s), a) && Find(sel, s, k).Some?
    ensures Lands(alu, fin, Find(sel, s, k).value, b1, a1, id) && Selects(sel, b, GenStmt(alu, b, s), id)
    decreases s, 1
  {
    hide SInv, Fits, Moves, Grows, Visit, MatchK, Lands, Selects;
    GenIs(alu, b, s);
    if IsSimple(s) || b.cur.Some? {
      CurLive(b);
      b1, a1, id := FoundVisit(alu, fin, sel, b, s, k, a);
    } else {
      if !ContainsLabel(s) { NoLabelNoEntry(sel, s, k); }
      EnsureFrame(alu, b, s);
      var b0 := EnsureInsertPoint(b);
      b1, a1, id := FoundVisit(alu, fin, sel, b0, s, k, a);
      GrowsAdvances(b, b0);
      NoneSame(sel, b, b0);
      SelectsLater(sel, b, b0, Visit(alu, b0, s), id);
    }
  }

  lemma {:induction false} FoundVisit(alu: Alu, fin: Builder, sel: Selector, b: Builder, s: Stmt, k: Kont, a: Anno)
    returns (b1: Builder, a1: Anno, id: BlockId)
    requires SInv(b) && Fits(alu, b, s) && (IsSimple(s) || Live(b)) && MatchK(alu, fin, k, Visit(alu, b, s), a)
      && Find(sel, s, k).Some?
    ensures Lands(alu, fin, Find(sel, s, k).value, b1, a1, id) && Selects(sel, b, Visit(alu, b, s), id)
    decreases s, 0
  {
    hide SInv, Fits, Moves, Grows, Visit, MatchK, Lands, Selects, GenStmt, WhileBody, WhileEnd, DoBody, DoEnd,
      ForBody, ForEnd, EmitBlock, Live, SwSame, SelectsNone, Starts;
    match s
    case Seq(x, y) => b1, a1, id := FoundSeq(alu, fin, sel, b, s, k, a);
    case If(_, _, _) => b1, a1, id := FoundIf(alu, fin, sel, b, s, k, a);
    case Switch(c, body) => b1, a1, id := FoundSwitch(alu, fin, sel, b, s, k, a);
    case While(c, body) =>
      LoopSw(alu, b, s);
      KontLoop(alu, fin, b, s, k, a);
      b1, a1, id := FoundLoop(alu, fin, sel, b, WhileBody(alu, b, c), body, KWhile(c, body, k),
        Visit(alu, b, s), ALoop(b, a));
    case DoWhile(body, c) =>
      LoopSw(alu, b, s);
      KontLoop(alu, fin, b, s, k, a);
      b1, a1, id := FoundLoop(alu, fin, sel, b, DoBody(b), body, KDo(body, c, k), Visit(alu, b, s), ALoop(b, a));
    case For(init, c, i, body) =>
      var b0 := ForInit(alu, b, init);
      LoopSw(alu, b, s);
      KontFor(alu, fin, b0, c, i, body, k, a);
      b1, a1, id := FoundLoop(alu, fin, sel, b, ForBody(alu, b0, c, i), body, KFor(c, i, body, k),
        Visit(alu, b, s), ALoop(b0, a));
    case Label(l, s1) =>
      LabelFrame(alu, b, l, s1);
      var b2 := EmitBlock(b, Lbl(l));
      EnterSw(b, Lbl(l));
      NoneSame(sel, b, b2);
      if sel == SLabel(l) {
        b1, a1, id := b2, a, Lbl(l);
        PlacedStarts(b, Lbl(l));
        LandsIntro(alu, fin, s1, k, b1, a1, id);
        LabelSelects(l, b, Visit(alu, b, s));
      } else {
        b1, a1, id := Found(alu, fin, sel, b2, s1, k, a);
        SelectsLater(sel, b, b2, GenStmt(alu, b2, s1), id);
      }
    case Case(lo, hi, s1) => b1, a1, id := FoundCase(alu, fin, sel, b, s, k, a);
    case Default(s1) =>
      DefaultFrame(alu, b, s1);
      var b2 := EmitBlock(b, b.sw.value.dflt);
      EnterSw(b, b.sw.value.dflt);
      NoneSame(sel, b, b2);
      if sel == SDefault {
        b1, a1, id := b2, a, b.sw.value.dflt;
        PlacedStarts(b, b.sw.value.dflt);
        LandsIntro(alu, fin, s1, k, b1, a1, id);
        DefaultSelects(b, Visit(alu, b, s));
      } else {
        b1, a1, id := Found(alu, fin, sel, b2, s1, k, a);
        SelectsLater(sel, b, b2, GenStmt(alu, b2, s1), id);
      }
    case _ => assert false;
  }

  lemma LabelSelects(l: nat, b: Builder, b1: Builder)
    ensures Selects(SLabel(l), b, b1, Lbl(l))
  {
  }

  lemma DefaultSelects(b: Builder, b1: Builder)
    requires b.sw.Some?
    ensures Selects(SDefault, b, b1, b.sw.value.dflt)
  {
  }

  lemma KontLoop(alu: Alu, fin: Builder, b: Builder, s: Stmt, k: Kont, a: Anno)
    requires s.While? || s.DoWhile?
    requires SInv(b) && Live(b) && Fits(alu, b, s) && MatchK(alu, fin, k, Visit(alu, b, s), a)
    ensures s.While? ==> MatchK(alu, fin, KWhile(s.c, s.body, k),
      GenStmt(alu, WhileBody(alu, b, s.c), s.body), ALoop(b, a))
    ensures s.DoWhile? ==> MatchK(alu, fin, KDo(s.body, s.c, k), GenStmt(alu, DoBody(b), s.body), ALoop(b, a))
  {
    hide SInv, Fits, Moves, Ext, GenStmt, Visit, WhileBody, WhileEnd, DoBody, DoEnd, Starts, Live,
      Targets, Shape, GenBool;
    LoopParts(alu, b, s);
    if s.While? { WhileExt(alu, b, s.c, s.body); } else { DoExt(alu, b, s.c, s.body); }
  }

  lemma KontFor(alu: Alu, fin: Builder, b: Builder, c: Option<Expr>, i: Option<Expr>, body: Stmt, k: Kont, a: Anno)
    requires SInv(b) && Live(b) && Fits(alu, b, For(None, c, i, body))
    requires MatchK(alu, fin, k, ForEnd(alu, b, c, i, GenStmt(alu, ForBody(alu, b, c, i), body)), a)
    ensures MatchK(alu, fin, KFor(c, i, body, k), GenStmt(alu, ForBody(alu, b, c, i), body), ALoop(b, a))
  {
    hide SInv, Fits, Moves, Ext, GenStmt, ForEnd, ForBody, ForInc, ForLast, Starts, Live, GenExpr, EmitBranch;
    ForExt(alu, b, c, i, body);
  }

  lemma {:induction false} FoundLoop(alu: Alu, fin: Builder, sel: Selector, b: Builder, b0: Builder, body: Stmt,
    k: Kont, b3: Builder, a: Anno)
    returns (b1: Builder, a1: Anno, id: BlockId)
    requires LoopSwOK(alu, b, b0, body, b3) && Find(sel, body, k).Some?
      && MatchK(alu, fin, k, GenStmt(alu, b0, body), a)
    ensures Lands(alu, fin, Find(sel, body, k).value, b1, a1, id) && Selects(sel, b, b3, id)
    decreases body, 2
  {
    hide SInv, Fits, Lands, MatchK, GenStmt;
    b1, a1, id := Found(alu, fin, sel, b0, body, k, a);
  }

  lemma {:induction false} FoundSeq(alu: Alu, fin: Builder, sel: Selector, b: Builder, s: Stmt, k: Kont, a: Anno)
    returns (b1: Builder, a1: Anno, id: BlockId)
    requires s.Seq? && SInv(b) && Fits(alu, b, s) && MatchK(alu, fin, k, Visit(alu, b, s), a) && Find(sel, s, k).Some?
    ensures Lands(alu, fin, Find(sel, s, k).value, b1, a1, id) && Selects(sel, b, Visit(alu, b, s), id)
    decreases s, 0, 0
  {
    hide SInv, Fits, Moves, Lands, Selects, GenStmt, Visit, SelectsNone, SwSame, MatchK;
    var x, y := s.hd, s.tl;
    SeqFrame(alu, b, x, y);
    var b2 := GenStmt(alu, b, x);
    KontSeq(alu, fin, b2, y, k, a);
    if Find(sel, x, KSeq(y, k)).Some? {
      b1, a1, id := Found(alu, fin, sel, b, x, KSeq(y, k), AOn(a));
      MovesSw(b2, GenStmt(alu, b2, y), Labels(y), HasDefault(y));
      SelectsNow(sel, b, b2, GenStmt(alu, b2, y), id);
    } else {
      NotFound(alu, sel, b, x, KSeq(y, k));
      b1, a1, id := Found(alu, fin, sel, b2, y, k, a);
      SelectsLater(sel, b, b2, GenStmt(alu, b2, y), id);
    }
  }

  lemma MovesSw(b: Builder, b1: Builder, ls: set<nat>, d: bool)
    requires Moves(b, b1, ls, d)
    ensures SwSame(b, b1)
  {
  }

  lemma KontSeq(alu: Alu, fin: Builder, b: Builder, s: Stmt, k: Kont, a: Anno)
    requires SInv(b) && Fits(alu, b, s) && MatchK(alu, fin, k, GenStmt(alu, b, s), a)
    ensures MatchK(alu, fin, KSeq(s, k), b, AOn(a))
  {
  }

  lemma {:induction false} FoundCase(alu: Alu, fin: Builder, sel: Selector, b: Builder, s: Stmt, k: Kont, a: Anno)
    returns (b1: Builder, a1: Anno, id: BlockId)
    requires s.Case? && SInv(b) && Fits(alu, b, s) && MatchK(alu, fin, k, Visit(alu, b, s), a) && Find(sel, s, k).Some?
    ensures Lands(alu, fin, Find(sel, s, k).value, b1, a1, id) && Selects(sel, b, Visit(alu, b, s), id)
    decreases s, 0, 0
  {
    hide SInv, Fits, Moves, Lands, Selects, GenStmt, Visit, SelectsNone, SwSame, MatchK, CaseStart;
    CaseFrame(alu, b, s);
    CaseHasSw(alu, b, s);
    var b2 := CaseStart(b, s.lo, s.hi);
    CaseAdvances(b, s.lo, s.hi);
    CaseSelects(sel, b, s.lo, s.hi);
    if sel.SCase? && s.lo <= sel.v <= s.hi {
      b1, a1, id := b2, a, Blk(b.nextBlock);
      LandsIntro(alu, fin, s.s, k, b1, a1, id);
      MovesSw(b2, GenStmt(alu, b2, s.s), Labels(s.s), HasDefault(s.s));
      SelectsNow(sel, b, b2, GenStmt(alu, b2, s.s), id);
    } else {
      b1, a1, id := Found(alu, fin, sel, b2, s.s, k, a);
      SelectsLater(sel, b, b2, GenStmt(alu, b2, s.s), id);
    }
  }

  lemma {:induction false} FoundSwitch(alu: Alu, fin: Builder, sel: Selector, b: Builder, s: Stmt, k: Kont, a: Anno)
    returns (b1: Builder, a1: Anno, id: BlockId)
    requires s.Switch? && SInv(b) && Live(b) && Fits(alu, b, s) && MatchK(alu, fin, k, Visit(alu, b, s), a)
      && Find(sel, s, k).Some?
    ensures Lands(alu, fin, Find(sel, s, k).value, b1, a1, id) && Selects(sel, b, Visit(alu, b, s), id)
    decreases s, 0, 0
  {
    hide SInv, Fits, Moves, Lands, GenStmt, Visit, MatchK, Live;
    SwitchSw(alu, b, s.c, s.body);
    KontSwitch(alu, fin, b, s.c, s.body, k, a);
    b1, a1, id := Found(alu, fin, sel, SwitchBody(alu, b, s.c), s.body, KSwitch(k), ASwitch(b, s.c, s.body, a));
  }

  lemma KontSwitch(alu: Alu, fin: Builder, b: Builder, c: Expr, body: Stmt, k: Kont, a: Anno)
    requires SInv(b) && Live(b) && Fits(alu, b, Switch(c, body))
      && MatchK(alu, fin, k, SwitchEnd(alu, b, c, GenStmt(alu, SwitchBody(alu, b, c), body)), a)
    ensures MatchK(alu, fin, KSwitch(k), GenStmt(alu, SwitchBody(alu, b, c), body), ASwitch(b, c, body, a))
  {
    hide SInv, Fits, Ext, GenStmt, SwitchBody, SwitchEnd, SwitchClosed, SwitchTerm, GenExpr, Starts, Live;
    SwitchExt(alu, b, c, body);
  }

  /** After the then branch of an if, and after its else branch. */
  lemma KontIf(alu: Alu, fin: Builder, b: Builder, s: Stmt, k: Kont, a: Anno)
    requires s.If? && SInv(b) && Live(b) && Fits(alu, b, s)
    requires MatchK(alu, fin, k, IfEnd(b, IfElseEnd(alu, b, s), s.els.Some?), a)
    ensures var end, b2, b4 := Blk(b.nextBlock + 1), IfThenEnd(alu, b, s), IfElseEnd(alu, b, s);
      var b5 := IfEnd(b, b4, s.els.Some?);
      && MatchK(alu, fin, k, b2, AJoin(end, b5, a)) && MatchK(alu, fin, k, b4, AJoin(end, b5, a))
      && ((exists x :: x in b4.plain && end in Targets(b4.plain[x])) ==> Starts(b5, end))
  {
    hide *;
    var n, e, end, b2, b3, b4 := b.nextBlock, s.els.Some?, Blk(b.nextBlock + 1), IfThenEnd(alu, b, s),
      IfElseStart(alu, b, s), IfElseEnd(alu, b, s);
    var b5 := IfEnd(b, b4, e);
    IfPieces(alu, b, s);
    IfElseIs(b, b4, e);
    IfElseIs(b, b2, e);
    IfParts(alu, b, s);
    BranchExt(b2, end);
    BranchExt(b4, end);
    ExtTrans(EmitBranch(b2, end).plain, b3.plain, b5.plain);
    ExtTrans(b2.plain, EmitBranch(b2, end).plain, b5.plain);
    BranchSInv(b4, end);
    ReBranch(b4, end);
    if x :| x in b4.plain && end in Targets(b4.plain[x]) {
      TargetKept(b4.plain, EmitBranch(b4, end).plain, x, end);
      FinishedUsed(b4, end, x);
      if e { FinishedUsed(EmitBranch(b4, end), end, x); }
    }
    if b2.cur.Some? {
      FallUses(b2, end);
      var x := b2.cur.value;
      TargetKept(EmitBranch(b2, end).plain, b3.plain, x, end);
      TargetKept(b3.plain, b4.plain, x, end);
    }
    if b4.cur.Some? {
      FallUses(b4, end);
      FinishedUsed(b4, end, b4.cur.value);
      if e { FinishedUsed(EmitBranch(b4, end), end, b4.cur.value); }
    }
    KontJoin(alu, fin, k, b2, end, b5, a);
    KontJoin(alu, fin, k, b4, end, b5, a);
  }

  lemma KontJoin(alu: Alu, fin: Builder, k: Kont, b: Builder, end: BlockId, next: Builder, a: Anno)
    requires SInv(b) && MatchK(alu, fin, k, next, a) && b.stack == next.stack && end !in b.plain
      && (b.cur.Some? ==> next.cur.Some?)
    requires (next.cur.Some? ==> Starts(next, end)) && Ext(EmitBranch(b, end).plain, next.plain)
      && Ext(b.plain, next.plain)
    ensures MatchK(alu, fin, k, b, AJoin(end, next, a))
  {
  }

  lemma {:induction false} FoundIf(alu: Alu, fin: Builder, sel: Selector, b: Builder, s: Stmt, k: Kont, a: Anno)
    returns (b1: Builder, a1: Anno, id: BlockId)
    requires s.If? && SInv(b) && Live(b) && Fits(alu, b, s) && MatchK(alu, fin, k, Visit(alu, b, s), a)
      && Find(sel, s, k).Some?
    ensures Lands(alu, fin, Find(sel, s, k).value, b1, a1, id) && Selects(sel, b, Visit(alu, b, s), id)
    decreases s, 0, 0
  {
    hide *;
    IfIs(alu, b, s);
    IfFits(alu, b, s);
    IfFind(sel, s, k);
    IfSkipped(alu, sel, s, k);
    if IfFolds(alu, s) {
      if Calc(alu, s.c).value != 0 { b1, a1, id := Found(alu, fin, sel, b, s.thn, k, a); }
      else { b1, a1, id := Found(alu, fin, sel, b, s.els.value, k, a); }
    } else {
      IfPieces(alu, b, s);
      IfParts(alu, b, s);
      IfSw(alu, b, s);
      KontIf(alu, fin, b, s, k, a);
      var b0, b2, b3, b4 := IfThen(alu, b, s.c, s.els.Some?), IfThenEnd(alu, b, s),
        IfElseStart(alu, b, s), IfElseEnd(alu, b, s);
      var b5 := IfEnd(b, b4, s.els.Some?);
      var aj := AJoin(Blk(b.nextBlock + 1), b5, a);
      NoneSame(sel, b, b0);
      NoneSame(sel, b2, b3);
      NoneSame(sel, b3, b3);
      NoneSame(sel, b4, b5);
      if s.els.Some? { MovesSw(b3, b4, Labels(s.els.value), HasDefault(s.els.value)); }
      if Find(sel, s.thn, k).Some? {
        b1, a1, id := Found(alu, fin, sel, b0, s.thn, k, aj);
        SelectsLater(sel, b, b0, b2, id);
        SelectsNow(sel, b, b2, b3, id);
        SelectsNow(sel, b, b3, b4, id);
        SelectsNow(sel, b, b4, b5, id);
      } else {
        NotFound(alu, sel, b0, s.thn, k);
        NoneTrans(sel, b, b0, b2);
        NoneTrans(sel, b, b2, b3);
        b1, a1, id := Found(alu, fin, sel, b3, s.els.value, k, aj);
        SelectsLater(sel, b, b3, b4, id);
        SelectsNow(sel, b, b4, b5, id);
      }
    }
  }

  /** The branch that a folded if drops has no label. */
  lemma IfSkipped(alu: Alu, sel: Selector, s: Stmt, k: Kont)
    requires s.If? && Find(sel, s, k).Some?
    ensures IfFolds(alu, s) && Calc(alu, s.c).value != 0
      ==> Find(sel, s.thn, k).Some? && Find(sel, s, k) == Find(sel, s.thn, k)
    ensures IfFolds(alu, s) && Calc(alu, s.c).value == 0
      ==> s.els.Some? && Find(sel, s.els.value, k).Some? && Find(sel, s, k) == Find(sel, s.els.value, k)
  {
    if IfFolds(alu, s) {
      if Calc(alu, s.c).value != 0 { if s.els.Some? { NoLabelNoEntry(sel, s.els.value, k); } }
      else { NoLabelNoEntry(sel, s.thn, k); }
    }
  }
}
