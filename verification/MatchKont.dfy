/** How what remains to be done in the source corresponds to the code emitted after some point. */
module MatchKont {
  import opened Common
  import opened Source
  import opened Graph
  import opened Builder
  import opened CodeGen
  import opened Frames
  import opened FrameExpr
  import opened SimExpr
  import opened Static
  import opened FrameStmt
  import opened FrameLoops
  import opened FrameAll

  /** The emitter states between the point in hand and the end of the function: one per frame of
      the continuation, and one per place where branches meet again. */
  datatype Anno =
    | AEnd
    | AOn(rest: Anno)
    | AJoin(end: BlockId, next: Builder, rest: Anno)
    | ALoop(b0: Builder, rest: Anno)
    | ASwitch(b0: Builder, c: Expr, body: Stmt, rest: Anno)

  /** Continuation `k` is what the code emitted after state `b` does, up to state `fin`. */
  ghost predicate MatchK(alu: Alu, fin: Builder, k: Kont, b: Builder, a: Anno)
    decreases a
  {
    && SInv(b)
    && match a
       case AEnd => k.KStop? && b == fin
       case AOn(rest) => k.KSeq? && Fits(alu, b, k.s) && MatchK(alu, fin, k.k, GenStmt(alu, b, k.s), rest)
       case AJoin(end, next, rest) =>
         && b.stack == next.stack && end !in b.plain && (b.cur.Some? ==> next.cur.Some?)
           && (next.cur.Some? ==> Starts(next, end))
         && Ext(EmitBranch(b, end).plain, next.plain) && Ext(b.plain, next.plain) && MatchK(alu, fin, k, next, rest)
       case ALoop(b0, rest) =>
         && SInv(b0) && Live(b0)
         && (match k
             case KWhile(c, body, k1) =>
               && Fits(alu, b0, While(c, body)) && b == GenStmt(alu, WhileBody(alu, b0, c), body)
               && MatchK(alu, fin, k1, WhileEnd(alu, b0, c, b), rest)
             case KDo(body, c, k1) =>
               && Fits(alu, b0, DoWhile(body, c)) && b == GenStmt(alu, DoBody(b0), body)
               && MatchK(alu, fin, k1, DoEnd(alu, b0, c, b), rest)
             case KFor(c, i, body, k1) =>
               && Fits(alu, b0, For(None, c, i, body)) && b == GenStmt(alu, ForBody(alu, b0, c, i), body)
               && MatchK(alu, fin, k1, ForEnd(alu, b0, c, i, b), rest)
             case _ => false)
       case ASwitch(b0, c, body, rest) =>
         && SInv(b0) && Live(b0) && k.KSwitch? && Fits(alu, b0, Switch(c, body))
           && b == GenStmt(alu, SwitchBody(alu, b0, c), body)
         && MatchK(alu, fin, k.k, SwitchEnd(alu, b0, c, b), rest)
  }

  lemma WhileExt(alu: Alu, b0: Builder, c: Expr, body: Stmt)
    requires SInv(b0) && Live(b0) && Fits(alu, b0, While(c, body))
    ensures var b := GenStmt(alu, WhileBody(alu, b0, c), body);
      && SInv(b) && Ext(b.plain, WhileEnd(alu, b0, c, b).plain)
      && Ext(EmitBranch(PopFrame(b), Blk(b0.nextBlock)).plain, WhileEnd(alu, b0, c, b).plain)
      && b.stack == b0.stack + [WhileFrame(b0)] && Blk(b0.nextBlock + 2) !in b.plain
      && ((exists x :: x in b.plain && Blk(b0.nextBlock + 2) in Targets(b.plain[x]))
        ==> Starts(WhileEnd(alu, b0, c, b), Blk(b0.nextBlock + 2)))
  {
    hide *;
    var b := GenStmt(alu, WhileBody(alu, b0, c), body);
    WhileFrameAll(alu, b0, c, body);
    WhileBodyFrame(alu, b0, c);
    WhileEndFrame(alu, b0, c, b, Labels(body), HasDefault(body));
    InsideStack(b0, WhileBody(alu, b0, c), WhileFrame(b0), b, Labels(body), HasDefault(body));
    LoopTailExt(b, Blk(b0.nextBlock));
    ExtTrans(b.plain, EmitBranch(PopFrame(b), Blk(b0.nextBlock)).plain, WhileEnd(alu, b0, c, b).plain);
    if x :| x in b.plain && Blk(b0.nextBlock + 2) in Targets(b.plain[x]) {
      WhileUsed(alu, b0, c, b, x);
    }
  }

  lemma InsideStack(b: Builder, b1: Builder, f: Frame, b2: Builder, ls: set<nat>, d: bool)
    requires Inside(b, b1, f) && Moves(b1, b2, ls, d)
    ensures b2.stack == b.stack + [f]
  {
  }

  lemma LoopTailExt(b: Builder, to: BlockId)
    ensures Ext(b.plain, EmitBranch(PopFrame(b), to).plain) && EmitBranch(PopFrame(b), to).plain.Keys == b.plain.Keys
  {
  }

  /** A block that somebody branches to is emitted. */
  lemma FinishedUsed(b: Builder, end: BlockId, x: BlockId)
    requires SInv(b) && end !in b.plain && x in EmitBranch(b, end).plain && end in Targets(EmitBranch(b, end).plain[x])
    ensures EmitFinished(b, end).cur == Some(end)
  {
    EmitBranchGrows(b, end);
    EarlyPred(EmitBranch(b, end), end, x);
  }

  lemma TargetKept(g: Graph, g1: Graph, x: BlockId, end: BlockId)
    requires Ext(g, g1) && x in g && end in Targets(g[x])
    ensures x in g1 && end in Targets(g1[x])
  {
    assert Extends(g[x], g1[x]);
  }

  lemma FallUses(b: Builder, end: BlockId)
    requires SInv(b) && b.cur.Some?
    ensures var g := EmitBranch(b, end).plain; b.cur.value in g && end in Targets(g[b.cur.value])
  {
  }

  lemma WhileUsed(alu: Alu, b0: Builder, c: Expr, b: Builder, x: BlockId)
    requires SInv(b) && x in b.plain && Blk(b0.nextBlock + 2) in Targets(b.plain[x])
      && Blk(b0.nextBlock + 2) !in b.plain
    requires var b3 := WhileEnd(alu, b0, c, b); b3.cur.Some? ==> Starts(b3, Blk(b0.nextBlock + 2))
    ensures Starts(WhileEnd(alu, b0, c, b), Blk(b0.nextBlock + 2))
  {
    hide *;
    var end, b1 := Blk(b0.nextBlock + 2), EmitBranch(PopFrame(b), Blk(b0.nextBlock));
    LoopTailExt(b, Blk(b0.nextBlock));
    TargetKept(b.plain, b1.plain, x, end);
    TailSInv(b, Blk(b0.nextBlock));
    ReBranch(b1, end);
    FinishedUsed(b1, end, x);
    WhileEndIs(alu, b0, c, b);
    SimplifyCur(EmitFinished(b1, end), Blk(b0.nextBlock));
  }

  lemma TailSInv(b: Builder, to: BlockId)
    requires SInv(b)
    ensures SInv(EmitBranch(PopFrame(b), to))
  {
    PopSInv(b);
    EmitBranchGrows(PopFrame(b), to);
  }

  lemma ReBranch(b: Builder, to: BlockId)
    ensures b.cur.None? ==> EmitBranch(b, to) == b
    ensures forall c, id: BlockId :: EmitBranch(EmitBranch(c, id), to) == EmitBranch(c, id)
  {
  }

  lemma SimplifyCur(b: Builder, id: BlockId)
    ensures SimplifyForwarding(b, id).cur == b.cur
  {
  }

  lemma DoExt(alu: Alu, b0: Builder, c: Expr, body: Stmt)
    requires SInv(b0) && Live(b0) && Fits(alu, b0, DoWhile(body, c))
    ensures var b := GenStmt(alu, DoBody(b0), body);
      && SInv(b) && Ext(b.plain, DoEnd(alu, b0, c, b).plain)
        && Ext(DoTested(alu, b0, c, b).plain, DoEnd(alu, b0, c, b).plain)
      && Ext(EmitBlock(DoTested(alu, b0, c, b), Blk(b0.nextBlock + 2)).plain, DoEnd(alu, b0, c, b).plain)
      && b.stack == b0.stack + [DoFrame(b0)] && Starts(DoEnd(alu, b0, c, b), Blk(b0.nextBlock + 2))
      && Blk(b0.nextBlock + 1) !in b.plain && SInv(PopFrame(b))
      && Inv(DoCond(b0, b)) && Live(DoCond(b0, b)) && Starts(DoCond(b0, b), Blk(b0.nextBlock + 1))
        && Ext(DoCond(b0, b).plain, DoEnd(alu, b0, c, b).plain)
      && DoTest(alu, b0, c, b) == GenBool(alu, DoCond(b0, b), c)
        && Ext(DoTest(alu, b0, c, b).b.plain, DoEnd(alu, b0, c, b).plain)
      && Live(DoTest(alu, b0, c, b).b) && ValOK(alu, c) && Blk(b0.nextBlock + 2) !in DoTest(alu, b0, c, b).b.plain
      && SInv(DoEnd(alu, b0, c, b))
  {
    hide *;
    var n, b := b0.nextBlock, GenStmt(alu, DoBody(b0), body);
    DoFrameAll(alu, b0, body, c);
    DoBodyFrame(b0);
    DoTestFrame(alu, b0, c, b, Labels(body), HasDefault(body));
    DoEndFrame(alu, b0, c, b, Labels(body), HasDefault(body));
    InsideStack(b0, DoBody(b0), DoFrame(b0), b, Labels(body), HasDefault(body));
    DoTestIs(alu, b0, c, b);
    var x, b4 := DoTest(alu, b0, c, b), DoCond(b0, b);
    AfterExprFacts(b4, x);
    SInvInv(b4);
    DoTestedIs(alu, b0, c, b);
    ExtRefl(x.b.plain);
    TestedGrows(b4, x, CondBr(x.v, Blk(n), Blk(n + 2)), Blk(n + 2));
    GrowsExt(x.b, Terminate(x.b, CondBr(x.v, Blk(n), Blk(n + 2))));
    var g := DoEnd(alu, b0, c, b).plain;
    ExtTrans(x.b.plain, DoTested(alu, b0, c, b).plain, g);
    ExtTrans(b4.plain, x.b.plain, g);
    PopPlace(b, Blk(n + 1));
    ExtTrans(b.plain, b4.plain, g);
  }

  lemma PopPlace(b: Builder, id: BlockId)
    requires id !in b.plain
    ensures Ext(b.plain, EmitBlock(PopFrame(b), id).plain)
  {
  }

  lemma ForExt(alu: Alu, b0: Builder, c: Option<Expr>, i: Option<Expr>, body: Stmt)
    requires SInv(b0) && Live(b0) && Fits(alu, b0, For(None, c, i, body))
    ensures var b := GenStmt(alu, ForBody(alu, b0, c, i), body);
      var b3, b4 := ForInc(alu, b0, i, b), ForEnd(alu, b0, c, i, b);
      && SInv(b) && Ext(b.plain, b4.plain) && Ext(b3.plain, b4.plain)
        && Ext(EmitBranch(b3, Blk(b0.nextBlock)).plain, b4.plain) && SInv(b4)
      && b.stack == b0.stack + [ForFrame(b0, i)] && SInv(b3) && Blk(b0.nextBlock + 1) !in b3.plain
        && Blk(b0.nextBlock + 1) !in b.plain
      && (b4.cur.Some? ==> Starts(b4, Blk(b0.nextBlock + 1)))
      && ((exists x :: x in b.plain && Blk(b0.nextBlock + 1) in Targets(b.plain[x]))
        ==> Starts(b4, Blk(b0.nextBlock + 1)))
      && (i.Some? ==>
          Blk(b0.nextBlock + 3) !in b.plain && SInv(ForLast(b0, i, b)) && Live(ForLast(b0, i, b))
            && Starts(ForLast(b0, i, b), Blk(b0.nextBlock + 3))
                      && Ext(ForLast(b0, i, b).plain, b4.plain) && b3 == GenExpr(alu, ForLast(b0, i, b), i.value).b
                        && ValOK(alu, i.value) && Live(b3))
      && (i.None? ==> b3 == PopFrame(b)) && SInv(PopFrame(b)) && (c.Some? ==> BrOK(alu, c.value))
      && Fits(alu, ForBody(alu, b0, c, i), body) && SInv(ForBody(alu, b0, c, i))
        && Moves(ForBody(alu, b0, c, i), b, Labels(body), HasDefault(body))
  {
    hide *;
    var n, b := b0.nextBlock, GenStmt(alu, ForBody(alu, b0, c, i), body);
    var b3, b4 := ForInc(alu, b0, i, b), ForEnd(alu, b0, c, i, b);
    var s := For(None, c, i, body);
    ForParts(alu, b0, c, i, body);
    ForFrameAll(alu, b0, s);
    ForBodyFrame(alu, b0, c, i);
    InsideSInv(b0, ForBody(alu, b0, c, i), ForFrame(b0, i));
    StmtFrame(alu, ForBody(alu, b0, c, i), body);
    ForIncFrame(alu, b0, c, i, b, Labels(body), HasDefault(body));
    ForEndFrame(alu, b0, c, i, b, Labels(body), HasDefault(body));
    InsideStack(b0, ForBody(alu, b0, c, i), ForFrame(b0, i), b, Labels(body), HasDefault(body));
    BodyFresh(b0, ForBody(alu, b0, c, i), ForFrame(b0, i), b, Labels(body), HasDefault(body), Blk(n + 1));
    if i.Some? {
      PopPlace(b, Blk(n + 3));
      ForIncIs(alu, b0, i, b);
      ExtTrans(b.plain, ForLast(b0, i, b).plain, b3.plain);
      ExtTrans(ForLast(b0, i, b).plain, b3.plain, b4.plain);
    } else { PopPlain(b); ExtRefl(b.plain); }
    ExtTrans(b.plain, b3.plain, b4.plain);
    if x :| x in b.plain && Blk(n + 1) in Targets(b.plain[x]) {
      BranchExt(b3, Blk(n));
      TargetKept(b.plain, b3.plain, x, Blk(n + 1));
      TargetKept(b3.plain, EmitBranch(b3, Blk(n)).plain, x, Blk(n + 1));
      BranchSInv(b3, Blk(n));
      ReBranch(b3, Blk(n + 1));
      ForEndIs(alu, b0, c, i, b);
      FinishedUsed(EmitBranch(b3, Blk(n)), Blk(n + 1), x);
    }
  }

  lemma PopPlain(b: Builder)
    ensures PopFrame(b).plain == b.plain
  {
  }

  lemma BranchExt(b: Builder, to: BlockId)
    ensures Ext(b.plain, EmitBranch(b, to).plain) && EmitBranch(b, to).plain.Keys == b.plain.Keys
  {
  }

  lemma BranchSInv(b: Builder, to: BlockId)
    requires SInv(b)
    ensures SInv(EmitBranch(b, to))
  {
    EmitBranchGrows(b, to);
  }

  lemma ForParts(alu: Alu, b: Builder, c: Option<Expr>, i: Option<Expr>, body: Stmt)
    requires Fits(alu, b, For(None, c, i, body))
    ensures (c.Some? ==> BrOK(alu, c.value)) && (i.Some? ==> ValOK(alu, i.value)) && For(None, c, i, body).For?
      && ForInit(alu, b, None) == b
    ensures Labels(For(None, c, i, body)) == Labels(body) && HasDefault(For(None, c, i, body)) == HasDefault(body)
  {
  }

  lemma SwitchExt(alu: Alu, b0: Builder, c: Expr, body: Stmt)
    requires SInv(b0) && Live(b0) && Fits(alu, b0, Switch(c, body))
    ensures var b, x := GenStmt(alu, SwitchBody(alu, b0, c), body), GenExpr(alu, b0, c);
      var b3, b4, end := SwitchClosed(alu, b0, c, b), SwitchEnd(alu, b0, c, b), Blk(x.b.nextBlock + 1);
      && SInv(b) && SInv(b3) && SInv(b4) && Ext(b.plain, b3.plain) && Ext(b3.plain, b4.plain)
        && Ext(b.plain, b4.plain) && Ext(EmitBranch(b3, end).plain, b4.plain)
      && b3.cur == b.cur && b.stack == b0.stack + [Frame(end, TopCont(b0))] && end !in b3.plain && end !in b.plain
        && b3.plain.Keys == b.plain.Keys
      && (b4.cur.Some? ==> Starts(b4, end))
      && ((exists y :: y in b3.plain && end in Targets(b3.plain[y])) ==> Starts(b4, end))
      && (b.cur.Some? ==> Starts(b4, end)) && b4.stack == b0.stack
  {
    hide *;
    var b, x := GenStmt(alu, SwitchBody(alu, b0, c), body), GenExpr(alu, b0, c);
    var b3, b4, end := SwitchClosed(alu, b0, c, b), SwitchEnd(alu, b0, c, b), Blk(x.b.nextBlock + 1);
    SwitchFrame(alu, b0, c, body);
    SwitchBlockKept(alu, b0, c, b, Labels(body), HasDefault(body));
    SwitchClosedFrame(alu, b0, c, b, Labels(body), HasDefault(body));
    SwitchEndFrame(alu, b0, c, b, Labels(body), HasDefault(body));
    MovesExt(b0, b4, Labels(body), false);
    ExtTrans(b.plain, b3.plain, b4.plain);
    SwCur(EmitFinished(b3, end), b0.sw);
    BranchExt(b3, end);
    if y :| y in b3.plain && end in Targets(b3.plain[y]) {
      TargetKept(b3.plain, EmitBranch(b3, end).plain, y, end);
      FinishedUsed(b3, end, y);
    }
    if b.cur.Some? {
      FallUses(b3, end);
      FinishedUsed(b3, end, b3.cur.value);
    }
  }

  lemma SwCur(b: Builder, sw: Option<OpenSwitch>)
    ensures b.(sw := sw).cur == b.cur
  {
  }

  /** Everything emitted before the point is in the final graph. */
  lemma {:induction false} MatchKExt(alu: Alu, fin: Builder, g: Graph, k: Kont, b: Builder, a: Anno)
    requires MatchK(alu, fin, k, b, a) && Ext(fin.plain, g)
    ensures Ext(b.plain, g) && SInv(b)
    decreases a
  {
    match a
    case AEnd =>
    case AOn(rest) =>
      hide Moves, Ext, SInv;
      StmtFrame(alu, b, k.s);
      MatchKExt(alu, fin, g, k.k, GenStmt(alu, b, k.s), rest);
      MovesExt(b, GenStmt(alu, b, k.s), Labels(k.s), HasDefault(k.s));
      ExtTrans(b.plain, GenStmt(alu, b, k.s).plain, g);
    case AJoin(end, next, rest) =>
      hide Ext, SInv;
      MatchKExt(alu, fin, g, k, next, rest);
      ExtTrans(b.plain, next.plain, g);
    case ALoop(b0, rest) =>
      hide Ext, SInv;
      if k.KWhile? {
        WhileExt(alu, b0, k.c, k.body);
        MatchKExt(alu, fin, g, k.k, WhileEnd(alu, b0, k.c, b), rest);
        ExtTrans(b.plain, WhileEnd(alu, b0, k.c, b).plain, g);
      } else if k.KDo? {
        DoExt(alu, b0, k.c, k.body);
        MatchKExt(alu, fin, g, k.k, DoEnd(alu, b0, k.c, b), rest);
        ExtTrans(b.plain, DoEnd(alu, b0, k.c, b).plain, g);
      } else {
        ForExt(alu, b0, k.cond, k.inc, k.body);
        MatchKExt(alu, fin, g, k.k, ForEnd(alu, b0, k.cond, k.inc, b), rest);
        ExtTrans(b.plain, ForEnd(alu, b0, k.cond, k.inc, b).plain, g);
      }
    case ASwitch(b0, c, body, rest) =>
      hide Ext, SInv;
      SwitchExt(alu, b0, c, body);
      MatchKExt(alu, fin, g, k.k, SwitchEnd(alu, b0, c, b), rest);
      ExtTrans(b.plain, SwitchEnd(alu, b0, c, b).plain, g);
  }
}
