/** Statements keep the graph well formed. */
module WellFormedStmt {
  import opened Common
  import opened Source
  import opened Graph
  import opened Builder
  import opened CodeGen
  import opened Frames
  import opened FrameExpr
  import opened SimExpr
  import opened Static
  import opened FrameStmt
  import opened FrameLoops
  import opened FrameAll
  import opened MatchKont
  import opened Jumps
  import opened FindLabel
  import opened StmtSim
  import opened Resolve
  import opened Settled
  import opened WellFormedExpr

  predicate OnStack(stack: seq<Frame>, y: BlockId) {
    exists i :: 0 <= i < |stack| && (stack[i].brk == y || stack[i].cont == Some(y)) }

  /** The blocks that break and continue lead to are there, or will be. */
  ghost predicate StackReady(b: Builder, p: Plan) { forall y :: OnStack(b.stack, y) ==> Outside(b, p, y) }

  predicate CaseReady(b: Builder, y: BlockId) { y in b.plain && b.plain[y].phi.None? }

  /** The default block of the open switch is still to come, and nothing branches to it, or it is
      there; so are the blocks of its cases. */
  ghost predicate SwReady(b: Builder, p: Plan) {
    b.sw.Some? ==>
      && var d := b.sw.value.dflt;
      && (if d in p.due then Preds(b.plain, d) == {} && !OnStack(b.stack, d) else CaseReady(b, d))
      && forall j :: 0 <= j < |b.sw.value.cases| ==> CaseReady(b, b.sw.value.cases[j].1)
  }

  ghost predicate Ready(b: Builder, p: Plan) { Formed(b, p) && StackReady(b, p) && SwReady(b, p) }

  /** `y` is not the default block that is still to come. */
  predicate NotDefault(b: Builder, p: Plan, y: BlockId) {
    b.sw.Some? && b.sw.value.dflt in p.due ==> y != b.sw.value.dflt }

  /** Nothing that Ready looks at has got worse. */
  lemma ReadyLater(b: Builder, b1: Builder, p: Plan, p1: Plan)
    requires Ready(b, p) && Formed(b1, p1) && Ext(b.plain, b1.plain) && b1.stack == b.stack && b1.sw == b.sw
      && p1.labels == p.labels
    requires forall y :: y in p.due && OnStack(b.stack, y) ==> y in p1.due || CaseReady(b1, y)
    requires b.sw.Some? && b.sw.value.dflt in p.due ==>
      if b.sw.value.dflt in p1.due then Preds(b1.plain, b.sw.value.dflt) == Preds(b.plain, b.sw.value.dflt)
        else CaseReady(b1, b.sw.value.dflt)
    requires forall y :: y in p1.due && y !in p.due ==> y.Blk? && y.n >= b.nextBlock
    requires b.sw.Some? ==> b.sw.value.dflt.Blk? && b.sw.value.dflt.n < b.nextBlock
    ensures Ready(b1, p1)
  {
    forall y | OnStack(b1.stack, y) ensures Outside(b1, p1, y) {
      assert Outside(b, p, y);
      if y in b.plain { assert Extends(b.plain[y], b1.plain[y]); }
      else if y in b1.plain { assert BlockOK(b1, p1, y); }
    }
    if b.sw.Some? {
      forall j | 0 <= j < |b.sw.value.cases| ensures CaseReady(b1, b.sw.value.cases[j].1) {
        assert CaseReady(b, b.sw.value.cases[j].1);
        assert Extends(b.plain[b.sw.value.cases[j].1], b1.plain[b.sw.value.cases[j].1]);
      }
      var d := b.sw.value.dflt;
      if d !in p.due { assert Extends(b.plain[d], b1.plain[d]); }
    }
  }

  lemma SInvSw(b: Builder)
    requires SInv(b)
    ensures b.sw.Some? ==> b.sw.value.dflt.Blk? && b.sw.value.dflt.n < b.nextBlock
  {
  }

  /** The switch around is known. */
  predicate SwOld(b: Builder) { b.sw.Some? ==> b.sw.value.dflt.Blk? && b.sw.value.dflt.n < b.nextBlock }

  lemma ReadyParts(b: Builder, p: Plan)
    requires Ready(b, p)
    ensures Formed(b, p) && StackReady(b, p) && SwReady(b, p)
  {
  }

  lemma ReadyBranch(b: Builder, to: BlockId, p: Plan)
    requires Ready(b, p) && SwOld(b) && (Open(b) || b.cur.None?) && Branchable(b, p, to) && NotDefault(b, p, to)
    ensures var b1 := EmitBranch(b, to); Ready(b1, p) && SamePreds(b.plain, b1.plain, p.due - {to}) && b1.cur.None?
  {
    hide Preds, Formed, Branchable;
    var b1 := EmitBranch(b, to);
    forall y | y in p.due - {to} ensures Preds(b1.plain, y) == Preds(b.plain, y) { EmitBranchFormed(b, to, p, y); }
    EmitBranchFormed(b, to, p, to);
    BranchExtends(b, to);
    ReadyLater(b, b1, p, p);
  }

  lemma BranchExtends(b: Builder, to: BlockId)
    ensures Ext(b.plain, EmitBranch(b, to).plain) && EmitBranch(b, to).stack == b.stack
      && EmitBranch(b, to).sw == b.sw && EmitBranch(b, to).nextBlock == b.nextBlock
    ensures EmitBranch(b, to).plain.Keys == b.plain.Keys
  {
  }

  lemma ReadyBlock(b: Builder, id: BlockId, p: Plan)
    requires Ready(b, p) && SwOld(b) && (Open(b) || b.cur.None?) && Expected(p, id) && !id.RetBlk? && id !in b.plain
    ensures var b1 := EmitBlock(b, id);
      Ready(b1, Placed(p, id)) && SamePreds(b.plain, b1.plain, p.due - {id}) && SwOld(b1) && CaseReady(b1, id)
    ensures var b1 := EmitBlock(b, id);
      Ext(b.plain, b1.plain) && b1.stack == b.stack && b1.sw == b.sw && b1.nextBlock == b.nextBlock && Live(b1)
  {
    hide Preds, Formed;
    var b1 := EmitBlock(b, id);
    forall y | y in p.due - {id} ensures Preds(b1.plain, y) == Preds(b.plain, y) { BlockFormed(b, id, p, y); }
    BlockFormed(b, id, p, id);
    BlockExtends(b, id);
    ReadyLater(b, b1, p, Placed(p, id));
  }

  lemma BlockExtends(b: Builder, id: BlockId)
    requires id !in b.plain
    ensures var b1 := EmitBlock(b, id);
      Ext(b.plain, b1.plain) && b1.stack == b.stack && b1.sw == b.sw && b1.nextBlock == b.nextBlock
      && CaseReady(b1, id) && Live(b1)
  {
  }

  lemma ReadyNew(b: Builder, n: nat, p: Plan)
    requires Ready(b, p) && SwOld(b) && Bounded(b)
    ensures Ready(NewBlocks(b, n), Also(p, NewIds(b, n))) && SwOld(NewBlocks(b, n))
  {
    hide Preds, Formed;
    NewFormed(b, n, p, RetBlk);
    ReadyLater(b, NewBlocks(b, n), p, Also(p, NewIds(b, n)));
  }

  lemma ReadyTerm(b: Builder, t: Term, p: Plan)
    requires Ready(b, p) && SwOld(b) && Live(b) && !t.Ret? && forall y ::
        y in TermTargets(t) ==> Branchable(b, p, y) && NotDefault(b, p, y)
    ensures var b1 := Terminate(b, t);
      Ready(b1, p) && SamePreds(b.plain, b1.plain, p.due - TermTargets(t)) && Open(b1) && SwOld(b1)
  {
    hide Preds, Formed, Branchable;
    var b1 := Terminate(b, t);
    forall y | y in p.due - TermTargets(t)
      ensures Preds(b1.plain, y) == Preds(b.plain, y) { TerminateFormed(b, t, p, y); }
    TerminateFormed(b, t, p, RetBlk);
    ReadyLater(b, b1, p, p);
  }

  lemma ReadyKeeps(b: Builder, b1: Builder, p: Plan, except: set<BlockId>)
    requires Ready(b, p) && SwOld(b) && Keeps(b, b1, p, except) && Grows(b, b1) && forall y ::
        y in except ==> NotDefault(b, p, y)
    ensures Ready(b1, p) && SamePreds(b.plain, b1.plain, p.due - except) && SwOld(b1)
  {
    hide Preds, Formed;
    GrowsExt(b, b1);
    ReadyLater(b, b1, p, p);
  }

  lemma ReadyExpr(alu: Alu, b: Builder, e: Expr, p: Plan)
    requires Ready(b, p) && SwOld(b) && Inv(b) && Live(b)
    ensures var b1 := GenExpr(alu, b, e).b;
      Ready(b1, p) && SamePreds(b.plain, b1.plain, p.due - {}) && SwOld(b1) && Live(b1) && Inv(b1) && Grows(b, b1)
  {
    hide *;
    ReadyParts(b, p);
    ExprFormed(alu, b, e, p);
    ExprFrame(alu, b, e);
    AfterExprFacts(b, GenExpr(alu, b, e));
    ReadyKeeps(b, GenExpr(alu, b, e).b, p, {});
  }

  lemma ReadyBool(alu: Alu, b: Builder, e: Expr, p: Plan)
    requires Ready(b, p) && SwOld(b) && Inv(b) && Live(b)
    ensures var b1 := GenBool(alu, b, e).b;
      Ready(b1, p) && SamePreds(b.plain, b1.plain, p.due - {}) && SwOld(b1) && Live(b1) && Inv(b1) && Grows(b, b1)
  {
    hide *;
    ReadyParts(b, p);
    BoolFormed(alu, b, e, p);
    BoolFrame(alu, b, e);
    AfterExprFacts(b, GenBool(alu, b, e));
    ReadyKeeps(b, GenBool(alu, b, e).b, p, {});
  }

  lemma ReadyCond(alu: Alu, b: Builder, e: Expr, t: BlockId, f: BlockId, p: Plan)
    requires Ready(b, p) && SwOld(b) && Inv(b) && Live(b) && t in p.due && f in p.due
      && NotDefault(b, p, t) && NotDefault(b, p, f)
    ensures var b1 := GenBranch(alu, b, e, t, f);
      Ready(b1, p) && SamePreds(b.plain, b1.plain, p.due - {t, f}) && SwOld(b1) && Open(b1) && Inv(b1) && Grows(b, b1)
  {
    hide Ready, SwOld, Inv, Live, NotDefault, Formed, Keeps, Grows, Outside, Branchable, Expected;
    ReadyParts(b, p);
    DueBranchable(b, p, t);
    DueBranchable(b, p, f);
    BranchFormed(alu, b, e, t, f, p);
    BranchFrame(alu, b, e, t, f);
    AfterBranchFacts(b, GenBranch(alu, b, e, t, f));
    ReadyKeeps(b, GenBranch(alu, b, e, t, f), p, {t, f});
  }

  /** A frame whose blocks are there or will be. */
  lemma ReadyPush(b: Builder, f: Frame, p: Plan)
    requires Ready(b, p) && Outside(b, p, f.brk) && (f.cont.Some? ==> Outside(b, p, f.cont.value))
    requires NotDefault(b, p, f.brk) && (f.cont.Some? ==> NotDefault(b, p, f.cont.value))
    ensures Ready(b.(stack := b.stack + [f]), p)
  {
    hide Preds;
    var b1 := b.(stack := b.stack + [f]);
    FormedSame(b, b1, p);
    forall y ensures OnStack(b1.stack, y) ==> OnStack(b.stack, y) || y == f.brk || f.cont == Some(y) {
      StackSnoc(b.stack, f, y); }
    forall y | OnStack(b1.stack, y) ensures Outside(b1, p, y) { assert Outside(b, p, y); }
    forall j | b.sw.Some? && 0 <= j < |b.sw.value.cases|
      ensures CaseReady(b1, b.sw.value.cases[j].1) { assert CaseReady(b, b.sw.value.cases[j].1); }
  }

  lemma StackSnoc(stack: seq<Frame>, f: Frame, y: BlockId)
    ensures OnStack(stack + [f], y) <==> OnStack(stack, y) || y == f.brk || f.cont == Some(y)
  {
    if OnStack(stack, y) {
      var i :| 0 <= i < |stack| && (stack[i].brk == y || stack[i].cont == Some(y));
      assert (stack + [f])[i] == stack[i];
    }
    assert (stack + [f])[|stack|] == f;
  }

  lemma FormedSame(b: Builder, b1: Builder, p: Plan)
    requires Formed(b, p) && b1.plain == b.plain && b1.cur == b.cur && b1.nextBlock == b.nextBlock
    ensures Formed(b1, p)
  {
    forall x | x in b1.plain ensures BlockOK(b1, p, x) { assert BlockOK(b, p, x); }
  }

  lemma ReadyPop(b: Builder, p: Plan)
    requires Ready(b, p)
    ensures Ready(PopFrame(b), p)
  {
    hide Preds;
    var b1 := PopFrame(b);
    FormedSame(b, b1, p);
    forall y | OnStack(b1.stack, y) ensures OnStack(b.stack, y) {
      var i :| 0 <= i < |b1.stack| && (b1.stack[i].brk == y || b1.stack[i].cont == Some(y));
      assert b.stack[i] == b1.stack[i];
    }
    forall y | OnStack(b1.stack, y) ensures Outside(b1, p, y) { assert Outside(b, p, y); }
    forall j | b.sw.Some? && 0 <= j < |b.sw.value.cases|
      ensures CaseReady(b1, b.sw.value.cases[j].1) { assert CaseReady(b, b.sw.value.cases[j].1); }
  }

  /** A block that is only placed when it is used. */
  lemma ReadyFinished(b: Builder, id: BlockId, p: Plan)
    requires Ready(b, p) && SwOld(b) && SInv(b) && id in p.due && !OnStack(b.stack, id) && NotDefault(b, p, id)
    ensures var b1 := EmitFinished(b, id);
      Ready(b1, Placed(p, id)) && SamePreds(b.plain, b1.plain, p.due - {id}) && SwOld(b1)
  {
    hide Preds, Formed, Inv, Real;
    SInvInv(b);
    SInvOpenOr(b);
    ReadyParts(b, p);
    DueBranchable(b, p, id);
    var b0, b1, p1 := EmitBranch(b, id), EmitFinished(b, id), Placed(p, id);
    BranchExtends(b, id);
    EmitBranchGrows(b, id);
    RealPreds(b0, id);
    EmitBranchFormed(b, id, p, id);
    forall y | y in p.due - {id} ensures Preds(b1.plain, y) == Preds(b.plain, y) {
      EmitBranchFormed(b, id, p, y);
      if Preds(b0.plain, id) != {} { PlaceFormed(b0, id, None, p, y); }
    }
    if Preds(b0.plain, id) == {} { DropFormed(b0, id, p); } else { PlaceFormed(b0, id, None, p, id); }
    FinishedExtends(b, id);
    ReadyLater(b, b1, p, p1);
  }

  lemma SInvOpenOr(b: Builder)
    requires SInv(b)
    ensures Open(b) || b.cur.None?
  {
  }

  lemma FinishedExtends(b: Builder, id: BlockId)
    requires id !in b.plain
    ensures var b1 := EmitFinished(b, id);
      Ext(b.plain, b1.plain) && b1.stack == b.stack && b1.sw == b.sw && b1.nextBlock == b.nextBlock
  {
  }

  /** A block that nobody branches to need not come. */
  lemma DropFormed(b: Builder, id: BlockId, p: Plan)
    requires Formed(b, p) && Preds(b.plain, id) == {}
    ensures Formed(b, Placed(p, id))
  {
    forall x | x in b.plain ensures BlockOK(b, Placed(p, id), x) {
      assert BlockOK(b, p, x);
      assert x !in Preds(b.plain, id);
    }
  }

  /* The result of a statement, and of a part of one. */

  function After(p: Plan, b: Builder, d: bool): Plan { if d && b.sw.Some? then Placed(p, b.sw.value.dflt) else p }

  /** Blocks that a statement does not branch to. */
  function Quiet(b: Builder, p: Plan, d: bool): set<BlockId> {
    set y | y in p.due && !OnStack(b.stack, y) && !(d && b.sw.Some? && y == b.sw.value.dflt)
  }

  predicate SameDefault(x: Option<OpenSwitch>, y: Option<OpenSwitch>) {
    (x.None? <==> y.None?) && (x.Some? ==> x.value.dflt == y.value.dflt) }

  ghost predicate Result(b: Builder, b1: Builder, p: Plan, d: bool) {
    Ready(b1, After(p, b, d)) && SamePreds(b.plain, b1.plain, Quiet(b, p, d))
  }

  /** Between `b` and `b1` lies a part of a statement; the new blocks `own` are still to come. */
  ghost predicate Part(b: Builder, b1: Builder, p: Plan, d: bool, own: set<BlockId>) {
    && Ready(b1, Also(After(p, b, d), own)) && SamePreds(b.plain, b1.plain, Quiet(b, p, d)) && SwOld(b1) && SwOld(b)
      && SameDefault(b.sw, b1.sw)
    && (forall y :: y in own ==> IsNew(b, y)) && Ready(b, p) && Bounded(b)
  }

  predicate IsNew(b: Builder, y: BlockId) { y.Blk? && y.n >= b.nextBlock }

  lemma OldOnes(b: Builder, p: Plan, y: BlockId)
    requires Ready(b, p) && Bounded(b) && IsNew(b, y)
    ensures !OnStack(b.stack, y) && y !in p.due && y !in b.plain
  {
    StackOld(b, p, y);
  }

  lemma StackOld(b: Builder, p: Plan, y: BlockId)
    requires Ready(b, p) && Bounded(b)
    ensures OnStack(b.stack, y) ==> !IsNew(b, y)
  {
    assert OnStack(b.stack, y) ==> Outside(b, p, y);
  }

  lemma PlanIs(b: Builder, p: Plan, d: bool, own: set<BlockId>, id: BlockId)
    requires Ready(b, p) && Bounded(b) && IsNew(b, id) && SwOld(b)
    ensures Placed(Also(After(p, b, d), own), id) == Also(After(p, b, d), own - {id})
    ensures id !in Quiet(b, p, d) && Quiet(b, p, d) <= Also(After(p, b, d), own).due - {id}
    ensures Also(After(p, b, d), {}) == After(p, b, d)
  {
    OldOnes(b, p, id);
    var p1 := After(p, b, d);
    assert (p1.due + own) - {id} == p1.due + (own - {id});
    assert p1.due + {} == p1.due;
  }

  lemma QuietSame(b: Builder, b1: Builder, b2: Builder, p: Plan, d: bool, ys: set<BlockId>)
    requires SamePreds(b.plain, b1.plain, Quiet(b, p, d)) && SamePreds(b1.plain, b2.plain, ys) && Quiet(b, p, d) <= ys
    ensures SamePreds(b.plain, b2.plain, Quiet(b, p, d))
  {
    hide Preds, Quiet;
    SameTrans(b.plain, b1.plain, b2.plain, Quiet(b, p, d), ys);
  }

  lemma PartReady(b: Builder, b1: Builder, p: Plan, d: bool, own: set<BlockId>)
    requires Part(b, b1, p, d, own)
    ensures Ready(b1, Also(After(p, b, d), own)) && SamePreds(b.plain, b1.plain, Quiet(b, p, d)) && SwOld(b1)
      && SwOld(b) && SameDefault(b.sw, b1.sw)
    ensures Ready(b, p) && Bounded(b) && forall y :: y in own ==> IsNew(b, y)
  {
  }

  lemma PartIntro(b: Builder, b1: Builder, b2: Builder, p: Plan, d: bool, own: set<BlockId>,
    own1: set<BlockId>, ys: set<BlockId>)
    requires Part(b, b1, p, d, own) && Ready(b2, Also(After(p, b, d), own1)) && SamePreds(b1.plain, b2.plain, ys)
      && Quiet(b, p, d) <= ys
    requires b2.sw == b1.sw && SwOld(b2) && own1 <= own
    ensures Part(b, b2, p, d, own1)
  {
    hide Ready, SamePreds, Quiet, After;
    QuietSame(b, b1, b2, p, d, ys);
  }

  lemma PartStart(b: Builder, n: nat, p: Plan)
    requires Ready(b, p) && SInv(b)
    ensures Part(b, NewBlocks(b, n), p, false, NewIds(b, n))
  {
    hide Ready, SamePreds, Preds, GoneOK;
    SInvSw(b);
    ReadyNew(b, n, p);
    SameRefl(b.plain, Quiet(b, p, false));
  }

  lemma NewIsNotDefault(b: Builder, b1: Builder, p: Plan, d: bool, own: set<BlockId>, id: BlockId)
    requires Part(b, b1, p, d, own) && IsNew(b, id)
    ensures NotDefault(b1, Also(After(p, b, d), own), id)
  {
    hide Ready, SamePreds;
  }

  lemma OwnExpected(b: Builder, b1: Builder, p: Plan, d: bool, own: set<BlockId>, id: BlockId)
    requires Part(b, b1, p, d, own) && id in own
    ensures IsNew(b, id) && id in Also(After(p, b, d), own).due && Expected(Also(After(p, b, d), own), id)
      && id !in b1.plain && !id.RetBlk?
    ensures Branchable(b1, Also(After(p, b, d), own), id) && Outside(b1, Also(After(p, b, d), own), id)
  {
    hide SamePreds, StackReady, SwReady;
    PartReady(b, b1, p, d, own);
    DueBranchable(b1, Also(After(p, b, d), own), id);
  }

  lemma PartBlock(b: Builder, b1: Builder, p: Plan, d: bool, own: set<BlockId>, id: BlockId)
    requires Part(b, b1, p, d, own) && id in own && (Open(b1) || b1.cur.None?)
    ensures Part(b, EmitBlock(b1, id), p, d, own - {id}) && CaseReady(EmitBlock(b1, id), id)
  {
    hide *;
    PartReady(b, b1, p, d, own);
    OwnExpected(b, b1, p, d, own, id);
    PlanIs(b, p, d, own, id);
    ReadyBlock(b1, id, Also(After(p, b, d), own));
    PartIntro(b, b1, EmitBlock(b1, id), p, d, own, own - {id}, Also(After(p, b, d), own).due - {id});
  }

  /** A new block that a part may branch to. */
  predicate OwnTarget(b: Builder, b1: Builder, own: set<BlockId>, to: BlockId) {
    to in own || (IsNew(b, to) && CaseReady(b1, to)) }

  lemma OwnBranchable(b: Builder, b1: Builder, p: Plan, d: bool, own: set<BlockId>, to: BlockId)
    requires Part(b, b1, p, d, own) && OwnTarget(b, b1, own, to)
    ensures var p1 := Also(After(p, b, d), own);
      Branchable(b1, p1, to) && NotDefault(b1, p1, to) && IsNew(b, to) && Outside(b1, p1, to)
  {
    hide Ready, SamePreds;
    if to in own { OwnExpected(b, b1, p, d, own, to); }
    NewIsNotDefault(b, b1, p, d, own, to);
  }

  lemma PartBranch(b: Builder, b1: Builder, p: Plan, d: bool, own: set<BlockId>, to: BlockId)
    requires Part(b, b1, p, d, own) && OwnTarget(b, b1, own, to) && (Open(b1) || b1.cur.None?)
    ensures Part(b, EmitBranch(b1, to), p, d, own)
  {
    hide *;
    PartReady(b, b1, p, d, own);
    OwnBranchable(b, b1, p, d, own, to);
    PlanIs(b, p, d, own, to);
    ReadyBranch(b1, to, Also(After(p, b, d), own));
    BranchExtends(b1, to);
    SwOldSame(b1, EmitBranch(b1, to));
    PartIntro(b, b1, EmitBranch(b1, to), p, d, own, own, Also(After(p, b, d), own).due - {to});
  }

  lemma SwOldSame(b: Builder, b1: Builder)
    requires SwOld(b) && b1.sw == b.sw && b.nextBlock <= b1.nextBlock
    ensures SwOld(b1)
  {
  }

  lemma PartTerm(b: Builder, b1: Builder, p: Plan, d: bool, own: set<BlockId>, c: Value, t: BlockId, f: BlockId)
    requires Part(b, b1, p, d, own) && OwnTarget(b, b1, own, t) && OwnTarget(b, b1, own, f) && Live(b1)
    ensures Part(b, Terminate(b1, CondBr(c, t, f)), p, d, own)
  {
    hide Part, Ready, Formed, SamePreds, Preds, Live, Quiet, After, OwnTarget, SwOld, Branchable,
      NotDefault, Also, Terminate;
    var p1 := Also(After(p, b, d), own);
    PartReady(b, b1, p, d, own);
    OwnBranchable(b, b1, p, d, own, t);
    OwnBranchable(b, b1, p, d, own, f);
    PlanIs(b, p, d, own, t);
    PlanIs(b, p, d, own, f);
    ReadyTerm(b1, CondBr(c, t, f), p1);
    assert TermTargets(CondBr(c, t, f)) == {t, f};
    TerminateSw(b1, CondBr(c, t, f));
    PartIntro(b, b1, Terminate(b1, CondBr(c, t, f)), p, d, own, own, p1.due - {t, f});
  }

  lemma TerminateSw(b: Builder, t: Term)
    ensures Terminate(b, t).sw == b.sw && Terminate(b, t).stack == b.stack
  {
  }

  lemma PartGrows(b: Builder, b1: Builder, b2: Builder, p: Plan, d: bool, own: set<BlockId>, t: BlockId, f: BlockId)
    requires Part(b, b1, p, d, own) && Ready(b2, Also(After(p, b, d), own)) && SwOld(b2) && Grows(b1, b2)
    requires SamePreds(b1.plain, b2.plain, Also(After(p, b, d), own).due - {t, f}) && IsNew(b, t) && IsNew(b, f)
    ensures Part(b, b2, p, d, own)
  {
    hide Part, Ready, Formed, SamePreds, Preds, Quiet, After, SwOld, Also, Advances;
    PartReady(b, b1, p, d, own);
    PlanIs(b, p, d, own, t);
    PlanIs(b, p, d, own, f);
    PartIntro(b, b1, b2, p, d, own, own, Also(After(p, b, d), own).due - {t, f});
  }

  lemma SameLess(g: Graph, g1: Graph, ys: set<BlockId>, ys1: set<BlockId>)
    requires SamePreds(g, g1, ys) && ys1 <= ys
    ensures SamePreds(g, g1, ys1)
  {
  }

  lemma PartExpr(alu: Alu, b: Builder, b1: Builder, p: Plan, d: bool, own: set<BlockId>, e: Expr)
    requires Part(b, b1, p, d, own) && Inv(b1) && Live(b1)
    ensures Part(b, GenExpr(alu, b1, e).b, p, d, own) && Part(b, GenBool(alu, b1, e).b, p, d, own)
  {
    hide *;
    var p1, y := Also(After(p, b, d), own), Blk(b.nextBlock);
    NewNumber(b);
    PartReady(b, b1, p, d, own);
    ReadyExpr(alu, b1, e, p1);
    ReadyBool(alu, b1, e, p1);
    SameLess(b1.plain, GenExpr(alu, b1, e).b.plain, p1.due - {}, p1.due - {y, y});
    SameLess(b1.plain, GenBool(alu, b1, e).b.plain, p1.due - {}, p1.due - {y, y});
    PartGrows(b, b1, GenExpr(alu, b1, e).b, p, d, own, y, y);
    PartGrows(b, b1, GenBool(alu, b1, e).b, p, d, own, y, y);
  }

  lemma NewNumber(b: Builder)
    ensures IsNew(b, Blk(b.nextBlock))
  {
  }

  lemma PartCond(alu: Alu, b: Builder, b1: Builder, p: Plan, d: bool, own: set<BlockId>, e: Expr,
    t: BlockId, f: BlockId)
    requires Part(b, b1, p, d, own) && Inv(b1) && Live(b1) && t in own && f in own
    ensures Part(b, GenBranch(alu, b1, e, t, f), p, d, own) && Open(GenBranch(alu, b1, e, t, f))
  {
    hide *;
    var p1 := Also(After(p, b, d), own);
    PartReady(b, b1, p, d, own);
    OwnExpected(b, b1, p, d, own, t);
    OwnExpected(b, b1, p, d, own, f);
    NewIsNotDefault(b, b1, p, d, own, t);
    NewIsNotDefault(b, b1, p, d, own, f);
    ReadyCond(alu, b1, e, t, f, p1);
    PartGrows(b, b1, GenBranch(alu, b1, e, t, f), p, d, own, t, f);
  }

  lemma PartFinished(b: Builder, b1: Builder, p: Plan, d: bool, own: set<BlockId>, id: BlockId)
    requires Part(b, b1, p, d, own) && id in own && SInv(b1) && b1.stack == b.stack
    ensures Part(b, EmitFinished(b1, id), p, d, own - {id})
  {
    hide *;
    PartReady(b, b1, p, d, own);
    OwnExpected(b, b1, p, d, own, id);
    PlanIs(b, p, d, own, id);
    OldOnes(b, p, id);
    NewIsNotDefault(b, b1, p, d, own, id);
    ReadyFinished(b1, id, Also(After(p, b, d), own));
    FinishedExtends(b1, id);
    PartIntro(b, b1, EmitFinished(b1, id), p, d, own, own - {id}, Also(After(p, b, d), own).due - {id});
  }

  lemma PartDone(b: Builder, b1: Builder, p: Plan, d: bool, own: set<BlockId>)
    requires Part(b, b1, p, d, own) && own == {}
    ensures Result(b, b1, p, d)
  {
    assert Also(After(p, b, d), {}) == After(p, b, d);
  }

  lemma PartPush(b: Builder, b1: Builder, f: Frame, p: Plan, d: bool, own: set<BlockId>)
    requires Part(b, b1, p, d, own) && OwnTarget(b, b1, own, f.brk) && f.cont.Some?
      && OwnTarget(b, b1, own, f.cont.value)
    ensures Part(b, b1.(stack := b1.stack + [f]), p, d, own)
  {
    hide Ready, Formed, SamePreds, Preds, Quiet, After, OwnTarget, NotDefault, Outside;
    var p1 := Also(After(p, b, d), own);
    OwnBranchable(b, b1, p, d, own, f.brk);
    OwnBranchable(b, b1, p, d, own, f.cont.value);
    ReadyPush(b1, f, p1);
  }

  lemma PartPop(b: Builder, b1: Builder, p: Plan, d: bool, own: set<BlockId>)
    requires Part(b, b1, p, d, own)
    ensures Part(b, PopFrame(b1), p, d, own)
  {
    hide Ready, Formed, SamePreds, Preds, Quiet, After;
    ReadyPop(b1, Also(After(p, b, d), own));
  }

  /** A statement inside of another one, possibly in a new frame. */
  lemma PartStmt(b: Builder, b1: Builder, b2: Builder, p: Plan, d0: bool, d1: bool, own: set<BlockId>, f: Frame)
    requires Part(b, b1, p, d0, own) && Result(b1, b2, Also(After(p, b, d0), own), d1) && SwOld(b2)
      && SameDefault(b1.sw, b2.sw) && !(d0 && d1)
    requires b1.stack == b.stack || (b1.stack == b.stack + [f] && IsNew(b, f.brk) && f.cont.Some?
      && IsNew(b, f.cont.value))
    ensures Part(b, b2, p, d0 || d1, own)
  {
    hide Ready, Preds;
    var p1 := Also(After(p, b, d0), own);
    assert After(p1, b1, d1) == Also(After(p, b, d0 || d1), own) by {
      if d1 && b.sw.Some? {
        var x := b.sw.value.dflt;
        assert x !in own;
        assert (p.due + own) - {x} == (p.due - {x}) + own;
      }
    }
    forall y | y in Quiet(b, p, d0 || d1) ensures y in Quiet(b1, p1, d1) && y in Quiet(b, p, d0) {
      if b1.stack != b.stack {
        StackSnoc(b.stack, f, y);
        DueIsOld(b, p, y);
      }
    }
    SameTrans(b.plain, b1.plain, b2.plain, Quiet(b, p, d0 || d1), Quiet(b1, p1, d1));
  }

  lemma DueIsOld(b: Builder, p: Plan, y: BlockId)
    requires Ready(b, p) && y in p.due
    ensures !IsNew(b, y)
  {
  }

  /* The induction. */

  /** What the parser has checked of the labels of `s`. */
  predicate LabelsKnown(s: Stmt, ls: set<nat>) { GotosIn(s, ls) && Labels(s) <= ls }

  lemma ResultTrans(b: Builder, b1: Builder, b2: Builder, p: Plan, d0: bool, d1: bool)
    requires Result(b, b1, p, d0) && Result(b1, b2, After(p, b, d0), d1) && b1.stack == b.stack
      && SameDefault(b.sw, b1.sw)
    ensures Result(b, b2, p, d0 || d1)
  {
    hide Ready, Preds;
    var p1 := After(p, b, d0);
    assert After(p1, b1, d1) == After(p, b, d0 || d1) by {
      if b.sw.Some? { assert (p.due - {b.sw.value.dflt}) - {b.sw.value.dflt} == p.due - {b.sw.value.dflt}; }
    }
    assert Quiet(b, p, d0 || d1) <= Quiet(b1, p1, d1) && Quiet(b, p, d0 || d1) <= Quiet(b, p, d0);
    SameTrans(b.plain, b1.plain, b2.plain, Quiet(b, p, d0 || d1), Quiet(b1, p1, d1));
  }

  lemma ResultRefl(b: Builder, p: Plan)
    requires Ready(b, p)
    ensures Result(b, b, p, false)
  {
  }

  lemma ResultQuiet(b: Builder, b1: Builder, p: Plan, ys: set<BlockId>)
    requires Ready(b1, p) && SamePreds(b.plain, b1.plain, ys) && Quiet(b, p, false) <= ys
    ensures Result(b, b1, p, false)
  {
    hide Preds;
  }

  lemma MovesParts(b: Builder, b1: Builder, ls: set<nat>, d: bool)
    requires Moves(b, b1, ls, d)
    ensures b1.stack == b.stack && SameDefault(b.sw, b1.sw) && b.nextBlock <= b1.nextBlock
  {
  }

  lemma ReadyDue(b: Builder, p: Plan)
    requires Ready(b, p) && b.sw.Some? && b.sw.value.dflt !in b.plain
    ensures b.sw.value.dflt in p.due && Expected(p, b.sw.value.dflt)
  {
  }

  lemma JumpWell(b: Builder, to: BlockId, p: Plan)
    requires SInv(b) && Ready(b, p) && (OnStack(b.stack, to) || to.RetBlk? || (to.Lbl? && to.l in p.labels))
    ensures Result(b, Jump(b, to), p, false)
  {
    hide Preds, Formed, GoneOK, SamePreds;
    SInvSw(b);
    SInvOpenOr(b);
    JumpTarget(b, to, p);
    ReadyBranch(b, to, p);
    assert Jump(b, to) == EmitBranch(b, to);
    ResultQuiet(b, EmitBranch(b, to), p, p.due - {to});
  }

  lemma JumpTarget(b: Builder, to: BlockId, p: Plan)
    requires SInv(b) && Ready(b, p) && (OnStack(b.stack, to) || to.RetBlk? || (to.Lbl? && to.l in p.labels))
    ensures Branchable(b, p, to) && NotDefault(b, p, to) && Quiet(b, p, false) <= p.due - {to}
  {
    hide Preds;
    if OnStack(b.stack, to) { assert Outside(b, p, to); }
    else if to in b.plain { assert BlockOK(b, p, to); }
  }

  lemma ReadyStore(b: Builder, v: Value, p: Plan)
    requires Ready(b, p) && SwOld(b) && Live(b)
    ensures var b1 := Emit(b, IStore(v));
      Ready(b1, p) && SamePreds(b.plain, b1.plain, p.due) && b1.stack == b.stack && b1.sw == b.sw
  {
    hide Preds, Formed;
    var b1 := Emit(b, IStore(v));
    forall y | y in p.due ensures Preds(b1.plain, y) == Preds(b.plain, y) { EmitFormed(b, IStore(v), p, y); }
    EmitFormed(b, IStore(v), p, RetBlk);
    EmitExt(b, IStore(v));
    ReadyLater(b, b1, p, p);
  }

  lemma EmitExt(b: Builder, ins: Instr)
    requires Live(b)
    ensures Ext(b.plain, Emit(b, ins).plain)
  {
  }

  lemma QuietDue(b: Builder, p: Plan, d: bool)
    ensures Quiet(b, p, d) <= p.due && Quiet(b, p, d) <= p.due - {}
  {
  }

  lemma ReturnWell(alu: Alu, b: Builder, r: Option<Expr>, p: Plan)
    requires SInv(b) && (r.Some? ==> Live(b)) && Ready(b, p)
    ensures Result(b, Visit(alu, b, Return(r)), p, false)
  {
    hide *;
    RetIs();
    ReturnIs(alu, b, r);
    SInvSw(b);
    SwOldIntro(b);
    if r.None? { JumpWell(b, RetBlk, p); }
    else {
      var x := GenExpr(alu, b, r.value);
      var b1 := Emit(x.b, IStore(x.v));
      SInvInv(b);
      ReadyExpr(alu, b, r.value, p);
      ExprMoves(alu, b, r.value);
      EmitMoves(x.b, IStore(x.v));
      GrowsSame(b, x.b);
      ReadyStore(x.b, x.v, p);
      QuietDue(b, p, false);
      SameTrans(b.plain, x.b.plain, b1.plain, p.due - {}, p.due) by { QuietDue(b, p, false); MinusNone(p.due); }
      ResultQuiet(b, b1, p, p.due - {});
      JumpWell(b1, RetBlk, p);
      NoDefault(b, p);
      ResultTrans(b, b1, Jump(b1, RetBlk), p, false, false);
    }
  }

  lemma RetIs()
    ensures RetBlk.RetBlk?
  {
  }
  lemma MinusNone(s: set<BlockId>)
    ensures s - {} <= s && s <= s - {}
  {
  }
  lemma NoDefault(b: Builder, p: Plan)
    ensures After(p, b, false) == p
  {
  }
  lemma SwOldIntro(b: Builder)
    requires b.sw.Some? ==> b.sw.value.dflt.Blk? && b.sw.value.dflt.n < b.nextBlock
    ensures SwOld(b)
  {
  }
  lemma GrowsSame(b: Builder, b1: Builder)
    requires Grows(b, b1)
    ensures b1.stack == b.stack && SameDefault(b.sw, b1.sw)
  {
  }

  lemma ExprStmtWell(alu: Alu, b: Builder, e: Expr, p: Plan)
    requires SInv(b) && Live(b) && Ready(b, p)
    ensures Result(b, GenExpr(alu, b, e).b, p, false)
  {
    hide *;
    SInvInv(b);
    SInvSw(b);
    SwOldIntro(b);
    ReadyExpr(alu, b, e, p);
    QuietDue(b, p, false);
    ResultQuiet(b, GenExpr(alu, b, e).b, p, p.due - {});
  }

  /** A label, and a default label. */
  lemma PlaceWell(b: Builder, id: BlockId, p: Plan, d: bool)
    requires SInv(b) && Ready(b, p) && id !in b.plain
      && (if d then b.sw.Some? && id == b.sw.value.dflt else id.Lbl? && id.l in p.labels)
    ensures Result(b, EmitBlock(b, id), p, d)
  {
    hide Preds, Formed, GoneOK;
    SInvSw(b);
    SInvOpenOr(b);
    if d { ReadyDue(b, p); }
    ReadyBlock(b, id, p);
    if !d { LabelNotDue(b, p, id); }
    assert Placed(p, id) == After(p, b, d);
    assert Quiet(b, p, d) <= p.due - {id};
  }

  lemma LabelNotDue(b: Builder, p: Plan, id: BlockId)
    requires Formed(b, p) && id.Lbl?
    ensures id !in p.due && Placed(p, id) == p
  {
    assert p.due - {id} == p.due;
  }

  lemma CaseWell(b: Builder, lo: int, hi: int, p: Plan)
    requires SInv(b) && Ready(b, p) && b.sw.Some?
    ensures Result(b, CaseStart(b, lo, hi), p, false)
  {
    hide Preds, Formed, GoneOK, SamePreds, Ready, Part;
    var id, b0 := Blk(b.nextBlock), NewBlocks(b, 1);
    PartStart(b, 1, p);
    NewIdsAre(b);
    PartBlock(b, b0, p, false, NewIds(b, 1), id);
    PartDone(b, EmitBlock(b0, id), p, false, NewIds(b, 1) - {id});
    AddCasesReady(EmitBlock(b0, id), lo, hi, id, p);
  }

  lemma AddCasesReady(b: Builder, lo: int, hi: int, id: BlockId, p: Plan)
    requires Ready(b, p) && b.sw.Some? && CaseReady(b, id)
    ensures Ready(AddCases(b, lo, hi, id), p) && AddCases(b, lo, hi, id).plain == b.plain
  {
    hide Preds;
    var b1 := AddCases(b, lo, hi, id);
    FormedSame(b, b1, p);
    CaseTargets(lo, hi, id);
    forall y | OnStack(b1.stack, y) ensures Outside(b1, p, y) { assert Outside(b, p, y); }
    forall j | 0 <= j < |b1.sw.value.cases| ensures CaseReady(b1, b1.sw.value.cases[j].1) {
      if j < |b.sw.value.cases| { assert CaseReady(b, b.sw.value.cases[j].1); }
    }
  }

  lemma EnsureWell(b: Builder, p: Plan)
    requires SInv(b) && Ready(b, p)
    ensures Result(b, EnsureInsertPoint(b), p, false)
  {
    hide Preds, Formed, GoneOK, SamePreds, Ready, Part;
    if b.cur.Some? { ResultRefl(b, p); }
    else {
      PartStart(b, 1, p);
      NewIdsAre(b);
      PartBlock(b, NewBlocks(b, 1), p, false, NewIds(b, 1), Blk(b.nextBlock));
      PartDone(b, EnsureInsertPoint(b), p, false, NewIds(b, 1) - {Blk(b.nextBlock)});
    }
  }
}
