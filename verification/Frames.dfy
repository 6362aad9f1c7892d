/** What the emitter leaves alone: every step only adds to the graph. */
module Frames {
  import opened Common
  import opened Source
  import opened Graph
  import opened Builder
  import opened CodeGen

  predicate Below(v: Value, n: nat) { v.Reg? ==> v.r < n }

  /** From `f` empty forwarding blocks lead to `t` in `n` jumps. */
  predicate Chain(g: Graph, f: BlockId, t: BlockId, n: nat)
    decreases n
  {
    if n == 0 then f == t
    else
      && f in g && g[f].phi.None? && g[f].instrs == [] && g[f].term.Some? && g[f].term.value.Br?
      && var x := g[f].term.value.to;
      && x in g && g[x].phi.None? && Chain(g, x, t, n - 1)
  }

  /** A removed block was an empty forwarding block leading to its replacement. */
  ghost predicate Forwards(g: Graph, gone: map<BlockId, BlockId>, f: BlockId)
    requires f in gone
  {
    gone[f] !in gone && exists n: nat :: n > 0 && Chain(g, f, gone[f], n)
  }
  ghost predicate GoneOK(g: Graph, gone: map<BlockId, BlockId>) {
    forall f :: f in gone ==> Forwards(g, gone, f)
  }

  predicate Bounded(b: Builder) {
    forall x :: x in b.plain && x.Blk? ==> x.n < b.nextBlock
  }

  /** The insertion point is at the end of a block that is still open, or there is none. */
  predicate Live(b: Builder) { Open(b) && b.plain[b.cur.value].term.None? }
  /** The current block has just been closed. */
  predicate Cut(b: Builder) { Open(b) && b.plain[b.cur.value].term.Some? }

  ghost predicate Inv(b: Builder) {
    Bounded(b) && b.nextReg > SLOT && GoneOK(b.plain, b.gone)
  }

  /** Only the current block of `b` may have changed, and it has only grown; new blocks have
      numbers not used before, or are among `extra`. */
  predicate Kept(g: Graph, g1: Graph, cur: Option<BlockId>) {
    forall c :: c in g ==> c in g1 && Extends(g[c], g1[c]) && (Some(c) != cur ==> g1[c] == g[c])
  }
  predicate Advances(b: Builder, b1: Builder, extra: set<BlockId>) {
    && b.nextBlock <= b1.nextBlock && b.nextReg <= b1.nextReg
    && Kept(b.plain, b1.plain, b.cur)
    && (b1.cur.Some? ==> b1.cur == b.cur || b1.cur.value !in b.plain)
    && (forall x :: x in b1.plain && x !in b.plain ==> x in extra || (x.Blk? && x.n >= b.nextBlock))
    && (forall x :: x in b1.gone && x !in b.gone ==> x.Blk? && x.n >= b.nextBlock)
  }

  predicate Grows(b: Builder, b1: Builder) {
    Advances(b, b1, {}) && b.sw == b1.sw && b.gone == b1.gone && b.stack == b1.stack
  }

  lemma ExtTrans(g0: Graph, g1: Graph, g2: Graph)
    requires Ext(g0, g1) && Ext(g1, g2)
    ensures Ext(g0, g2)
  {
  }

  lemma {:induction false} ChainExt(g: Graph, g1: Graph, f: BlockId, t: BlockId, n: nat)
    requires Chain(g, f, t, n) && Ext(g, g1)
    ensures Chain(g1, f, t, n)
    decreases n
  {
    if n > 0 { ChainExt(g, g1, g[f].term.value.to, t, n - 1); }
  }

  lemma GoneExt(g: Graph, g1: Graph, gone: map<BlockId, BlockId>)
    requires GoneOK(g, gone) && Ext(g, g1)
    ensures GoneOK(g1, gone)
  {
    forall f | f in gone ensures Forwards(g1, gone, f) {
      assert Forwards(g, gone, f);
      var n: nat :| n > 0 && Chain(g, f, gone[f], n);
      ChainExt(g, g1, f, gone[f], n);
    }
  }

  /** Removed blocks lead to blocks that exist. */
  lemma GoneTargets(g: Graph, gone: map<BlockId, BlockId>)
    requires GoneOK(g, gone)
    ensures forall f :: f in gone ==> f in g && Targets(g[f]) <= g.Keys
  {
    forall f | f in gone ensures f in g && Targets(g[f]) <= g.Keys {
      assert Forwards(g, gone, f);
    }
  }

  lemma AdvancesTrans(b0: Builder, b1: Builder, b2: Builder, e0: set<BlockId>, e1: set<BlockId>)
    requires Advances(b0, b1, e0) && Advances(b1, b2, e1)
    ensures Advances(b0, b2, e0 + e1)
  {
    forall c | c in b0.plain
      ensures c in b2.plain && Extends(b0.plain[c], b2.plain[c]) && (Some(c) != b0.cur ==> b2.plain[c] == b0.plain[c])
    {
      assert c in b1.plain && Extends(b0.plain[c], b1.plain[c]);
      assert c in b2.plain && Extends(b1.plain[c], b2.plain[c]);
    }
  }

  lemma GrowsTrans(b0: Builder, b1: Builder, b2: Builder)
    requires Grows(b0, b1) && Grows(b1, b2)
    ensures Grows(b0, b2) && b0.nextReg <= b2.nextReg && b0.nextBlock <= b2.nextBlock
  {
    AdvancesTrans(b0, b1, b2, {}, {});
  }

  lemma GrowsRefl(b: Builder)
    ensures Grows(b, b)
  {
  }

  lemma GrowsExt(b: Builder, b1: Builder)
    requires Grows(b, b1)
    ensures Ext(b.plain, b1.plain)
  {
  }

  lemma AdvancesExt(b: Builder, b1: Builder, extra: set<BlockId>)
    requires Advances(b, b1, extra)
    ensures Ext(b.plain, b1.plain)
  {
  }

  /** The primitive operations. */
  lemma EmitGrows(b: Builder, ins: Instr)
    requires Inv(b) && Live(b)
    ensures Inv(Emit(b, ins)) && Live(Emit(b, ins)) && Grows(b, Emit(b, ins))
  {
    GoneExt(b.plain, Emit(b, ins).plain, b.gone);
  }

  lemma TerminateGrows(b: Builder, t: Term)
    requires Inv(b) && Live(b)
    ensures Inv(Terminate(b, t)) && Cut(Terminate(b, t)) && Grows(b, Terminate(b, t))
    ensures Terminate(b, t).nextReg == b.nextReg && Terminate(b, t).nextBlock == b.nextBlock
  {
    GoneExt(b.plain, Terminate(b, t).plain, b.gone);
  }

  lemma EmitBranchGrows(b: Builder, to: BlockId)
    requires Inv(b) && (Open(b) || b.cur.None?)
    ensures Inv(EmitBranch(b, to)) && Grows(b, EmitBranch(b, to))
  {
    GoneExt(b.plain, EmitBranch(b, to).plain, b.gone);
  }

  lemma PlaceAdvances(b: Builder, id: BlockId, phi: Option<Phi>)
    requires Inv(b) && id !in b.plain && (id.Blk? ==> id.n < b.nextBlock)
    ensures Inv(Place(b, id, phi)) && Live(Place(b, id, phi)) && Advances(b, Place(b, id, phi), {id})
  {
    GoneExt(b.plain, Place(b, id, phi).plain, b.gone);
  }

  lemma EmitBlockAdvances(b: Builder, id: BlockId)
    requires Inv(b) && (Open(b) || b.cur.None?)
    requires id !in b.plain && (id.Blk? ==> id.n < b.nextBlock)
    ensures Inv(EmitBlock(b, id)) && Live(EmitBlock(b, id)) && Advances(b, EmitBlock(b, id), {id})
  {
    EmitBranchGrows(b, id);
    PlaceAdvances(EmitBranch(b, id), id, None);
    AdvancesTrans(b, EmitBranch(b, id), EmitBlock(b, id), {}, {id});
  }

  /** Blocks whose number is taken by `b0` or later are fresh for `b0`. */
  lemma Absorb(b0: Builder, b1: Builder, extra: set<BlockId>)
    requires Advances(b0, b1, extra)
    requires forall x :: x in extra ==> x.Blk? && x.n >= b0.nextBlock
    ensures Advances(b0, b1, {})
  {
  }

  lemma AdvancesCounts(b: Builder, b1: Builder, extra: set<BlockId>)
    requires Advances(b, b1, extra)
    ensures b.nextReg <= b1.nextReg && b.nextBlock <= b1.nextBlock
  {
  }

  /** Two steps, with what they take from outside or have numbered since. */
  lemma AdvancesInto(b0: Builder, b1: Builder, b2: Builder, e0: set<BlockId>, e1: set<BlockId>, e: set<BlockId>)
    requires Advances(b0, b1, e0) && Advances(b1, b2, e1)
    requires forall x :: x in e0 || x in e1 ==> x in e || (x.Blk? && x.n >= b0.nextBlock)
    ensures Advances(b0, b2, e)
  {
    hide Kept;
    AdvancesTrans(b0, b1, b2, e0, e1);
    assert forall x :: x in e0 + e1 ==> x in e || (x.Blk? && x.n >= b0.nextBlock);
  }

  /** A step from `b0` to `b1`, then a block of its own. */
  lemma ThenBlock(b0: Builder, b1: Builder, id: BlockId)
    requires Grows(b0, b1) && Inv(b1) && (Open(b1) || b1.cur.None?)
    requires id.Blk? && b0.nextBlock <= id.n < b1.nextBlock && id !in b1.plain
    ensures Grows(b0, EmitBlock(b1, id)) && Inv(EmitBlock(b1, id)) && Live(EmitBlock(b1, id))
    ensures b0.nextReg <= EmitBlock(b1, id).nextReg == b1.nextReg && EmitBlock(b1, id).nextBlock == b1.nextBlock
    ensures Ext(b1.plain, EmitBlock(b1, id).plain)
  {
    EmitBlockAdvances(b1, id);
    AdvancesTrans(b0, b1, EmitBlock(b1, id), {}, {id});
    Absorb(b0, EmitBlock(b1, id), {} + {id});
  }

  lemma ThenPhi(b0: Builder, b1: Builder, id: BlockId, incoming: map<BlockId, Value>)
    requires Grows(b0, b1) && Inv(b1) && Open(b1)
    requires id.Blk? && b0.nextBlock <= id.n < b1.nextBlock && id !in b1.plain
    ensures var x := JoinValue(b1, id, incoming);
      && Grows(b0, x.b) && Inv(x.b) && Live(x.b) && Below(x.v, x.b.nextReg)
      && b0.nextReg <= x.b.nextReg && b0.nextBlock <= x.b.nextBlock && Ext(b1.plain, x.b.plain)
  {
    EmitBranchGrows(b1, id);
    var b2 := EmitBranch(b1, id);
    var p := Place(b2, id, Some(Phi(b1.nextReg, incoming)));
    PlaceAdvances(b2, id, Some(Phi(b1.nextReg, incoming)));
    AdvancesTrans(b1, b2, p, {}, {id});
    AdvancesTrans(b0, b1, p, {}, {} + {id});
    Absorb(b0, p, {} + ({} + {id}));
  }

  lemma DefineGrows(b: Builder, ins: Instr)
    requires Inv(b) && Live(b)
    ensures var x := Define(b, ins); Inv(x.b) && Live(x.b) && Grows(b, x.b) && Below(x.v, x.b.nextReg)
  {
    EmitGrows(b, ins);
  }
}
