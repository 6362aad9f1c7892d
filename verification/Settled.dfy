/** No branch is ever emitted to a block that has been removed. */
module Settled {
  import opened Common
  import opened Source
  import opened Graph
  import opened Builder
  import opened CodeGen
  import opened Frames
  import opened FrameExpr
  import opened SimExpr
  import opened Static
  import opened FrameStmt
  import opened FrameLoops
  import opened FrameAll
  import opened MatchKont

  predicate Known(b: Builder, id: BlockId) { id.Blk? && id.n < b.nextBlock && id !in b.gone }

  predicate KnownFrame(b: Builder, f: Frame) { Known(b, f.brk) && (f.cont.Some? ==> Known(b, f.cont.value)) }

  /** No loop continues at block `id`. */
  predicate NoCont(b: Builder, id: BlockId) { forall i :: 0 <= i < |b.stack| ==> b.stack[i].cont != Some(id) }

  predicate KnownCase(b: Builder, id: BlockId) { Known(b, id) && NoCont(b, id) }

  /** The blocks that a statement may branch to are still in the function. Only the continue
      block of a loop is ever removed, and only at the end of the loop. */
  ghost predicate Safe(b: Builder) {
    && (forall x :: x in b.gone ==> x.Blk?)
    && (forall i :: 0 <= i < |b.stack| ==> KnownFrame(b, b.stack[i]))
    && (b.sw.Some? ==>
        Known(b, b.sw.value.dflt) && forall j :: 0 <= j < |b.sw.value.cases| ==> KnownCase(b, b.sw.value.cases[j].1))
  }

  lemma SafeSame(b: Builder, b1: Builder)
    requires Safe(b) && b1.stack == b.stack && b1.sw == b.sw && b1.gone == b.gone && b.nextBlock <= b1.nextBlock
    ensures Safe(b1)
  {
    forall i | 0 <= i < |b1.stack| ensures KnownFrame(b1, b1.stack[i]) { assert KnownFrame(b, b.stack[i]); }
    if b1.sw.Some? {
      forall j | 0 <= j < |b1.sw.value.cases|
        ensures KnownCase(b1, b1.sw.value.cases[j].1) { assert KnownCase(b, b.sw.value.cases[j].1); }
    }
  }

  lemma SafeGrows(b: Builder, b1: Builder)
    requires Safe(b) && Grows(b, b1)
    ensures Safe(b1)
  {
    SafeSame(b, b1);
  }

  /** A frame with new blocks. */
  lemma SafePush(b: Builder, b1: Builder, f: Frame)
    requires Safe(b) && b1.stack == b.stack + [f] && b1.sw == b.sw && b1.gone == b.gone && b.nextBlock <= b1.nextBlock
    requires KnownFrame(b1, f) && (f.cont.Some? ==> f.cont.value.n >= b.nextBlock)
    ensures Safe(b1)
  {
    forall i | 0 <= i < |b1.stack| ensures KnownFrame(b1, b1.stack[i]) {
      if i < |b.stack| { assert KnownFrame(b, b.stack[i]); }
    }
    if b1.sw.Some? {
      forall j | 0 <= j < |b1.sw.value.cases|
        ensures KnownCase(b1, b1.sw.value.cases[j].1) { assert KnownCase(b, b.sw.value.cases[j].1); }
    }
  }

  /** A new switch. */
  lemma SafeSwitch(b: Builder, b1: Builder, f: Frame, d: BlockId)
    requires Safe(b) && b1.stack == b.stack + [f] && b1.sw == Some(OpenSwitch([], d)) && b1.gone == b.gone
      && b.nextBlock <= b1.nextBlock
    requires Known(b1, f.brk) && Known(b1, d) && f.cont == TopCont(b)
    ensures Safe(b1)
  {
    forall i | 0 <= i < |b1.stack| ensures KnownFrame(b1, b1.stack[i]) {
      if i < |b.stack| { assert KnownFrame(b, b.stack[i]); }
      else if b.stack != [] { assert KnownFrame(b, b.stack[|b.stack| - 1]); }
    }
  }

  /** Leaving a loop, whose continue block may be removed then. */
  lemma SafeLoopEnd(b: Builder, b1: Builder, b2: Builder, b3: Builder, f: Frame, ls: set<nat>, d: bool)
    requires SInv(b) && Safe(b) && Inside(b, b1, f) && b1.sw == b.sw && Moves(b1, b2, ls, d) && Safe(b2)
    requires b3.stack == b.stack && b3.sw == b2.sw && b2.nextBlock <= b3.nextBlock && f.cont.Some?
    requires f.cont.value.Blk? && b.nextBlock <= f.cont.value.n
    requires forall x :: x in b3.gone ==> x in b2.gone || x == f.cont.value
    ensures Safe(b3)
  {
    assert b2.stack == b.stack + [f];
    forall i | 0 <= i < |b3.stack| ensures KnownFrame(b3, b3.stack[i]) {
      assert KnownFrame(b2, b2.stack[i]) && KnownFrame(b, b.stack[i]);
    }
    if b3.sw.Some? {
      forall j | 0 <= j < |b3.sw.value.cases| ensures KnownCase(b3, b3.sw.value.cases[j].1) {
        assert KnownCase(b2, b2.sw.value.cases[j].1);
        assert b2.stack[|b.stack|] == f;
        forall i | 0 <= i < |b3.stack|
          ensures b3.stack[i].cont != Some(b3.sw.value.cases[j].1) { assert b2.stack[i] == b3.stack[i]; }
      }
    }
  }

  /** Leaving a switch. */
  lemma SafeSwitchEnd(b: Builder, b2: Builder, b3: Builder, ls: set<nat>)
    requires SInv(b) && Safe(b) && Moves(b, b3, ls, false) && Safe(b2) && b3.gone == b2.gone && b3.sw == b.sw
    ensures Safe(b3)
  {
    forall i | 0 <= i < |b3.stack| ensures KnownFrame(b3, b3.stack[i]) { assert KnownFrame(b, b.stack[i]); }
    if b3.sw.Some? {
      forall j | 0 <= j < |b3.sw.value.cases|
        ensures KnownCase(b3, b3.sw.value.cases[j].1) { assert KnownCase(b, b.sw.value.cases[j].1); }
    }
  }

  lemma SafeCase(b: Builder, lo: int, hi: int)
    requires Inv(b) && Safe(b) && b.sw.Some?
    ensures Safe(CaseStart(b, lo, hi))
  {
    var b1, id := CaseStart(b, lo, hi), Blk(b.nextBlock);
    GoneTargets(b.plain, b.gone);
    assert b1.stack == b.stack && b1.gone == b.gone && b1.nextBlock == b.nextBlock + 1;
    forall i | 0 <= i < |b1.stack|
      ensures KnownFrame(b1, b1.stack[i]) && b1.stack[i].cont != Some(id) { assert KnownFrame(b, b.stack[i]); }
    assert KnownCase(b1, id);
    CaseTargets(lo, hi, id);
    forall j | 0 <= j < |b1.sw.value.cases| ensures KnownCase(b1, b1.sw.value.cases[j].1) {
      if j < |b.sw.value.cases| { assert KnownCase(b, b.sw.value.cases[j].1); }
    }
  }

  lemma {:induction false} CaseTargets(lo: int, hi: int, id: BlockId)
    ensures forall j :: 0 <= j < |CaseList(lo, hi, id)| ==> CaseList(lo, hi, id)[j].1 == id
    decreases hi - lo
  {
    if lo <= hi { CaseTargets(lo + 1, hi, id); }
  }

  /** The switch instruction. */
  lemma SafeTerm(b: Builder, x: Value)
    requires Safe(b) && b.sw.Some? && b.stack != []
    ensures TermTargets(SwitchT(x, b.sw.value.cases, b.sw.value.dflt)) !! b.gone.Keys
    ensures TermTargets(SwitchT(x, b.sw.value.cases, b.stack[|b.stack| - 1].brk)) !! b.gone.Keys
  {
    assert KnownFrame(b, b.stack[|b.stack| - 1]);
    forall j | 0 <= j < |b.sw.value.cases|
      ensures b.sw.value.cases[j].1 !in b.gone { assert KnownCase(b, b.sw.value.cases[j].1); }
  }
}
