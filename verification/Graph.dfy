/** The emitted code: basic blocks with one terminator each, and what running them means. */
module Graph {
  import opened Common
  import opened Source

  /** A block is created under a number of its own; the block of a label and the return block are
      found again by what they stand for. */
  datatype BlockId = Blk(n: nat) | Lbl(l: nat) | RetBlk

  datatype Value = Imm(v: int) | Reg(r: nat)

  /** Register SLOT is the stack object holding the value to return. */
  const SLOT: nat := 0

  datatype Instr =
    | IAct(dst: nat, a: nat, args: seq<Value>)
    | IBin(dst: nat, op: nat, x: Value, y: Value)
    | ITest(dst: nat, x: Value)
    | INot(dst: nat, x: Value)
    | ISelect(dst: nat, c: Value, x: Value, y: Value)
    | IStore(x: Value)
    | INop

  datatype Term =
    | Br(to: BlockId)
    | CondBr(c: Value, t: BlockId, f: BlockId)
    | SwitchT(x: Value, cases: seq<(int, BlockId)>, dflt: BlockId)
    | Ret

  /** At most one phi, at the head of the block. */
  datatype Phi = Phi(dst: nat, incoming: map<BlockId, Value>)
  datatype Block = Block(phi: Option<Phi>, instrs: seq<Instr>, term: Option<Term>)
  type Graph = map<BlockId, Block>
  type Regs = map<nat, int>

  /** A run stands before instruction `i` of block `b`, or has returned, or cannot go on. */
  datatype GState =
    | GAt(b: BlockId, i: nat, regs: Regs, t: Trace)
    | GRet(v: int, t: Trace)
    | GStuck(t: Trace)

  function TraceOf(st: GState): Trace { st.t }

  function RegVal(regs: Regs, r: nat): int { if r in regs then regs[r] else 0 }
  function Val(v: Value, regs: Regs): int {
    match v
    case Imm(n) => n
    case Reg(r) => RegVal(regs, r)
  }
  function Vals(vs: seq<Value>, regs: Regs): seq<int> { seq(|vs|, i requires 0 <= i < |vs| => Val(vs[i], regs)) }

  function ExecRegs(w: World, ins: Instr, regs: Regs, t: Trace): Regs {
    match ins
    case IAct(d, a, args) => regs[d := w.act(t, a, Vals(args, regs))]
    case IBin(d, op, x, y) => regs[d := w.alu(op, Val(x, regs), Val(y, regs))]
    case ITest(d, x) => regs[d := Truth(Val(x, regs))]
    case INot(d, x) => regs[d := 1 - Val(x, regs)]
    case ISelect(d, c, x, y) => regs[d := if Val(c, regs) != 0 then Val(x, regs) else Val(y, regs)]
    case IStore(x) => regs[SLOT := Val(x, regs)]
    case INop => regs
  }

  function ExecTrace(ins: Instr, regs: Regs, t: Trace): Trace {
    if ins.IAct? then t + [Event(ins.a, Vals(ins.args, regs))] else t
  }

  function Lookup(cases: seq<(int, BlockId)>, v: int): Option<BlockId> {
    if cases == [] then None
    else if cases[0].0 == v then Some(cases[0].1)
    else Lookup(cases[1..], v)
  }

  function Target(term: Term, regs: Regs): BlockId
    requires !term.Ret?
  {
    match term
    case Br(to) => to
    case CondBr(c, t, f) => if Val(c, regs) != 0 then t else f
    case SwitchT(x, cases, d) =>
      var r := Lookup(cases, Val(x, regs));
      if r.Some? then r.value else d
  }

  /** Going from block `from` to block `to`: the phi takes the value listed for `from`. */
  function Enter(g: Graph, from: BlockId, to: BlockId, regs: Regs, t: Trace): GState {
    if to !in g then GStuck(t)
    else if g[to].phi.None? then GAt(to, 0, regs, t)
    else
      var p := g[to].phi.value;
      if from in p.incoming then GAt(to, 0, regs[p.dst := Val(p.incoming[from], regs)], t) else GStuck(t)
  }

  function GStep(w: World, g: Graph, st: GState): GState {
    if !st.GAt? then st
    else if st.b !in g then GStuck(st.t)
    else
      var blk := g[st.b];
      if st.i < |blk.instrs| then
        GAt(st.b, st.i + 1, ExecRegs(w, blk.instrs[st.i], st.regs, st.t), ExecTrace(blk.instrs[st.i], st.regs, st.t))
      else if st.i > |blk.instrs| || blk.term.None? then GStuck(st.t)
      else if blk.term.value.Ret? then GRet(RegVal(st.regs, SLOT), st.t)
      else Enter(g, st.b, Target(blk.term.value, st.regs), st.regs, st.t)
  }

  function GRun(w: World, g: Graph, st: GState, n: nat): GState
    decreases n
  {
    if n == 0 then st else GRun(w, g, GStep(w, g, st), n - 1)
  }

  lemma {:induction false} GRunAdd(w: World, g: Graph, st: GState, m: nat, n: nat)
    ensures GRun(w, g, st, m + n) == GRun(w, g, GRun(w, g, st, m), n)
    decreases m
  {
    if m > 0 { GRunAdd(w, g, GStep(w, g, st), m - 1, n); }
  }

  lemma {:induction false} GRunFinal(w: World, g: Graph, st: GState, n: nat)
    requires !st.GAt?
    ensures GRun(w, g, st, n) == st
    decreases n
  {
    if n > 0 { GRunFinal(w, g, st, n - 1); }
  }

  function TermTargets(term: Term): set<BlockId> {
    match term
    case Br(to) => {to}
    case CondBr(_, t, f) => {t, f}
    case SwitchT(_, cases, d) => (set i | 0 <= i < |cases| :: cases[i].1) + {d}
    case Ret => {}
  }

  function Targets(blk: Block): set<BlockId> {
    if blk.term.None? then {} else TermTargets(blk.term.value)
  }

  lemma {:induction false} LookupAppend(xs: seq<(int, BlockId)>, ys: seq<(int, BlockId)>, v: int)
    ensures Lookup(xs + ys, v) == if Lookup(xs, v).Some? then Lookup(xs, v) else Lookup(ys, v)
  {
    if xs == [] {
      assert xs + ys == ys;
    } else {
      assert (xs + ys)[1..] == xs[1..] + ys;
      LookupAppend(xs[1..], ys, v);
    }
  }

  /** `g1` has at least what `g` has: blocks may be new, an open block may have grown. */
  predicate Extends(x: Block, y: Block) {
    && x.phi == y.phi
    && x.instrs <= y.instrs
    && (x.term.Some? ==> x == y)
  }
  predicate Ext(g: Graph, g1: Graph) {
    forall b :: b in g ==> b in g1 && Extends(g[b], g1[b])
  }
}
