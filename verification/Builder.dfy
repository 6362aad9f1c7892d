/** The state of the emitter and its primitive operations. */
module Builder {
  import opened Common
  import opened Source
  import opened Graph

  datatype Frame = Frame(brk: BlockId, cont: Option<BlockId>)

  /** The switch being emitted. Its cases are collected here and its block is closed once the
      body has been emitted. */
  datatype OpenSwitch = OpenSwitch(cases: seq<(int, BlockId)>, dflt: BlockId)

  /** `plain` is the graph as emitted. Of its blocks, those in the domain of `gone` have been
      replaced everywhere by their image: see Real. */
  datatype Builder = Builder(
    plain: Graph,
    gone: map<BlockId, BlockId>,
    cur: Option<BlockId>,
    nextBlock: nat,
    nextReg: nat,
    stack: seq<Frame>,
    sw: Option<OpenSwitch>)

  function Redirect(gone: map<BlockId, BlockId>, b: BlockId): BlockId {
    if b in gone then gone[b] else b
  }

  function RedirectTerm(gone: map<BlockId, BlockId>, t: Term): Term {
    match t
    case Br(x) => Br(Redirect(gone, x))
    case CondBr(c, x, y) => CondBr(c, Redirect(gone, x), Redirect(gone, y))
    case SwitchT(v, cases, d) =>
      SwitchT(v, seq(|cases|, i requires 0 <= i < |cases| => (cases[i].0,
        Redirect(gone, cases[i].1))), Redirect(gone, d))
    case Ret => Ret
  }

  function RedirectBlock(gone: map<BlockId, BlockId>, b: Block): Block {
    if b.term.None? then b else b.(term := Some(RedirectTerm(gone, b.term.value)))
  }

  /** The function's block list after the replacements. */
  function Real(plain: Graph, gone: map<BlockId, BlockId>): Graph {
    map b | b in plain && b !in gone :: RedirectBlock(gone, plain[b])
  }

  /** The blocks of `g` that branch to `b`. */
  function Preds(g: Graph, b: BlockId): set<BlockId> {
    set c | c in g && b in Targets(g[c])
  }

  predicate Open(b: Builder) {
    b.cur.Some? && b.cur.value in b.plain
  }

  function SetBlock(b: Builder, id: BlockId, blk: Block): Builder {
    b.(plain := b.plain[id := blk])
  }

  /** An instruction at the insertion point; without one it ends up in no block. */
  function Emit(b: Builder, ins: Instr): Builder {
    if !Open(b) then b else
    var blk := b.plain[b.cur.value];
    SetBlock(b, b.cur.value, blk.(instrs := blk.instrs + [ins]))
  }

  /** A terminator at the insertion point. */
  function Terminate(b: Builder, t: Term): Builder {
    if !Open(b) then b else
    SetBlock(b, b.cur.value, b.plain[b.cur.value].(term := Some(t)))
  }

  function EmitBranch(b: Builder, to: BlockId): Builder {
    if Open(b) && b.plain[b.cur.value].term.None?
    then Terminate(b, Br(to)).(cur := None)
    else b.(cur := None)
  }

  function Place(b: Builder, id: BlockId, phi: Option<Phi>): Builder {
    SetBlock(b, id, Block(phi, [], None)).(cur := Some(id))
  }

  function EmitBlock(b: Builder, id: BlockId): Builder {
    Place(EmitBranch(b, id), id, None)
  }

  /** EmitBlock with is_finished: a block nobody branches to is not emitted. */
  function EmitFinished(b: Builder, id: BlockId): Builder {
    var b1 := EmitBranch(b, id);
    if Preds(Real(b1.plain, b1.gone), id) == {} then b1 else Place(b1, id, None)
  }

  /** Block `f` leaves the function and every branch to it goes to `to` instead. */
  function Replace(b: Builder, f: BlockId, to: BlockId): Builder {
    var t := Redirect(b.gone, to);
    b.(plain := b.plain[f := Block(None, [], Some(Br(to)))],
       gone := map x | x in b.gone.Keys + {f} :: if x == f || b.gone[x] == f then t else b.gone[x])
  }

  function SimplifyForwarding(b: Builder, id: BlockId): Builder {
    if id in b.plain && b.plain[id].term.Some? && b.plain[id].term.value.Br?
    then Replace(b, id, b.plain[id].term.value.to)
    else b
  }

  function NewBlocks(b: Builder, n: nat): Builder { b.(nextBlock := b.nextBlock + n) }

  /** An instruction with a result, unless the operands are constants, which are folded. */
  datatype EV = EV(b: Builder, v: Value)
  datatype EVs = EVs(b: Builder, vs: seq<Value>)

  function Define(b: Builder, ins: Instr): EV {
    EV(Emit(b, ins).(nextReg := b.nextReg + 1), Reg(b.nextReg))
  }
  function EmitTest(b: Builder, v: Value): EV {
    if v.Imm? then EV(b, Imm(Truth(v.v))) else Define(b, ITest(b.nextReg, v))
  }
  function EmitNot(b: Builder, v: Value): EV {
    if v.Imm? then EV(b, Imm(1 - v.v)) else Define(b, INot(b.nextReg, v))
  }
  function EmitBin(alu: Alu, b: Builder, op: nat, x: Value, y: Value): EV {
    if x.Imm? && y.Imm? then EV(b, Imm(alu(op, x.v, y.v))) else Define(b, IBin(b.nextReg, op, x, y))
  }
  function EmitSelect(b: Builder, c: Value, x: Value, y: Value): EV {
    if c.Imm? && x.Imm? && y.Imm? then EV(b, if c.v != 0 then x else y) else Define(b, ISelect(b.nextReg, c, x, y))
  }
}
