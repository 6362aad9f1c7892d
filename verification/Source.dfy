/** Expressions and statements of a function body, as the parser leaves them, and what running
    them means: C11 sections 6.5 and 6.8 over a trace of effects. */
module Source {
  import opened Common

  /** An effect: a call, a load, a store, identified by `a`, on operand values. */
  datatype Event = Event(a: nat, args: seq<int>)
  type Trace = seq<Event>

  /** Everything the code cannot see. `act` gives the value an effect returns, from the whole
      history before it; `alu` is the machine's arithmetic. */
  type Alu = (nat, int, int) -> int
  datatype World = World(act: (Trace, nat, seq<int>) -> int, alu: Alu)

  datatype Expr =
    | Const(v: int)
    | Act(a: nat, args: seq<Expr>)
    | Bin(op: nat, l: Expr, r: Expr)
    | Comma(l: Expr, r: Expr)
    | Not(e: Expr)
    | And(l: Expr, r: Expr)
    | Or(l: Expr, r: Expr)
    | Cond(c: Expr, l: Expr, r: Expr)

  /** A compound statement `{ a b c }` is Seq(a, Seq(b, Seq(c, Skip))). */
  datatype Stmt =
    | Skip
    | Seq(hd: Stmt, tl: Stmt)
    | ExprStmt(e: Option<Expr>)
    | If(c: Expr, thn: Stmt, els: Option<Stmt>)
    | Switch(c: Expr, body: Stmt)
    | While(c: Expr, body: Stmt)
    | DoWhile(body: Stmt, c: Expr)
    | For(init: Option<Expr>, cond: Option<Expr>, inc: Option<Expr>, body: Stmt)
    | Label(l: nat, s: Stmt)
    | Case(lo: int, hi: int, s: Stmt)
    | Default(s: Stmt)
    | Goto(l: nat)
    | Break
    | Continue
    | Return(r: Option<Expr>)

  function Truth(v: int): int { if v != 0 then 1 else 0 }

  /** The value of an expression started after trace `t`, and the trace after it. */
  function Eval(w: World, e: Expr, t: Trace): (int, Trace)
    decreases e, 1
  {
    match e
    case Const(v) => (v, t)
    case Act(a, args) =>
      var (vs, t1) := EvalArgs(w, args, t);
      (w.act(t1, a, vs), t1 + [Event(a, vs)])
    case Bin(op, l, r) =>
      var (x, t1) := Eval(w, l, t);
      var (y, t2) := Eval(w, r, t1);
      (w.alu(op, x, y), t2)
    case Comma(l, r) => Eval(w, r, Eval(w, l, t).1)
    case Not(x) => var (v, t1) := Eval(w, x, t); (1 - Truth(v), t1)
    case And(l, r) =>
      var (x, t1) := Eval(w, l, t);
      if x == 0 then (0, t1) else var (y, t2) := Eval(w, r, t1); (Truth(y), t2)
    case Or(l, r) =>
      var (x, t1) := Eval(w, l, t);
      if x != 0 then (1, t1) else var (y, t2) := Eval(w, r, t1); (Truth(y), t2)
    case Cond(c, l, r) =>
      var (x, t1) := Eval(w, c, t);
      if x != 0 then Eval(w, l, t1) else Eval(w, r, t1)
  }

  /** Operands are evaluated from left to right. */
  function EvalArgs(w: World, es: seq<Expr>, t: Trace): (r: (seq<int>, Trace))
    decreases es, 0
  {
    if es == [] then ([], t)
    else
      var (v, t1) := Eval(w, es[0], t);
      var (vs, t2) := EvalArgs(w, es[1..], t1);
      ([v] + vs, t2)
  }

  /** What remains to be done after the statement in hand. */
  datatype Kont =
    | KStop
    | KSeq(s: Stmt, k: Kont)
    | KWhile(c: Expr, body: Stmt, k: Kont)
    | KDo(body: Stmt, c: Expr, k: Kont)
    | KFor(cond: Option<Expr>, inc: Option<Expr>, body: Stmt, k: Kont)
    | KSwitch(k: Kont)

  /** `slot` is the object that holds the value to return. */
  datatype State = Run(s: Stmt, k: Kont, t: Trace) | Done(v: int, t: Trace) | Wrong(t: Trace)

  /** What a jump into a statement is looking for. */
  datatype Selector = SLabel(l: nat) | SCase(v: int) | SDefault

  /** The labelled statement a jump selects inside `s`, and what follows it. Case and default
      labels belong to the nearest switch. */
  function Find(sel: Selector, s: Stmt, k: Kont): Option<(Stmt, Kont)> {
    match s
    case Seq(a, b) =>
      var r := Find(sel, a, KSeq(b, k));
      if r.Some? then r else Find(sel, b, k)
    case If(_, a, b) =>
      var r := Find(sel, a, k);
      if r.Some? || b.None? then r else Find(sel, b.value, k)
    case Switch(_, body) => if sel.SLabel? then Find(sel, body, KSwitch(k)) else None
    case While(c, body) => Find(sel, body, KWhile(c, body, k))
    case DoWhile(body, c) => Find(sel, body, KDo(body, c, k))
    case For(_, c, i, body) => Find(sel, body, KFor(c, i, body, k))
    case Label(l, s1) => if sel == SLabel(l) then Some((s1, k)) else Find(sel, s1, k)
    case Case(lo, hi, s1) =>
      if sel.SCase? && lo <= sel.v <= hi then Some((s1, k)) else Find(sel, s1, k)
    case Default(s1) => if sel == SDefault then Some((s1, k)) else Find(sel, s1, k)
    case _ => None
  }

  /** Where `break` leads. */
  function AfterBreak(k: Kont): Option<Kont> {
    match k
    case KStop => None
    case KSeq(_, k1) => AfterBreak(k1)
    case KWhile(_, _, k1) => Some(k1)
    case KDo(_, _, k1) => Some(k1)
    case KFor(_, _, _, k1) => Some(k1)
    case KSwitch(k1) => Some(k1)
  }

  /** Where `continue` leads: the continuation of the body of the nearest loop. */
  function AfterContinue(k: Kont): Option<Kont> {
    match k
    case KStop => None
    case KSeq(_, k1) => AfterContinue(k1)
    case KSwitch(k1) => AfterContinue(k1)
    case _ => Some(k)
  }

  function OfFind(r: Option<(Stmt, Kont)>, t: Trace): State {
    match r
    case Some(p) => Run(p.0, p.1, t)
    case None => Wrong(t)
  }

  function OfKont(r: Option<Kont>, t: Trace): State {
    match r
    case Some(k) => Run(Skip, k, t)
    case None => Wrong(t)
  }

  /** One step of a function with body `fn`, whose return object starts as `slot`. */
  function Step(w: World, fn: Stmt, slot: int, st: State): State {
    if !st.Run? then st else
    var k, t := st.k, st.t;
    match st.s
    case Skip => Resume(w, slot, k, t)
    case Seq(a, b) => Run(a, KSeq(b, k), t)
    case ExprStmt(e) => Run(Skip, k, if e.Some? then Eval(w, e.value, t).1 else t)
    case If(c, a, b) =>
      var (v, t1) := Eval(w, c, t);
      if v != 0 then Run(a, k, t1) else Run(if b.Some? then b.value else Skip, k, t1)
    case Switch(c, body) =>
      var (v, t1) := Eval(w, c, t);
      var r := Find(SCase(v), body, KSwitch(k));
      if r.Some? then OfFind(r, t1) else
      var d := Find(SDefault, body, KSwitch(k));
      if d.Some? then OfFind(d, t1) else Run(Skip, k, t1)
    case While(c, body) =>
      var (v, t1) := Eval(w, c, t);
      if v != 0 then Run(body, KWhile(c, body, k), t1) else Run(Skip, k, t1)
    case DoWhile(body, c) => Run(body, KDo(body, c, k), t)
    case For(init, c, i, body) =>
      if init.Some? then Run(For(None, c, i, body), k, Eval(w, init.value, t).1)
      else if c.None? then Run(body, KFor(c, i, body, k), t)
      else
        var (v, t1) := Eval(w, c.value, t);
        if v != 0 then Run(body, KFor(c, i, body, k), t1) else Run(Skip, k, t1)
    case Label(_, s) => Run(s, k, t)
    case Case(_, _, s) => Run(s, k, t)
    case Default(s) => Run(s, k, t)
    case Goto(l) => OfFind(Find(SLabel(l), fn, KStop), t)
    case Break => OfKont(AfterBreak(k), t)
    case Continue => OfKont(AfterContinue(k), t)
    case Return(r) =>
      if r.None? then Done(slot, t) else var (v, t1) := Eval(w, r.value, t); Done(v, t1)
  }

  /** The step taken when a statement has finished. */
  function Resume(w: World, slot: int, k: Kont, t: Trace): State {
    match k
    case KStop => Done(slot, t)
    case KSeq(s, k1) => Run(s, k1, t)
    case KWhile(c, body, k1) => Run(While(c, body), k1, t)
    case KDo(body, c, k1) =>
      var (v, t1) := Eval(w, c, t);
      if v != 0 then Run(DoWhile(body, c), k1, t1) else Run(Skip, k1, t1)
    case KFor(c, i, body, k1) =>
      Run(For(None, c, i, body), k1, if i.Some? then Eval(w, i.value, t).1 else t)
    case KSwitch(k1) => Run(Skip, k1, t)
  }

  function Steps(w: World, fn: Stmt, slot: int, st: State, n: nat): State
    decreases n
  {
    if n == 0 then st else Steps(w, fn, slot, Step(w, fn, slot, st), n - 1)
  }

  /** The constant evaluator: None where it throws. Both operands of a binary operator must be
      constant, also those of && and ||; a comma is never constant. */
  function Calc(alu: Alu, e: Expr): Option<int> {
    match e
    case Const(v) => Some(v)
    case Act(_, _) => None
    case Comma(_, _) => None
    case Bin(op, l, r) =>
      var x, y := Calc(alu, l), Calc(alu, r);
      if x.Some? && y.Some? then Some(alu(op, x.value, y.value)) else None
    case Not(x) => var v := Calc(alu, x); if v.Some? then Some(1 - Truth(v.value)) else None
    case And(l, r) =>
      var x, y := Calc(alu, l), Calc(alu, r);
      if x.Some? && y.Some? then Some(if x.value == 0 then 0 else Truth(y.value)) else None
    case Or(l, r) =>
      var x, y := Calc(alu, l), Calc(alu, r);
      if x.Some? && y.Some? then Some(if x.value != 0 then 1 else Truth(y.value)) else None
    case Cond(c, l, r) =>
      var x := Calc(alu, c);
      if x.None? then None else if x.value != 0 then Calc(alu, l) else Calc(alu, r)
  }

  /** A folded expression has the folded value in every run, and no effect. */
  lemma {:induction false} CalcSound(w: World, e: Expr, t: Trace)
    requires Calc(w.alu, e).Some?
    ensures Eval(w, e, t) == (Calc(w.alu, e).value, t)
  {
    match e
    case Const(_) =>
    case Bin(_, l, r) => CalcSound(w, l, t); CalcSound(w, r, t);
    case Not(x) => CalcSound(w, x, t);
    case And(l, r) => CalcSound(w, l, t); CalcSound(w, r, t);
    case Or(l, r) => CalcSound(w, l, t); CalcSound(w, r, t);
    case Cond(c, l, r) =>
      CalcSound(w, c, t);
      if Calc(w.alu, c).value != 0 { CalcSound(w, l, t); } else { CalcSound(w, r, t); }
  }

  predicate ContainsLabel(s: Stmt) {
    match s
    case Label(_, _) => true
    case Case(_, _, _) => true
    case Default(_) => true
    case Switch(_, _) => true
    case Seq(a, b) => ContainsLabel(a) || ContainsLabel(b)
    case If(_, a, b) => ContainsLabel(a) || (b.Some? && ContainsLabel(b.value))
    case While(_, body) => ContainsLabel(body)
    case DoWhile(body, _) => ContainsLabel(body)
    case For(_, _, _, body) => ContainsLabel(body)
    case _ => false
  }

  /** No jump can enter a statement that ContainsLabel rejects. */
  lemma {:induction false} NoLabelNoEntry(sel: Selector, s: Stmt, k: Kont)
    requires !ContainsLabel(s)
    ensures Find(sel, s, k).None?
  {
    match s
    case Seq(a, b) => NoLabelNoEntry(sel, a, KSeq(b, k)); NoLabelNoEntry(sel, b, k);
    case If(_, a, b) =>
      NoLabelNoEntry(sel, a, k);
      if b.Some? { NoLabelNoEntry(sel, b.value, k); }
    case While(c, body) => NoLabelNoEntry(sel, body, KWhile(c, body, k));
    case DoWhile(body, c) => NoLabelNoEntry(sel, body, KDo(body, c, k));
    case For(_, c, i, body) => NoLabelNoEntry(sel, body, KFor(c, i, body, k));
    case _ =>
  }
}
