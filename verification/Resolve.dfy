/** Every goto of a function that the parser accepts finds its label, in every run. */
module Resolve {
  import opened Common
  import opened Source
  import opened FrameStmt

  /** The labels that the gotos of `s` name are among `ls`. */
  predicate GotosIn(s: Stmt, ls: set<nat>) {
    match s
    case Seq(a, b) => GotosIn(a, ls) && GotosIn(b, ls)
    case If(_, a, b) => GotosIn(a, ls) && (b.Some? ==> GotosIn(b.value, ls))
    case Switch(_, body) => GotosIn(body, ls)
    case While(_, body) => GotosIn(body, ls)
    case DoWhile(body, _) => GotosIn(body, ls)
    case For(_, _, _, body) => GotosIn(body, ls)
    case Label(_, s1) => GotosIn(s1, ls)
    case Case(_, _, s1) => GotosIn(s1, ls)
    case Default(s1) => GotosIn(s1, ls)
    case Goto(l) => l in ls
    case _ => true
  }
  predicate KGotosIn(k: Kont, ls: set<nat>) {
    match k
    case KStop => true
    case KSeq(s, k1) => GotosIn(s, ls) && KGotosIn(k1, ls)
    case KWhile(_, body, k1) => GotosIn(body, ls) && KGotosIn(k1, ls)
    case KDo(body, _, k1) => GotosIn(body, ls) && KGotosIn(k1, ls)
    case KFor(_, _, body, k1) => GotosIn(body, ls) && KGotosIn(k1, ls)
    case KSwitch(k1) => KGotosIn(k1, ls)
  }
  predicate RunGotosIn(st: State, ls: set<nat>) {
    st.Run? ==> GotosIn(st.s, ls) && KGotosIn(st.k, ls)
  }

  lemma {:induction false} FindGotosIn(sel: Selector, s: Stmt, k: Kont, ls: set<nat>)
    requires GotosIn(s, ls) && KGotosIn(k, ls) && Find(sel, s, k).Some?
    ensures GotosIn(Find(sel, s, k).value.0, ls) && KGotosIn(Find(sel, s, k).value.1, ls)
  {
    match s
    case Seq(a, b) =>
      if Find(sel, a, KSeq(b, k)).Some? { FindGotosIn(sel, a, KSeq(b, k), ls); } else { FindGotosIn(sel, b, k, ls); }
    case If(_, a, b) =>
      if Find(sel, a, k).Some? { FindGotosIn(sel, a, k, ls); } else { FindGotosIn(sel, b.value, k, ls); }
    case Switch(_, body) => FindGotosIn(sel, body, KSwitch(k), ls);
    case While(c, body) => FindGotosIn(sel, body, KWhile(c, body, k), ls);
    case DoWhile(body, c) => FindGotosIn(sel, body, KDo(body, c, k), ls);
    case For(_, c, i, body) => FindGotosIn(sel, body, KFor(c, i, body, k), ls);
    case Label(l, s1) => if sel != SLabel(l) { FindGotosIn(sel, s1, k, ls); }
    case Case(lo, hi, s1) => if !(sel.SCase? && lo <= sel.v <= hi) { FindGotosIn(sel, s1, k, ls); }
    case Default(s1) => if sel != SDefault { FindGotosIn(sel, s1, k, ls); }
  }

  lemma {:induction false} AfterGotosIn(k: Kont, ls: set<nat>)
    requires KGotosIn(k, ls)
    ensures AfterBreak(k).Some? ==> KGotosIn(AfterBreak(k).value, ls)
    ensures AfterContinue(k).Some? ==> KGotosIn(AfterContinue(k).value, ls)
  {
    if k.KSeq? || k.KSwitch? { AfterGotosIn(k.k, ls); }
  }

  lemma {:induction false} StepGotosIn(w: World, fn: Stmt, slot: int, st: State, ls: set<nat>)
    requires GotosIn(fn, ls) && RunGotosIn(st, ls)
    ensures RunGotosIn(Step(w, fn, slot, st), ls)
  {
    hide Eval;
    if st.Run? {
      AfterGotosIn(st.k, ls);
      match st.s
      case Switch(c, body) =>
        var sel := SCase(Eval(w, c, st.t).0);
        if Find(sel, body, KSwitch(st.k)).Some? { FindGotosIn(sel, body, KSwitch(st.k), ls); }
        else if Find(SDefault, body, KSwitch(st.k)).Some? { FindGotosIn(SDefault, body, KSwitch(st.k), ls); }
      case Goto(l) =>
        if Find(SLabel(l), fn, KStop).Some? { FindGotosIn(SLabel(l), fn, KStop, ls); }
      case _ =>
    }
  }
}
