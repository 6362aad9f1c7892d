/** What a declarator declares (C11 section 6.7.6), and what the parser makes of it. */
module DeclMeaning {
  import opened Common
  import opened Declarators

  /** `* const * (x) [3] (int a)`: pointers, what they surround, array and function suffixes. */
  datatype Decl = Decl(ptrs: seq<seq<Qual>>, head: Head, sufs: seq<Suffix>)
  datatype Head = Name(x: string) | Group(d: Decl)
  datatype Suffix = SArr(skip: seq<Token>, len: Option<nat>) | SFun(ps: seq<Param>, varargs: bool)
  datatype Param = Param(spec: Type, d: Decl)

  /* Tokens. */

  function QualToks(qs: seq<Qual>): seq<Token> { if qs == [] then [] else [TQual(qs[0])] + QualToks(qs[1..]) }
  function PtrToks(ptrs: seq<seq<Qual>>): seq<Token> {
    if ptrs == [] then [] else [Star] + QualToks(ptrs[0]) + PtrToks(ptrs[1..]) }

  function Toks(d: Decl): seq<Token>
    decreases d
  {
    PtrToks(d.ptrs) + HeadToks(d.head) + SufsToks(d.sufs)
  }
  function HeadToks(h: Head): seq<Token>
    decreases h
  {
    match h
    case Name(x) => if x == "" then [] else [Id(x)]
    case Group(d) => [LParen] + Toks(d) + [RParen]
  }
  function SufsToks(sufs: seq<Suffix>): seq<Token>
    decreases sufs
  {
    if sufs == [] then [] else SufToks(sufs[0]) + SufsToks(sufs[1..])
  }
  function SufToks(s: Suffix): seq<Token>
    decreases s
  {
    match s
    case SArr(skip, len) => [LSquare] + skip + (if len.Some? then [Num(len.value)] else []) + [RSquare]
    case SFun(ps, va) => [LParen] + ParamsToks(ps, va) + [RParen]
  }
  function ParamToks(p: Param): seq<Token>
    decreases p
  {
    [Spec(p.spec)] + Toks(p.d)
  }
  function ParamsToks(ps: seq<Param>, va: bool): seq<Token>
    decreases ps, 1
  {
    if ps == [] then [] else ParamToks(ps[0]) + MoreToks(ps[1..], va)
  }
  function MoreToks(ps: seq<Param>, va: bool): seq<Token>
    decreases ps, 0
  {
    if ps == [] then (if va then [Comma, Ellipsis] else []) else [Comma] + ParamToks(ps[0]) + MoreToks(ps[1..], va)
  }

  /** A declarator tree. Between brackets, qualifiers and storage classes may stand in any order: which
      of them the grammar derives is left to the meaning. Empty parentheses are no group. */
  predicate WF(d: Decl)
    decreases d
  {
    && (d.head.Group? ==> WF(d.head.d) && d.head.d != Decl([], Name(""), []))
    && (forall i :: 0 <= i < |d.sufs| ==> WFSuf(d.sufs[i]))
  }
  predicate WFSuf(s: Suffix)
    decreases s
  {
    match s
    case SArr(skip, _) => forall i :: 0 <= i < |skip| ==> skip[i].Storage? || skip[i].TQual?
    case SFun(ps, va) => (va ==> ps != []) && forall i :: 0 <= i < |ps| ==> WF(ps[i].d)
  }

  /* Meaning. None where a constraint of section 6.7.6 is violated, or the tokens between brackets are
     not derived by its grammar. */

  /** The order and the number of the same qualifier do not count. */
  function QualsOf(qs: seq<Qual>, acc: Quals): Quals {
    Quals(acc.const_ || Const in qs, acc.restrict_ || Restrict in qs, acc.volatile_ || Volatile in qs,
      acc.atomic_ || Atomic in qs)
  }

  function Pointers(ptrs: seq<seq<Qual>>, t: Type): Type {
    if ptrs == [] then t else Pointers(ptrs[1..], Pointer(t, QualsOf(ptrs[0], NoQuals)))
  }

  /** Nothing but the name, in any number of parentheses. */
  predicate BareHead(h: Head) { h.Group? ==> Bare(h.d) }
  predicate Bare(d: Decl) { d.ptrs == [] && d.sufs == [] && BareHead(d.head) }

  /** The declared name and type. In a parameter the outermost array may have qualifiers and `static`;
      it is the suffix nearest to the name. */
  function Mean(d: Decl, t: Type, param: bool): Option<(string, Type)>
    decreases d
  {
    var t1 := MeanSufs(d.sufs, Pointers(d.ptrs, t), param && BareHead(d.head));
    if t1.None? then None else
    match d.head
    case Name(x) => Some((x, t1.value))
    case Group(d1) => Mean(d1, t1.value, param)
  }

  /** The suffix nearest to the name is the outermost, so the last one applies first. */
  function MeanSufs(sufs: seq<Suffix>, t: Type, first: bool): Option<Type>
    decreases sufs
  {
    if sufs == [] then Some(t) else
    var t1 := MeanSufs(sufs[1..], t, false);
    if t1.None? then None else MeanSuf(sufs[0], t1.value, first)
  }

  /** Section 6.2.5: void, and an array of unknown size. */
  predicate Incomplete(t: Type) { t.Void? || (t.Array? && t.len.None?) }

  /** A length is greater than zero, the element of an array is complete, and a function returns
      neither array nor function. */
  function MeanSuf(s: Suffix, t: Type, first: bool): Option<Type>
    decreases s
  {
    match s
    case SArr(skip, len) => if !t.Func? && !Incomplete(t) && len != Some(0) && SkipOK(skip, len, first) then
      Some(Array(t, len)) else None
    case SFun(ps, va) =>
      if t.Func? || t.Array? then None else
      var ms := MeanParams(ps);
      if ms.None? then None
      else if IsVoidList(ms.value, va) then Some(Func(t, [], false))
      else if NoVoid(ms.value) && Distinct(ms.value) then Some(Func(t, ms.value, va))
      else None
  }

  predicate NoVoid(ps: seq<Named>) { forall i :: 0 <= i < |ps| ==> !ps[i].t.Void? }

  /** No two parameters have the same name (section 6.7). */
  predicate Distinct(ps: seq<Named>) {
    forall i, j :: 0 <= i < j < |ps| && ps[i].name != "" ==> ps[i].name != ps[j].name
  }

  predicate AllQuals(skip: seq<Token>, from: nat, to: nat)
    requires from <= to <= |skip|
  {
    forall i :: from <= i < to ==> skip[i].TQual?
  }

  /** Qualifiers, and `static` before or behind them when there is a length. */
  predicate SkipOK(skip: seq<Token>, len: Option<nat>, first: bool) {
    var n := |skip|;
    n == 0 || (first && (AllQuals(skip, 0, n) || (len.Some? &&
      ((skip[0] == Storage(Static) && AllQuals(skip, 1, n))
        || (skip[n - 1] == Storage(Static) && AllQuals(skip, 0, n - 1))))))
  }

  /** `(void)`: no parameters. */
  predicate IsVoidList(ps: seq<Named>, va: bool) { |ps| == 1 && ps[0].t.Void? && !va }

  function MeanParams(ps: seq<Param>): Option<seq<Named>>
    decreases ps, 1
  {
    if ps == [] then Some([]) else
    var m, r := MeanParam(ps[0]), MeanParams(ps[1..]);
    if m.None? || r.None? then None else Some([m.value] + r.value)
  }
  function MeanParam(p: Param): Option<Named>
    decreases p
  {
    var m := Mean(p.d, p.spec, true);
    if m.None? || (m.value.0 != "" && m.value.1.Void?) then None
      else Some(Named(m.value.0, Adjusted(m.value.1, OuterQuals(p.d))))
  }

  /** An array becomes a pointer to its element, with the qualifiers between its brackets, and a function
      becomes a pointer to the function. */
  function Adjusted(t: Type, qs: Quals): Type {
    if t.Array? then Pointer(t.elem, qs) else if t.Func? then Pointer(t, Quals(false, false, false, false)) else t
  }

  function OuterQuals(d: Decl): Quals {
    if !BareHead(d.head) then OuterQuals(d.head.d)
    else if d.sufs != [] && d.sufs[0].SArr? then QualsIn(d.sufs[0].skip, NoQuals)
    else NoQuals
  }
  function QualsIn(skip: seq<Token>, acc: Quals): Quals {
    Quals(acc.const_ || TQual(Const) in skip, acc.restrict_ || TQual(Restrict) in skip,
      acc.volatile_ || TQual(Volatile) in skip, acc.atomic_ || TQual(Atomic) in skip)
  }

  /* What the parser makes of it. None where it reports an error. */

  predicate AtomicIn(ptrs: seq<seq<Qual>>) { exists i :: 0 <= i < |ptrs| && Atomic in ptrs[i] }

  /** An abstract declarator that starts with a parameter list: the parser takes the parenthesis for
      that of a group. */
  predicate ListFirst(d: Decl) { d.head == Name("") && d.sufs != [] && d.sufs[0].SFun? }

  /** The suffixes that the parser applies: an empty list that it takes for a group is lost. */
  function Applied(d: Decl): seq<Suffix> { if ListFirst(d) then d.sufs[1..] else d.sufs }

  function Take(d: Decl, t: Type): Option<(string, Type)>
    decreases d
  {
    if AtomicIn(d.ptrs) || (ListFirst(d) && d.sufs[0].ps != []) then None else
    var t1 := TakeSufs(Applied(d), Pointers(d.ptrs, t));
    if t1.None? then None else
    match d.head
    case Name(x) => Some((x, t1.value))
    case Group(d1) => Take(d1, t1.value)
  }

  /** Each suffix looks at the type in front of all of them, and an array at its element. */
  function TakeSufs(sufs: seq<Suffix>, t: Type): Option<Type>
    decreases sufs
  {
    if sufs == [] then Some(t) else
    var t1 := TakeSufs(sufs[1..], t);
    match sufs[0]
    case SArr(skip, len) =>
      if t.Func? || TQual(Atomic) in skip || t1.None? || !Complete(t1.value) then None else Some(Array(t1.value, len))
    case SFun(ps, va) =>
      if t.Func? || t.Array? || t1.None? then None else
      var l := TakeList(ps, va);
      if l.None? then None else Some(Func(t1.value, l.value.0, l.value.1))
  }

  function TakeList(ps: seq<Param>, va: bool): Option<(seq<Named>, bool)>
    decreases ps, 2
  {
    var ms := TakeParams(ps);
    if ms.None? then None
    else if IsVoidList(ms.value, va) then Some(([], false))
    else if NoVoid(ms.value) && Distinct(ms.value) then Some((ms.value, va))
    else None
  }
  function TakeParams(ps: seq<Param>): Option<seq<Named>>
    decreases ps, 1
  {
    if ps == [] then Some([]) else
    var m, r := TakeParam(ps[0]), TakeParams(ps[1..]);
    if m.None? || r.None? then None else Some([m.value] + r.value)
  }
  function TakeParam(p: Param): Option<Named>
    decreases p
  {
    var m := Take(p.d, p.spec);
    if m.None? || (m.value.0 != "" && m.value.1.Void?) then None else Some(Named(m.value.0, MayCast(m.value.1)))
  }
}
