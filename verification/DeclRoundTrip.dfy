/** Every type that C lets a declarator make is written as one, and parsed back. */
module DeclRoundTrip {
  import opened Common
  import opened Declarators
  import opened DeclMeaning
  import opened DeclTaken
  import opened DeclExact

  function QualSeq(q: Quals): seq<Qual> {
    (if q.const_ then [Const] else []) + (if q.restrict_ then [Restrict]
      else []) + (if q.volatile_ then [Volatile] else [])
  }

  function WithSuf(d: Decl, s: Suffix): Decl {
    if d.ptrs == [] then d.(sufs := d.sufs + [s]) else Decl([], Group(d), [s])
  }

  /** The base type at the end of `t`. */
  function BaseOf(t: Type): Type {
    match t
    case Pointer(to, _) => BaseOf(to)
    case Array(e, _) => BaseOf(e)
    case Func(r, _, _) => BaseOf(r)
    case _ => t
  }

  /** The declarator of something of type `t` inside of which stands `d`. */
  function Declare(t: Type, d: Decl): Decl
    decreases t
  {
    match t
    case Pointer(to, q) => Declare(to, d.(ptrs := [QualSeq(q)] + d.ptrs))
    case Array(e, len) => Declare(e, WithSuf(d, SArr([], len)))
    case Func(r, ps, va) => Declare(r, WithSuf(d, SFun(DeclareParams(ps), va)))
    case _ => d
  }
  function DeclareParams(ps: seq<Named>): seq<Param>
    decreases ps
  {
    if ps == [] then [] else [DeclareParam(ps[0])] + DeclareParams(ps[1..])
  }
  function DeclareParam(p: Named): Param
    decreases p
  {
    Param(BaseOf(p.t), Declare(p.t, Decl([], Name(p.name), [])))
  }

  /** An object of the type has a size. */
  predicate Sized(t: Type) {
    match t
    case Void => false
    case Arith(_) => true
    case Pointer(_, _) => true
    case Array(e, len) => len.Some? && Sized(e)
    case Func(_, _, _) => false
  }

  /** Types that C11 lets a declarator make without _Atomic, with their parameter types already
      adjusted. */
  predicate Declarable(t: Type) {
    match t
    case Pointer(to, q) => Declarable(to) && !q.atomic_
    case Array(e, len) => Declarable(e) && Sized(e) && len != Some(0)
    case Func(r, ps, va) =>
      && Declarable(r) && !r.Func? && !r.Array? && (va ==> ps != [])
      && Distinct(ps) && (forall i :: 0 <= i < |ps| ==> DeclarableParam(ps[i]))
    case _ => true
  }
  predicate DeclarableParam(p: Named)
    decreases p
  {
    Declarable(p.t) && !p.t.Void? && !p.t.Array? && !p.t.Func?
  }

  lemma {:induction false} QualsBack(q: Quals)
    requires !q.atomic_
    ensures QualsOf(QualSeq(q), NoQuals) == q && Atomic !in QualSeq(q)
  {
  }

  /** Nothing but lengths between brackets, no _Atomic, no list where a group could stand. */
  predicate NoSkips(d: Decl)
    decreases d
  {
    && !AtomicIn(d.ptrs) && !ListFirst(d)
    && (d.head.Group? ==> NoSkips(d.head.d))
    && (forall i :: 0 <= i < |d.sufs| ==> NoSkipSuf(d.sufs[i]))
  }
  predicate NoSkipSuf(s: Suffix)
    decreases s
  {
    match s
    case SArr(skip, _) => skip == []
    case SFun(ps, _) => forall i :: 0 <= i < |ps| ==> NoSkips(ps[i].d)
  }

  lemma {:induction false} PlainIsBare(d: Decl)
    requires NoSkips(d) && Plain(d)
    ensures Bare(d)
    decreases d
  {
    if d.head.Group? { PlainIsBare(d.head.d); }
  }

  lemma {:induction false} Readable(d: Decl)
    requires NoSkips(d)
    ensures !Unreadable(d)
    decreases d
  {
    hide AtomicIn, ListFirst;
    if d.head.Group? { Readable(d.head.d); }
    SufsReadable(d.sufs);
  }

  lemma {:induction false} SufsReadable(sufs: seq<Suffix>)
    requires forall i :: 0 <= i < |sufs| ==> NoSkipSuf(sufs[i])
    ensures !UnreadableSufs(sufs)
    decreases sufs
  {
    hide UnreadableParams, Plain, Bare;
    if sufs != [] {
      SufsReadable(sufs[1..]);
      assert NoSkipSuf(sufs[0]);
      if sufs[0].SFun? { ParamsReadable(sufs[0].ps); }
    }
  }

  lemma {:induction false} ParamsReadable(ps: seq<Param>)
    requires forall i :: 0 <= i < |ps| ==> NoSkips(ps[i].d)
    ensures !UnreadableParams(ps) && forall i :: 0 <= i < |ps| ==> !TakenForVoid(ps[i])
    decreases ps
  {
    hide Unreadable, Plain, Bare, NoSkips;
    if ps != [] {
      ParamReadable(ps[0]);
      ParamsReadable(ps[1..]);
    }
  }

  lemma {:induction false} ParamReadable(p: Param)
    requires NoSkips(p.d)
    ensures !UnreadableParam(p) && !TakenForVoid(p)
    decreases p
  {
    hide Plain, Bare;
    Readable(p.d);
    if Plain(p.d) { PlainIsBare(p.d); }
  }

  lemma {:induction false} NothingDropped(d: Decl)
    requires NoSkips(d)
    ensures Dropped(d) == 0 && OuterQuals(d) == NoQuals
    decreases d
  {
    if d.head.Group? { NothingDropped(d.head.d); }
    SufsDropNothing(d.sufs);
  }

  lemma {:induction false} SufsDropNothing(sufs: seq<Suffix>)
    requires forall i :: 0 <= i < |sufs| ==> NoSkipSuf(sufs[i])
    ensures DroppedSufs(sufs) == 0
    decreases sufs
  {
    if sufs != [] {
      SufsDropNothing(sufs[1..]);
      assert NoSkipSuf(sufs[0]);
      if sufs[0].SFun? { ParamsDropNothing(sufs[0].ps); }
    }
  }

  lemma {:induction false} ParamsDropNothing(ps: seq<Param>)
    requires forall i :: 0 <= i < |ps| ==> NoSkips(ps[i].d)
    ensures DroppedParams(ps) == 0
    decreases ps
  {
    if ps != [] {
      ParamDropsNothing(ps[0]);
      ParamsDropNothing(ps[1..]);
    }
  }

  lemma {:induction false} ParamDropsNothing(p: Param)
    requires NoSkips(p.d)
    ensures DroppedParam(p) == 0
    decreases p
  {
    NothingDropped(p.d);
  }

  lemma {:induction false} SufsSnoc(sufs: seq<Suffix>, s: Suffix, t: Type, first: bool)
    requires NoSkipSuf(s)
    ensures MeanSufs(sufs + [s], t, first) == var t1 := MeanSuf(s, t, false);
      if t1.None? then None else MeanSufs(sufs, t1.value, first)
    decreases |sufs|
  {
    var t1 := MeanSuf(s, t, false);
    if sufs == [] {
      assert sufs + [s] == [s] && [s][1..] == [];
      assert MeanSufs([], t, false) == Some(t);
    } else {
      assert (sufs + [s])[1..] == sufs[1..] + [s];
      SufsSnoc(sufs[1..], s, t, false);
    }
  }

  lemma WithSufMeans(d: Decl, s: Suffix, t: Type, param: bool)
    requires MeanSuf(s, t, false).Some? && NoSkipSuf(s)
    ensures Mean(WithSuf(d, s), t, param) == Mean(d, MeanSuf(s, t, false).value, param)
  {
    hide MeanSuf, NoSkipSuf;
    if d.ptrs == [] { SufsSnoc(d.sufs, s, t, param && BareHead(d.head)); }
    else {
      assert [s][1..] == [];
      assert MeanSufs([], t, false) == Some(t);
      SufsSnoc([], s, t, false);
      assert [] + [s] == [s];
      assert MeanSufs([s], t, false) == MeanSuf(s, t, false);
      assert Pointers([], t) == t && !BareHead(Group(d));
    }
  }

  /** A declarator may be put inside of one for a type of this kind. */
  predicate Fits(d: Decl, t: Type) {
    WF(d) && NoSkips(d) && (d.ptrs == [] && d.sufs == [] && d.head.Name? && d.head.x == "" ==> !t.Func?)
  }

  lemma WithSufFits(d: Decl, s: Suffix, t: Type)
    requires Fits(d, t) && WFSuf(s) && NoSkipSuf(s) && (s.SArr? || t.Func?)
    ensures WF(WithSuf(d, s)) && NoSkips(WithSuf(d, s))
  {
    var d1 := WithSuf(d, s);
    forall i | 0 <= i < |d1.sufs|
      ensures WFSuf(d1.sufs[i]) && NoSkipSuf(d1.sufs[i]) {
      if d.ptrs == [] && i < |d.sufs| { assert d1.sufs[i] == d.sufs[i]; } }
  }

  /** The declarator written for a type declares it. */
  lemma {:induction false} DeclareMeans(t: Type, d: Decl, param: bool)
    requires Declarable(t) && Fits(d, t)
    ensures Mean(Declare(t, d), BaseOf(t), param) == Mean(d, t, param) && WF(Declare(t, d)) && NoSkips(Declare(t, d))
    decreases t
  {
    hide Mean, MeanSuf, WithSuf, WF, NoSkips;
    match t
    case Pointer(to, q) =>
      var d1 := d.(ptrs := [QualSeq(q)] + d.ptrs);
      WithPointer(d, q, to, param);
      DeclareMeans(to, d1, param);
    case Array(e, len) =>
      var s := SArr([], len);
      ArrayMeans(len, e);
      WithSufFits(d, s, t);
      WithSufMeans(d, s, e, param);
      WithSufNext(d, s, e);
      DeclareMeans(e, WithSuf(d, s), param);
    case Func(r, ps, va) =>
      var s := SFun(DeclareParams(ps), va);
      DeclareParamsMean(ps);
      FuncMeans(ps, va, r);
      WithSufFits(d, s, t);
      WithSufMeans(d, s, r, param);
      WithSufNext(d, s, r);
      DeclareMeans(r, WithSuf(d, s), param);
    case _ =>
  }

  lemma WithPointer(d: Decl, q: Quals, to: Type, param: bool)
    requires Fits(d, Pointer(to, q)) && !q.atomic_
    ensures var d1 := d.(ptrs := [QualSeq(q)] + d.ptrs);
      Fits(d1, to) && Mean(d1, to, param) == Mean(d, Pointer(to, q), param)
  {
    var d1 := d.(ptrs := [QualSeq(q)] + d.ptrs);
    QualsBack(q);
    assert d1.ptrs[1..] == d.ptrs;
    assert WF(d1) && NoSkips(d1);
  }

  lemma ArrayMeans(len: Option<nat>, e: Type)
    requires Sized(e) && len != Some(0)
    ensures MeanSuf(SArr([], len), e, false) == Some(Array(e, len)) && WFSuf(SArr([], len)) && NoSkipSuf(SArr([], len))
  {
  }

  lemma WithSufNext(d: Decl, s: Suffix, t: Type)
    requires WF(WithSuf(d, s)) && NoSkips(WithSuf(d, s))
    ensures Fits(WithSuf(d, s), t)
  {
  }

  lemma FuncMeans(ps: seq<Named>, va: bool, r: Type)
    requires !r.Func? && !r.Array? && MeanParams(DeclareParams(ps)) == Some(ps)
      && (forall i :: 0 <= i < |ps| ==> !ps[i].t.Void?) && Distinct(ps)
    ensures MeanSuf(SFun(DeclareParams(ps), va), r, false) == Some(Func(r, ps, va))
  {
  }

  lemma {:induction false} DeclareParamsMean(ps: seq<Named>)
    requires forall i :: 0 <= i < |ps| ==> DeclarableParam(ps[i])
    ensures MeanParams(DeclareParams(ps)) == Some(ps) && |DeclareParams(ps)| == |ps|
    ensures forall i :: 0 <= i < |ps| ==> WF(DeclareParams(ps)[i].d) && NoSkips(DeclareParams(ps)[i].d)
    decreases ps
  {
    hide MeanParam, DeclareParam, Mean, WF, NoSkips;
    if ps != [] {
      DeclareParamMeans(ps[0]);
      DeclareParamsMean(ps[1..]);
      var qs := DeclareParams(ps);
      assert qs[1..] == DeclareParams(ps[1..]) && qs[0] == DeclareParam(ps[0]);
      assert [ps[0]] + ps[1..] == ps;
      forall i | 0 <= i < |ps|
        ensures WF(qs[i].d) && NoSkips(qs[i].d) { if i > 0 { assert qs[i] == DeclareParams(ps[1..])[i - 1]; } }
    }
  }

  lemma NameMeans(x: string, t: Type, param: bool)
    ensures Mean(Decl([], Name(x), []), t, param) == Some((x, t))
  {
    assert MeanSufs([], t, param) == Some(t) && Pointers([], t) == t;
  }

  lemma {:induction false} DeclareParamMeans(p: Named)
    requires DeclarableParam(p)
    ensures MeanParam(DeclareParam(p)) == Some(p) && WF(DeclareParam(p).d) && NoSkips(DeclareParam(p).d)
    decreases p
  {
    var d := Decl([], Name(p.name), []);
    NameMeans(p.name, p.t, true);
    DeclareMeans(p.t, d, true);
    NothingDropped(Declare(p.t, d));
  }

  /** Round trip: what is written for a declarable type is parsed back to its name and type. */
  lemma {:induction false} TypeRoundTrip(t: Type, x: string, post: seq<Token>)
    requires Declarable(t) && (t.Func? ==> x != "") && Stops(post)
    ensures ParseDeclarator(Toks(Declare(t, Decl([], Name(x), []))) + post, BaseOf(t)) == Some(Parsed(x, t, post))
  {
    var d := Decl([], Name(x), []);
    NameMeans(x, t, false);
    DeclareMeans(t, d, false);
    NothingDropped(Declare(t, d));
    Readable(Declare(t, d));
    LegalIsClean(Declare(t, d), BaseOf(t), false);
    DeclaratorExact(Declare(t, d), BaseOf(t), post);
  }

  /* Only declarable types are declared. */

  /** The parser asks for a complete type: for a declarable type, that is one with a size. */
  lemma {:induction false} CompleteIsSized(t: Type)
    requires Declarable(t)
    ensures (Complete(t) <==> Sized(t)) && (Sized(t) <==> !t.Func? && !Incomplete(t))
  {
  }

  /** The types of all parameters, at any depth, start from declarable ones. */
  predicate SpecsDeclarable(d: Decl)
    decreases d
  {
    && (d.head.Group? ==> SpecsDeclarable(d.head.d))
    && forall i :: 0 <= i < |d.sufs| ==> SpecsDeclarableIn(d.sufs[i])
  }
  predicate SpecsDeclarableIn(s: Suffix)
    decreases s
  {
    s.SFun? ==> forall i :: 0 <= i < |s.ps| ==> Declarable(s.ps[i].spec) && SpecsDeclarable(s.ps[i].d)
  }

  lemma {:induction false} PointersDeclarable(ptrs: seq<seq<Qual>>, t: Type)
    requires Declarable(t) && !AtomicIn(ptrs)
    ensures Declarable(Pointers(ptrs, t))
    decreases |ptrs|
  {
    if ptrs != [] {
      AtomicNext(ptrs);
      PointersDeclarable(ptrs[1..], Pointer(t, QualsOf(ptrs[0], NoQuals)));
    }
  }

  /** What a legal declarator declares over a declarable type is declarable: arrays of sized elements,
      functions that return neither array nor function, adjusted parameters with different names. */
  lemma {:induction false} MeanDeclarable(d: Decl, t: Type, param: bool)
    requires WF(d) && !Unreadable(d) && SpecsDeclarable(d) && Declarable(t) && Mean(d, t, param).Some?
    ensures Declarable(Mean(d, t, param).value.1)
    decreases d
  {
    hide AtomicIn, MeanSufs, Declarable, UnreadableSufs, BareHead;
    PointersDeclarable(d.ptrs, t);
    var t0, first := Pointers(d.ptrs, t), param && BareHead(d.head);
    SufsDeclarable(d.sufs, t0, first);
    if d.head.Group? { MeanDeclarable(d.head.d, MeanSufs(d.sufs, t0, first).value, param); }
  }

  lemma {:induction false} SufsDeclarable(sufs: seq<Suffix>, t: Type, first: bool)
    requires (forall i :: 0 <= i < |sufs| ==> WFSuf(sufs[i]) && SpecsDeclarableIn(sufs[i])) && !UnreadableSufs(sufs)
    requires Declarable(t) && MeanSufs(sufs, t, first).Some?
    ensures Declarable(MeanSufs(sufs, t, first).value)
    decreases sufs
  {
    hide Declarable, MeanSuf, WFSuf, SpecsDeclarableIn, UnreadableSuf;
    if sufs != [] {
      SufsDeclarable(sufs[1..], t, false);
      assert WFSuf(sufs[0]) && SpecsDeclarableIn(sufs[0]);
      SufDeclarable(sufs[0], MeanSufs(sufs[1..], t, false).value, first);
    }
  }

  lemma {:induction false} SufDeclarable(s: Suffix, t: Type, first: bool)
    requires WFSuf(s) && SpecsDeclarableIn(s) && !UnreadableSuf(s) && Declarable(t) && MeanSuf(s, t, first).Some?
    ensures Declarable(MeanSuf(s, t, first).value)
    decreases s
  {
    hide MeanParams, SkipOK, UnreadableParams;
    match s
    case SArr(_, _) => CompleteIsSized(t);
    case SFun(ps, _) => ParamsDeclarable(ps);
  }

  lemma {:induction false} ParamsDeclarable(ps: seq<Param>)
    requires forall i :: 0 <= i < |ps| ==> WF(ps[i].d) && Declarable(ps[i].spec) && SpecsDeclarable(ps[i].d)
    requires !UnreadableParams(ps) && MeanParams(ps).Some?
    ensures |MeanParams(ps).value| == |ps|
    ensures forall i :: 0 <= i < |ps| ==> !MeanParams(ps).value[i].t.Void? ==> DeclarableParam(MeanParams(ps).value[i])
    decreases ps
  {
    hide MeanParam, UnreadableParam, Declarable, SpecsDeclarable, WF, DeclarableParam;
    if ps != [] {
      ParamDeclarable(ps[0]);
      ParamsDeclarable(ps[1..]);
    }
  }

  lemma {:induction false} ParamDeclarable(p: Param)
    requires WF(p.d) && Declarable(p.spec) && SpecsDeclarable(p.d) && !UnreadableParam(p) && MeanParam(p).Some?
    ensures !MeanParam(p).value.t.Void? ==> DeclarableParam(MeanParam(p).value)
    decreases p
  {
    hide Mean;
    MeanDeclarable(p.d, p.spec, true);
    OuterReadable(p.d);
  }

  /** No _Atomic between the outermost brackets. */
  lemma {:induction false} OuterReadable(d: Decl)
    requires !Unreadable(d)
    ensures !OuterQuals(d).atomic_
    decreases d
  {
    if !BareHead(d.head) { OuterReadable(d.head.d); }
    else if d.sufs != [] && d.sufs[0].SArr? { assert !UnreadableSuf(d.sufs[0]); }
  }

  /** So a clean declarator that the parser accepts declares a type that C can have. */
  lemma AcceptedDeclarable(d: Decl, t: Type, post: seq<Token>)
    requires WF(d) && Clean(d, false) && SpecsDeclarable(d) && Declarable(t) && Stops(post)
    ensures var r := ParseDeclarator(Toks(d) + post, t); r.Some? ==> Declarable(r.value.t)
  {
    hide Mean, Clean, ParseDeclarator, Toks, Unreadable, Take;
    DeclaratorTaken(d, t, post);
    if Unreadable(d) { UnreadableFails(d, t); } else {
      CleanAgrees(d, t, false);
      if Mean(d, t, false).Some? { MeanDeclarable(d, t, false); }
    }
  }

  /** `T *a[n]` is accepted for every type T. */
  lemma {:induction false} PointersInArray(x: string, t: Type, len: Option<nat>)
    requires x != ""
    ensures ParseDeclarator(Toks(Decl([[]], Name(x), [SArr([], len)])), t) ==
      Some(Parsed(x, Array(Pointer(t, NoQuals), len), []))
  {
    var d, s := Decl([[]], Name(x), [SArr([], len)]), SArr([], len);
    assert d.ptrs[1..] == [] && [s][1..] == [] && !AtomicIn(d.ptrs);
    assert Pointers([], Pointer(t, NoQuals)) == Pointer(t, NoQuals);
    assert TakeSufs([], Pointer(t, NoQuals)) == Some(Pointer(t, NoQuals));
    Parses(d, t);
  }

  /** `T a[n]` is accepted for a declarable T exactly when it has a size: not for void, functions and
      arrays of unknown size. */
  lemma {:induction false} ElementExactly(x: string, t: Type, len: Option<nat>)
    requires x != "" && Declarable(t)
    ensures ParseDeclarator(Toks(Decl([], Name(x), [SArr([], len)])), t) ==
      if Sized(t) then Some(Parsed(x, Array(t, len), [])) else None
  {
    var s := SArr([], len);
    TakeOne(x, s, t);
    CompleteIsSized(t);
    Parses(Named1(x, s), t);
  }
}
