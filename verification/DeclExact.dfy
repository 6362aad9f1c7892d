/** When the parser is right: which legal declarators it rejects, and in which shapes it accepts what
    it should not, or makes something else of it. */
module DeclExact {
  import opened Common
  import opened Declarators
  import opened DeclMeaning
  import opened DeclTaken

  /** No array of length zero, nothing between brackets but `static` where C has it, no suffix behind a
      parameter list, no abstract declarator that starts with one. */
  predicate Clean(d: Decl, param: bool)
    decreases d
  {
    && !ListFirst(d)
    && CleanSufs(d.sufs, param && BareHead(d.head))
    && (d.head.Group? ==> Clean(d.head.d, param))
  }
  predicate CleanSufs(sufs: seq<Suffix>, first: bool)
    decreases sufs
  {
    sufs == [] || (CleanSuf(sufs[0], first) && (sufs[1..] != [] ==> sufs[0].SArr?) && CleanSufs(sufs[1..], false))
  }
  predicate CleanSuf(s: Suffix, first: bool)
    decreases s
  {
    match s
    case SArr(skip, len) => len != Some(0) && (skip == [] || (first && skip == [Storage(Static)] && len.Some?))
    case SFun(ps, _) => CleanParams(ps)
  }
  predicate CleanParams(ps: seq<Param>)
    decreases ps, 1
  {
    ps == [] || (CleanParam(ps[0]) && CleanParams(ps[1..]))
  }
  predicate CleanParam(p: Param)
    decreases p
  {
    Clean(p.d, true)
  }
  function NameOf(d: Decl): string { match d.head case Name(x) => x case Group(d1) => NameOf(d1) }

  /** What the parser reports an error for, whatever the type: _Atomic, an abstract declarator that
      starts with parameters, and `void ()` among other parameters. */
  predicate Unreadable(d: Decl)
    decreases d
  {
    || AtomicIn(d.ptrs)
    || (ListFirst(d) && d.sufs[0].ps != [])
    || UnreadableSufs(d.sufs)
    || (d.head.Group? && Unreadable(d.head.d))
  }
  predicate UnreadableSufs(sufs: seq<Suffix>)
    decreases sufs
  {
    sufs != [] && (UnreadableSuf(sufs[0]) || UnreadableSufs(sufs[1..]))
  }
  predicate UnreadableSuf(s: Suffix)
    decreases s
  {
    match s
    case SArr(skip, _) => TQual(Atomic) in skip
    case SFun(ps, va) => UnreadableParams(ps) || ((|ps| > 1 || va) && exists i :: 0 <= i < |ps| && TakenForVoid(ps[i]))
  }
  predicate UnreadableParams(ps: seq<Param>)
    decreases ps, 1
  {
    ps != [] && (UnreadableParam(ps[0]) || UnreadableParams(ps[1..]))
  }
  predicate UnreadableParam(p: Param)
    decreases p
  {
    Unreadable(p.d)
  }

  /** Nothing that the parser applies. */
  predicate Plain(d: Decl) { d.ptrs == [] && Applied(d) == [] && (d.head.Group? ==> Plain(d.head.d)) }

  /** `void ()`, a function, is read as void. */
  predicate TakenForVoid(p: Param) { p.spec.Void? && Plain(p.d) && !Bare(p.d) }

  /** A function or array that is already there stays there, so a constraint on it is checked. */
  lemma {:induction false} SufsKind(sufs: seq<Suffix>, t: Type, first: bool)
    requires MeanSufs(sufs, t, first).Some? && sufs != []
    ensures !t.Func? && (t.Array? ==> forall i :: 0 <= i < |sufs| ==> sufs[i].SArr?)
    decreases |sufs|
  {
    if |sufs| > 1 { SufsKind(sufs[1..], t, false); }
  }

  /** A suffix behind a parameter list always violates a constraint. */
  lemma {:induction false} SplitIsIllegal(sufs: seq<Suffix>, t: Type, first: bool, i: nat)
    requires i + 1 < |sufs| && sufs[i].SFun?
    ensures MeanSufs(sufs, t, first).None?
    decreases i
  {
    if i > 0 { SplitIsIllegal(sufs[1..], t, false, i - 1); }
    else {
      var t1 := MeanSufs(sufs[1..], t, false);
      assert t1.Some? ==> t1 == MeanSuf(sufs[1], MeanSufs(sufs[1..][1..], t, false).value, false);
    }
  }

  /* Clean declarators: the parser follows the standard. */

  lemma {:induction false} CleanAgrees(d: Decl, t: Type, param: bool)
    requires Clean(d, param) && !Unreadable(d)
    ensures Take(d, t) == Mean(d, t, param)
    decreases d
  {
    hide TakeSufs, MeanSufs, CleanSufs, BareHead, AtomicIn, UnreadableSufs;
    var t0, first := Pointers(d.ptrs, t), param && BareHead(d.head);
    CleanSufsAgree(d.sufs, t0, first);
    if d.head.Group? && TakeSufs(d.sufs, t0).Some? { CleanAgrees(d.head.d, TakeSufs(d.sufs, t0).value, param); }
  }

  lemma {:induction false} CleanSufsAgree(sufs: seq<Suffix>, t: Type, first: bool)
    requires CleanSufs(sufs, first) && !UnreadableSufs(sufs)
    ensures TakeSufs(sufs, t) == MeanSufs(sufs, t, first)
    decreases sufs
  {
    hide TakeList, MeanParams, CleanParams, UnreadableParams;
    if sufs != [] {
      CleanSufsAgree(sufs[1..], t, false);
      assert CleanSuf(sufs[0], first) && !UnreadableSuf(sufs[0]);
      match sufs[0]
      case SArr(skip, len) =>
        if t.Func? && sufs[1..] != [] && MeanSufs(sufs[1..], t, false).Some? { SufsKind(sufs[1..], t, false); }
      case SFun(ps, va) =>
        assert MeanSufs(sufs[1..], t, false) == Some(t);
        CleanFun(ps, va, t, first);
    }
  }

  lemma {:induction false} CleanFun(ps: seq<Param>, va: bool, t: Type, first: bool)
    requires CleanParams(ps) && !UnreadableParams(ps)
    ensures MeanSuf(SFun(ps, va), t, first) ==
      var l := TakeList(ps, va); if t.Func? || t.Array? || l.None? then None else Some(Func(t, l.value.0, l.value.1))
    decreases ps, 2
  {
    hide TakeParams, MeanParams, Distinct;
    CleanParamsAgree(ps);
  }

  lemma {:induction false} CleanParamsAgree(ps: seq<Param>)
    requires CleanParams(ps) && !UnreadableParams(ps)
    ensures TakeParams(ps) == MeanParams(ps)
    decreases ps, 1
  {
    hide TakeParam, MeanParam;
    if ps != [] {
      CleanParamAgrees(ps[0]);
      CleanParamsAgree(ps[1..]);
    }
  }

  lemma {:induction false} CleanParamAgrees(p: Param)
    requires CleanParam(p) && !UnreadableParam(p)
    ensures TakeParam(p) == MeanParam(p)
    decreases p
  {
    CleanAgrees(p.d, p.spec, true);
    CleanOuter(p.d);
  }

  lemma {:induction false} CleanOuter(d: Decl)
    requires Clean(d, true)
    ensures OuterQuals(d) == NoQuals
    decreases d
  {
    if !BareHead(d.head) { CleanOuter(d.head.d); }
    else if d.sufs != [] && d.sufs[0].SArr? {
      assert CleanSuf(d.sufs[0], true);
      assert [Storage(Static)][1..] == [] && QualsIn([], NoQuals) == NoQuals;
    }
  }

  lemma {:induction false} PointersNotVoid(ptrs: seq<seq<Qual>>, t: Type)
    ensures ptrs != [] ==> Pointers(ptrs, t).Pointer?
    decreases |ptrs|
  {
    if ptrs != [] { PointersNotVoid(ptrs[1..], Pointer(t, QualsOf(ptrs[0], NoQuals))); }
  }

  /* Which types are void. */

  lemma {:induction false} TakeVoid(d: Decl, t: Type)
    requires Take(d, t).Some?
    ensures Take(d, t).value.1.Void? <==> t.Void? && Plain(d)
    ensures Take(d, t).value.0 == NameOf(d)
    decreases d
  {
    hide TakeList, AtomicIn, ListFirst, Applied;
    var t0 := Pointers(d.ptrs, t);
    var t1 := TakeSufs(Applied(d), t0).value;
    PointersNotVoid(d.ptrs, t);
    if d.head.Group? { TakeVoid(d.head.d, t1); }
  }

  lemma SufsNotVoid(sufs: seq<Suffix>, t: Type, first: bool)
    requires MeanSufs(sufs, t, first).Some?
    ensures MeanSufs(sufs, t, first).value.Void? <==> t.Void? && sufs == []
  {
    hide MeanParams, SkipOK;
    if sufs != [] { assert MeanSufs(sufs, t, first) == MeanSuf(sufs[0], MeanSufs(sufs[1..], t, false).value, first); }
  }

  lemma {:induction false} MeanVoid(d: Decl, t: Type, param: bool)
    requires Mean(d, t, param).Some?
    ensures Mean(d, t, param).value.1.Void? <==> t.Void? && Bare(d)
    ensures Mean(d, t, param).value.0 == NameOf(d)
    decreases d
  {
    hide MeanParams, SkipOK;
    var t0 := Pointers(d.ptrs, t);
    var t1 := MeanSufs(d.sufs, t0, param && BareHead(d.head)).value;
    PointersNotVoid(d.ptrs, t);
    SufsNotVoid(d.sufs, t0, param && BareHead(d.head));
    assert Bare(d) <==> d.ptrs == [] && d.sufs == [] && (d.head.Group? ==> Bare(d.head.d));
    if d.head.Group? { MeanVoid(d.head.d, t1, param); }
  }

  lemma {:induction false} NamedPlain(d: Decl)
    requires Plain(d) && NameOf(d) != ""
    ensures Bare(d)
    decreases d
  {
    if d.head.Group? { NamedPlain(d.head.d); }
  }

  /* Legal declarators are accepted, unless they are unreadable. */

  predicate SameKind(t: Type, t1: Type) { (Complete(t) <==> Complete(t1)) && (t.Func? <==> t1.Func?)
    && (t.Array? <==> t1.Array?) }

  lemma {:induction false} KindPointers(ptrs: seq<seq<Qual>>, t: Type, t1: Type)
    requires SameKind(t, t1)
    ensures SameKind(Pointers(ptrs, t), Pointers(ptrs, t1))
    decreases |ptrs|
  {
    if ptrs != [] {
      var q := QualsOf(ptrs[0], NoQuals);
      KindPointers(ptrs[1..], Pointer(t, q), Pointer(t1, q));
    }
  }

  lemma {:induction false} LegalTaken(d: Decl, t: Type, t1: Type, param: bool)
    requires SameKind(t, t1) && Mean(d, t, param).Some? && !Unreadable(d)
    ensures Take(d, t1).Some? && Take(d, t1).value.0 == Mean(d, t, param).value.0
    decreases d
  {
    hide SameKind, MeanSufs, TakeSufs, BareHead, AtomicIn, UnreadableSufs;
    var first := param && BareHead(d.head);
    KindPointers(d.ptrs, t, t1);
    if ListFirst(d) {
      TailLegal(d.sufs, Pointers(d.ptrs, t), first);
      LegalSufs(d.sufs[1..], Pointers(d.ptrs, t), Pointers(d.ptrs, t1), false);
    } else {
      LegalSufs(d.sufs, Pointers(d.ptrs, t), Pointers(d.ptrs, t1), first);
      if d.head.Group? { LegalTaken(d.head.d, MeanSufs(d.sufs, Pointers(d.ptrs, t), first).value,
        TakeSufs(d.sufs, Pointers(d.ptrs, t1)).value, param); }
    }
  }

  lemma TailLegal(sufs: seq<Suffix>, t: Type, first: bool)
    requires sufs != [] && MeanSufs(sufs, t, first).Some? && !UnreadableSufs(sufs)
    ensures MeanSufs(sufs[1..], t, false).Some? && !UnreadableSufs(sufs[1..])
  {
  }

  lemma {:induction false} LegalSufs(sufs: seq<Suffix>, t: Type, t1: Type, first: bool)
    requires SameKind(t, t1) && MeanSufs(sufs, t, first).Some? && !UnreadableSufs(sufs)
    ensures TakeSufs(sufs, t1).Some? && SameKind(MeanSufs(sufs, t, first).value, TakeSufs(sufs, t1).value)
    decreases sufs
  {
    hide MeanParams, TakeList, UnreadableParams, TakenForVoid;
    if sufs != [] {
      SufsKind(sufs, t, first);
      LegalSufs(sufs[1..], t, t1, false);
      assert !UnreadableSuf(sufs[0]);
      if sufs[0].SFun? { LegalList(sufs[0].ps, sufs[0].varargs, MeanSufs(sufs[1..], t, false).value, first); }
    }
  }

  lemma {:induction false} LegalList(ps: seq<Param>, va: bool, t: Type, first: bool)
    requires MeanSuf(SFun(ps, va), t, first).Some? && !UnreadableSuf(SFun(ps, va))
    ensures TakeList(ps, va).Some?
    decreases ps, 2
  {
    hide MeanParams, TakeParams, UnreadableParams, Plain, Bare;
    LegalParams(ps);
    var ms, ns := MeanParams(ps).value, TakeParams(ps).value;
    SameNames(ms, ns);
    if IsVoidList(ms, va) {
      assert ms[0].t.Void? && ns[0].t.Void?;
    } else if !IsVoidList(ns, va) {
      forall i | 0 <= i < |ns| ensures !ns[i].t.Void? {
        assert !ms[i].t.Void?;
        VoidPair(ps[i]);
      }
    }
  }

  lemma VoidPair(p: Param)
    ensures p.spec.Void? && Plain(p.d) && !Bare(p.d) ==> TakenForVoid(p)
  {
    hide Plain, Bare;
  }

  lemma SameNames(ms: seq<Named>, ns: seq<Named>)
    requires |ms| == |ns| && forall i :: 0 <= i < |ms| ==> ms[i].name == ns[i].name
    ensures Distinct(ms) ==> Distinct(ns)
  {
  }

  lemma {:induction false} LegalParams(ps: seq<Param>)
    requires MeanParams(ps).Some? && !UnreadableParams(ps)
    ensures TakeParams(ps).Some? && |TakeParams(ps).value| == |MeanParams(ps).value| == |ps|
    ensures forall i :: 0 <= i < |ps| ==>
      && TakeParams(ps).value[i].name == MeanParams(ps).value[i].name
      && (TakeParams(ps).value[i].t.Void? <==> ps[i].spec.Void? && Plain(ps[i].d))
      && (MeanParams(ps).value[i].t.Void? <==> ps[i].spec.Void? && Bare(ps[i].d))
      && (Bare(ps[i].d) ==> Plain(ps[i].d))
    decreases ps, 1
  {
    hide MeanParam, TakeParam, Plain, Bare;
    if ps != [] { LegalParam(ps[0]); LegalParams(ps[1..]); }
  }

  lemma {:induction false} BareIsPlain(d: Decl)
    requires Bare(d)
    ensures Plain(d)
    decreases d
  {
    if d.head.Group? { BareIsPlain(d.head.d); }
  }

  lemma {:induction false} LegalParam(p: Param)
    requires MeanParam(p).Some? && !UnreadableParam(p)
    ensures TakeParam(p).Some? && TakeParam(p).value.name == MeanParam(p).value.name
    ensures TakeParam(p).value.t.Void? <==> p.spec.Void? && Plain(p.d)
    ensures MeanParam(p).value.t.Void? <==> p.spec.Void? && Bare(p.d)
    ensures Bare(p.d) ==> Plain(p.d)
    decreases p
  {
    hide Plain, Bare, Unreadable, OuterQuals;
    LegalTaken(p.d, p.spec, p.spec, true);
    MeanVoid(p.d, p.spec, true);
    TakeVoid(p.d, p.spec);
    if Plain(p.d) && NameOf(p.d) != "" { NamedPlain(p.d); }
    if Bare(p.d) { BareIsPlain(p.d); }
  }

  /* Unreadable declarators are rejected. */

  lemma {:induction false} UnreadableFails(d: Decl, t: Type)
    requires WF(d) && Unreadable(d)
    ensures Take(d, t).None?
    decreases d
  {
    hide TakeSufs, AtomicIn, UnreadableSufs;
    var t0 := Pointers(d.ptrs, t);
    if UnreadableSufs(d.sufs) && !(ListFirst(d) && d.sufs[0].ps != []) {
      AppliedUnreadable(d);
      UnreadableSufsFail(Applied(d), t0);
    } else if d.head.Group? && Unreadable(d.head.d) && TakeSufs(Applied(d), t0).Some? {
      UnreadableFails(d.head.d, TakeSufs(Applied(d), t0).value);
    }
  }

  lemma AppliedUnreadable(d: Decl)
    requires WF(d) && UnreadableSufs(d.sufs) && !(ListFirst(d) && d.sufs[0].ps != [])
    ensures UnreadableSufs(Applied(d)) && forall i :: 0 <= i < |Applied(d)| ==> WFSuf(Applied(d)[i])
  {
    hide TakenForVoid;
    if ListFirst(d) { assert WFSuf(d.sufs[0]) && !UnreadableSuf(d.sufs[0]); }
  }

  lemma {:induction false} UnreadableSufsFail(sufs: seq<Suffix>, t: Type)
    requires (forall i :: 0 <= i < |sufs| ==> WFSuf(sufs[i])) && UnreadableSufs(sufs)
    ensures TakeSufs(sufs, t).None?
    decreases sufs
  {
    hide TakeList, TakenForVoid, UnreadableParams;
    assert WFSuf(sufs[0]);
    if UnreadableSufs(sufs[1..]) { UnreadableSufsFail(sufs[1..], t); }
    else if sufs[0].SFun? { UnreadableListFails(sufs[0].ps, sufs[0].varargs); }
  }

  lemma {:induction false} UnreadableListFails(ps: seq<Param>, va: bool)
    requires (forall i :: 0 <= i < |ps| ==> WF(ps[i].d)) && UnreadableSuf(SFun(ps, va))
    ensures TakeList(ps, va).None?
    decreases ps, 2
  {
    hide TakeParams, TakeParam, UnreadableParams, Distinct;
    if UnreadableParams(ps) { UnreadableParamsFail(ps); }
    else if TakeParams(ps).Some? {
      var i :| 0 <= i < |ps| && TakenForVoid(ps[i]);
      TakenAt(ps, i);
      TakenVoid(ps[i]);
      assert TakeParams(ps).value[i].t.Void?;
    }
  }

  lemma TakenVoid(p: Param)
    requires TakenForVoid(p) && TakeParam(p).Some?
    ensures TakeParam(p).value.t.Void?
  {
    hide Plain, Bare, Take;
    TakeVoid(p.d, p.spec);
  }

  lemma {:induction false} TakenAt(ps: seq<Param>, i: nat)
    requires TakeParams(ps).Some? && i < |ps|
    ensures |TakeParams(ps).value| == |ps| && TakeParam(ps[i]) == Some(TakeParams(ps).value[i])
    decreases ps
  {
    hide TakeParam;
    if |ps| > 1 { TakenAt(ps[1..], if i > 0 then i - 1 else 0); } else { assert ps[1..] == []; }
  }

  lemma {:induction false} UnreadableParamsFail(ps: seq<Param>)
    requires (forall i :: 0 <= i < |ps| ==> WF(ps[i].d)) && UnreadableParams(ps)
    ensures TakeParams(ps).None?
    decreases ps, 1
  {
    hide TakeParam, UnreadableParam;
    if UnreadableParam(ps[0]) { UnreadableParamFails(ps[0]); } else { UnreadableParamsFail(ps[1..]); }
  }

  lemma {:induction false} UnreadableParamFails(p: Param)
    requires WF(p.d) && UnreadableParam(p)
    ensures TakeParam(p).None?
    decreases p
  {
    UnreadableFails(p.d, p.spec);
  }

  /* Qualifiers between brackets are dropped, and so are empty lists that are read as groups. To see that
     the type then differs, qualifiers and functions are counted. */

  function Count(q: Quals): nat { (if q.const_ then 1 else 0) + (if q.restrict_ then 1 else 0) + (if q.volatile_ then
    1 else 0) + if q.atomic_ then 1 else 0 }

  /** The qualifiers and functions in a type. */
  function Weight(t: Type): nat {
    match t
    case Pointer(to, q) => Weight(to) + Count(q)
    case Array(e, _) => Weight(e)
    case Func(r, ps, _) => 1 + Weight(r) + Weights(ps)
    case _ => 0
  }
  function Weights(ps: seq<Named>): nat
    decreases ps
  {
    if ps == [] then 0 else NamedWeight(ps[0]) + Weights(ps[1..])
  }
  function NamedWeight(p: Named): nat
    decreases p
  {
    Weight(p.t)
  }

  /** The qualifiers of the pointers in a declarator, and of the types that it names. */
  function PtrQuals(ptrs: seq<seq<Qual>>): nat { if ptrs == [] then 0
    else Count(QualsOf(ptrs[0], NoQuals)) + PtrQuals(ptrs[1..]) }

  function Written(d: Decl): nat
    decreases d
  {
    PtrQuals(d.ptrs) + WrittenSufs(Applied(d)) + if d.head.Group? then Written(d.head.d) else 0
  }
  function WrittenSufs(sufs: seq<Suffix>): nat
    decreases sufs
  {
    if sufs == [] then 0 else WrittenSuf(sufs[0]) + WrittenSufs(sufs[1..])
  }
  function WrittenSuf(s: Suffix): nat
    decreases s
  {
    if s.SFun? then 1 + WrittenParams(s.ps) else 0
  }
  function WrittenParams(ps: seq<Param>): nat
    decreases ps, 1
  {
    if ps == [] then 0 else WrittenParam(ps[0]) + WrittenParams(ps[1..])
  }
  function WrittenParam(p: Param): nat
    decreases p
  {
    Weight(p.spec) + Written(p.d)
  }

  /** The qualifiers between the brackets of parameters. */
  function Dropped(d: Decl): nat
    decreases d
  {
    DroppedSufs(d.sufs) + (if ListFirst(d) then WrittenSuf(d.sufs[0]) else 0) + if d.head.Group? then
      Dropped(d.head.d) else 0
  }
  function DroppedSufs(sufs: seq<Suffix>): nat
    decreases sufs
  {
    if sufs == [] then 0 else DroppedSuf(sufs[0]) + DroppedSufs(sufs[1..])
  }
  function DroppedSuf(s: Suffix): nat
    decreases s
  {
    if s.SFun? then DroppedParams(s.ps) else 0
  }
  function DroppedParams(ps: seq<Param>): nat
    decreases ps, 1
  {
    if ps == [] then 0 else DroppedParam(ps[0]) + DroppedParams(ps[1..])
  }
  function DroppedParam(p: Param): nat
    decreases p
  {
    Count(OuterQuals(p.d)) + Dropped(p.d)
  }

  lemma {:induction false} PointersWeight(ptrs: seq<seq<Qual>>, t: Type)
    ensures Weight(Pointers(ptrs, t)) == Weight(t) + PtrQuals(ptrs)
    decreases |ptrs|
  {
    if ptrs != [] { PointersWeight(ptrs[1..], Pointer(t, QualsOf(ptrs[0], NoQuals))); }
  }

  lemma {:induction false} TakeWeight(d: Decl, t: Type)
    requires Take(d, t).Some?
    ensures Weight(Take(d, t).value.1) == Weight(t) + Written(d)
    decreases d
  {
    hide TakeSufs, WrittenSufs, PtrQuals, Weight, AtomicIn;
    var t0 := Pointers(d.ptrs, t);
    PointersWeight(d.ptrs, t);
    TakeSufsWeight(Applied(d), t0);
    if d.head.Group? { TakeWeight(d.head.d, TakeSufs(Applied(d), t0).value); }
  }

  lemma {:induction false} TakeSufsWeight(sufs: seq<Suffix>, t: Type)
    requires TakeSufs(sufs, t).Some?
    ensures Weight(TakeSufs(sufs, t).value) == Weight(t) + WrittenSufs(sufs)
    decreases sufs
  {
    hide TakeList, Weights, WrittenParams;
    if sufs != [] {
      TakeSufsWeight(sufs[1..], t);
      if sufs[0].SFun? { TakeListWeight(sufs[0].ps, sufs[0].varargs); }
    }
  }

  lemma {:induction false} TakeListWeight(ps: seq<Param>, va: bool)
    requires TakeList(ps, va).Some?
    ensures Weights(TakeList(ps, va).value.0) == WrittenParams(ps)
    decreases ps, 2
  {
    hide TakeParams;
    TakeParamsWeight(ps);
    var ms := TakeParams(ps).value;
    if IsVoidList(ms, va) { assert ms[1..] == [] && NamedWeight(ms[0]) == 0; }
  }

  lemma {:induction false} TakeParamsWeight(ps: seq<Param>)
    requires TakeParams(ps).Some?
    ensures Weights(TakeParams(ps).value) == WrittenParams(ps)
    decreases ps, 1
  {
    hide TakeParam, WrittenParam, NamedWeight;
    if ps != [] {
      TakeParamWeight(ps[0]);
      TakeParamsWeight(ps[1..]);
      assert ([TakeParam(ps[0]).value] + TakeParams(ps[1..]).value)[1..] == TakeParams(ps[1..]).value;
    }
  }

  lemma {:induction false} TakeParamWeight(p: Param)
    requires TakeParam(p).Some?
    ensures NamedWeight(TakeParam(p).value) == WrittenParam(p)
    decreases p
  {
    hide Weights;
    TakeWeight(p.d, p.spec);
  }

  lemma {:induction false} MeanWeight(d: Decl, t: Type, param: bool)
    requires Mean(d, t, param).Some?
    ensures Weight(Mean(d, t, param).value.1) == Weight(t) + Written(d) + Dropped(d)
    decreases d
  {
    hide MeanSufs, WrittenSufs, DroppedSufs, PtrQuals, Weight, BareHead, WrittenSuf;
    AppliedWritten(d);
    var t0, first := Pointers(d.ptrs, t), param && BareHead(d.head);
    PointersWeight(d.ptrs, t);
    MeanSufsWeight(d.sufs, t0, first);
    if d.head.Group? { MeanWeight(d.head.d, MeanSufs(d.sufs, t0, first).value, param); }
  }

  lemma AppliedWritten(d: Decl)
    ensures WrittenSufs(d.sufs) == WrittenSufs(Applied(d)) + if ListFirst(d) then WrittenSuf(d.sufs[0]) else 0
  {
  }

  lemma {:induction false} MeanSufsWeight(sufs: seq<Suffix>, t: Type, first: bool)
    requires MeanSufs(sufs, t, first).Some?
    ensures Weight(MeanSufs(sufs, t, first).value) == Weight(t) + WrittenSufs(sufs) + DroppedSufs(sufs)
    decreases sufs
  {
    hide MeanParams, Weights, WrittenParams, DroppedParams, SkipOK;
    if sufs != [] {
      MeanSufsWeight(sufs[1..], t, false);
      if sufs[0].SFun? { MeanFunWeight(sufs[0].ps, sufs[0].varargs, MeanSufs(sufs[1..], t, false).value, first); }
    }
  }

  lemma {:induction false} MeanFunWeight(ps: seq<Param>, va: bool, t: Type, first: bool)
    requires MeanSuf(SFun(ps, va), t, first).Some?
    ensures var r := MeanSuf(SFun(ps, va), t, first).value;
      r.Func? && r.ret == t && Weights(r.params) == WrittenParams(ps) + DroppedParams(ps)
    decreases ps, 2
  {
    hide MeanParams;
    MeanParamsWeight(ps);
    var ms := MeanParams(ps).value;
    if IsVoidList(ms, va) { assert ms[1..] == [] && NamedWeight(ms[0]) == 0; }
  }

  lemma {:induction false} MeanParamsWeight(ps: seq<Param>)
    requires MeanParams(ps).Some?
    ensures Weights(MeanParams(ps).value) == WrittenParams(ps) + DroppedParams(ps)
    decreases ps, 1
  {
    hide MeanParam, WrittenParam, DroppedParam, NamedWeight;
    if ps != [] {
      MeanParamWeight(ps[0]);
      MeanParamsWeight(ps[1..]);
      assert ([MeanParam(ps[0]).value] + MeanParams(ps[1..]).value)[1..] == MeanParams(ps[1..]).value;
    }
  }

  lemma {:induction false} MeanParamWeight(p: Param)
    requires MeanParam(p).Some?
    ensures NamedWeight(MeanParam(p).value) == WrittenParam(p) + DroppedParam(p)
    decreases p
  {
    hide Weights, OuterQuals;
    MeanWeight(p.d, p.spec, true);
    var t := Mean(p.d, p.spec, true).value.1;
    OuterIsArray(p.d, p.spec);
  }

  /** Qualifiers between the outermost brackets make an array. */
  lemma {:induction false} OuterIsArray(d: Decl, t: Type)
    requires Mean(d, t, true).Some?
    ensures OuterQuals(d) == NoQuals || Mean(d, t, true).value.1.Array?
    decreases d
  {
    var t0, first := Pointers(d.ptrs, t), BareHead(d.head);
    var t1 := MeanSufs(d.sufs, t0, first).value;
    if d.sufs != [] && d.sufs[0].SArr? { assert MeanSufs(d.sufs, t0, first) ==
      MeanSuf(d.sufs[0], MeanSufs(d.sufs[1..], t0, false).value, first); }
    if !BareHead(d.head) { OuterIsArray(d.head.d, t1); }
    else if d.head.Group? { BareMeans(d.head.d, t1); }
  }

  lemma {:induction false} BareMeans(d: Decl, t: Type)
    requires Bare(d)
    ensures Mean(d, t, true) == Some((NameOf(d), t))
    decreases d
  {
    if d.head.Group? { BareMeans(d.head.d, t); }
  }

  /* What is legal, and drops no qualifier, is clean. */

  lemma {:induction false} LegalIsClean(d: Decl, t: Type, param: bool)
    requires WF(d) && Mean(d, t, param).Some? && Dropped(d) == 0 && (param ==> OuterQuals(d) == NoQuals)
    ensures Clean(d, param)
    decreases d
  {
    hide MeanSufs, CleanSufs, DroppedSufs;
    var t0, first := Pointers(d.ptrs, t), param && BareHead(d.head);
    LegalSufsClean(d.sufs, t0, first);
    if d.head.Group? {
      if param && BareHead(d.head) { BareOuter(d.head.d); }
      LegalIsClean(d.head.d, MeanSufs(d.sufs, t0, first).value, param);
    }
  }

  lemma {:induction false} BareOuter(d: Decl)
    requires Bare(d)
    ensures OuterQuals(d) == NoQuals
    decreases d
  {
  }

  lemma {:induction false} LegalSufsClean(sufs: seq<Suffix>, t: Type, first: bool)
    requires (forall i :: 0 <= i < |sufs| ==> WFSuf(sufs[i])) && MeanSufs(sufs, t, first).Some?
      && DroppedSufs(sufs) == 0
    requires first && sufs != [] && sufs[0].SArr? ==> QualsIn(sufs[0].skip, NoQuals) == NoQuals
    ensures CleanSufs(sufs, first)
    decreases sufs
  {
    hide MeanParams, SkipOK, DroppedParams, CleanParams;
    if sufs != [] {
      LegalSufsClean(sufs[1..], t, false);
      if sufs[0].SFun? && sufs[1..] != [] { SplitIsIllegal(sufs, t, first, 0); }
      assert WFSuf(sufs[0]);
      match sufs[0]
      case SArr(skip, len) => SkipClean(skip, len, first);
      case SFun(ps, va) => LegalParamsClean(ps, va, MeanSufs(sufs[1..], t, false).value, first);
    }
  }

  lemma SkipClean(skip: seq<Token>, len: Option<nat>, first: bool)
    requires SkipOK(skip, len, first) && (first ==> QualsIn(skip, NoQuals) == NoQuals)
    ensures skip == [] || (first && skip == [Storage(Static)] && len.Some?)
  {
    hide QualsIn;
    NoQualIn(skip);
    if first { OneStatic(skip, len); }
  }

  lemma OneStatic(skip: seq<Token>, len: Option<nat>)
    requires SkipOK(skip, len, true) && forall i :: 0 <= i < |skip| ==> !skip[i].TQual?
    ensures skip == [] || (skip == [Storage(Static)] && len.Some?)
  {
    if skip != [] {
      assert !skip[0].TQual? && !skip[if |skip| > 1 then 1 else 0].TQual?;
      assert |skip| == 1;
    }
  }

  /** A qualifier that is there is seen. */
  lemma NoQualIn(skip: seq<Token>)
    ensures QualsIn(skip, NoQuals) == NoQuals ==> forall i :: 0 <= i < |skip| ==> !skip[i].TQual?
  {
    forall i | 0 <= i < |skip| && skip[i].TQual? ensures QualsIn(skip, NoQuals) != NoQuals {
      assert skip[i] in skip;
      match skip[i].q case Const => case Restrict => case Volatile => case Atomic =>
    }
  }

  lemma {:induction false} LegalParamsClean(ps: seq<Param>, va: bool, t: Type, first: bool)
    requires (forall i :: 0 <= i < |ps| ==> WF(ps[i].d)) && MeanSuf(SFun(ps, va), t, first).Some?
      && DroppedParams(ps) == 0
    ensures CleanParams(ps)
    decreases ps, 3
  {
    hide MeanParams, CleanParams;
    var ms := MeanParams(ps).value;
    EachClean(ps);
  }

  lemma {:induction false} EachClean(ps: seq<Param>)
    requires (forall i :: 0 <= i < |ps| ==> WF(ps[i].d)) && MeanParams(ps).Some? && DroppedParams(ps) == 0
    ensures CleanParams(ps)
    decreases ps, 2
  {
    hide MeanParam, CleanParam, DroppedParam;
    if ps != [] {
      ParamClean(ps[0]);
      EachClean(ps[1..]);
    }
  }

  lemma {:induction false} ParamClean(p: Param)
    requires WF(p.d) && MeanParam(p).Some? && DroppedParam(p) == 0
    ensures CleanParam(p)
    decreases p
  {
    LegalIsClean(p.d, p.spec, true);
  }

  /** Of the legal declarators the parser rejects exactly the unreadable ones. What it accepts is right
      exactly when it is clean. */
  lemma DeclaratorExact(d: Decl, t: Type, post: seq<Token>)
    requires WF(d) && Stops(post)
    ensures var r, m := ParseDeclarator(Toks(d) + post, t), Out(Mean(d, t, false), post);
      && (m.Some? ==> (r.None? <==> Unreadable(d)))
      && (r.Some? ==> (r == m <==> Clean(d, false)))
  {
    hide Take, Mean, Clean, ParseDeclarator, Toks, Unreadable;
    DeclaratorTaken(d, t, post);
    if Unreadable(d) {
      UnreadableFails(d, t);
    } else {
      if Clean(d, false) { CleanAgrees(d, t, false); }
      if Mean(d, t, false).Some? {
        LegalTaken(d, t, t, false);
        TakeWeight(d, t);
        MeanWeight(d, t, false);
        if Take(d, t) == Mean(d, t, false) { LegalIsClean(d, t, false); }
      }
    }
  }

  /* One input for each shape. */

  lemma Parses(d: Decl, t: Type)
    requires WF(d)
    ensures ParseDeclarator(Toks(d), t) == Out(Take(d, t), [])
  {
    assert Toks(d) + [] == Toks(d);
    DeclaratorTaken(d, t, []);
  }

  function Named1(x: string, s: Suffix): Decl { Decl([], Name(x), [s]) }

  lemma {:induction false} TakeOne(x: string, s: Suffix, t: Type)
    requires x != "" || s.SArr?
    ensures Take(Named1(x, s), t) == (var t1 := TakeSufs([s], t); if t1.None? then None else Some((x, t1.value)))
    ensures TakeSufs([s][1..], t) == Some(t) && MeanSufs([s][1..], t, false) == Some(t)
    ensures Mean(Named1(x, s), t, false) == (var t1 := MeanSuf(s, t, false);
      if t1.None? then None else Some((x, t1.value)))
  {
    assert [s][1..] == [] && !AtomicIn([]);
  }

  /** `int a[0]`. */
  lemma {:induction false} ZeroLength(x: string, t: Type)
    requires Complete(t)
    ensures var d := Named1(x, SArr([], Some(0)));
      Mean(d, t, false).None? && ParseDeclarator(Toks(d), t) == Some(Parsed(x, Array(t, Some(0)), []))
  {
    TakeOne(x, SArr([], Some(0)), t);
    Parses(Named1(x, SArr([], Some(0))), t);
  }

  /** `int a[static 3]` outside of a parameter. */
  lemma {:induction false} StaticOutside(x: string, t: Type, n: nat)
    requires Complete(t)
    ensures var d := Named1(x, SArr([Storage(Static)], Some(n)));
      Mean(d, t, false).None? && ParseDeclarator(Toks(d), t) == Some(Parsed(x, Array(t, Some(n)), []))
  {
    TakeOne(x, SArr([Storage(Static)], Some(n)), t);
    Parses(Named1(x, SArr([Storage(Static)], Some(n))), t);
  }

  /** `int a[extern 3]`, also in a parameter. */
  lemma {:induction false} StorageClassBetween(x: string, c: StorageClass, t: Type, n: nat, param: bool)
    requires Complete(t) && c != Static
    ensures var d := Named1(x, SArr([Storage(c)], Some(n)));
      Mean(d, t, param).None? && ParseDeclarator(Toks(d), t) == Some(Parsed(x, Array(t, Some(n)), []))
  {
    var s := SArr([Storage(c)], Some(n));
    TakeOne(x, s, t);
    assert MeanSufs([s], t, param) == MeanSuf(s, t, param);
    NotSkip(c, Some(n), param);
    assert TakeSufs([s], t) == Some(Array(t, Some(n)));
    Parses(Named1(x, s), t);
  }

  lemma NotSkip(c: StorageClass, len: Option<nat>, first: bool)
    requires c != Static
    ensures !SkipOK([Storage(c)], len, first)
  {
    assert [Storage(c)][0] == Storage(c);
  }

  /** `int ()`, a function without a name, is read as `int`. */
  lemma {:induction false} EmptyListLost(t: Type)
    requires !t.Func? && !t.Array?
    ensures var d := Named1("", SFun([], false));
      Mean(d, t, false) == Some(("", Func(t, [], false))) && ParseDeclarator(Toks(d), t) == Some(Parsed("", t, []))
  {
    var s := SFun([], false);
    var d := Named1("", s);
    assert [s][1..] == [] && !AtomicIn([]);
    assert MeanSufs([], t, false) == Some(t) && MeanSufs([s], t, false) == MeanSuf(s, t, false);
    assert MeanParams([]) == Some([]) && Pointers([], t) == t && TakeSufs([], t) == Some(t);
    Parses(d, t);
  }

  /** So `int f(int, void ())` is rejected. */
  lemma {:induction false} VoidAmong(x: string, t: Type)
    requires x != "" && !t.Func? && !t.Array?
    ensures var ps := [Param(INT, Decl([], Name(""), [])), Param(Void, Named1("", SFun([], false)))];
      var d := Named1(x, SFun(ps, false)); Mean(d, t, false).Some? && ParseDeclarator(Toks(d), t).None?
  {
    hide Mean, Toks, ParseDeclarator, MeanParams, Unreadable, WF;
    var ps := [Param(INT, Decl([], Name(""), [])), Param(Void, Named1("", SFun([], false)))];
    var s := SFun(ps, false);
    TwoMeans();
    TakeOne(x, s, t);
    VoidUnreadable(x);
    UnreadableFails(Named1(x, s), t);
    Parses(Named1(x, s), t);
  }

  lemma {:induction false} TwoMeans()
    ensures var ps := [Param(INT, Decl([], Name(""), [])), Param(Void, Named1("", SFun([], false)))];
      MeanParams(ps).Some? && var ms := MeanParams(ps).value; |ms| == 2 && NoVoid(ms) && Distinct(ms)
  {
    var p, q := Param(INT, Decl([], Name(""), [])), Param(Void, Named1("", SFun([], false)));
    OneParam(p);
    OneParam(q);
    MeansListFirst(Void);
    assert MeanParam(p) == Some(Named("", INT));
    assert MeanParam(q).Some? && MeanParam(q).value.name == "" && MeanParam(q).value.t.Pointer?;
    assert [p, q][1..] == [q];
    assert MeanParams([p, q]) == Some([MeanParam(p).value] + [MeanParam(q).value]);
  }

  lemma {:induction false} VoidUnreadable(x: string)
    ensures var ps := [Param(INT, Decl([], Name(""), [])), Param(Void, Named1("", SFun([], false)))];
      WF(Named1(x, SFun(ps, false))) && Unreadable(Named1(x, SFun(ps, false)))
  {
    var p, q := Param(INT, Decl([], Name(""), [])), Param(Void, Named1("", SFun([], false)));
    var ps := [p, q];
    assert Plain(q.d) && !Bare(q.d);
    assert TakenForVoid(ps[1]);
    assert UnreadableSuf(SFun(ps, false));
    assert WF(p.d) && WFSuf(SFun([], false)) && WF(q.d);
    assert WFSuf(SFun(ps, false));
    assert UnreadableSufs(Named1(x, SFun(ps, false)).sufs);
  }

  lemma {:induction false} MeansListFirst(t: Type)
    requires !t.Func? && !t.Array?
    ensures Mean(Named1("", SFun([], false)), t, true) == Some(("", Func(t, [], false)))
  {
    var s := SFun([], false);
    assert [s][1..] == [] && Pointers([], t) == t && MeanSufs([], t, false) == Some(t);
    assert MeanParams([]) == Some([]) && MeanSufs([s], t, true) == MeanSuf(s, t, true);
  }

  /** `int (int)`, a function without a name, is rejected. */
  lemma {:induction false} ListRejected(p: Param, t: Type)
    requires WF(p.d) && MeanParam(p).Some? && !t.Func? && !t.Array?
    ensures var d := Named1("", SFun([p], false)); Mean(d, t, false).Some? && ParseDeclarator(Toks(d), t).None?
  {
    var s := SFun([p], false);
    assert [s][1..] == [];
    assert MeanSufs([], t, false) == Some(t) && MeanSufs([s], t, false) == MeanSuf(s, t, false);
    OneParam(p);
    assert Pointers([], t) == t;
    Parses(Named1("", s), t);
  }

  /** `int *_Atomic p` is rejected. */
  lemma {:induction false} AtomicRejected(x: string, t: Type)
    ensures var d := Decl([[Atomic]], Name(x), []);
      Mean(d, t, false) == Some((x, Pointer(t, NoQuals.(atomic_ := true)))) && ParseDeclarator(Toks(d), t).None?
  {
    var d := Decl([[Atomic]], Name(x), []);
    assert [Atomic][1..] == [] && [[Atomic]][1..] == [];
    assert Atomic in d.ptrs[0] && AtomicIn(d.ptrs);
    assert QualsOf([], NoQuals.(atomic_ := true)) == NoQuals.(atomic_ := true);
    assert QualsOf([Atomic], NoQuals) == NoQuals.(atomic_ := true);
    assert Pointers([], Pointer(t, NoQuals.(atomic_ := true))) == Pointer(t, NoQuals.(atomic_ := true));
    assert MeanSufs([], Pointers(d.ptrs, t), false) == Some(Pointers(d.ptrs, t));
    Parses(d, t);
  }

  /** A second parameter of the same name, and a named one of type void, are errors, as in C. */
  lemma {:induction false} DeclaredTwice(x: string, t: Type, t1: Type, va: bool)
    requires x != "" && !t.Void? && !t1.Void?
    ensures var ps := [Param(t, Decl([], Name(x), [])), Param(t1, Decl([], Name(x), []))];
      TakeList(ps, va).None? && forall r, first :: MeanSuf(SFun(ps, va), r, first).None?
    ensures var p := Param(Void, Decl([], Name(x), [])); TakeParam(p).None? && MeanParam(p).None?
  {
    var p, q := Param(t, Decl([], Name(x), [])), Param(t1, Decl([], Name(x), []));
    var ps := [p, q];
    NamedParam(x, t);
    NamedParam(x, t1);
    NamedParam(x, Void);
    OneParam(q);
    assert ps[1..] == [q];
    assert |TakeParams(ps).value| == 2 && TakeParams(ps).value[0].name == x == TakeParams(ps).value[1].name;
    NotDistinct(TakeParams(ps).value, x);
    if MeanParams(ps).Some? { NotDistinct(MeanParams(ps).value, x); }
  }

  lemma NotDistinct(ms: seq<Named>, x: string)
    requires |ms| == 2 && ms[0].name == x == ms[1].name && x != ""
    ensures !Distinct(ms)
  {
  }

  lemma NamedParam(x: string, t: Type)
    requires x != ""
    ensures var p := Param(t, Decl([], Name(x), []));
      if t.Void? then TakeParam(p).None? && MeanParam(p).None?
      else TakeParam(p) == Some(Named(x, MayCast(t))) && MeanParam(p).Some? && MeanParam(p).value.name == x
  {
    assert !AtomicIn([]) && Pointers([], t) == t && TakeSufs([], t) == Some(t) && MeanSufs([], t, true) == Some(t);
  }

  lemma {:induction false} OneParam(p: Param)
    ensures MeanParams([p]) == (var m := MeanParam(p); if m.None? then None else Some([m.value]))
    ensures TakeParams([p]) == (var m := TakeParam(p); if m.None? then None else Some([m.value]))
    ensures MeanSufs([], p.spec, true) == Some(p.spec) == TakeSufs([], p.spec) && Pointers([], p.spec) == p.spec
  {
    assert [p][1..] == [];
    assert MeanParams([]) == Some([]) && TakeParams([]) == Some([]);
    assert MeanParam(p).Some? ==> [MeanParam(p).value] + [] == [MeanParam(p).value];
    assert TakeParam(p).Some? ==> [TakeParam(p).value] + [] == [TakeParam(p).value];
  }

  /** `int f(int a[const])`: the parameter is a constant pointer, and is taken for a plain one. */
  lemma {:induction false} QualifierDropped(x: string, y: string, t: Type)
    requires x != "" && Complete(t) && !t.Array?
    ensures var d := Named1(x, SFun([Param(t, Named1(y, SArr([TQual(Const)], None)))], false));
      && Mean(d, t, false) == Some((x, Func(t, [Named(y, Pointer(t, NoQuals.(const_ := true)))], false)))
      && ParseDeclarator(Toks(d), t) == Some(Parsed(x, Func(t, [Named(y, Pointer(t, NoQuals))], false), []))
  {
    var a := SArr([TQual(Const)], None);
    var p := Param(t, Named1(y, a));
    OneParam(p);
    TakeOne(y, a, t);
    assert [TQual(Const)][1..] == [];
    assert OuterQuals(p.d) == NoQuals.(const_ := true);
    assert MeanSufs([a], t, true) == Some(Array(t, None));
    assert MeanParam(p) == Some(Named(y, Pointer(t, NoQuals.(const_ := true))));
    assert TakeSufs([a], t) == Some(Array(t, None));
    assert TakeParam(p) == Some(Named(y, Pointer(t, NoQuals)));
    TakeOne(x, SFun([p], false), t);
    assert WFSuf(a);
    assert WF(p.d);
    assert WFSuf(SFun([p], false));
    Parses(Named1(x, SFun([p], false)), t);
  }

  /** A suffix behind a parameter list is accepted exactly when the type in front of it is neither
      array nor function, and an array's element is complete: `int f()[3]` and `int f()()`. */
  lemma {:induction false} SplitTaken(x: string, ps: seq<Param>, va: bool, s: Suffix, t: Type)
    requires x != "" && WFSuf(SFun(ps, va)) && WFSuf(s)
    ensures var d := Decl([], Name(x), [SFun(ps, va), s]);
      Mean(d, t, false).None? && (ParseDeclarator(Toks(d), t).Some? <==>
        TakeList(ps, va).Some? && !t.Func? && !t.Array?
          && (if s.SArr? then Complete(t) && TQual(Atomic) !in s.skip else TakeList(s.ps, s.varargs).Some?))
  {
    hide TakeList, WFSuf;
    var d := Decl([], Name(x), [SFun(ps, va), s]);
    assert !AtomicIn([]);
    SplitIsIllegal(d.sufs, t, false, 0);
    assert d.sufs[1..] == [s];
    TakeOne(x, s, t);
    Parses(d, t);
  }

  /** `int f()[3]`: a function that returns an array. */
  lemma {:induction false} SplitIsAccepted(x: string, t: Type, n: nat)
    requires x != "" && Complete(t) && !t.Array?
    ensures var d := Decl([], Name(x), [SFun([], false), SArr([], Some(n))]);
      && WF(d) && Mean(d, t, false).None?
      && ParseDeclarator(Toks(d), t) == Some(Parsed(x, Func(Array(t, Some(n)), [], false), []))
  {
    var s := SArr([], Some(n));
    var d := Decl([], Name(x), [SFun([], false), s]);
    SplitIsIllegal(d.sufs, t, false, 0);
    assert d.sufs[1..] == [s];
    TakeOne(x, s, t);
    assert TakeSufs([s], t) == Some(Array(t, Some(n)));
    assert TakeList([], false) == Some(([], false));
    Parses(d, t);
  }
}
