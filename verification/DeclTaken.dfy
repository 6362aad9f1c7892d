/** The parser finds what the declarator trees say it makes of them. */
module DeclTaken {
  import opened Common
  import opened Declarators
  import opened DeclMeaning

  /** What may follow a declarator here. */
  predicate Stops(ts: seq<Token>) { Peek(ts).RParen? || Peek(ts).Comma? || Peek(ts).Eof? }

  /** A pointer with _Atomic is an error. */
  lemma {:induction false} QualsParsed(qs: seq<Qual>, post: seq<Token>, acc: Quals)
    requires !Peek(post).TQual?
    ensures ParseQuals(QualToks(qs) + post, acc) == if Atomic in qs then None else Some((QualsOf(qs, acc), post))
    decreases |qs|
  {
    hide QualsOf, AddQual;
    if qs == [] {
      assert QualToks(qs) + post == post;
      NoQualsNext(acc);
    }
    else {
      assert (QualToks(qs) + post)[1..] == QualToks(qs[1..]) + post;
      QualsParsed(qs[1..], post, AddQual(acc, qs[0]));
      QualsNext(qs, acc);
    }
  }

  lemma QualsNext(qs: seq<Qual>, acc: Quals)
    requires qs != []
    ensures QualsOf(qs, acc) == QualsOf(qs[1..], AddQual(acc, qs[0])) && (Atomic in qs <==> qs[0].Atomic? || Atomic in qs[1..])
  {
    assert qs == [qs[0]] + qs[1..];
  }

  lemma NoQualsNext(acc: Quals)
    ensures QualsOf([], acc) == acc
  {
  }

  lemma AtomicNext(ptrs: seq<seq<Qual>>)
    requires ptrs != []
    ensures AtomicIn(ptrs) <==> Atomic in ptrs[0] || AtomicIn(ptrs[1..])
  {
    if AtomicIn(ptrs) && Atomic !in ptrs[0] {
      var i :| 0 <= i < |ptrs| && Atomic in ptrs[i];
      assert Atomic in ptrs[1..][i - 1];
    }
    if AtomicIn(ptrs[1..]) {
      var i :| 0 <= i < |ptrs[1..]| && Atomic in ptrs[1..][i];
      assert Atomic in ptrs[i + 1];
    }
  }

  lemma {:induction false} PointersParsed(ptrs: seq<seq<Qual>>, post: seq<Token>, t: Type)
    requires !Peek(post).TQual? && Peek(post) != Star
    ensures ParsePointer(PtrToks(ptrs) + post, t) == if AtomicIn(ptrs) then None else Some((Pointers(ptrs, t), post))
    decreases |ptrs|
  {
    hide ParseQuals, QualToks, QualsOf, AtomicIn, AddQual;
    if ptrs == [] {
      assert PtrToks(ptrs) + post == post;
      NoPointers();
    } else {
      AtomicNext(ptrs);
      var rest := PtrToks(ptrs[1..]) + post;
      assert !Peek(rest).TQual?;
      assert (PtrToks(ptrs) + post)[1..] == QualToks(ptrs[0]) + rest;
      QualsParsed(ptrs[0], rest, NoQuals);
      PointersParsed(ptrs[1..], post, Pointer(t, QualsOf(ptrs[0], NoQuals)));
    }
  }

  lemma NoPointers()
    ensures !AtomicIn([])
  {
  }

  lemma {:induction false} SkipParsed(skip: seq<Token>, post: seq<Token>)
    requires (forall i :: 0 <= i < |skip| ==> skip[i].Storage? || skip[i].TQual?) && !IsSkip(Peek(post))
    ensures TQual(Atomic) !in skip ==> SkipSpecs(skip + post) == post
    ensures TQual(Atomic) in skip ==> Peek(SkipSpecs(skip + post)).TQual?
    decreases |skip|
  {
    if skip == [] { assert skip + post == post; }
    else {
      assert (skip + post)[1..] == skip[1..] + post;
      SkipParsed(skip[1..], post);
    }
  }

  lemma LengthParsed(s: Suffix, post: seq<Token>)
    requires s.SArr? && WFSuf(s)
    ensures Peek(SufToks(s) + post) == LSquare
    ensures ParseArrayLength((SufToks(s) + post)[1..]) == if TQual(Atomic) in s.skip then None
      else Some((s.len, [RSquare] + post))
  {
    hide SkipSpecs;
    var n := if s.len.Some? then [Num(s.len.value)] else [];
    assert (SufToks(s) + post)[1..] == s.skip + (n + ([RSquare] + post));
    SkipParsed(s.skip, n + ([RSquare] + post));
    if s.len.Some? { assert (n + ([RSquare] + post))[1..] == [RSquare] + post; }
    else { assert n + ([RSquare] + post) == [RSquare] + post; }
  }

  /** A base type at least as good as another one, as far as the checks look at it. */
  predicate AsGood(t: Type, t1: Type) { (Complete(t) ==> Complete(t1)) && (t1.Func? ==> t.Func?)
    && (t1.Array? ==> t.Array?) }

  /** The dummy type raises no error that the real one would not. */
  lemma {:induction false} DummyTaken(d: Decl, t: Type, t1: Type)
    requires AsGood(t, t1) && Take(d, t).Some?
    ensures Take(d, t1).Some? && Take(d, t1).value.0 == Take(d, t).value.0
    decreases d
  {
    hide AtomicIn, ListFirst, Applied;
    var sufs := Applied(d);
    DummyPointers(d.ptrs, t, t1);
    DummySufs(sufs, Pointers(d.ptrs, t), Pointers(d.ptrs, t1));
    if d.head.Group? { DummyTaken(d.head.d, TakeSufs(sufs, Pointers(d.ptrs, t)).value,
      TakeSufs(sufs, Pointers(d.ptrs, t1)).value); }
  }

  lemma {:induction false} DummyPointers(ptrs: seq<seq<Qual>>, t: Type, t1: Type)
    requires AsGood(t, t1)
    ensures AsGood(Pointers(ptrs, t), Pointers(ptrs, t1))
    decreases |ptrs|
  {
    if ptrs != [] {
      var q := QualsOf(ptrs[0], NoQuals);
      DummyPointers(ptrs[1..], Pointer(t, q), Pointer(t1, q));
    }
  }

  lemma {:induction false} DummySufs(sufs: seq<Suffix>, t: Type, t1: Type)
    requires AsGood(t, t1) && TakeSufs(sufs, t).Some?
    ensures TakeSufs(sufs, t1).Some? && AsGood(TakeSufs(sufs, t).value, TakeSufs(sufs, t1).value)
    decreases |sufs|
  {
    hide TakeList;
    if sufs != [] { DummySufs(sufs[1..], t, t1); }
  }

  lemma IntIsGood(t: Type)
    ensures AsGood(t, INT)
  {
  }

  function Out(m: Option<(string, Type)>, post: seq<Token>): Option<Parsed> {
    if m.None? then None else Some(Parsed(m.value.0, m.value.1, post))
  }
  function OutTail(t: Option<Type>, post: seq<Token>): Option<ParsedTail> {
    if t.None? then None else Some(ParsedTail(t.value, post))
  }

  /** For every declarator tree, the parser returns what it makes of it and leaves the tokens behind
      it, or reports an error. */
  lemma {:induction false} DeclaratorTaken(d: Decl, t: Type, post: seq<Token>)
    requires WF(d) && Stops(post)
    ensures ParseDeclarator(Toks(d) + post, t) == Out(Take(d, t), post)
    decreases d
  {
    hide ParseDirect, ParseTail, ParsePointer, TakeSufs, WFSuf, SufsToks, AtomicIn, Pointers, PtrToks;
    var t0 := Pointers(d.ptrs, t);
    var rest := HeadToks(d.head) + (SufsToks(d.sufs) + post);
    assert Toks(d) + post == PtrToks(d.ptrs) + rest;
    TailStart(d.sufs, post);
    HeadStart(d.head, SufsToks(d.sufs) + post);
    PointersParsed(d.ptrs, rest, t);
    if ListFirst(d) { ListTaken(d, t0, post); } else { HeadTaken(d, t0, post); }
  }

  lemma {:induction false} HeadTaken(d: Decl, t: Type, post: seq<Token>)
    requires WF(d) && Stops(post) && !ListFirst(d)
    ensures var t1 := TakeSufs(d.sufs, t);
      ParseDirect(HeadToks(d.head) + (SufsToks(d.sufs) + post), t) ==
      if t1.None? then None else match d.head case Name(x) => Some(Parsed(x, t1.value,
        post)) case Group(d1) => Out(Take(d1, t1.value), post)
    decreases d, 0
  {
    hide ParseDirect, ParseTail, TakeSufs, WFSuf, SufsToks, Take;
    var t1, suf := TakeSufs(d.sufs, t), SufsToks(d.sufs) + post;
    TailStart(d.sufs, post);
    TailTaken(d.sufs, t, post);
    match d.head
    case Name(x) => NameStep(x, suf, t, t1, post);
    case Group(d1) =>
      var close := [RParen] + suf;
      DeclaratorTaken(d1, INT, close);
      if t1.Some? {
        DeclaratorTaken(d1, t1.value, close);
        if Take(d1, t1.value).Some? { IntIsGood(t1.value); DummyTaken(d1, t1.value, INT); }
      }
      GroupStep(d1, suf, t, t1, post);
  }

  lemma {:induction false} ListTaken(d: Decl, t: Type, post: seq<Token>)
    requires WF(d) && Stops(post) && ListFirst(d)
    ensures var t1 := TakeSufs(d.sufs[1..], t);
      ParseDirect(HeadToks(d.head) + (SufsToks(d.sufs) + post), t) ==
      if d.sufs[0].ps != [] || t1.None? then None else Some(Parsed("", t1.value, post))
    decreases d, 0
  {
    hide ParseDirect, ParseTail, TakeSufs, WFSuf, SufsToks, SufToks;
    var sufs := d.sufs[1..];
    TailTaken(sufs, t, post);
    SplitToks(d.sufs, post);
    assert WFSuf(d.sufs[0]);
    ListStep(d.sufs[0], SufsToks(sufs) + post, t, TakeSufs(sufs, t), post);
    assert HeadToks(d.head) == [] && [] + (SufsToks(d.sufs) + post) == SufsToks(d.sufs) + post;
  }

  lemma SplitToks(sufs: seq<Suffix>, post: seq<Token>)
    requires sufs != []
    ensures SufsToks(sufs) + post == SufToks(sufs[0]) + (SufsToks(sufs[1..]) + post)
  {
    hide SufToks;
  }

  /** A parameter list where a group could stand: an empty one is read as a group without anything in
      it, and in any other the specifiers are no declarator. */
  lemma ListStep(s: Suffix, suf: seq<Token>, t: Type, t1: Option<Type>, post: seq<Token>)
    requires s.SFun? && WFSuf(s) && ParseTail(suf, t) == OutTail(t1, post)
    ensures ParseDirect(SufToks(s) + suf, t) == if s.ps != [] || t1.None? then None
      else Some(Parsed("", t1.value, post))
  {
    hide ParamToks, MoreToks;
    var ts := SufToks(s) + suf;
    if s.ps == [] {
      assert ParamsToks(s.ps, s.varargs) == [];
      assert SufToks(s) == [LParen, RParen];
      assert ts[1..] == [RParen] + suf && ([RParen] + suf)[1..] == suf;
      EmptyDeclarator([RParen] + suf, INT);
      if t1.Some? { EmptyDeclarator([RParen] + suf, t1.value); }
      EmptyGroup(ts, suf, t);
    } else {
      var inner := ParamsToks(s.ps, s.varargs) + ([RParen] + suf);
      assert ts[1..] == inner;
      SpecFirst(s.ps, s.varargs, [RParen] + suf);
      EmptyDeclarator(inner, INT);
      NoGroup(ts, t);
    }
  }

  lemma EmptyDeclarator(ts: seq<Token>, t: Type)
    requires Peek(ts).RParen? || Peek(ts).Spec?
    ensures ParseDeclarator(ts, t) == Some(Parsed("", t, ts))
  {
    assert ParsePointer(ts, t) == Some((t, ts));
    assert ParseTail(ts, t) == Some(ParsedTail(t, ts));
    assert ParseDirect(ts, t) == Some(Parsed("", t, ts));
  }

  lemma EmptyGroup(ts: seq<Token>, suf: seq<Token>, t: Type)
    requires Peek(ts).LParen? && ts[1..] == [RParen] + suf
      && ParseDeclarator(ts[1..], INT) == Some(Parsed("", INT, ts[1..]))
    requires ParseTail(suf, t).Some? ==>
      ParseDeclarator(ts[1..], ParseTail(suf, t).value.t) == Some(Parsed("", ParseTail(suf, t).value.t, ts[1..]))
    ensures ParseDirect(ts, t) == var r := ParseTail(suf, t);
      if r.None? then None else Some(Parsed("", r.value.t, r.value.rest))
  {
    hide ParseTail, ParseDeclarator;
    assert ts[1..][1..] == suf;
  }

  lemma NoGroup(ts: seq<Token>, t: Type)
    requires Peek(ts).LParen? && Peek(ts[1..]).Spec? && ParseDeclarator(ts[1..], INT) == Some(Parsed("", INT, ts[1..]))
    ensures ParseDirect(ts, t).None?
  {
    hide ParseTail, ParseDeclarator;
  }

  lemma SpecFirst(ps: seq<Param>, va: bool, post: seq<Token>)
    requires ps != []
    ensures Peek(ParamsToks(ps, va) + post).Spec?
  {
  }

  lemma NameStep(x: string, suf: seq<Token>, t: Type, t1: Option<Type>, post: seq<Token>)
    requires ParseTail(suf, t) == OutTail(t1, post) && (x == "" ==> !Peek(suf).LParen? && !Peek(suf).Id?)
    ensures ParseDirect(HeadToks(Name(x)) + suf, t) == if t1.None? then None else Some(Parsed(x, t1.value, post))
  {
    hide ParseTail, ParseDeclarator;
    var rest := HeadToks(Name(x)) + suf;
    if x == "" { assert rest == suf; } else { assert rest[1..] == suf; }
  }

  /** Two passes over a group. */
  lemma GroupStep(d: Decl, suf: seq<Token>, t: Type, t1: Option<Type>, post: seq<Token>)
    requires ParseTail(suf, t) == OutTail(t1, post)
    requires ParseDeclarator(Toks(d) + ([RParen] + suf), INT) == Out(Take(d, INT), [RParen] + suf)
    requires t1.Some? ==>
        ParseDeclarator(Toks(d) + ([RParen] + suf), t1.value) == Out(Take(d, t1.value), [RParen] + suf)
    requires t1.Some? && Take(d, t1.value).Some? ==> Take(d, INT).Some?
    ensures ParseDirect(HeadToks(Group(d)) + suf, t) == if t1.None? then None else Out(Take(d, t1.value), post)
  {
    hide ParseTail, ParseDeclarator, Toks, Take;
    var rest := HeadToks(Group(d)) + suf;
    assert rest[1..] == Toks(d) + ([RParen] + suf);
    assert ([RParen] + suf)[1..] == suf;
  }

  lemma TailStart(sufs: seq<Suffix>, post: seq<Token>)
    requires Stops(post)
    ensures var p := Peek(SufsToks(sufs) + post); p.LSquare? || p.LParen? || p.RParen? || p.Comma? || p.Eof?
    ensures sufs == [] || sufs[0].SArr? ==> !Peek(SufsToks(sufs) + post).LParen?
  {
    if sufs == [] { assert SufsToks(sufs) + post == post; }
    else { assert SufsToks(sufs) + post == SufToks(sufs[0]) + (SufsToks(sufs[1..]) + post); }
  }

  lemma HeadStart(h: Head, rest: seq<Token>)
    requires var p := Peek(rest); p.LSquare? || p.LParen? || p.RParen? || p.Comma? || p.Eof?
    ensures var p := Peek(HeadToks(h) + rest); p != Star && !p.TQual?
    ensures h.Name? && h.x == "" ==> HeadToks(h) + rest == rest
  {
    if h.Name? && h.x == "" { assert HeadToks(h) + rest == rest; }
  }

  lemma {:induction false} TailTaken(sufs: seq<Suffix>, t: Type, post: seq<Token>)
    requires (forall i :: 0 <= i < |sufs| ==> WFSuf(sufs[i])) && Stops(post)
    ensures ParseTail(SufsToks(sufs) + post, t) == OutTail(TakeSufs(sufs, t), post)
    decreases sufs
  {
    hide ParseParams, SufToks, TakeList, ParseArrayLength;
    if sufs == [] { assert SufsToks(sufs) + post == post; return; }
    var s, rest := sufs[0], SufsToks(sufs[1..]) + post;
    assert SufsToks(sufs) + post == SufToks(s) + rest;
    assert WFSuf(s);
    TailTaken(sufs[1..], t, post);
    match s
    case SArr(_, _) => ArrayStep(s, rest, t);
    case SFun(ps, va) =>
      ParamsTaken(ps, va, [RParen] + rest);
      FunStep(ps, va, rest, t);
  }

  lemma ArrayStep(s: Suffix, rest: seq<Token>, t: Type)
    requires s.SArr? && WFSuf(s)
    ensures var tail := ParseTail(rest, t);
      ParseTail(SufToks(s) + rest, t) == if t.Func? || TQual(Atomic) in s.skip || tail.None?
        || !Complete(tail.value.t) then None
        else Some(ParsedTail(Array(tail.value.t, s.len), tail.value.rest))
  {
    hide SufToks, ParseArrayLength, WFSuf;
    LengthParsed(s, rest);
    assert ([RSquare] + rest)[1..] == rest;
  }

  /** The parameters are rejected, or the token behind them is not the parenthesis. */
  predicate ParamsFail(ts: seq<Token>) {
    var r := ParseParams(ts);
    r.None? || !Peek(r.value.rest).RParen?
  }

  predicate ParamsAre(ts: seq<Token>, l: Option<(seq<Named>, bool)>, post: seq<Token>) {
    if l.None? then ParamsFail(ts) else ParseParams(ts) == Some(ParsedParams(l.value.0, l.value.1, post))
  }

  lemma FunStep(ps: seq<Param>, va: bool, rest: seq<Token>, t: Type)
    requires ParamsAre(ParamsToks(ps, va) + ([RParen] + rest), TakeList(ps, va), [RParen] + rest)
    ensures var tail, l := ParseTail(rest, t), TakeList(ps, va);
      ParseTail(SufToks(SFun(ps, va)) + rest, t) ==
        if t.Func? || t.Array? || tail.None? || l.None? then None
          else Some(ParsedTail(Func(tail.value.t, l.value.0, l.value.1), tail.value.rest))
  {
    hide ParseParams, ParamsToks, TakeList;
    assert (SufToks(SFun(ps, va)) + rest)[1..] == ParamsToks(ps, va) + ([RParen] + rest);
    assert ([RParen] + rest)[1..] == rest;
  }

  lemma {:induction false} ParamsTaken(ps: seq<Param>, va: bool, post: seq<Token>)
    requires WFSuf(SFun(ps, va)) && Peek(post).RParen?
    ensures ParamsAre(ParamsToks(ps, va) + post, TakeList(ps, va), post)
    decreases ps, 2
  {
    hide ParseParamDecl, ParamToks, TakeParam;
    if ps == [] { assert ParamsToks(ps, va) + post == post; return; }
    var rest := MoreToks(ps[1..], va) + post;
    assert ParamsToks(ps, va) + post == ParamToks(ps[0]) + rest;
    ParamStart(ps[0], rest);
    assert WF(ps[0].d);
    MoreStops(ps[1..], va, post);
    ParamTaken(ps[0], rest);
    var m := TakeParam(ps[0]);
    if m.Some? {
      if m.value.t.Void? {
        VoidFirst(ps, va);
        if ps[1..] != [] || va { MoreNotClosed(ps[1..], va, post); } else { assert rest == post; }
      } else {
        MoreTaken(ps[1..], va, post, [m.value]);
        FirstOfList(ps, va);
      }
    }
  }

  lemma VoidFirst(ps: seq<Param>, va: bool)
    requires ps != [] && TakeParam(ps[0]).Some? && TakeParam(ps[0]).value.t.Void?
    ensures TakeList(ps, va) == if ps[1..] == [] && !va then Some(([], false)) else None
  {
    hide TakeParam, Distinct;
    var ms := TakeParams(ps[1..]);
    if ms.Some? { assert ([TakeParam(ps[0]).value] + ms.value)[0].t.Void?; }
    if ps[1..] != [] && ms.Some? { assert ms.value != []; }
  }

  predicate Good(ps: seq<Named>) { NoVoid(ps) && Distinct(ps) }

  lemma GoodSnoc(ps: seq<Named>, p: Named)
    requires Good(ps) && !p.t.Void? && !Declared(ps, p.name)
    ensures Good(ps + [p])
  {
    var all := ps + [p];
    forall i | 0 <= i < |all| ensures !Declared(all[..i], all[i].name) {
      if i < |ps| { assert all[..i] == ps[..i]; } else { assert all[..i] == ps; }
    }
  }

  lemma NotGood(ps: seq<Named>, p: Named, more: seq<Named>)
    requires p.t.Void? || Declared(ps, p.name)
    ensures !Good(ps + ([p] + more))
  {
    var all := ps + ([p] + more);
    assert all[|ps|] == p && all[..|ps|] == ps;
  }

  /** Parameters behind those of `acc`, none of which is void or has a name that is there already. */
  function TakeMore(acc: seq<Named>, ps: seq<Param>): Option<seq<Named>> {
    var ms := TakeParams(ps);
    if ms.Some? && Good(acc + ms.value) then Some(acc + ms.value) else None
  }

  /** A list whose first parameter is not void. */
  lemma FirstOfList(ps: seq<Param>, va: bool)
    requires ps != [] && TakeParam(ps[0]).Some? && !TakeParam(ps[0]).value.t.Void?
    ensures var m := TakeMore([TakeParam(ps[0]).value], ps[1..]);
      TakeList(ps, va) == if m.None? then None else Some((m.value, va))
    ensures Good([TakeParam(ps[0]).value])
  {
    hide TakeParam;
    assert Good([]);
    GoodSnoc([], TakeParam(ps[0]).value);
    assert [] + [TakeParam(ps[0]).value] == [TakeParam(ps[0]).value];
  }

  lemma TakeMoreIs(acc: seq<Named>, ps: seq<Param>)
    requires ps != []
    ensures var m := TakeParam(ps[0]);
      TakeMore(acc, ps) == if m.None? || m.value.t.Void? || Declared(acc, m.value.name) then None
        else TakeMore(acc + [m.value], ps[1..])
  {
    hide TakeParam, Good, Declared;
    var m, ms := TakeParam(ps[0]), TakeParams(ps[1..]);
    if m.Some? && ms.Some? {
      assert acc + ([m.value] + ms.value) == acc + [m.value] + ms.value;
      if m.value.t.Void? || Declared(acc, m.value.name) { NotGood(acc, m.value, ms.value); }
    }
  }

  lemma MoreStops(ps: seq<Param>, va: bool, post: seq<Token>)
    requires Peek(post).RParen?
    ensures Stops(MoreToks(ps, va) + post)
  {
    if ps == [] && !va { assert MoreToks(ps, va) + post == post; }
  }

  lemma ParamStart(p: Param, rest: seq<Token>)
    ensures Peek(ParamToks(p) + rest).Spec?
  {
  }

  lemma MoreNotClosed(ps: seq<Param>, va: bool, post: seq<Token>)
    requires ps != [] || va
    ensures Peek(MoreToks(ps, va) + post).Comma?
  {
  }

  lemma {:induction false} ParamTaken(p: Param, rest: seq<Token>)
    requires WF(p.d) && Stops(rest)
    ensures ParseParamDecl(ParamToks(p) + rest) == var m := TakeParam(p);
      if m.None? then None else Some(Parsed(m.value.name, m.value.t, rest))
    decreases p
  {
    assert (ParamToks(p) + rest)[1..] == Toks(p.d) + rest;
    DeclaratorTaken(p.d, p.spec, rest);
  }

  lemma {:induction false} MoreTaken(ps: seq<Param>, va: bool, post: seq<Token>, acc: seq<Named>)
    requires (forall i :: 0 <= i < |ps| ==> WF(ps[i].d)) && Peek(post).RParen? && Good(acc)
    ensures MoreParams(MoreToks(ps, va) + post, acc) == var m := TakeMore(acc, ps);
      if m.None? then None else Some(ParsedParams(m.value, va, post))
    decreases ps, 1
  {
    hide ParseParamDecl, ParamToks, TakeParam, Declared, Good;
    var ts := MoreToks(ps, va) + post;
    if ps == [] {
      if va { assert ts[1..] == [Ellipsis] + post && ts[2..] == post; } else { assert ts == post; }
      assert acc + [] == acc;
    } else {
      var rest := MoreToks(ps[1..], va) + post;
      assert ts[1..] == ParamToks(ps[0]) + rest;
      ParamStart(ps[0], rest);
      MoreStops(ps[1..], va, post);
      ParamTaken(ps[0], rest);
      TakeMoreIs(acc, ps);
      var m := TakeParam(ps[0]);
      if m.Some? && !m.value.t.Void? && !Declared(acc, m.value.name) {
        GoodSnoc(acc, m.value);
        MoreTaken(ps[1..], va, post, acc + [m.value]);
      }
    }
  }
}
