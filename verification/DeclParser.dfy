/** The declarator parser: a cursor over the tokens, moved forward and, for a group, back. */
module DeclParser {
  import opened Common
  import opened Declarators

  lemma TailIs(ts: seq<Token>, base: Type)
    ensures !Peek(ts).LSquare? && !Peek(ts).LParen? ==> ParseTail(ts, base) == Some(ParsedTail(base, ts))
    ensures Peek(ts).LSquare? && base.Func? ==> ParseTail(ts, base).None?
    ensures Peek(ts).LSquare? && !base.Func? ==>
      var len := ParseArrayLength(ts[1..]);
      if len.None? then ParseTail(ts, base).None? else
      var close := Expect(len.value.1, RSquare);
      if close.None? then ParseTail(ts, base).None? else
      var tail := ParseTail(close.value, base);
      ParseTail(ts, base) == if tail.None? || !Complete(tail.value.t) then None
        else Some(ParsedTail(Array(tail.value.t, len.value.0), tail.value.rest))
    ensures Peek(ts).LParen? && (base.Func? || base.Array?) ==> ParseTail(ts, base).None?
    ensures Peek(ts).LParen? && !base.Func? && !base.Array? ==>
      var ps := ParseParams(ts[1..]);
      if ps.None? then ParseTail(ts, base).None? else
      var close := Expect(ps.value.rest, RParen);
      if close.None? then ParseTail(ts, base).None? else
      var tail := ParseTail(close.value, base);
      ParseTail(ts, base) == if tail.None? then None
        else Some(ParsedTail(Func(tail.value.t, ps.value.ps, ps.value.varargs), tail.value.rest))
  {
  }

  lemma MoreIs(ts: seq<Token>, ps: seq<Named>)
    ensures !Peek(ts).Comma? ==> MoreParams(ts, ps) == Some(ParsedParams(ps, false, ts))
    ensures Peek(ts).Comma? && Peek(ts[1..]).Ellipsis? ==> MoreParams(ts, ps) == Some(ParsedParams(ps, true, ts[2..]))
    ensures Peek(ts).Comma? && !Peek(ts[1..]).Ellipsis? ==>
      var p := ParseParamDecl(ts[1..]);
      MoreParams(ts, ps) == if p.None? || p.value.t.Void? || Declared(ps, p.value.name) then None
        else MoreParams(p.value.rest, ps + [Named(p.value.name, p.value.t)])
  {
  }

  /** Methods return false where the source reports an error. */
  class DeclParser {
    const tokens: seq<Token>
    var index: nat

    constructor (tokens: seq<Token>)
      ensures this.tokens == tokens && index == 0
    {
      this.tokens := tokens;
      index := 0;
    }

    predicate Valid()
      reads this
    {
      index <= |tokens|
    }

    /** The tokens that are left. */
    function Rest(): seq<Token>
      reads this
      requires Valid()
    {
      tokens[index..]
    }

    method Try(t: Token) returns (found: bool)
      requires Valid() && t != Eof
      modifies this`index
      ensures Valid() && found == (Peek(old(Rest())) == t) && index == if found then old(index) + 1 else old(index)
      ensures Rest() == if found then old(Rest())[1..] else old(Rest())
    {
      found := index < |tokens| && tokens[index] == t;
      if found { index := index + 1; }
    }

    /** ParseTypeQualList. */
    method ParseTypeQualList() returns (ok: bool, qs: Quals)
      requires Valid()
      modifies this`index
      ensures Valid() && old(index) <= index
      ensures ParseQuals(old(Rest()), NoQuals) == if ok then Some((qs, Rest())) else None
    {
      ok, qs := true, NoQuals;
      while index < |tokens| && tokens[index].TQual?
        invariant Valid() && old(index) <= index && ParseQuals(Rest(), qs) == ParseQuals(old(Rest()), NoQuals)
      {
        if tokens[index].q == Atomic { return false, qs; }
        assert Rest()[1..] == tokens[index + 1..];
        qs := AddQual(qs, tokens[index].q);
        index := index + 1;
      }
    }

    method ParsePointers(base: Type) returns (ok: bool, t: Type)
      requires Valid()
      modifies this`index
      ensures Valid() && old(index) <= index
      ensures ParsePointer(old(Rest()), base) == if ok then Some((t, Rest())) else None
    {
      t := base;
      var star := Try(Star);
      while star
        invariant Valid() && old(index) <= index && (star ==> index > 0 && tokens[index - 1] == Star)
        invariant star ==> ParsePointer(tokens[index - 1..], t) == ParsePointer(old(Rest()), base)
        invariant !star ==> Peek(Rest()) != Star && ParsePointer(Rest(), t) == ParsePointer(old(Rest()), base)
        decreases |tokens| - index, star
      {
        assert tokens[index - 1..][1..] == Rest();
        var qs;
        ok, qs := ParseTypeQualList();
        if !ok { return; }
        t := Pointer(t, qs);
        ghost var before := Rest();
        star := Try(Star);
        assert star ==> tokens[index - 1..] == before;
      }
      ok := true;
    }

    /** The bounds of an array, up to the closing bracket. */
    method ParseLength() returns (ok: bool, len: Option<nat>)
      requires Valid()
      modifies this`index
      ensures Valid() && old(index) <= index
      ensures ParseArrayLength(old(Rest())) == if ok then Some((len, Rest())) else None
    {
      while index < |tokens| && IsSkip(tokens[index])
        invariant Valid() && old(index) <= index && SkipSpecs(Rest()) == SkipSpecs(old(Rest()))
      {
        assert Rest()[1..] == tokens[index + 1..];
        index := index + 1;
      }
      assert SkipSpecs(old(Rest())) == Rest();
      ok, len := true, None;
      if index < |tokens| && tokens[index].RSquare? { return; }
      if index < |tokens| && tokens[index].Num? {
        len := Some(tokens[index].n);
        assert Rest()[1..] == tokens[index + 1..];
        index := index + 1;
      } else { ok := false; }
    }

    method ExpectToken(t: Token) returns (ok: bool)
      requires Valid() && t != Eof
      modifies this`index
      ensures Valid() && old(index) <= index && Expect(old(Rest()), t) == if ok then Some(Rest()) else None
      ensures ok ==> old(index) < index
    {
      ok := Try(t);
    }

    method Declarator(base: Type) returns (ok: bool, name: string, t: Type)
      requires Valid()
      modifies this`index
      ensures Valid() && (ok ==> old(index) <= index)
      ensures ParseDeclarator(old(Rest()), base) == if ok then Some(Parsed(name, t, Rest())) else None
      decreases |tokens| - index, 2
    {
      name := "";
      ok, t := ParsePointers(base);
      if ok { ok, name, t := DirectDeclarator(t); }
    }

    /** ParseDirectDeclarator: the group is read twice, and the cursor put back in between. */
    method DirectDeclarator(base: Type) returns (ok: bool, name: string, t: Type)
      requires Valid()
      modifies this`index
      ensures Valid() && (ok ==> old(index) <= index)
      ensures ParseDirect(old(Rest()), base) == if ok then Some(Parsed(name, t, Rest())) else None
      decreases |tokens| - index, 1
    {
      hide ParseTail, ParseDeclarator, Expect;
      name, t := "", base;
      if index < |tokens| && tokens[index].Id? {
        name := tokens[index].x;
        assert Rest()[1..] == tokens[index + 1..];
        index := index + 1;
        ok, t := DirectDeclaratorTail(base);
        return;
      }
      var group := Try(LParen);
      if !group {
        ok, t := DirectDeclaratorTail(base);
        return;
      }
      var begin := index;
      var dummy: Type;
      ok, name, dummy := Declarator(INT);
      if !ok { return; }
      ok := ExpectToken(RParen);
      if !ok { return; }
      ok, t := DirectDeclaratorTail(base);
      if !ok { return; }
      var end := index;
      index := begin;
      ok, name, t := Declarator(t);
      if !ok { return; }
      ok := ExpectToken(RParen);
      if !ok { return; }
      index := end;
    }

    method DirectDeclaratorTail(base: Type) returns (ok: bool, t: Type)
      requires Valid()
      modifies this`index
      ensures Valid() && (ok ==> old(index) <= index)
      ensures ParseTail(old(Rest()), base) == if ok then Some(ParsedTail(t, Rest())) else None
      decreases |tokens| - index, 0
    {
      hide ParseTail, ParseParams, ParseArrayLength;
      TailIs(Rest(), base);
      ok, t := true, base;
      var bracket := Try(LSquare);
      if bracket {
        if base.Func? { return false, t; }
        var len;
        ok, len := ParseLength();
        if !ok { return; }
        ok := ExpectToken(RSquare);
        if !ok { return; }
        ok, t := DirectDeclaratorTail(base);
        if !ok { return; }
        if !Complete(t) { return false, t; }
        t := Array(t, len);
        return;
      }
      var paren := Try(LParen);
      if paren {
        if base.Func? || base.Array? { return false, t; }
        var ps, va;
        ok, ps, va := ParamTypeList();
        if !ok { return; }
        ok := ExpectToken(RParen);
        if !ok { return; }
        ok, t := DirectDeclaratorTail(base);
        if !ok { return; }
        t := Func(t, ps, va);
      }
    }

    method ParamTypeList() returns (ok: bool, ps: seq<Named>, varargs: bool)
      requires Valid()
      modifies this`index
      ensures Valid() && (ok ==> old(index) <= index)
      ensures ParseParams(old(Rest())) == if ok then Some(ParsedParams(ps, varargs, Rest())) else None
      decreases |tokens| - index, 3
    {
      hide MoreParams, ParseParamDecl;
      ok, ps, varargs := true, [], false;
      if index < |tokens| && tokens[index].RParen? { return; }
      var p;
      ok, p := ParamDecl();
      if !ok || p.t.Void? { return; }
      ok, ps, varargs := CommaParams([p]);
    }

    /** The parameters behind the first one. */
    method CommaParams(first: seq<Named>) returns (ok: bool, ps: seq<Named>, varargs: bool)
      requires Valid()
      modifies this`index
      ensures Valid() && (ok ==> old(index) <= index)
      ensures MoreParams(old(Rest()), first) == if ok then Some(ParsedParams(ps, varargs, Rest())) else None
      decreases |tokens| - index, 2
    {
      hide MoreParams, ParseParamDecl;
      ok, ps, varargs := true, first, false;
      while index < |tokens| && tokens[index].Comma?
        invariant Valid() && old(index) <= index && ok && !varargs
          && MoreParams(Rest(), ps) == MoreParams(old(Rest()), first)
        decreases |tokens| - index
      {
        ghost var ts := Rest();
        MoreIs(ts, ps);
        index := index + 1;
        assert Rest() == ts[1..];
        var dots := Try(Ellipsis);
        if dots {
          assert ts[1..][1..] == ts[2..];
          varargs := true;
          return;
        }
        var p;
        ok, p := ParamDecl();
        if !ok { return; }
        if p.t.Void? || Declared(ps, p.name) { return false, ps, false; }
        ps := ps + [p];
      }
      MoreIs(Rest(), ps);
    }

    method ParamDecl() returns (ok: bool, p: Named)
      requires Valid()
      modifies this`index
      ensures Valid() && (ok ==> old(index) < index)
      ensures ParseParamDecl(old(Rest())) == if ok then Some(Parsed(p.name, p.t, Rest())) else None
      decreases |tokens| - index, 1
    {
      ok, p := false, Named("", INT);
      if index < |tokens| && tokens[index].Spec? {
        var base := tokens[index].t;
        assert Rest()[1..] == tokens[index + 1..];
        index := index + 1;
        var name, t;
        ok, name, t := Declarator(base);
        if name != "" && t.Void? { ok := false; }
        if ok { p := Named(name, MayCast(t)); }
      }
    }
  }
}
