/** Declarators: what they mean (C11 section 6.7.6), how they are written, and the parser that reads
    a parenthesised declarator twice. */
module Declarators {
  import opened Common

  datatype Qual = Const | Restrict | Volatile | Atomic
  datatype Quals = Quals(const_: bool, restrict_: bool, volatile_: bool, atomic_: bool)
  datatype StorageClass = Typedef | Extern | Static | ThreadLocal | Auto | Register

  datatype Type =
    | Void
    | Arith(n: nat)
    | Pointer(to: Type, quals: Quals)
    | Array(elem: Type, len: Option<nat>)
    | Func(ret: Type, params: seq<Named>, varargs: bool)
  datatype Named = Named(name: string, t: Type)

  const INT: Type := Arith(0)

  /** Declaration specifiers are one token here, and so is a constant array length. */
  datatype Token =
    | Star | TQual(q: Qual) | Storage(c: StorageClass) | Id(x: string) | LParen | RParen | LSquare | RSquare
    | Num(n: nat) | Comma | Ellipsis | Spec(t: Type) | Eof

  predicate Complete(t: Type) { t.Arith? || t.Pointer? || (t.Array? && t.len.Some?) }

  /** Parameters of array and function type become pointers. */
  function MayCast(t: Type): Type {
    match t
    case Func(_, _, _) => Pointer(t, NoQuals)
    case Array(e, _) => Pointer(e, NoQuals)
    case _ => t
  }
  const NoQuals := Quals(false, false, false, false)

  function AddQual(qs: Quals, q: Qual): Quals {
    match q
    case Const => qs.(const_ := true)
    case Restrict => qs.(restrict_ := true)
    case Volatile => qs.(volatile_ := true)
    case Atomic => qs.(atomic_ := true)
  }

  /* The parser, on the tokens that are left. */

  function Peek(ts: seq<Token>): Token { if ts == [] then Eof else ts[0] }

  function ParseQuals(ts: seq<Token>, acc: Quals): (r: Option<(Quals, seq<Token>)>)
    ensures r.Some? ==> |r.value.1| <= |ts|
  {
    if !Peek(ts).TQual? then Some((acc, ts))
    else if ts[0].q.Atomic? then None
    else ParseQuals(ts[1..], AddQual(acc, ts[0].q))
  }

  function ParsePointer(ts: seq<Token>, t: Type): (r: Option<(Type, seq<Token>)>)
    ensures r.Some? ==> |r.value.1| <= |ts|
    decreases |ts|
  {
    if Peek(ts) != Star then Some((t, ts))
    else
      var q := ParseQuals(ts[1..], NoQuals);
      if q.None? then None else ParsePointer(q.value.1, Pointer(t, q.value.0))
  }

  predicate IsSkip(t: Token) { t.Storage? || (t.TQual? && !t.q.Atomic?) }
  function SkipSpecs(ts: seq<Token>): (r: seq<Token>)
    ensures |r| <= |ts| && !IsSkip(Peek(r))
  {
    if IsSkip(Peek(ts)) then SkipSpecs(ts[1..]) else ts
  }

  /** The length between the brackets; a length that is missing is not an error. */
  function ParseArrayLength(ts: seq<Token>): (r: Option<(Option<nat>, seq<Token>)>)
    ensures r.Some? ==> |r.value.1| <= |ts|
  {
    var ts1 := SkipSpecs(ts);
    if Peek(ts1).RSquare? then Some((None, ts1))
    else if Peek(ts1).Num? then Some((Some(ts1[0].n), ts1[1..]))
    else None
  }

  function Expect(ts: seq<Token>, t: Token): (r: Option<seq<Token>>)
    ensures r.Some? ==> |r.value| < |ts| || t.Eof?
  {
    if Peek(ts) == t then Some(if ts == [] then [] else ts[1..]) else None
  }

  datatype Parsed = Parsed(name: string, t: Type, rest: seq<Token>)
  datatype ParsedTail = ParsedTail(t: Type, rest: seq<Token>)
  datatype ParsedParams = ParsedParams(ps: seq<Named>, varargs: bool, rest: seq<Token>)

  function ParseDeclarator(ts: seq<Token>, base: Type): (r: Option<Parsed>)
    ensures r.Some? ==> |r.value.rest| <= |ts|
    decreases |ts|, 2
  {
    var p := ParsePointer(ts, base);
    if p.None? then None else ParseDirect(p.value.1, p.value.0)
  }

  /** A parenthesised declarator is parsed first for a dummy type, to find its end, and then again
      for the type that the tokens behind it make of the base type. */
  function ParseDirect(ts: seq<Token>, base: Type): (r: Option<Parsed>)
    ensures r.Some? ==> |r.value.rest| <= |ts|
    decreases |ts|, 1
  {
    if Peek(ts).Id? then
      var tail := ParseTail(ts[1..], base);
      if tail.None? then None else Some(Parsed(ts[0].x, tail.value.t, tail.value.rest))
    else if Peek(ts).LParen? then
      var first := ParseDeclarator(ts[1..], INT);
      if first.None? then None else
      var close := Expect(first.value.rest, RParen);
      if close.None? then None else
      var tail := ParseTail(close.value, base);
      if tail.None? then None else
      var second := ParseDeclarator(ts[1..], tail.value.t);
      if second.None? then None else
      if Expect(second.value.rest, RParen).None? then None else
      Some(Parsed(second.value.name, second.value.t, tail.value.rest))
    else
      var tail := ParseTail(ts, base);
      if tail.None? then None else Some(Parsed("", tail.value.t, tail.value.rest))
  }

  function ParseTail(ts: seq<Token>, base: Type): (r: Option<ParsedTail>)
    ensures r.Some? ==> |r.value.rest| <= |ts|
    decreases |ts|, 0
  {
    if Peek(ts).LSquare? then
      if base.Func? then None else
      var len := ParseArrayLength(ts[1..]);
      if len.None? then None else
      var close := Expect(len.value.1, RSquare);
      if close.None? then None else
      var tail := ParseTail(close.value, base);
      if tail.None? || !Complete(tail.value.t) then None else
      Some(ParsedTail(Array(tail.value.t, len.value.0), tail.value.rest))
    else if Peek(ts).LParen? then
      if base.Func? || base.Array? then None else
      var ps := ParseParams(ts[1..]);
      if ps.None? then None else
      var close := Expect(ps.value.rest, RParen);
      if close.None? then None else
      var tail := ParseTail(close.value, base);
      if tail.None? then None else
      Some(ParsedTail(Func(tail.value.t, ps.value.ps, ps.value.varargs), tail.value.rest))
    else Some(ParsedTail(base, ts))
  }

  function ParseParams(ts: seq<Token>): (r: Option<ParsedParams>)
    ensures r.Some? ==> |r.value.rest| <= |ts|
    decreases |ts|, 2
  {
    if Peek(ts).RParen? then Some(ParsedParams([], false, ts)) else
    var p := ParseParamDecl(ts);
    if p.None? then None
    else if p.value.t.Void? then Some(ParsedParams([], false, p.value.rest))
    else MoreParams(p.value.rest, [Named(p.value.name, p.value.t)])
  }

  function MoreParams(ts: seq<Token>, ps: seq<Named>): (r: Option<ParsedParams>)
    ensures r.Some? ==> |r.value.rest| <= |ts|
    decreases |ts|, 1
  {
    if !Peek(ts).Comma? then Some(ParsedParams(ps, false, ts))
    else if Peek(ts[1..]).Ellipsis? then Some(ParsedParams(ps, true, ts[2..]))
    else
      var p := ParseParamDecl(ts[1..]);
      if p.None? || p.value.t.Void? || Declared(ps, p.value.name) then None
      else MoreParams(p.value.rest, ps + [Named(p.value.name, p.value.t)])
  }

  /** The name is that of a parameter before it. */
  predicate Declared(ps: seq<Named>, x: string) { x != "" && exists i :: 0 <= i < |ps| && ps[i].name == x }

  /** A parameter with a name is declared, so its type must not be void. */
  function ParseParamDecl(ts: seq<Token>): (r: Option<Parsed>)
    ensures r.Some? ==> |r.value.rest| < |ts|
    decreases |ts|, 1
  {
    if !Peek(ts).Spec? then None else
    var d := ParseDeclarator(ts[1..], ts[0].t);
    if d.None? || (d.value.name != "" && d.value.t.Void?) then None else Some(d.value.(t := MayCast(d.value.t)))
  }

  /** The two passes over a group agree on its end and on the name in it, whatever the base type. */
  lemma {:induction false} PassesAgree(ts: seq<Token>, t1: Type, t2: Type)
    ensures var x, y := ParseDeclarator(ts, t1), ParseDeclarator(ts, t2);
      x.Some? && y.Some? ==> x.value.rest == y.value.rest && x.value.name == y.value.name
    decreases |ts|, 2
  {
    PointersAgree(ts, t1, t2);
    var p, q := ParsePointer(ts, t1), ParsePointer(ts, t2);
    if p.Some? { DirectAgrees(p.value.1, p.value.0, q.value.0); }
  }

  lemma {:induction false} PointersAgree(ts: seq<Token>, t1: Type, t2: Type)
    ensures var x, y := ParsePointer(ts, t1), ParsePointer(ts, t2);
      (x.Some? <==> y.Some?) && (x.Some? ==> x.value.1 == y.value.1)
    decreases |ts|
  {
    if Peek(ts) == Star {
      var q := ParseQuals(ts[1..], NoQuals);
      if q.Some? { PointersAgree(q.value.1, Pointer(t1, q.value.0), Pointer(t2, q.value.0)); }
    }
  }

  lemma {:induction false} DirectAgrees(ts: seq<Token>, t1: Type, t2: Type)
    ensures var x, y := ParseDirect(ts, t1), ParseDirect(ts, t2);
      x.Some? && y.Some? ==> x.value.rest == y.value.rest && x.value.name == y.value.name
    decreases |ts|, 1
  {
    hide ParseTail, ParseDeclarator, ParseDirect;
    DirectIs(ts, t1);
    DirectIs(ts, t2);
    if Peek(ts).Id? { TailsAgree(ts[1..], t1, t2); }
    else if Peek(ts).LParen? {
      var first := ParseDeclarator(ts[1..], INT);
      if first.Some? && Expect(first.value.rest, RParen).Some? {
        var close := Expect(first.value.rest, RParen).value;
        TailsAgree(close, t1, t2);
        var x, y := ParseTail(close, t1), ParseTail(close, t2);
        if x.Some? && y.Some? { PassesAgree(ts[1..], x.value.t, y.value.t); }
      }
    } else { TailsAgree(ts, t1, t2); }
  }

  lemma DirectIs(ts: seq<Token>, base: Type)
    ensures ParseDirect(ts, base).Some? ==>
      var r := ParseDirect(ts, base).value;
      if Peek(ts).Id? then
        ParseTail(ts[1..], base).Some? && r.name == ts[0].x && r.rest == ParseTail(ts[1..], base).value.rest
      else if Peek(ts).LParen? then
        var first := ParseDeclarator(ts[1..], INT);
        && first.Some? && Expect(first.value.rest, RParen).Some?
        && var tail := ParseTail(Expect(first.value.rest, RParen).value, base);
        && tail.Some? && r.rest == tail.value.rest
        && var second := ParseDeclarator(ts[1..], tail.value.t);
        && second.Some? && r.name == second.value.name
      else
        ParseTail(ts, base).Some? && r.name == "" && r.rest == ParseTail(ts, base).value.rest
  {
    hide ParseTail, ParseDeclarator;
  }

  lemma {:induction false} TailsAgree(ts: seq<Token>, t1: Type, t2: Type)
    ensures var x, y := ParseTail(ts, t1), ParseTail(ts, t2);
      x.Some? && y.Some? ==> x.value.rest == y.value.rest
    decreases |ts|, 0
  {
    if Peek(ts).LSquare? {
      var len := ParseArrayLength(ts[1..]);
      if len.Some? && Expect(len.value.1, RSquare).Some? { TailsAgree(Expect(len.value.1, RSquare).value, t1, t2); }
    } else if Peek(ts).LParen? {
      var ps := ParseParams(ts[1..]);
      if ps.Some? && Expect(ps.value.rest, RParen).Some? { TailsAgree(Expect(ps.value.rest, RParen).value, t1, t2); }
    }
  }
}
