/** The converse: whatever the parser accepts is an expression that the grammar derives, up to the
    word __extension__ and a comma before the parenthesis that ends a call. */
module ExprAccepted {
  import opened Common
  import opened ExprSyntax
  import opened ExprGrammar
  import opened ExprTrees

  /** The tokens without what the parser skips. */
  function Strip(ts: seq<Token>): seq<Token> {
    if ts == [] then []
    else if ts[0].Extension? || (ts[0] == Bin(BinOp.Comma) && |ts| > 1 && ts[1].RParen?) then Strip(ts[1..])
    else [ts[0]] + Strip(ts[1..])
  }

  predicate EndsOpen(ts: seq<Token>) { ts != [] && ts[|ts| - 1] == Bin(BinOp.Comma) }

  lemma {:induction false} StripConcat(a: seq<Token>, b: seq<Token>)
    requires !EndsOpen(a) || !Peek(b).RParen?
    ensures Strip(a + b) == Strip(a) + Strip(b)
    decreases |a|
  {
    if a == [] { assert a + b == b; }
    else {
      assert (a + b)[1..] == a[1..] + b;
      if |a| > 1 { assert (a + b)[1] == a[1]; } else { assert b != [] ==> (a + b)[1] == b[0]; }
      StripConcat(a[1..], b);
    }
  }

  lemma StripOne(x: Token)
    ensures Strip([x]) == if x.Extension? then [] else [x]
  {
    assert Strip([x][1..]) == [];
  }

  lemma StripFront(x: Token, c: seq<Token>)
    requires x != Bin(BinOp.Comma) || !Peek(c).RParen?
    ensures Strip([x] + c) == if x.Extension? then Strip(c) else [x] + Strip(c)
  {
    StripOne(x);
    StripConcat([x], c);
  }

  lemma StripEnd(c: seq<Token>, x: Token)
    requires !EndsOpen(c) && !x.Extension?
    ensures Strip(c + [x]) == Strip(c) + [x]
  {
    StripOne(x);
    StripConcat(c, [x]);
  }

  /** Consumed tokens, and a tree for them of sufficient rank. */
  predicate Piece(c: seq<Token>, t: Tree, k: nat) {
    c != [] && !EndsOpen(c) && !Peek(c).RParen? && WF(t) && k <= Rank(t) <= PRIMARY && Strip(c) == Toks(t)
  }

  predicate Derived(ts: seq<Token>, r: R, k: nat, c: seq<Token>, t: Tree) {
    ts == c + r.rest && Piece(c, t, k) && Mean(t) == r.e
  }

  /** A tree that starts with the one before it. */
  lemma GrownPiece(c: seq<Token>, t: Tree, f: seq<Token>, t1: Tree, k: nat)
    requires Piece(c, t, 0) && f != [] && !EndsOpen(f) && First(t1) == Some(t) && Strip(f) == Follow(t1)
      && WF(t1) && k <= Rank(t1)
    ensures Piece(c + f, t1, k)
  {
    hide Strip, WF, Rank, Toks, Follow, First;
    RankBound(t1);
    StripConcat(c, f);
    assert (c + f)[|c + f| - 1] == f[|f| - 1] && (c + f)[0] == c[0];
    FirstIs(t1);
  }

  lemma WeakerPiece(c: seq<Token>, t: Tree, k: nat, j: nat)
    requires Piece(c, t, k) && j <= k
    ensures Piece(c, t, j)
  {
  }

  /** Tokens before a piece. */
  lemma FrontPiece(x: Token, c: seq<Token>, t: Tree, k: nat)
    requires Piece(c, t, k) && !x.RParen?
    ensures Strip([x] + c) == (if x.Extension? then [] else [x]) + Toks(t) && !EndsOpen([x] + c)
      && !Peek([x] + c).RParen?
  {
    hide Strip, WF, Toks;
    StripFront(x, c);
    assert ([x] + c)[|[x] + c| - 1] == c[|c| - 1];
  }

  lemma Headed(x: Token, ts: seq<Token>)
    requires ts != [] && ts[0] == x
    ensures ts == [x] + ts[1..]
  {
  }

  lemma ExtensionPiece(ts: seq<Token>, r: R, k: nat, c: seq<Token>, t: Tree) returns (c1: seq<Token>)
    requires Derived(SkipExtension(ts), r, k, c, t)
    ensures Derived(ts, r, k, c1, t)
  {
    hide Strip, WF, Toks, Mean, Rank;
    if Peek(ts).Extension? {
      c1 := [Extension] + c;
      FrontPiece(Extension, c, t, k);
      assert [] + Toks(t) == Toks(t);
      assert ts == [Extension] + (c + r.rest);
    } else { c1 := c; }
  }

  lemma PieceTree(c: seq<Token>, t: Tree)
    requires Piece(c, t, COMMA)
    ensures Expression(t)
  {
    GrammarIsRanks(t);
  }

  lemma {:induction false} ExprDerived(ts: seq<Token>) returns (c: seq<Token>, t: Tree)
    requires ParseExpr(ts).Some?
    ensures Derived(ts, ParseExpr(ts).value, COMMA, c, t) && Expression(t)
    decreases |ts|, 21
  {
    hide ParseAssign, CommaLoop, Piece, Mean;
    var ts1 := SkipExtension(ts);
    c, t := AssignDerived(ts1);
    var l := ParseAssign(ts1).value;
    c := ExtensionPiece(ts, l, ASSIGN, c, t);
    WeakerPiece(c, t, ASSIGN, COMMA);
    var f;
    f, t := CommasDerived(l.e, l.rest, c, t);
    Regroup(c, f, ParseExpr(ts).value.rest);
    c := c + f;
    PieceTree(c, t);
  }

  /** `c` and `t` stand for what is in front. */
  lemma {:induction false} CommasDerived(lhs: Ast, ts: seq<Token>, c: seq<Token>, t: Tree)
    returns (f: seq<Token>, t1: Tree)
    requires CommaLoop(lhs, ts).Some? && Piece(c, t, COMMA) && Mean(t) == lhs
    ensures var r := CommaLoop(lhs, ts).value; ts == f + r.rest && Piece(c + f, t1, COMMA) && Mean(t1) == r.e
    decreases |ts|, 0
  {
    hide ParseAssign, Piece, WF, Toks, Rank, Strip;
    if Peek(ts) != Bin(BinOp.Comma) {
      f, t1 := [], t;
      assert c + [] == c && ts == [] + ts;
    } else {
      var r := ParseAssign(ts[1..]).value;
      var c1, t2 := AssignDerived(ts[1..]);
      var g := [Bin(BinOp.Comma)] + c1;
      BinaryPiece(c, t, BinOp.Comma, c1, t2);
      var f1;
      f1, t1 := CommasDerived(Binary(BinOp.Comma, lhs, r.e), r.rest, c + g, TBin(BinOp.Comma, t, t2));
      f := g + f1;
      Regroup(c, g, f1);
      Regroup(g, f1, CommaLoop(lhs, ts).value.rest);
      Headed(Bin(BinOp.Comma), ts);
      Regroup([Bin(BinOp.Comma)], c1, r.rest);
    }
  }

  lemma BinaryPiece(c: seq<Token>, t: Tree, op: BinOp, c1: seq<Token>, t1: Tree)
    requires op != BinOp.Assign && Piece(c, t, OpRank(op)) && Piece(c1, t1, OpRank(op) + 1)
    ensures Piece(c + ([Bin(op)] + c1), TBin(op, t, t1), OpRank(op))
      && Mean(TBin(op, t, t1)) == Binary(op, Mean(t), Mean(t1))
  {
    hide Strip, Toks, OpRank;
    var f := [Bin(op)] + c1;
    FrontPiece(Bin(op), c1, t1, OpRank(op) + 1);
    WeakerPiece(c, t, OpRank(op), 0);
    assert WF(TBin(op, t, t1));
    GrownPiece(c, t, f, TBin(op, t, t1), OpRank(op));
  }

  lemma {:induction false} AssignDerived(ts: seq<Token>) returns (c: seq<Token>, t: Tree)
    requires ParseAssign(ts).Some?
    ensures Derived(ts, ParseAssign(ts).value, ASSIGN, c, t)
    decreases |ts|, 20
  {
    hide ParseCond, Piece, Mean, Derived;
    var ts1 := SkipExtension(ts);
    var l := ParseCond(ts1).value;
    c, t := CondDerived(ts1);
    c := ExtensionPiece(ts, l, COND, c, t);
    var x := Peek(l.rest);
    if x == Bin(BinOp.Assign) || (x.OpAssign? && HasAssign(x.op)) {
      var rest := l.rest[1..];
      var c1, t1 := AssignDerived(rest);
      c, t := AssignPiece(ts, l, ParseAssign(rest).value, x, c, t, c1, t1);
    } else {
      WeakerDerived(ts, l, COND, ASSIGN, c, t);
    }
  }

  lemma WeakerDerived(ts: seq<Token>, r: R, k: nat, j: nat, c: seq<Token>, t: Tree)
    requires Derived(ts, r, k, c, t) && j <= k
    ensures Derived(ts, r, j, c, t)
  {
  }

  lemma AssignPiece(ts: seq<Token>, l: R, r: R, x: Token, c: seq<Token>, t: Tree, c1: seq<Token>, t1: Tree)
    returns (c2: seq<Token>, t2: Tree)
    requires Derived(ts, l, COND, c, t) && l.rest != [] && l.rest[0] == x && Derived(l.rest[1..], r, ASSIGN, c1, t1)
    requires x == Bin(BinOp.Assign) || (x.OpAssign? && HasAssign(x.op))
    ensures Derived(ts, R(Binary(BinOp.Assign, l.e, if x.OpAssign? then Binary(x.op, l.e, r.e) else r.e),
      r.rest), ASSIGN, c2, t2)
  {
    hide Strip, Toks, OpRank;
    var f := [x] + c1;
    c2, t2 := c + f, TAssign(if x.OpAssign? then Some(x.op) else None, t, t1);
    FrontPiece(x, c1, t1, ASSIGN);
    WeakerPiece(c, t, COND, 0);
    assert WF(t2);
    GrownPiece(c, t, f, t2, ASSIGN);
    Headed(x, l.rest);
    Regroup([x], c1, r.rest);
    Regroup(c, f, r.rest);
  }

  lemma {:induction false} CondDerived(ts: seq<Token>) returns (c: seq<Token>, t: Tree)
    requires ParseCond(ts).Some?
    ensures Derived(ts, ParseCond(ts).value, COND, c, t)
    decreases |ts|, 19
  {
    hide ParseExpr, ParseBinary, Derived;
    var l := ParseBinary(BINARY, ts).value;
    c, t := BinaryDerived(BINARY, ts);
    if !Peek(l.rest).Question? {
      WeakerDerived(ts, l, BINARY, COND, c, t);
    } else {
      var ts1 := l.rest[1..];
      if Peek(ts1).Colon? {
        var c1, t1 := CondDerived(ts1[1..]);
        c, t := ShortCondPiece(ts, l, ParseCond(ts1[1..]).value, c, t, c1, t1);
      } else {
        var m := ParseExpr(ts1).value;
        var cm, tm := ExprDerived(ts1);
        var rest := m.rest[1..];
        var c1, t1 := CondDerived(rest);
        c, t := CondPiece(ts, l, m, ParseCond(rest).value, c, t, cm, tm, c1, t1);
      }
    }
  }

  lemma ShortCondPiece(ts: seq<Token>, l: R, r: R, c: seq<Token>, t: Tree, c1: seq<Token>, t1: Tree)
    returns (c2: seq<Token>, t2: Tree)
    requires Derived(ts, l, BINARY, c, t) && Peek(l.rest).Question? && Peek(l.rest[1..]).Colon?
      && Derived(l.rest[1..][1..], r, COND, c1, t1)
    ensures Derived(ts, R(ExprSyntax.Cond(l.e, l.e, r.e), r.rest), COND, c2, t2)
  {
    hide Strip, Toks, OpRank;
    var g := [Colon] + c1;
    var f := [Question] + g;
    c2, t2 := c + f, TCond(t, None, t1);
    FrontPiece(Colon, c1, t1, COND);
    StripFront(Question, g);
    assert [Question] + ([Colon] + Toks(t1)) == [Question] + [] + [Colon] + Toks(t1);
    WeakerPiece(c, t, BINARY, 0);
    assert WF(t2);
    assert f[|f| - 1] == g[|g| - 1];
    GrownPiece(c, t, f, t2, COND);
    Headed(Question, l.rest);
    Headed(Colon, l.rest[1..]);
    Regroup([Colon], c1, r.rest);
    Regroup([Question], g, r.rest);
    Regroup(c, f, r.rest);
  }

  lemma CondPiece(ts: seq<Token>, l: R, m: R, r: R, c: seq<Token>, t: Tree, cm: seq<Token>, tm: Tree, c1: seq<Token>,
    t1: Tree) returns (c2: seq<Token>, t2: Tree)
    requires Derived(ts, l, BINARY, c, t) && Peek(l.rest).Question? && Derived(l.rest[1..], m, COMMA, cm, tm)
    requires Peek(m.rest).Colon? && Derived(m.rest[1..], r, COND, c1, t1)
    ensures Derived(ts, R(ExprSyntax.Cond(l.e, m.e, r.e), r.rest), COND, c2, t2)
  {
    hide Strip, Toks, OpRank;
    var g := [Colon] + c1;
    var f := [Question] + (cm + g);
    c2, t2 := c + f, TCond(t, Some(tm), t1);
    FrontPiece(Colon, c1, t1, COND);
    StripConcat(cm, g);
    assert Peek(cm + g) == Peek(cm);
    StripFront(Question, cm + g);
    assert [Question] + (Toks(tm) + ([Colon] + Toks(t1))) == [Question] + Toks(tm) + [Colon] + Toks(t1);
    WeakerPiece(c, t, BINARY, 0);
    assert WF(t2);
    assert f[|f| - 1] == g[|g| - 1];
    GrownPiece(c, t, f, t2, COND);
    Headed(Question, l.rest);
    Headed(Colon, m.rest);
    Regroup([Colon], c1, r.rest);
    Regroup(cm, g, r.rest);
    Regroup([Question], cm + g, r.rest);
    Regroup(c, f, r.rest);
  }

  lemma {:induction false} BinaryDerived(k: nat, ts: seq<Token>) returns (c: seq<Token>, t: Tree)
    requires BINARY <= k <= CAST && ParseBinary(k, ts).Some?
    ensures Derived(ts, ParseBinary(k, ts).value, k, c, t)
    decreases |ts|, 18 - k
  {
    hide ParseCast, BinaryLoop, Piece, Mean;
    if k == CAST { c, t := CastDerived(ts); }
    else {
      var l := ParseBinary(k + 1, ts).value;
      c, t := BinaryDerived(k + 1, ts);
      WeakerPiece(c, t, k + 1, k);
      var f;
      f, t := LoopDerived(k, l.e, l.rest, c, t);
      Regroup(c, f, ParseBinary(k, ts).value.rest);
      c := c + f;
    }
  }

  lemma {:induction false} LoopDerived(k: nat, lhs: Ast, ts: seq<Token>, c: seq<Token>, t: Tree)
    returns (f: seq<Token>, t1: Tree)
    requires BINARY <= k < CAST && BinaryLoop(k, lhs, ts).Some? && Piece(c, t, k) && Mean(t) == lhs
    ensures var r := BinaryLoop(k, lhs, ts).value; ts == f + r.rest && Piece(c + f, t1, k) && Mean(t1) == r.e
    decreases |ts|, 0
  {
    hide ParseBinary, Piece, WF, Toks, Rank, Strip;
    if !(Peek(ts).Bin? && OpRank(ts[0].op) == k) {
      f, t1 := [], t;
      assert c + [] == c && ts == [] + ts;
    } else {
      var op := ts[0].op;
      OpRankIs(op);
      var r := ParseBinary(k + 1, ts[1..]).value;
      var c1, t2 := BinaryDerived(k + 1, ts[1..]);
      var g := [Bin(op)] + c1;
      BinaryPiece(c, t, op, c1, t2);
      var f1;
      f1, t1 := LoopDerived(k, Binary(op, lhs, r.e), r.rest, c + g, TBin(op, t, t2));
      f := g + f1;
      Regroup(c, g, f1);
      Regroup(g, f1, BinaryLoop(k, lhs, ts).value.rest);
      Headed(Bin(op), ts);
      Regroup([Bin(op)], c1, r.rest);
    }
  }

  lemma {:induction false} CastDerived(ts: seq<Token>) returns (c: seq<Token>, t: Tree)
    requires ParseCast(ts).Some?
    ensures Derived(ts, ParseCast(ts).value, CAST, c, t)
    decreases |ts|, 4
  {
    hide ParseUnary, Derived;
    if Peek(ts).LParen? && Peek(ts[1..]).TypeName? {
      var ts1 := ts[3..];
      assert ts[2..][0] == ts[2] && ts[1..][0] == ts[1];
      var c1, t1 := CastDerived(ts1);
      c, t := CastPiece(ts, ts[1].t, ParseCast(ts1).value, c1, t1);
    } else {
      c, t := UnaryDerived(ts);
      WeakerDerived(ts, ParseUnary(ts).value, UNARY, CAST, c, t);
    }
  }

  lemma CastPiece(ts: seq<Token>, ty: nat, r: R, c: seq<Token>, t: Tree) returns (c1: seq<Token>, t1: Tree)
    requires |ts| >= 3 && ts[0] == LParen && ts[1] == TypeName(ty) && ts[2] == RParen && Derived(ts[3..], r, CAST, c, t)
    ensures Derived(ts, R(Cast(ty, r.e), r.rest), CAST, c1, t1)
  {
    hide Strip, Toks;
    c1, t1 := [LParen] + ([TypeName(ty)] + ([RParen] + c)), TCast(ty, t);
    StripFront(RParen, c);
    StripFront(TypeName(ty), [RParen] + c);
    StripFront(LParen, [TypeName(ty)] + ([RParen] + c));
    CastToks(ty, t);
    ThreeFront(LParen, TypeName(ty), RParen, Toks(t));
    ThreeFront(LParen, TypeName(ty), RParen, c);
    ThreeFront(LParen, TypeName(ty), RParen, ts[3..]);
    ThreeHeaded(ts);
    assert c1[|c1| - 1] == c[|c| - 1];
    Regroup([LParen, TypeName(ty), RParen], c, r.rest);
  }

  lemma ThreeFront(x: Token, y: Token, z: Token, ts: seq<Token>)
    ensures [x] + ([y] + ([z] + ts)) == [x, y, z] + ts
  {
  }

  lemma ThreeHeaded(ts: seq<Token>)
    requires |ts| >= 3
    ensures ts == [ts[0], ts[1], ts[2]] + ts[3..]
  {
  }

  lemma CastToks(ty: nat, t: Tree)
    ensures Toks(TCast(ty, t)) == [LParen, TypeName(ty), RParen] + Toks(t)
  {
  }

  lemma {:induction false} UnaryDerived(ts: seq<Token>) returns (c: seq<Token>, t: Tree)
    requires ParseUnary(ts).Some?
    ensures Derived(ts, ParseUnary(ts).value, UNARY, c, t)
    decreases |ts|, 3
  {
    hide ParseCast, ParsePostfix, Derived;
    UnaryIs(ts);
    var op := Prefix(Peek(ts));
    if op.None? {
      c, t := PostfixDerived(ts);
      WeakerDerived(ts, ParsePostfix(ts).value, POSTFIX, UNARY, c, t);
    } else if op.value.PreInc? || op.value.PreDec? {
      var c1, t1 := UnaryDerived(ts[1..]);
      c, t := PrefixPiece(ts, op.value, ParseUnary(ts[1..]).value, c1, t1, UNARY);
    } else {
      var c1, t1 := CastDerived(ts[1..]);
      c, t := PrefixPiece(ts, op.value, ParseCast(ts[1..]).value, c1, t1, CAST);
    }
  }

  lemma PrefixPiece(ts: seq<Token>, op: UnOp, r: R, c: seq<Token>, t: Tree, k: nat) returns (c1: seq<Token>, t1: Tree)
    requires Prefix(Peek(ts)) == Some(op) && Derived(ts[1..], r, k, c, t)
      && k == (if op.PreInc? || op.PreDec? then UNARY else CAST)
    ensures Derived(ts, R(Unary(op, r.e), r.rest), UNARY, c1, t1)
  {
    hide Strip, OpRank;
    var x := Peek(ts);
    PrefixOf(x, op);
    c1, t1 := [x] + c, TPre(op, t);
    FrontPiece(x, c, t, k);
    PrefixToks(op, t);
    Headed(x, ts);
    Regroup([x], c, r.rest);
  }

  lemma PrefixOf(x: Token, op: UnOp)
    requires Prefix(x) == Some(op)
    ensures PrefixToken(op) == Some(x) && !x.RParen? && !x.Extension? && !x.Eof?
  {
  }

  lemma PrefixToks(op: UnOp, t: Tree)
    requires PrefixToken(op).Some?
    ensures Toks(TPre(op, t)) == [PrefixToken(op).value] + Toks(t)
  {
  }

  lemma {:induction false} PostfixDerived(ts: seq<Token>) returns (c: seq<Token>, t: Tree)
    requires ParsePostfix(ts).Some?
    ensures Derived(ts, ParsePostfix(ts).value, POSTFIX, c, t)
    decreases |ts|, 2
  {
    hide ParsePrimary, PostfixTail, Piece, Mean;
    var e := ParsePrimary(ts).value;
    c, t := PrimaryDerived(ts);
    WeakerPiece(c, t, PRIMARY, POSTFIX);
    var f;
    f, t := TailDerived(e.e, e.rest, c, t);
    Regroup(c, f, ParsePostfix(ts).value.rest);
    c := c + f;
  }

  lemma {:induction false} PrimaryDerived(ts: seq<Token>) returns (c: seq<Token>, t: Tree)
    requires ParsePrimary(ts).Some?
    ensures Derived(ts, ParsePrimary(ts).value, PRIMARY, c, t)
    decreases |ts|, 1
  {
    hide ParseExpr;
    match Peek(ts)
    case Ident(x) => c, t := [Ident(x)], TVar(x); StripOne(Ident(x)); Headed(Ident(x), ts);
    case Constant(v) => c, t := [Constant(v)], TLit(v); StripOne(Constant(v)); Headed(Constant(v), ts);
    case LParen =>
      var c1, t1 := ExprDerived(ts[1..]);
      c, t := ParenPiece(ts, ParseExpr(ts[1..]).value, c1, t1);
  }

  lemma ParenPiece(ts: seq<Token>, r: R, c: seq<Token>, t: Tree) returns (c1: seq<Token>, t1: Tree)
    requires Peek(ts).LParen? && Derived(ts[1..], r, COMMA, c, t) && Peek(r.rest).RParen?
    ensures Derived(ts, R(r.e, r.rest[1..]), PRIMARY, c1, t1)
  {
    hide Strip, Toks;
    c1, t1 := [LParen] + (c + [RParen]), TParen(t);
    StripEnd(c, RParen);
    StripFront(LParen, c + [RParen]);
    ParenToks(t);
    assert [LParen] + (Toks(t) + [RParen]) == [LParen] + Toks(t) + [RParen];
    assert c1[|c1| - 1] == RParen;
    Headed(LParen, ts);
    Headed(RParen, r.rest);
    Regroup(c, [RParen], r.rest[1..]);
    Regroup([LParen], c + [RParen], r.rest[1..]);
  }

  lemma ParenToks(t: Tree)
    ensures Toks(TParen(t)) == [LParen] + Toks(t) + [RParen]
  {
  }

  lemma {:induction false} TailDerived(e: Ast, ts: seq<Token>, c: seq<Token>, t: Tree) returns (f: seq<Token>, t1: Tree)
    requires PostfixTail(e, ts).Some? && Piece(c, t, POSTFIX) && Mean(t) == e
    ensures var r := PostfixTail(e, ts).value; ts == f + r.rest && Piece(c + f, t1, POSTFIX) && Mean(t1) == r.e
    decreases |ts|, 0
  {
    hide Piece, WF, Toks, Rank, Strip, Mean, PostfixTail, Follow;
    var g, t2, rest := SuffixDerived(e, ts, c, t);
    if g == [] {
      f, t1 := [], t;
      assert c + [] == c && ts == [] + ts;
    } else {
      var f1;
      f1, t1 := TailDerived(Mean(t2), rest, c + g, t2);
      f := g + f1;
      Regroup(c, g, f1);
      Regroup(g, f1, PostfixTail(e, ts).value.rest);
    }
  }

  /** One postfix operator, or none. */
  lemma {:induction false} SuffixDerived(e: Ast, ts: seq<Token>, c: seq<Token>, t: Tree)
    returns (g: seq<Token>, t1: Tree, rest: seq<Token>)
    requires PostfixTail(e, ts).Some? && Piece(c, t, POSTFIX) && Mean(t) == e
    ensures ts == g + rest
    ensures if g == [] then PostfixTail(e, ts) == Some(R(e, ts)) else
      PostfixTail(e, ts) == PostfixTail(Mean(t1), rest) && Piece(c + g, t1, POSTFIX)
    decreases |ts|, 0, 0
  {
    hide ParseExpr, ParseArgs, Piece, Mean, Toks, WF, Strip;
    g, t1, rest := [], t, ts;
    match Peek(ts)
    case LSquare =>
      var i := ParseExpr(ts[1..]).value;
      var ci, ti := ExprDerived(ts[1..]);
      g, t1, rest := IndexPiece(ts, i, c, t, ci, ti);
    case LParen =>
      var ca, args := ArgsDerived(ts[1..], []);
      g, t1, rest := CallPiece(ts, ParseArgs(ts[1..], []).value, c, t, ca, args);
    case Arrow => g, t1, rest := MemberPiece(ts, c, t, true);
    case Period => g, t1, rest := MemberPiece(ts, c, t, false);
    case PlusPlus => g, t1, rest := PostPiece(ts, c, t, false);
    case MinusMinus => g, t1, rest := PostPiece(ts, c, t, true);
    case _ =>
  }

  lemma IndexPiece(ts: seq<Token>, i: R, c: seq<Token>, t: Tree, ci: seq<Token>, ti: Tree)
    returns (g: seq<Token>, t1: Tree, rest: seq<Token>)
    requires Peek(ts).LSquare? && Derived(ts[1..], i, COMMA, ci, ti) && Peek(i.rest).RSquare? && Piece(c, t, POSTFIX)
    ensures g != [] && ts == g + rest && rest == i.rest[1..] && Piece(c + g, t1, POSTFIX)
      && Mean(t1) == Unary(Deref, Binary(BinOp.Add, Mean(t), i.e))
  {
    hide Strip, Toks, OpRank;
    rest := i.rest[1..];
    g, t1 := [LSquare] + (ci + [RSquare]), TIndex(t, ti);
    StripEnd(ci, RSquare);
    assert Peek(ci + [RSquare]) == Peek(ci);
    StripFront(LSquare, ci + [RSquare]);
    assert [LSquare] + (Toks(ti) + [RSquare]) == [LSquare] + Toks(ti) + [RSquare];
    assert g[|g| - 1] == RSquare;
    WeakerPiece(c, t, POSTFIX, 0);
    GrownPiece(c, t, g, t1, POSTFIX);
    Headed(LSquare, ts);
    Headed(RSquare, i.rest);
    Regroup(ci, [RSquare], rest);
    Regroup([LSquare], ci + [RSquare], rest);
  }

  lemma CallPiece(ts: seq<Token>, r: RArgs, c: seq<Token>, t: Tree, ca: seq<Token>, args: seq<Tree>)
    returns (g: seq<Token>, t1: Tree, rest: seq<Token>)
    requires Peek(ts).LParen? && ArgsAre(ts[1..], r, [], ca, args) && Piece(c, t, POSTFIX)
    ensures g != [] && ts == g + rest && rest == r.rest && Piece(c + g, t1, POSTFIX)
      && Mean(t1) == Call(Mean(t), r.args)
  {
    hide Strip, Toks, ArgsToks, OpRank, Means;
    rest := r.rest;
    g, t1 := [LParen] + ca, TCall(t, args);
    StripFront(LParen, ca);
    assert [LParen] + (ArgsToks(args) + [RParen]) == [LParen] + ArgsToks(args) + [RParen];
    assert g[|g| - 1] == ca[|ca| - 1];
    WeakerPiece(c, t, POSTFIX, 0);
    GrownPiece(c, t, g, t1, POSTFIX);
    assert [] + Means(args) == Means(args);
    Headed(LParen, ts);
    Regroup([LParen], ca, rest);
  }

  lemma MemberPiece(ts: seq<Token>, c: seq<Token>, t: Tree, arrow: bool)
    returns (g: seq<Token>, t1: Tree, rest: seq<Token>)
    requires Peek(ts) == (if arrow then Arrow else Period) && Peek(ts[1..]).Ident? && Piece(c, t, POSTFIX)
    ensures g != [] && ts == g + rest && rest == ts[2..] && Piece(c + g, t1, POSTFIX)
    ensures Mean(t1) == Member(if arrow then Unary(Deref, Mean(t)) else Mean(t), ts[1].x)
  {
    hide Strip, Toks;
    var p := if arrow then Arrow else Period;
    assert ts[1..][0] == ts[1];
    g, t1, rest := [p] + [ts[1]], TMember(t, arrow, ts[1].x), ts[2..];
    StripOne(ts[1]);
    StripFront(p, [ts[1]]);
    assert [p] + [ts[1]] == [p, ts[1]];
    WeakerPiece(c, t, POSTFIX, 0);
    GrownPiece(c, t, g, t1, POSTFIX);
  }

  lemma PostPiece(ts: seq<Token>, c: seq<Token>, t: Tree, dec: bool) returns (g: seq<Token>, t1: Tree, rest: seq<Token>)
    requires Peek(ts) == (if dec then MinusMinus else PlusPlus) && Piece(c, t, POSTFIX)
    ensures g != [] && ts == g + rest && rest == ts[1..] && Piece(c + g, t1, POSTFIX)
      && Mean(t1) == Unary(if dec then PostDec else PostInc, Mean(t))
  {
    hide Strip, Toks;
    var p := if dec then MinusMinus else PlusPlus;
    g, t1, rest := [p], TPost(dec, t), ts[1..];
    StripOne(p);
    WeakerPiece(c, t, POSTFIX, 0);
    GrownPiece(c, t, g, t1, POSTFIX);
    Headed(p, ts);
  }

  /** Arguments with the parenthesis behind them. */
  predicate ArgsAre(ts: seq<Token>, r: RArgs, acc: seq<Ast>, c: seq<Token>, args: seq<Tree>) {
    ts == c + r.rest && c != [] && !EndsOpen(c) && WFArgs(args) && r.args == acc + Means(args)
      && Strip(c) == ArgsToks(args) + [RParen]
    && (Peek(c).RParen? <==> args == [])
  }

  lemma {:induction false} ArgsDerived(ts: seq<Token>, acc: seq<Ast>) returns (c: seq<Token>, args: seq<Tree>)
    requires ParseArgs(ts, acc).Some?
    ensures ArgsAre(ts, ParseArgs(ts, acc).value, acc, c, args)
    decreases |ts|, 21
  {
    hide ParseAssign, ArgsAre, Derived;
    if Peek(ts).RParen? {
      c, args := [RParen], [];
      LastParen(ts, acc);
    } else {
      var a := ParseAssign(ts).value;
      var c1, t1 := AssignDerived(ts);
      var comma := Peek(a.rest) == Bin(BinOp.Comma);
      var next := if comma then a.rest[1..] else a.rest;
      var c2, more := ArgsDerived(next, acc + [a.e]);
      c, args := ArgPiece(ts, a, ParseArgs(next, acc + [a.e]).value, acc, c1, t1, c2, more, comma);
    }
  }

  lemma LastParen(ts: seq<Token>, acc: seq<Ast>)
    requires Peek(ts).RParen?
    ensures ArgsAre(ts, RArgs(acc, ts[1..]), acc, [RParen], [])
  {
    Headed(RParen, ts);
    StripOne(RParen);
    assert acc + [] == acc && [] + [RParen] == [RParen];
  }

  lemma ArgPiece(ts: seq<Token>, a: R, r: RArgs, acc: seq<Ast>, c1: seq<Token>, t1: Tree, c2: seq<Token>,
    more: seq<Tree>, comma: bool) returns (c: seq<Token>, args: seq<Tree>)
    requires if comma then Peek(a.rest) == Bin(BinOp.Comma) else Peek(a.rest).RParen?
    requires Derived(ts, a, ASSIGN, c1, t1) && ArgsAre(if comma then a.rest[1..] else a.rest, r, acc + [a.e], c2, more)
    ensures ArgsAre(ts, r, acc, c, args)
  {
    hide Strip, Toks, ArgsToks, MoreToks, Means, WF, Rank, WFArgs;
    args := [t1] + more;
    ArgsPiece(acc, a.e, t1, more);
    var g := if comma then [Bin(BinOp.Comma)] + c2 else c2;
    c := c1 + g;
    BehindArg(a, r, c2, more, comma, acc + [a.e]);
    StripConcat(c1, g);
    Regroup(Toks(t1), MoreToks(more), [RParen]);
    assert c[|c| - 1] == g[|g| - 1] && c[0] == c1[0];
    Regroup(c1, g, r.rest);
  }

  /** What follows an argument. */
  lemma BehindArg(a: R, r: RArgs, c2: seq<Token>, more: seq<Tree>, comma: bool, acc: seq<Ast>)
    requires if comma then Peek(a.rest) == Bin(BinOp.Comma) else Peek(a.rest).RParen?
    requires ArgsAre(if comma then a.rest[1..] else a.rest, r, acc, c2, more)
    ensures var g := if comma then [Bin(BinOp.Comma)] + c2 else c2;
      && g != [] && g[|g| - 1] == c2[|c2| - 1] && a.rest == g + r.rest
      && Strip(g) == MoreToks(more) + [RParen]
  {
    hide Strip, Toks, ArgsToks, MoreToks, Means, WF, Rank, WFArgs;
    if comma {
      CommaStrip(c2, more);
      Headed(Bin(BinOp.Comma), a.rest);
      Regroup([Bin(BinOp.Comma)], c2, r.rest);
    } else {
      assert more == [];
      NoToks();
    }
  }

  lemma ArgsPiece(acc: seq<Ast>, e: Ast, t: Tree, more: seq<Tree>)
    requires WF(t) && Rank(t) >= ASSIGN && WFArgs(more) && Mean(t) == e
    ensures var args := [t] + more;
      WFArgs(args) && acc + [e] + Means(more) == acc + Means(args) && ArgsToks(args) == Toks(t) + MoreToks(more)
  {
    hide Toks, ArgsToks, MoreToks, Means, WF, Rank;
    var args := [t] + more;
    assert args[1..] == more && args[0] == t;
    ArgsToksAre(args);
    MeansAre(t, more);
    assert acc + [e] + Means(more) == acc + ([e] + Means(more));
    forall k | 0 <= k < |args|
      ensures WF(args[k]) && Rank(args[k]) >= ASSIGN { if k > 0 { assert args[k] == more[k - 1]; } }
  }

  lemma MeansAre(t: Tree, more: seq<Tree>)
    ensures Means([t] + more) == [Mean(t)] + Means(more)
  {
    assert ([t] + more)[1..] == more;
  }

  /** A comma before the parenthesis does not count. */
  lemma CommaStrip(c: seq<Token>, more: seq<Tree>)
    requires c != [] && Strip(c) == ArgsToks(more) + [RParen] && (Peek(c).RParen? <==> more == [])
    ensures Strip([Bin(BinOp.Comma)] + c) == MoreToks(more) + [RParen]
  {
    hide Toks, ArgsToks, MoreToks, Strip;
    if more == [] {
      DroppedComma(c);
      NoToks();
    } else {
      StripFront(Bin(BinOp.Comma), c);
      MoreIs(more);
      Regroup([Bin(BinOp.Comma)], ArgsToks(more), [RParen]);
    }
  }

  lemma DroppedComma(c: seq<Token>)
    requires Peek(c).RParen?
    ensures Strip([Bin(BinOp.Comma)] + c) == Strip(c)
  {
    var all := [Bin(BinOp.Comma)] + c;
    assert all[1..] == c && all[1] == c[0];
  }

  lemma NoToks()
    ensures ArgsToks([]) == [] && MoreToks([]) == []
  {
  }

  lemma MoreIs(more: seq<Tree>)
    requires more != []
    ensures MoreToks(more) == [Bin(BinOp.Comma)] + ArgsToks(more)
  {
    hide Toks;
    var rest := MoreToks(more[1..]);
    assert [Bin(BinOp.Comma)] + Toks(more[0]) + rest == [Bin(BinOp.Comma)] + (Toks(more[0]) + rest);
  }

  /** Everything that the parser accepts has a derivation: the tokens that it consumes are those of a
      tree, and the result is what the tree means. */
  lemma AcceptedIsDerived(ts: seq<Token>)
    requires ParseExpr(ts).Some?
    ensures var r := ParseExpr(ts).value;
      var n := |ts| - |r.rest|;
      ts[n..] == r.rest && exists t :: Expression(t) && Mean(t) == r.e && Strip(ts[..n]) == Toks(t)
  {
    var c, t := ExprDerived(ts);
    assert c == ts[..|ts| - |ParseExpr(ts).value.rest|];
  }

  /* What is accepted beyond the productions. */

  /** The word __extension__ may stand before an expression, and before an assignment expression. */
  lemma ExtensionSkipped(ts: seq<Token>)
    requires !Peek(ts).Extension?
    ensures ParseAssign([Extension] + ts) == ParseAssign(ts)
    ensures ParseExpr([Extension] + ts) == ParseExpr(ts) && ParseExpr([Extension, Extension] + ts) == ParseExpr(ts)
  {
    hide ParseCond, CommaLoop;
    assert ([Extension] + ts)[1..] == ts && ([Extension, Extension] + ts)[1..] == [Extension] + ts;
  }

  /** A comma may stand behind the last argument of a call. */
  lemma {:induction false} CallComma(f: Tree, args: seq<Tree>, post: seq<Token>)
    requires PostfixExpr(f) && args != [] && (forall k :: 0 <= k < |args| ==> AssignmentExpr(args[k]))
      && !Continues(Peek(post))
    ensures ParseExpr(Toks(f) + ([LParen] + (ArgsToks(args) + ([Bin(BinOp.Comma), RParen] + post)))) ==
      Some(R(Call(Mean(f), Means(args)), post))
  {
    hide Toks, ArgsToks, Mean, Means, ParsePostfix, PostfixExpr, AssignmentExpr, WF, WFArgs,
      ParseArgs, Begins, Rank, ParseAt;
    GrammarIsRanks(f);
    CallRanked(TCall(f, args)) by { forall c: Tree | c < TCall(f, args)
      ensures Ranked(c) && Laddered(c) { GrammarIsRanks(c); } }
    var inner := ArgsToks(args) + ([Bin(BinOp.Comma), RParen] + post);
    var rest := [LParen] + inner;
    var ts := Toks(f) + rest;
    RankBound(f);
    LeftPostfix(f, rest);
    CommaArgs(args, post, []);
    assert rest[1..] == inner && [] + Means(args) == Means(args);
    assert PostfixTail(Mean(f), rest) == PostfixTail(Call(Mean(f), Means(args)), post);
    TailStops(Call(Mean(f), Means(args)), post);
    Start(f, rest);
    BeginsParts(f, ts);
    AtPostfix(ts);
    ClimbAll(POSTFIX, ts, R(Call(Mean(f), Means(args)), post));
  }

  lemma AtPostfix(ts: seq<Token>)
    ensures ParseAt(POSTFIX, ts) == ParsePostfix(ts) && ParseAt(COMMA, ts) == ParseExpr(ts)
  {
  }

  lemma {:induction false} ClimbAll(k: nat, ts: seq<Token>, r: R)
    requires k <= POSTFIX && ParseAt(k, ts) == Some(r) && Binds(Peek(r.rest)) < 0
    requires !Peek(ts).Extension? && !(Peek(ts).LParen? && Peek(ts[1..]).TypeName?) && Prefix(Peek(ts)).None?
    ensures ParseAt(COMMA, ts) == Some(r)
    decreases k
  {
    hide ParseAt;
    if k > COMMA {
      Climb(k - 1, ts, r);
      ClimbAll(k - 1, ts, r);
    }
  }

  lemma {:induction false} CommaArgs(args: seq<Tree>, post: seq<Token>, acc: seq<Ast>)
    requires WFArgs(args) && args != []
    ensures ParseArgs(ArgsToks(args) + ([Bin(BinOp.Comma), RParen] + post), acc) == Some(RArgs(acc + Means(args), post))
    decreases args
  {
    hide Toks, MoreToks, ArgsToks, WF, WFArgs, OpRank, Rank, Begins, Mean, Means, ParseArgs,
      ParseAssign, ParseAt, ParseExpr;
    var close := [RParen] + post;
    var post1 := [Bin(BinOp.Comma)] + close;
    assert post1 == [Bin(BinOp.Comma), RParen] + post;
    var a, more := args[0], args[1..];
    var rest, next := MoreToks(more) + post1, if more == [] then close else ArgsToks(more) + post1;
    var ts := Toks(a) + rest;
    ArgsWF(args);
    ArgsToksAre(args);
    Regroup(Toks(a), MoreToks(more), post1);
    assert rest == [Bin(BinOp.Comma)] + next by {
      if more == [] { assert rest == post1; } else { Regroup([Bin(BinOp.Comma)], ArgsToks(more), post1); }
    }
    RankBound(a);
    OpRankIs(BinOp.Comma);
    Parsed(a, ASSIGN, rest);
    ParseAtAssign(ts);
    Start(a, rest);
    BeginsParts(a, ts);
    MeansAre(a, more);
    assert args == [a] + more;
    var acc1 := acc + [Mean(a)];
    if more == [] {
      NoMoreArgs(post, acc1);
      NoMeans(more);
      assert acc1 + [] == acc1;
    } else { CommaArgs(more, post, acc1); }
    assert ParseArgs(next, acc1) == Some(RArgs(acc1 + Means(more), post));
    ArgStep(ts, rest, next, acc, Mean(a), RArgs(acc + [Mean(a)] + Means(more), post), false);
    assert acc + [Mean(a)] + Means(more) == acc + ([Mean(a)] + Means(more));
  }

  lemma NoMoreArgs(post: seq<Token>, acc: seq<Ast>)
    ensures ParseArgs([RParen] + post, acc) == Some(RArgs(acc, post))
  {
    assert ([RParen] + post)[1..] == post;
  }

  lemma NoMeans(args: seq<Tree>)
    requires args == []
    ensures Means(args) == []
  {
  }
}
