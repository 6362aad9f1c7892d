/** The expression parser: a cursor that moves forward and is put back by one token. */
module ExprParser {
  import opened Common
  import opened ExprSyntax

  lemma BinaryIs(k: nat, ts: seq<Token>)
    requires BINARY <= k <= CAST
    ensures k == CAST ==> ParseBinary(k, ts) == ParseCast(ts)
    ensures k < CAST ==> ParseBinary(k, ts) == var l := ParseBinary(k + 1, ts);
      if l.None? then None else BinaryLoop(k, l.value.e, l.value.rest)
  {
  }

  lemma LoopIs(k: nat, lhs: Ast, ts: seq<Token>)
    requires BINARY <= k < CAST
    ensures !(Peek(ts).Bin? && OpRank(ts[0].op) == k) ==> BinaryLoop(k, lhs, ts) == Some(R(lhs, ts))
    ensures Peek(ts).Bin? && OpRank(ts[0].op) == k ==>
      var r := ParseBinary(k + 1, ts[1..]);
      BinaryLoop(k, lhs, ts) == if r.None? then None else BinaryLoop(k, Binary(ts[0].op, lhs, r.value.e), r.value.rest)
  {
  }

  lemma ArgsIs(ts: seq<Token>, acc: seq<Ast>)
    ensures Peek(ts).RParen? ==> ParseArgs(ts, acc) == Some(RArgs(acc, ts[1..]))
    ensures !Peek(ts).RParen? ==>
      var a := ParseAssign(ts);
      ParseArgs(ts, acc) == if a.None? then None
      else if Peek(a.value.rest).RParen? then ParseArgs(a.value.rest, acc + [a.value.e])
      else if Peek(a.value.rest) == Bin(Comma) then ParseArgs(a.value.rest[1..], acc + [a.value.e])
      else None
  {
  }

  lemma TailIs(e: Ast, ts: seq<Token>)
    ensures Peek(ts).LSquare? ==>
      var i := ParseExpr(ts[1..]);
      PostfixTail(e, ts) == if i.None? || !Peek(i.value.rest).RSquare? then None
        else PostfixTail(Unary(Deref, Binary(Add, e, i.value.e)), i.value.rest[1..])
    ensures Peek(ts).LParen? ==>
      var args := ParseArgs(ts[1..], []);
      PostfixTail(e, ts) == if args.None? then None else PostfixTail(Call(e, args.value.args), args.value.rest)
    ensures Peek(ts).Arrow? ==>
      PostfixTail(e, ts) == if !Peek(ts[1..]).Ident? then None
        else PostfixTail(Member(Unary(Deref, e), ts[1].x), ts[2..])
    ensures Peek(ts).Period? ==>
      PostfixTail(e, ts) == if !Peek(ts[1..]).Ident? then None else PostfixTail(Member(e, ts[1].x), ts[2..])
    ensures Peek(ts).PlusPlus? ==> PostfixTail(e, ts) == PostfixTail(Unary(PostInc, e), ts[1..])
    ensures Peek(ts).MinusMinus? ==> PostfixTail(e, ts) == PostfixTail(Unary(PostDec, e), ts[1..])
    ensures !(Peek(ts).LSquare? || Peek(ts).LParen? || Peek(ts).Arrow? || Peek(ts).Period? || Peek(ts).PlusPlus? || Peek(ts).MinusMinus?) ==>
      PostfixTail(e, ts) == Some(R(e, ts))
  {
  }

  /** Methods return false where the source reports an error. */
  class ExprParser {
    const tokens: seq<Token>
    var index: nat

    constructor (tokens: seq<Token>)
      ensures this.tokens == tokens && index == 0
    {
      this.tokens := tokens;
      index := 0;
    }

    predicate Valid()
      reads this
    {
      index <= |tokens|
    }

    /** The tokens that are left. */
    function Rest(): seq<Token>
      reads this
      requires Valid()
    {
      tokens[index..]
    }

    method Try(t: Token) returns (found: bool)
      requires Valid() && t != Eof
      modifies this`index
      ensures Valid() && found == (Peek(old(Rest())) == t) && index == if found then old(index) + 1 else old(index)
      ensures Rest() == if found then old(Rest())[1..] else old(Rest())
    {
      found := index < |tokens| && tokens[index] == t;
      if found { index := index + 1; }
    }

    method Expr() returns (ok: bool, e: Ast)
      requires Valid()
      modifies this`index
      ensures Valid() && (ok ==> old(index) < index)
      ensures ParseExpr(old(Rest())) == if ok then Some(R(e, Rest())) else None
      decreases |tokens| - index, 21
    {
      hide ParseAssign;
      var _ := Try(Extension);
      ok, e := AssignExpr();
      if !ok { return; }
      while index < |tokens| && tokens[index] == Bin(Comma)
        invariant Valid() && ok && old(index) < index && ParseExpr(old(Rest())) == CommaLoop(e, Rest())
        decreases |tokens| - index
      {
        ghost var ts := Rest();
        index := index + 1;
        assert Rest() == ts[1..];
        var r;
        ok, r := AssignExpr();
        if !ok { return; }
        e := Binary(Comma, e, r);
      }
    }

    method AssignExpr() returns (ok: bool, e: Ast)
      requires Valid()
      modifies this`index
      ensures Valid() && (ok ==> old(index) < index)
      ensures ParseAssign(old(Rest())) == if ok then Some(R(e, Rest())) else None
      decreases |tokens| - index, 20
    {
      hide ParseCond;
      var _ := Try(Extension);
      ok, e := ConditionExpr();
      if !ok { return; }
      ghost var here := Rest();
      var t := if index < |tokens| then tokens[index] else Eof;
      if t == Bin(Assign) || (t.OpAssign? && HasAssign(t.op)) {
        index := index + 1;
        assert Rest() == here[1..];
        var r;
        ok, r := AssignExpr();
        if !ok { return; }
        e := Binary(Assign, e, if t.OpAssign? then Binary(t.op, e, r) else r);
      }
    }

    method ConditionExpr() returns (ok: bool, e: Ast)
      requires Valid()
      modifies this`index
      ensures Valid() && (ok ==> old(index) < index)
      ensures ParseCond(old(Rest())) == if ok then Some(R(e, Rest())) else None
      decreases |tokens| - index, 19
    {
      hide ParseExpr, ParseBinary;
      ok, e := BinaryExpr(BINARY);
      if !ok { return; }
      var c := e;
      var question := Try(Question);
      if !question { return; }
      var l := c;
      if !(index < |tokens| && tokens[index].Colon?) {
        ok, l := Expr();
        if !ok { return; }
      }
      ok := Try(Colon);
      if !ok { return; }
      var r;
      ok, r := ConditionExpr();
      e := Cond(c, l, r);
    }

    /** The ten functions from ParseLogicalOrExpr to ParseMultiplicativeExpr. */
    method BinaryExpr(k: nat) returns (ok: bool, e: Ast)
      requires Valid() && BINARY <= k <= CAST
      modifies this`index
      ensures Valid() && (ok ==> old(index) < index)
      ensures ParseBinary(k, old(Rest())) == if ok then Some(R(e, Rest())) else None
      decreases |tokens| - index, 18 - k
    {
      hide ParseCast, BinaryLoop, ParseBinary;
      BinaryIs(k, Rest());
      if k == CAST {
        ok, e := CastExpr();
        return;
      }
      ok, e := BinaryExpr(k + 1);
      if !ok { return; }
      while index < |tokens| && tokens[index].Bin? && OpRank(tokens[index].op) == k
        invariant Valid() && ok && old(index) < index
        invariant ParseBinary(k, old(Rest())) == BinaryLoop(k, e, Rest())
      {
        LoopIs(k, e, Rest());
        var op := tokens[index].op;
        assert Rest()[1..] == tokens[index + 1..];
        index := index + 1;
        var r;
        ok, r := BinaryExpr(k + 1);
        if !ok { return; }
        e := Binary(op, e, r);
      }
      LoopIs(k, e, Rest());
    }

    method CastExpr() returns (ok: bool, e: Ast)
      requires Valid()
      modifies this`index
      ensures Valid() && (ok ==> old(index) < index)
      ensures ParseCast(old(Rest())) == if ok then Some(R(e, Rest())) else None
      decreases |tokens| - index, 4
    {
      hide ParseUnary;
      ghost var ts := Rest();
      var paren := Try(LParen);
      if paren {
        if index < |tokens| && tokens[index].TypeName? {
          var t := tokens[index].t;
          index := index + 1;
          assert Rest() == ts[2..];
          ok := Try(RParen);
          if !ok { return false, Var(0); }
          assert Rest() == ts[3..];
          ok, e := CastExpr();
          e := Cast(t, e);
          return;
        }
        index := index - 1;
      }
      ok, e := UnaryExpr();
    }

    method UnaryExpr() returns (ok: bool, e: Ast)
      requires Valid()
      modifies this`index
      ensures Valid() && (ok ==> old(index) < index)
      ensures ParseUnary(old(Rest())) == if ok then Some(R(e, Rest())) else None
      decreases |tokens| - index, 3
    {
      hide ParseCast, ParsePostfix;
      var op := if index < |tokens| then Prefix(tokens[index]) else None;
      if op.None? {
        ok, e := PostfixExpr();
        return;
      }
      assert Rest()[1..] == tokens[index + 1..];
      index := index + 1;
      if op.value.PreInc? || op.value.PreDec? { ok, e := UnaryExpr(); } else { ok, e := CastExpr(); }
      e := Unary(op.value, e);
    }

    method PostfixExpr() returns (ok: bool, e: Ast)
      requires Valid()
      modifies this`index
      ensures Valid() && (ok ==> old(index) < index)
      ensures ParsePostfix(old(Rest())) == if ok then Some(R(e, Rest())) else None
      decreases |tokens| - index, 2
    {
      hide ParsePrimary, PostfixTail;
      ok, e := PrimaryExpr();
      if !ok { return; }
      var more := true;
      while more
        invariant Valid() && ok && old(index) < index
        invariant ParsePostfix(old(Rest())) == if more then PostfixTail(e, Rest()) else Some(R(e, Rest()))
        decreases |tokens| - index, more
      {
        ok, more, e := PostfixStep(e);
        if !ok { return; }
      }
    }

    /** One postfix operator, if there is one. */
    method PostfixStep(e: Ast) returns (ok: bool, more: bool, e1: Ast)
      requires Valid()
      modifies this`index
      ensures Valid() && (ok ==> old(index) <= index) && (ok && more ==> old(index) < index)
      ensures PostfixTail(e, old(Rest())) == if !ok then None else if more then PostfixTail(e1, Rest())
        else Some(R(e1, Rest()))
      decreases |tokens| - index, 1
    {
      hide PostfixTail, ParseExpr, ParseArgs;
      ok, more, e1 := true, true, e;
      TailIs(e, Rest());
      ghost var ts := Rest();
      var t := if index < |tokens| then tokens[index] else Eof;
      var moved := index < |tokens|;
      if moved { index := index + 1; assert Rest() == ts[1..]; }
      match t {
        case LSquare =>
          var i;
          ok, i := Expr();
          if !ok { return; }
          ok := Try(RSquare);
          if !ok { return; }
          e1 := Unary(Deref, Binary(Add, e, i));
        case LParen =>
          var args;
          ok, args := CallArgs();
          if !ok { return; }
          e1 := Call(e, args);
        case Arrow =>
          if !(index < |tokens| && tokens[index].Ident?) { return false, false, e; }
          e1 := Member(Unary(Deref, e), tokens[index].x);
          index := index + 1;
          assert Rest() == ts[2..];
        case Period =>
          if !(index < |tokens| && tokens[index].Ident?) { return false, false, e; }
          e1 := Member(e, tokens[index].x);
          index := index + 1;
          assert Rest() == ts[2..];
        case PlusPlus => e1 := Unary(PostInc, e);
        case MinusMinus => e1 := Unary(PostDec, e);
        case _ =>
          if moved { index := index - 1; }
          more := false;
      }
    }

    method CallArgs() returns (ok: bool, args: seq<Ast>)
      requires Valid()
      modifies this`index
      ensures Valid() && (ok ==> old(index) < index)
      ensures ParseArgs(old(Rest()), []) == if ok then Some(RArgs(args, Rest())) else None
      decreases |tokens| - index, 21
    {
      hide ParseAssign, ParseArgs;
      ok, args := true, [];
      ArgsIs(Rest(), args);
      var close := Try(RParen);
      while !close
        invariant Valid() && ok && old(index) <= index && (close ==> old(index) < index)
        invariant if close then ParseArgs(old(Rest()), []) == Some(RArgs(args, Rest())) else !Peek(Rest()).RParen?
        invariant !close ==> ParseArgs(old(Rest()), []) == ParseArgs(Rest(), args)
        decreases |tokens| - index, !close
      {
        ArgsIs(Rest(), args);
        var a;
        ok, a := AssignExpr();
        if !ok { return; }
        args := args + [a];
        if !(index < |tokens| && tokens[index].RParen?) {
          ok := Try(Bin(Comma));
          if !ok { return; }
        }
        ArgsIs(Rest(), args);
        close := Try(RParen);
      }
    }

    method PrimaryExpr() returns (ok: bool, e: Ast)
      requires Valid()
      modifies this`index
      ensures Valid() && (ok ==> old(index) < index)
      ensures ParsePrimary(old(Rest())) == if ok then Some(R(e, Rest())) else None
      decreases |tokens| - index, 1
    {
      hide ParseExpr;
      ok, e := false, Var(0);
      if index == |tokens| { return; }
      ghost var ts := Rest();
      var t := tokens[index];
      match t {
        case Ident(x) => ok, e := true, Var(x); index := index + 1;
        case Constant(v) => ok, e := true, Lit(v); index := index + 1;
        case LParen =>
          index := index + 1;
          assert Rest() == ts[1..];
          ok, e := Expr();
          if !ok { return; }
          ok := Try(RParen);
        case _ =>
      }
    }
  }
}
