/** Expressions as tokens, as the trees the grammar derives, and as what the parser builds. */
module ExprSyntax {
  import opened Common

  datatype BinOp =
    | LogOr | LogAnd | BitOr | BitXor | BitAnd | EqEq | NotEq | Less | Greater | LessEq | GreaterEq
    | Shl | Shr | Add | Sub | Mul | Div | Mod | Assign | Comma
  datatype UnOp = PreInc | PreDec | AddrOf | Deref | Plus | Minus | BitNot | LogNot | PostInc | PostDec

  /** `Bin` tokens also stand for the prefix operators that are spelled like them. */
  datatype Token =
    | Bin(op: BinOp)
    | OpAssign(op: BinOp)
    | PlusPlus | MinusMinus | Tilde | Exclaim
    | Question | Colon | LParen | RParen | LSquare | RSquare | Arrow | Period
    | Ident(x: nat) | Constant(v: int) | TypeName(t: nat) | Extension | Eof

  datatype Ast =
    | Var(x: nat)
    | Lit(v: int)
    | Unary(uop: UnOp, e: Ast)
    | Binary(op: BinOp, l: Ast, r: Ast)
    | Cond(c: Ast, l: Ast, r: Ast)
    | Cast(t: nat, e: Ast)
    | Call(f: Ast, args: seq<Ast>)
    | Member(e: Ast, x: nat)

  /* Precedence. */

  const COMMA := 0
  const ASSIGN := 1
  const COND := 2
  const BINARY := 3
  const CAST := 13
  const UNARY := 14
  const POSTFIX := 15
  const PRIMARY := 16

  /** The ladder from || to the multiplicative operators. */
  function OpRank(op: BinOp): nat {
    match op
    case Comma => 0
    case Assign => 1
    case LogOr => 3
    case LogAnd => 4
    case BitOr => 5
    case BitXor => 6
    case BitAnd => 7
    case EqEq => 8
    case NotEq => 8
    case Less => 9
    case Greater => 9
    case LessEq => 9
    case GreaterEq => 9
    case Shl => 10
    case Shr => 10
    case Add => 11
    case Sub => 11
    case Mul => 12
    case Div => 12
    case Mod => 12
  }

  /** The operators with a compound assignment. */
  predicate HasAssign(op: BinOp) {
    op.Mul? || op.Div? || op.Mod? || op.Add? || op.Sub? || op.Shl? || op.Shr? || op.BitAnd? || op.BitXor? || op.BitOr?
  }

  /** The prefix operator that a token is, if it is one. */
  function Prefix(t: Token): Option<UnOp> {
    match t
    case PlusPlus => Some(PreInc)
    case MinusMinus => Some(PreDec)
    case Tilde => Some(BitNot)
    case Exclaim => Some(LogNot)
    case Bin(op) =>
      (match op
       case BitAnd => Some(AddrOf)
       case Mul => Some(Deref)
       case Add => Some(Plus)
       case Sub => Some(Minus)
       case _ => None)
    case _ => None
  }

  function Peek(ts: seq<Token>): Token { if ts == [] then Eof else ts[0] }

  /* The parser, on the tokens that are left. */

  datatype R = R(e: Ast, rest: seq<Token>)
  datatype RArgs = RArgs(args: seq<Ast>, rest: seq<Token>)

  function SkipExtension(ts: seq<Token>): seq<Token> { if Peek(ts).Extension? then ts[1..] else ts }

  function ParseExpr(ts: seq<Token>): (r: Option<R>)
    ensures r.Some? ==> |r.value.rest| < |ts|
    decreases |ts|, 21
  {
    var l := ParseAssign(SkipExtension(ts));
    if l.None? then None else CommaLoop(l.value.e, l.value.rest)
  }

  function CommaLoop(lhs: Ast, ts: seq<Token>): (r: Option<R>)
    ensures r.Some? ==> |r.value.rest| <= |ts|
    decreases |ts|, 0
  {
    if Peek(ts) != Bin(Comma) then Some(R(lhs, ts)) else
    var r := ParseAssign(ts[1..]);
    if r.None? then None else CommaLoop(Binary(Comma, lhs, r.value.e), r.value.rest)
  }

  /** The left operand is any conditional expression. A compound assignment uses it twice. */
  function ParseAssign(ts: seq<Token>): (r: Option<R>)
    ensures r.Some? ==> |r.value.rest| < |ts|
    decreases |ts|, 20
  {
    var l := ParseCond(SkipExtension(ts));
    if l.None? then None else
    var t := Peek(l.value.rest);
    if t == Bin(Assign) then
      var r := ParseAssign(l.value.rest[1..]);
      if r.None? then None else Some(R(Binary(Assign, l.value.e, r.value.e), r.value.rest))
    else if t.OpAssign? && HasAssign(t.op) then
      var r := ParseAssign(l.value.rest[1..]);
      if r.None? then None else Some(R(Binary(Assign, l.value.e, Binary(t.op, l.value.e, r.value.e)), r.value.rest))
    else l
  }

  /** `a ?: b` is `a ? a : b`. */
  function ParseCond(ts: seq<Token>): (r: Option<R>)
    ensures r.Some? ==> |r.value.rest| < |ts|
    decreases |ts|, 19
  {
    var c := ParseBinary(BINARY, ts);
    if c.None? then None
    else if !Peek(c.value.rest).Question? then c
    else
      var ts1 := c.value.rest[1..];
      var l := if Peek(ts1).Colon? then Some(R(c.value.e, ts1)) else ParseExpr(ts1);
      if l.None? || !Peek(l.value.rest).Colon? then None else
      var r := ParseCond(l.value.rest[1..]);
      if r.None? then None else Some(R(Cond(c.value.e, l.value.e, r.value.e), r.value.rest))
  }

  /** One step of the ladder: ParseLogicalOrExpr to ParseMultiplicativeExpr. */
  function ParseBinary(k: nat, ts: seq<Token>): (r: Option<R>)
    requires BINARY <= k <= CAST
    ensures r.Some? ==> |r.value.rest| < |ts|
    decreases |ts|, 18 - k
  {
    if k == CAST then ParseCast(ts) else
    var l := ParseBinary(k + 1, ts);
    if l.None? then None else BinaryLoop(k, l.value.e, l.value.rest)
  }

  function BinaryLoop(k: nat, lhs: Ast, ts: seq<Token>): (r: Option<R>)
    requires BINARY <= k < CAST
    ensures r.Some? ==> |r.value.rest| <= |ts|
    decreases |ts|, 0
  {
    if !(Peek(ts).Bin? && OpRank(ts[0].op) == k) then Some(R(lhs, ts)) else
    var r := ParseBinary(k + 1, ts[1..]);
    if r.None? then None else BinaryLoop(k, Binary(ts[0].op, lhs, r.value.e), r.value.rest)
  }

  function ParseCast(ts: seq<Token>): (r: Option<R>)
    ensures r.Some? ==> |r.value.rest| < |ts|
    decreases |ts|, 4
  {
    if Peek(ts).LParen? && Peek(ts[1..]).TypeName? then
      if !Peek(ts[2..]).RParen? then None else
      var e := ParseCast(ts[3..]);
      if e.None? then None else Some(R(Cast(ts[1].t, e.value.e), e.value.rest))
    else ParseUnary(ts)
  }

  /** The operand of ++ and -- is a unary expression, that of the others a cast expression. */
  function ParseUnary(ts: seq<Token>): (r: Option<R>)
    ensures r.Some? ==> |r.value.rest| < |ts|
    decreases |ts|, 3
  {
    var op := Prefix(Peek(ts));
    if op.None? then ParsePostfix(ts) else
    var e := if op.value.PreInc? || op.value.PreDec? then ParseUnary(ts[1..]) else ParseCast(ts[1..]);
    if e.None? then None else Some(R(Unary(op.value, e.value.e), e.value.rest))
  }

  function ParsePostfix(ts: seq<Token>): (r: Option<R>)
    ensures r.Some? ==> |r.value.rest| < |ts|
    decreases |ts|, 2
  {
    var e := ParsePrimary(ts);
    if e.None? then None else PostfixTail(e.value.e, e.value.rest)
  }

  /** `a[i]` is `*(a + i)`, and `a->x` is `(*a).x`. */
  function PostfixTail(e: Ast, ts: seq<Token>): (r: Option<R>)
    ensures r.Some? ==> |r.value.rest| <= |ts|
    decreases |ts|, 0
  {
    match Peek(ts)
    case LSquare =>
      var i := ParseExpr(ts[1..]);
      if i.None? || !Peek(i.value.rest).RSquare? then None else
      PostfixTail(Unary(Deref, Binary(Add, e, i.value.e)), i.value.rest[1..])
    case LParen =>
      var args := ParseArgs(ts[1..], []);
      if args.None? then None else PostfixTail(Call(e, args.value.args), args.value.rest)
    case Arrow => if !Peek(ts[1..]).Ident? then None else PostfixTail(Member(Unary(Deref, e), ts[1].x), ts[2..])
    case Period => if !Peek(ts[1..]).Ident? then None else PostfixTail(Member(e, ts[1].x), ts[2..])
    case PlusPlus => PostfixTail(Unary(PostInc, e), ts[1..])
    case MinusMinus => PostfixTail(Unary(PostDec, e), ts[1..])
    case _ => Some(R(e, ts))
  }

  /** The arguments of a call; a comma may stand before the parenthesis. */
  function ParseArgs(ts: seq<Token>, acc: seq<Ast>): (r: Option<RArgs>)
    ensures r.Some? ==> |r.value.rest| < |ts|
    decreases |ts|, 21
  {
    if Peek(ts).RParen? then Some(RArgs(acc, ts[1..])) else
    var a := ParseAssign(ts);
    if a.None? then None
    else if Peek(a.value.rest).RParen? then ParseArgs(a.value.rest, acc + [a.value.e])
    else if Peek(a.value.rest) == Bin(Comma) then ParseArgs(a.value.rest[1..], acc + [a.value.e])
    else None
  }

  function ParsePrimary(ts: seq<Token>): (r: Option<R>)
    ensures r.Some? ==> |r.value.rest| < |ts|
    decreases |ts|, 1
  {
    match Peek(ts)
    case Ident(x) => Some(R(Var(x), ts[1..]))
    case Constant(v) => Some(R(Lit(v), ts[1..]))
    case LParen =>
      var e := ParseExpr(ts[1..]);
      if e.None? || !Peek(e.value.rest).RParen? then None else Some(R(e.value.e, e.value.rest[1..]))
    case _ => None
  }
}
