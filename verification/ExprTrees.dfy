/** Every tree that the grammar of C11 section 6.5 derives is parsed to what it means, and every
    expression can be written. */
module ExprTrees {
  import opened Common
  import opened ExprSyntax
  import opened ExprGrammar

  function Rank(t: Tree): nat {
    match t
    case TVar(_) => PRIMARY
    case TLit(_) => PRIMARY
    case TParen(_) => PRIMARY
    case TPost(_, _) => POSTFIX
    case TIndex(_, _) => POSTFIX
    case TCall(_, _) => POSTFIX
    case TMember(_, _, _) => POSTFIX
    case TPre(_, _) => UNARY
    case TCast(_, _) => CAST
    case TBin(op, _, _) => OpRank(op)
    case TCond(_, _, _) => COND
    case TAssign(_, _, _) => ASSIGN
  }

  /** Binary operators associate to the left, assignment and ?: to the right. */
  predicate WF(t: Tree)
    decreases t
  {
    match t
    case TVar(_) => true
    case TLit(_) => true
    case TParen(e) => WF(e)
    case TPost(_, e) => WF(e) && Rank(e) >= POSTFIX
    case TIndex(e, i) => WF(e) && Rank(e) >= POSTFIX && WF(i)
    case TCall(f, args) => WF(f) && Rank(f) >= POSTFIX && WFArgs(args)
    case TMember(e, _, _) => WF(e) && Rank(e) >= POSTFIX
    case TPre(op, e) => WF(e) && PrefixToken(op).Some? && Rank(e) >= if op.PreInc? || op.PreDec? then UNARY else CAST
    case TCast(_, e) => WF(e) && Rank(e) >= CAST
    case TBin(op, l, r) => op != Assign && WF(l) && WF(r) && Rank(l) >= OpRank(op) && Rank(r) > OpRank(op)
    case TCond(c, l, r) => WF(c) && Rank(c) > COND && (l.Some? ==> WF(l.value)) && WF(r) && Rank(r) >= COND
    case TAssign(op, l, r) => (op.Some? ==> HasAssign(op.value)) && WF(l) && Rank(l) >= COND && WF(r) && Rank(r) >= ASSIGN
  }

  predicate WFArgs(args: seq<Tree>)
    decreases args
  {
    forall k :: 0 <= k < |args| ==> WF(args[k]) && Rank(args[k]) >= ASSIGN
  }

  lemma OpRankIs(op: BinOp)
    ensures OpRank(op) == COMMA <==> op == Comma
    ensures OpRank(op) == ASSIGN <==> op == Assign
    ensures op != Comma && op != Assign ==> BINARY <= OpRank(op) < CAST
  {
  }

  function PrefixToken(op: UnOp): Option<Token> {
    match op
    case PreInc => Some(PlusPlus)
    case PreDec => Some(MinusMinus)
    case AddrOf => Some(Bin(BitAnd))
    case Deref => Some(Bin(Mul))
    case Plus => Some(Bin(Add))
    case Minus => Some(Bin(Sub))
    case BitNot => Some(Tilde)
    case LogNot => Some(Exclaim)
    case _ => None
  }

  /** The operand that a tree starts with, and what follows it. */
  function First(t: Tree): (r: Option<Tree>)
    ensures r.Some? ==> r.value < t
  {
    match t
    case TPost(_, e) => Some(e)
    case TIndex(e, _) => Some(e)
    case TCall(f, _) => Some(f)
    case TMember(e, _, _) => Some(e)
    case TBin(_, l, _) => Some(l)
    case TCond(c, _, _) => Some(c)
    case TAssign(_, l, _) => Some(l)
    case _ => None
  }

  function Toks(t: Tree): seq<Token>
    decreases t, 1
  {
    if First(t).Some? then Toks(First(t).value) + Follow(t) else
    match t
    case TVar(x) => [Ident(x)]
    case TLit(v) => [Constant(v)]
    case TParen(e) => [LParen] + Toks(e) + [RParen]
    case TPre(op, e) => (if PrefixToken(op).Some? then [PrefixToken(op).value] else []) + Toks(e)
    case TCast(ty, e) => [LParen, TypeName(ty), RParen] + Toks(e)
    case _ => []
  }
  function Follow(t: Tree): seq<Token>
    decreases t, 0
  {
    match t
    case TPost(dec, _) => [if dec then MinusMinus else PlusPlus]
    case TIndex(_, i) => [LSquare] + Toks(i) + [RSquare]
    case TCall(_, args) => [LParen] + ArgsToks(args) + [RParen]
    case TMember(_, arrow, x) => [if arrow then Arrow else Period, Ident(x)]
    case TBin(op, _, r) => [Bin(op)] + Toks(r)
    case TCond(_, mid, r) => [Question] + (if mid.Some? then Toks(mid.value) else []) + [Colon] + Toks(r)
    case TAssign(op, _, r) => [if op.Some? then OpAssign(op.value) else Bin(Assign)] + Toks(r)
    case _ => []
  }
  function ArgsToks(args: seq<Tree>): seq<Token>
    decreases args
  {
    if args == [] then [] else Toks(args[0]) + MoreToks(args[1..])
  }
  function MoreToks(args: seq<Tree>): seq<Token>
    decreases args
  {
    if args == [] then [] else [Bin(Comma)] + Toks(args[0]) + MoreToks(args[1..])
  }

  function Mean(t: Tree): Ast
    decreases t
  {
    match t
    case TVar(x) => Var(x)
    case TLit(v) => Lit(v)
    case TParen(e) => Mean(e)
    case TPost(dec, e) => Unary(if dec then PostDec else PostInc, Mean(e))
    case TIndex(e, i) => Unary(Deref, Binary(Add, Mean(e), Mean(i)))
    case TCall(f, args) => Call(Mean(f), Means(args))
    case TMember(e, arrow, x) => Member(if arrow then Unary(Deref, Mean(e)) else Mean(e), x)
    case TPre(op, e) => Unary(op, Mean(e))
    case TCast(ty, e) => Cast(ty, Mean(e))
    case TBin(op, l, r) => Binary(op, Mean(l), Mean(r))
    case TCond(c, l, r) => Cond(Mean(c), if l.Some? then Mean(l.value) else Mean(c), Mean(r))
    case TAssign(op, l, r) => Binary(Assign, Mean(l), if op.Some? then Binary(op.value, Mean(l), Mean(r)) else Mean(r))
  }
  function Means(ts: seq<Tree>): seq<Ast>
    decreases ts
  {
    if ts == [] then [] else [Mean(ts[0])] + Means(ts[1..])
  }

  /** The rank at which a token would extend the expression before it, if it would. */
  function Binds(t: Token): int {
    match t
    case Bin(op) => OpRank(op)
    case OpAssign(_) => ASSIGN
    case Question => COND
    case LSquare => POSTFIX
    case LParen => POSTFIX
    case Arrow => POSTFIX
    case Period => POSTFIX
    case PlusPlus => POSTFIX
    case MinusMinus => POSTFIX
    case _ => -1
  }

  /** The parser's function for a rank. */
  function ParseAt(k: nat, ts: seq<Token>): Option<R>
    requires k <= PRIMARY
  {
    if k == COMMA then ParseExpr(ts)
    else if k == ASSIGN then ParseAssign(ts)
    else if k == COND then ParseCond(ts)
    else if k <= CAST then ParseBinary(k, ts)
    else if k == UNARY then ParseUnary(ts)
    else if k == POSTFIX then ParsePostfix(ts)
    else ParsePrimary(ts)
  }

  /** How an expression starts. */
  predicate Begins(t: Tree, ts: seq<Token>) {
    var p := Peek(ts);
    && !p.Extension? && !p.TypeName? && !p.Colon? && !p.RParen? && !p.Eof?
    && (Rank(t) >= POSTFIX ==> Prefix(p).None?)
    && (Rank(t) >= UNARY ==> !(p.LParen? && Peek(ts[1..]).TypeName?))
  }

  lemma FirstIs(t: Tree)
    requires First(t).Some?
    ensures Toks(t) == Toks(First(t).value) + Follow(t)
  {
    hide Follow;
  }

  lemma Regroup(a: seq<Token>, b: seq<Token>, c: seq<Token>)
    ensures (a + b) + c == a + (b + c)
  {
  }

  lemma FirstToks(t: Tree, post: seq<Token>)
    requires First(t).Some?
    ensures Toks(t) + post == Toks(First(t).value) + (Follow(t) + post) && First(t).value < t
  {
    hide First, Follow, Toks;
    FirstIs(t);
    Regroup(Toks(First(t).value), Follow(t), post);
  }

  lemma {:induction false} Start(t: Tree, post: seq<Token>)
    requires WF(t)
    ensures Begins(t, Toks(t) + post)
    decreases t
  {
    hide OpRank, Rank, WF, WFArgs, Toks, Follow;
    RankIs(t);
    RankBound(t);
    StartParts(t, post);
    if First(t).Some? {
      FirstToks(t, post);
      Start(First(t).value, Follow(t) + post);
    } else if t.TParen? {
      Start(t.e, [RParen] + post);
    }
  }

  lemma StartParts(t: Tree, post: seq<Token>)
    requires WF(t)
    ensures First(t).Some? ==> WF(First(t).value) && (Rank(t) >= UNARY ==> Rank(First(t).value) >= POSTFIX)
    ensures t.TParen? ==> WF(t.e)
    ensures t.TPre? ==> PrefixToken(t.uop).Some?
    ensures t.TParen? ==> Peek(Toks(t) + post) == LParen && (Toks(t) + post)[1..] == Toks(t.e) + ([RParen] + post)
    ensures t.TPre? && PrefixToken(t.uop).Some? ==> Peek(Toks(t) + post) == PrefixToken(t.uop).value
    ensures t.TCast? ==> Peek(Toks(t) + post) == LParen
    ensures t.TVar? ==> Peek(Toks(t) + post) == Ident(t.x)
    ensures t.TLit? ==> Peek(Toks(t) + post) == Constant(t.v)
    ensures t.TBin? ==> Rank(t) < UNARY
  {
    hide OpRank, WF, WFArgs, Toks, Rank, First;
    StartWF(t);
    StartToks(t, post);
  }

  lemma StartWF(t: Tree)
    requires WF(t)
    ensures First(t).Some? ==> WF(First(t).value) && (Rank(t) >= UNARY ==> Rank(First(t).value) >= POSTFIX)
    ensures t.TParen? ==> WF(t.e)
    ensures t.TPre? ==> PrefixToken(t.uop).Some?
    ensures t.TBin? ==> Rank(t) < UNARY
  {
    hide OpRank, WFArgs;
    if t.TBin? { OpRankIs(t.op); }
  }

  lemma StartToks(t: Tree, post: seq<Token>)
    ensures t.TParen? ==> Peek(Toks(t) + post) == LParen && (Toks(t) + post)[1..] == Toks(t.e) + ([RParen] + post)
    ensures t.TPre? && PrefixToken(t.uop).Some? ==> Peek(Toks(t) + post) == PrefixToken(t.uop).value
    ensures t.TCast? ==> Peek(Toks(t) + post) == LParen
    ensures t.TVar? ==> Peek(Toks(t) + post) == Ident(t.x)
    ensures t.TLit? ==> Peek(Toks(t) + post) == Constant(t.v)
  {
    hide Follow, ArgsToks;
  }

  /** Nothing at rank `k` extends the expression. */
  lemma Climb(k: nat, ts: seq<Token>, r: R)
    requires k < PRIMARY && ParseAt(k + 1, ts) == Some(r) && Binds(Peek(r.rest)) != k
    requires k <= ASSIGN ==> !Peek(ts).Extension?
    requires k == CAST ==> !(Peek(ts).LParen? && Peek(ts[1..]).TypeName?)
    requires k == UNARY ==> Prefix(Peek(ts)).None?
    ensures ParseAt(k, ts) == Some(r)
  {
    hide ParseExpr, ParseAssign, ParseCond, ParseBinary, ParseCast, ParseUnary, ParsePostfix, ParsePrimary, BinaryLoop;
    if k <= COND { ClimbTop(k, ts, r); }
    else if k < CAST { LadderIs(k, ts); LoopEnds(k, r.e, r.rest); }
    else { ClimbUnary(k, ts, r); }
  }

  lemma TailStopsAt(e: Ast, post: seq<Token>)
    requires Binds(Peek(post)) != POSTFIX
    ensures PostfixTail(e, post) == Some(R(e, post))
  {
  }

  lemma LoopEnds(k: nat, e: Ast, post: seq<Token>)
    requires BINARY <= k < CAST && Binds(Peek(post)) != k
    ensures BinaryLoop(k, e, post) == Some(R(e, post))
  {
  }

  lemma ClimbTop(k: nat, ts: seq<Token>, r: R)
    requires k <= COND && ParseAt(k + 1, ts) == Some(r) && Binds(Peek(r.rest)) != k
    requires k <= ASSIGN ==> !Peek(ts).Extension?
    ensures ParseAt(k, ts) == Some(r)
  {
    hide ParseBinary;
    if k == COMMA { assert ParseExpr(ts) == CommaLoop(r.e, r.rest); }
    else if k == ASSIGN { assert ParseCond(ts) == Some(r) && SkipExtension(ts) == ts;
      assert ParseAssign(ts) == Some(r); }
    else { assert ParseBinary(BINARY, ts) == Some(r); assert !Peek(r.rest).Question?; assert ParseCond(ts) == Some(r); }
  }

  lemma ClimbUnary(k: nat, ts: seq<Token>, r: R)
    requires CAST <= k < PRIMARY && ParseAt(k + 1, ts) == Some(r) && Binds(Peek(r.rest)) != k
    requires k == CAST ==> !(Peek(ts).LParen? && Peek(ts[1..]).TypeName?)
    requires k == UNARY ==> Prefix(Peek(ts)).None?
    ensures ParseAt(k, ts) == Some(r)
  {
    hide ParsePrimary, ParseExpr;
    CastIs(ts);
    if k == CAST { assert ParseCast(ts) == ParseUnary(ts); }
    else if k == UNARY { UnaryIs(ts); assert ParseUnary(ts) == ParsePostfix(ts); }
    else { assert ParsePostfix(ts) == PostfixTail(r.e, r.rest); TailStopsAt(r.e, r.rest); }
  }

  /** The main lemma: a tree of sufficient rank, followed by something that does not extend it. */
  lemma {:induction false} Parsed(t: Tree, k: nat, post: seq<Token>)
    requires WF(t) && k <= Rank(t) <= PRIMARY && (Binds(Peek(post)) < k || k == PRIMARY)
    ensures ParseAt(k, Toks(t) + post) == Some(R(Mean(t), post))
    decreases t, PRIMARY - k, 1
  {
    hide Toks, Mean, WF, ParseExpr, ParseAssign, ParseCond, ParseBinary, ParseCast, ParseUnary,
      ParsePostfix, ParsePrimary, Begins;
    if k < Rank(t) {
      Parsed(t, k + 1, post);
      Start(t, post);
      BeginsParts(t, Toks(t) + post);
      Climb(k, Toks(t) + post, R(Mean(t), post));
    } else {
      RankIs(t);
      if k == PRIMARY { PrimaryParsed(t, post); }
      else if k == POSTFIX { LeftPostfix(t, post); TailStops(Mean(t), post); }
      else if k == UNARY { PrefixParsed(t, post); }
      else if k == CAST { CastParsed(t, post); }
      else if k >= BINARY { LeftBinary(t, k, post); LoopStops(k, Mean(t), post); }
      else if k == COND { CondParsed(t, post); }
      else if k == ASSIGN { AssignParsed(t, post); }
      else { LeftComma(t, post); }
    }
  }

  lemma BeginsParts(t: Tree, ts: seq<Token>)
    requires Begins(t, ts)
    ensures !Peek(ts).Extension? && (Rank(t) >= POSTFIX ==> Prefix(Peek(ts)).None?)
      && (Rank(t) >= UNARY ==> !(Peek(ts).LParen? && Peek(ts[1..]).TypeName?))
    ensures !Peek(ts).Colon? && !Peek(ts).RParen? && !Peek(ts).TypeName?
  {
  }

  lemma RankIs(t: Tree)
    requires WF(t)
    ensures Rank(t) == PRIMARY <==> t.TVar? || t.TLit? || t.TParen?
    ensures Rank(t) == POSTFIX <==> t.TPost? || t.TIndex? || t.TCall? || t.TMember?
    ensures Rank(t) == UNARY <==> t.TPre?
    ensures Rank(t) == CAST <==> t.TCast?
    ensures BINARY <= Rank(t) < CAST ==> t.TBin?
    ensures Rank(t) == COND <==> t.TCond?
    ensures Rank(t) == ASSIGN <==> t.TAssign?
    ensures Rank(t) == COMMA ==> t.TBin? && t.op == Comma
  {
    hide OpRank;
    if t.TBin? { OpRankIs(t.op); }
  }

  lemma TailStops(e: Ast, post: seq<Token>)
    requires Binds(Peek(post)) < POSTFIX
    ensures PostfixTail(e, post) == Some(R(e, post))
  {
  }

  lemma LoopStops(k: nat, e: Ast, post: seq<Token>)
    requires BINARY <= k < CAST && Binds(Peek(post)) < k
    ensures BinaryLoop(k, e, post) == Some(R(e, post))
  {
  }

  lemma {:induction false} PrimaryParsed(t: Tree, post: seq<Token>)
    requires WF(t) && (t.TVar? || t.TLit? || t.TParen?)
    ensures ParsePrimary(Toks(t) + post) == Some(R(Mean(t), post))
    decreases t, 0, 0
  {
    hide ParseExpr, Follow, ArgsToks, Toks, Mean, Rank;
    StartToks(t, post);
    PrimaryMean(t);
    if t.TParen? {
      var post1 := [RParen] + post;
      Parsed(t.e, COMMA, post1);
      assert post1[1..] == post;
    } else {
      PrimaryRest(t, post);
    }
  }

  lemma PrimaryMean(t: Tree)
    ensures t.TVar? ==> Mean(t) == Var(t.x)
    ensures t.TLit? ==> Mean(t) == Lit(t.v)
    ensures t.TParen? ==> Mean(t) == Mean(t.e) && Rank(t.e) <= PRIMARY && (WF(t) ==> WF(t.e))
  {
    if t.TParen? { RankBound(t.e); }
  }

  lemma PrimaryRest(t: Tree, post: seq<Token>)
    requires t.TVar? || t.TLit?
    ensures (Toks(t) + post)[1..] == post
  {
    assert |Toks(t)| == 1;
  }

  lemma {:induction false} PrefixParsed(t: Tree, post: seq<Token>)
    requires WF(t) && t.TPre? && Binds(Peek(post)) < UNARY
    ensures ParseUnary(Toks(t) + post) == Some(R(Mean(t), post))
    decreases t, 0, 0
  {
    hide ParseCast, ParseUnary, Toks, Mean, Rank, OpRank;
    BindsGap(post);
    var k := if t.uop.PreInc? || t.uop.PreDec? then UNARY else CAST;
    PrefixParts(t);
    Parsed(t.e, k, post);
    PrefixStep(t.uop, Toks(t.e) + post, R(Mean(t.e), post));
    Regroup([PrefixToken(t.uop).value], Toks(t.e), post);
  }

  lemma PrefixParts(t: Tree)
    requires WF(t) && t.TPre?
    ensures PrefixToken(t.uop).Some? && Toks(t) == [PrefixToken(t.uop).value] + Toks(t.e)
      && Mean(t) == Unary(t.uop, Mean(t.e))
    ensures WF(t.e) && PRIMARY >= Rank(t.e) >= if t.uop.PreInc? || t.uop.PreDec? then UNARY else CAST
  {
    RankBound(t.e);
  }

  lemma BindsGap(post: seq<Token>)
    requires Binds(Peek(post)) < UNARY
    ensures Binds(Peek(post)) < CAST
  {
  }

  lemma PrefixIs(op: UnOp)
    requires PrefixToken(op).Some?
    ensures Prefix(PrefixToken(op).value) == Some(op)
  {
  }

  lemma PrefixStep(op: UnOp, ts: seq<Token>, r: R)
    requires PrefixToken(op).Some? && ParseAt(if op.PreInc? || op.PreDec? then UNARY else CAST, ts) == Some(r)
    ensures ParseUnary([PrefixToken(op).value] + ts) == Some(R(Unary(op, r.e), r.rest))
  {
    hide ParseCast, ParsePostfix;
    PrefixIs(op);
    assert ([PrefixToken(op).value] + ts)[1..] == ts;
    CastIs(ts);
    UnaryIs([PrefixToken(op).value] + ts);
  }

  lemma CastIs(ts: seq<Token>)
    ensures ParseBinary(CAST, ts) == ParseCast(ts)
  {
  }

  lemma UnaryIs(ts: seq<Token>)
    ensures var op := Prefix(Peek(ts));
      ParseUnary(ts) == if op.None? then ParsePostfix(ts) else
        var e := if op.value.PreInc? || op.value.PreDec? then ParseUnary(ts[1..]) else ParseCast(ts[1..]);
        if e.None? then None else Some(R(Unary(op.value, e.value.e), e.value.rest))
  {
  }

  lemma {:induction false} CastParsed(t: Tree, post: seq<Token>)
    requires WF(t) && t.TCast? && Binds(Peek(post)) < CAST
    ensures ParseBinary(CAST, Toks(t) + post) == Some(R(Mean(t), post))
    decreases t, 0, 0
  {
    hide ParseCast, ParseBinary;
    Parsed(t.e, CAST, post);
    var ts := Toks(t) + post;
    CastIs(ts);
    CastIs(Toks(t.e) + post);
    CastStep(t.t, ts, Toks(t.e) + post, R(Mean(t.e), post));
  }

  lemma CastStep(ty: nat, ts: seq<Token>, rest: seq<Token>, r: R)
    requires ts == [LParen, TypeName(ty), RParen] + rest && ParseCast(rest) == Some(r)
    ensures ParseCast(ts) == Some(R(Cast(ty, r.e), r.rest))
  {
    hide ParseUnary;
    assert ts[1..][0] == TypeName(ty) && ts[2..][0] == RParen && ts[3..] == rest;
  }

  lemma {:induction false} LeftBinary(t: Tree, k: nat, post: seq<Token>)
    requires WF(t) && BINARY <= k < CAST && k <= Rank(t) <= PRIMARY && Binds(Peek(post)) <= k
    ensures ParseBinary(k, Toks(t) + post) == BinaryLoop(k, Mean(t), post)
    decreases t, PRIMARY - k, 0
  {
    hide ParseCast, BinaryLoop, WF;
    WFParts(t);
    if Rank(t) > k {
      Parsed(t, k + 1, post);
      LadderIs(k, Toks(t) + post);
    } else {
      var rest := Toks(t.r) + post;
      FirstToks(t, post);
      LeftBinary(t.l, k, Follow(t) + post);
      Parsed(t.r, k + 1, post);
      assert Follow(t) + post == [Bin(t.op)] + rest;
      LoopStep(k, Mean(t.l), t.op, rest, R(Mean(t.r), post));
    }
  }

  lemma WFParts(t: Tree)
    requires WF(t)
    ensures BINARY <= Rank(t) < CAST || Rank(t) == COMMA ==>
        t.TBin? && WF(t.l) && WF(t.r) && Rank(t.l) >= Rank(t) == OpRank(t.op) && Rank(t.r) > Rank(t)
          && Mean(t) == Binary(t.op, Mean(t.l), Mean(t.r))
    ensures Rank(t) == COMMA ==> t.op == Comma
    ensures First(t).Some? && !t.TBin? && !t.TCond? && !t.TAssign?
      ==> WF(First(t).value) && Rank(First(t).value) >= POSTFIX
  {
  }

  lemma LadderIs(k: nat, ts: seq<Token>)
    requires BINARY <= k < CAST && ParseAt(k + 1, ts).Some?
    ensures ParseBinary(k, ts) == var l := ParseAt(k + 1, ts).value; BinaryLoop(k, l.e, l.rest)
  {
  }

  lemma LoopStep(k: nat, lhs: Ast, op: BinOp, ts: seq<Token>, r: R)
    requires BINARY <= k < CAST && OpRank(op) == k && ParseAt(k + 1, ts) == Some(r)
    ensures BinaryLoop(k, lhs, [Bin(op)] + ts) == BinaryLoop(k, Binary(op, lhs, r.e), r.rest)
  {
    assert ([Bin(op)] + ts)[1..] == ts;
  }

  lemma {:induction false} LeftComma(t: Tree, post: seq<Token>)
    requires WF(t) && Rank(t) <= PRIMARY && Binds(Peek(post)) <= COMMA
    ensures ParseExpr(Toks(t) + post) == CommaLoop(Mean(t), post)
    ensures Binds(Peek(post)) < COMMA ==> CommaLoop(Mean(t), post) == Some(R(Mean(t), post))
    decreases t, PRIMARY, 0
  {
    hide ParseAssign, ParseExpr, CommaLoop, WF, Toks, Mean, OpRank, Rank, Begins, ParseAt, Follow;
    Start(t, post);
    BeginsParts(t, Toks(t) + post);
    RankBound(t);
    CommaParts(t, post);
    if Binds(Peek(post)) < COMMA { CommaStops(Mean(t), post); }
    if Rank(t) > COMMA {
      Parsed(t, ASSIGN, post);
      CommaStart(Toks(t) + post, R(Mean(t), post));
    } else {
      RankBound(t.r);
      FirstToks(t, post);
      LeftComma(t.l, Follow(t) + post);
      Parsed(t.r, ASSIGN, post);
      CommaStep(Mean(t.l), Toks(t.r) + post, R(Mean(t.r), post));
    }
  }

  lemma CommaParts(t: Tree, post: seq<Token>)
    requires WF(t)
    ensures Rank(t) == COMMA ==>
      && t.TBin? && WF(t.l) && WF(t.r) && Rank(t.r) > COMMA && Rank(t.l) <= PRIMARY
        && Mean(t) == Binary(Comma, Mean(t.l), Mean(t.r))
      && Follow(t) + post == [Bin(Comma)] + (Toks(t.r) + post) && First(t) == Some(t.l)
    ensures Binds(Bin(Comma)) == COMMA
  {
    hide Toks, OpRank;
    RankIs(t);
    OpRankIs(Comma);
    if Rank(t) == COMMA {
      RankBound(t.l);
      OpRankIs(t.op);
      assert ([Bin(Comma)] + Toks(t.r)) + post == [Bin(Comma)] + (Toks(t.r) + post);
    }
  }

  lemma CommaStops(e: Ast, post: seq<Token>)
    requires Binds(Peek(post)) < COMMA
    ensures CommaLoop(e, post) == Some(R(e, post))
  {
  }

  lemma CommaStart(ts: seq<Token>, r: R)
    requires !Peek(ts).Extension? && ParseAt(ASSIGN, ts) == Some(r)
    ensures ParseExpr(ts) == CommaLoop(r.e, r.rest)
  {
    hide ParseAssign, CommaLoop;
  }

  lemma CommaStep(l: Ast, ts: seq<Token>, r: R)
    requires ParseAt(ASSIGN, ts) == Some(r)
    ensures CommaLoop(l, [Bin(Comma)] + ts) == CommaLoop(Binary(Comma, l, r.e), r.rest)
  {
    hide ParseAssign;
    assert ([Bin(Comma)] + ts)[1..] == ts;
  }

  lemma {:induction false} CondParsed(t: Tree, post: seq<Token>)
    requires WF(t) && t.TCond? && Binds(Peek(post)) < COND
    ensures ParseCond(Toks(t) + post) == Some(R(Mean(t), post))
    decreases t, 0, 0
  {
    hide Toks, Mean, WF, ParseExpr, ParseBinary, ParseCond, Begins;
    CondParts(t, post);
    var rest := [Colon] + (Toks(t.r) + post);
    var mid := if t.mid.Some? then Toks(t.mid.value) + rest else rest;
    FirstToks(t, post);
    Parsed(t.c, BINARY, Follow(t) + post);
    if t.mid.Some? {
      RankBound(t.mid.value);
      Parsed(t.mid.value, COMMA, rest);
      Start(t.mid.value, rest);
      BeginsParts(t.mid.value, mid);
    }
    Parsed(t.r, COND, post);
    assert rest[1..] == Toks(t.r) + post;
    CondStep(Toks(t) + post, mid, rest, R(Mean(t.c), Follow(t) + post), if t.mid.Some? then Mean(t.mid.value)
      else Mean(t.c), t.mid.Some?, R(Mean(t.r), post));
  }

  lemma CondParts(t: Tree, post: seq<Token>)
    requires WF(t) && t.TCond?
    ensures WF(t.c) && BINARY <= Rank(t.c) <= PRIMARY && WF(t.r) && COND <= Rank(t.r) <= PRIMARY
      && (t.mid.Some? ==> WF(t.mid.value))
    ensures var rest := [Colon] + (Toks(t.r) + post);
      Follow(t) + post == [Question] + if t.mid.Some? then Toks(t.mid.value) + rest else rest
    ensures First(t) == Some(t.c) && Peek(Follow(t) + post) == Question
    ensures Mean(t) == Cond(Mean(t.c), if t.mid.Some? then Mean(t.mid.value) else Mean(t.c), Mean(t.r))
  {
    hide WF, Toks, Follow, Mean, Rank;
    CondWF(t);
    CondFollow(t);
    CondMean(t);
    var rest := [Colon] + (Toks(t.r) + post);
    var mid := if t.mid.Some? then Toks(t.mid.value) else [];
    assert Follow(t) + post == [Question] + (mid + rest);
    if t.mid.None? { assert mid + rest == rest; }
  }

  lemma CondWF(t: Tree)
    requires WF(t) && t.TCond?
    ensures WF(t.c) && BINARY <= Rank(t.c) <= PRIMARY && WF(t.r) && COND <= Rank(t.r) <= PRIMARY
      && (t.mid.Some? ==> WF(t.mid.value))
  {
    hide OpRank;
    RankBound(t.c);
    RankBound(t.r);
  }

  lemma CondFollow(t: Tree)
    requires t.TCond?
    ensures Follow(t) == [Question] + (if t.mid.Some? then Toks(t.mid.value) else []) + [Colon] + Toks(t.r)
  {
    hide Toks;
  }

  lemma CondMean(t: Tree)
    requires t.TCond?
    ensures Mean(t) == Cond(Mean(t.c), if t.mid.Some? then Mean(t.mid.value) else Mean(t.c), Mean(t.r))
  {
  }

  lemma CondStep(ts: seq<Token>, mid: seq<Token>, rest: seq<Token>, c: R, l: Ast, hasL: bool, r: R)
    requires ParseBinary(BINARY, ts) == Some(c) && c.rest == [Question] + mid
    requires if hasL then !Peek(mid).Colon? && ParseExpr(mid) == Some(R(l, rest)) else mid == rest && l == c.e
    requires Peek(rest).Colon? && ParseCond(rest[1..]) == Some(r)
    ensures ParseCond(ts) == Some(R(Cond(c.e, l, r.e), r.rest))
  {
    hide ParseExpr, ParseBinary;
    assert c.rest[1..] == mid;
  }

  lemma {:induction false} AssignParsed(t: Tree, post: seq<Token>)
    requires WF(t) && t.TAssign? && Binds(Peek(post)) < ASSIGN
    ensures ParseAssign(Toks(t) + post) == Some(R(Mean(t), post))
    decreases t, 0, 0
  {
    hide Toks, Mean, WF, ParseCond, ParseAssign, Begins;
    AssignParts(t, post);
    FirstToks(t, post);
    Start(t, post);
    BeginsParts(t, Toks(t) + post);
    Parsed(t.l, COND, Follow(t) + post);
    Parsed(t.r, ASSIGN, post);
    AssignStep(t.aop, Toks(t) + post, R(Mean(t.l), Follow(t) + post), Toks(t.r) + post, R(Mean(t.r), post));
  }

  lemma AssignParts(t: Tree, post: seq<Token>)
    requires WF(t) && t.TAssign?
    ensures WF(t.l) && COND <= Rank(t.l) <= PRIMARY && WF(t.r) && ASSIGN <= Rank(t.r) <= PRIMARY
      && First(t) == Some(t.l)
    ensures (t.aop.Some? ==> HasAssign(t.aop.value)) && Binds(Peek(Follow(t) + post)) < COND
    ensures Follow(t) + post == [AssignToken(t.aop)] + (Toks(t.r) + post)
    ensures Mean(t) == Binary(Assign, Mean(t.l), if t.aop.Some? then
      Binary(t.aop.value, Mean(t.l), Mean(t.r)) else Mean(t.r))
  {
    hide Toks, OpRank, HasAssign, Rank;
    RankBound(t.l);
    RankBound(t.r);
    OpRankIs(Assign);
    assert Follow(t) == [AssignToken(t.aop)] + Toks(t.r);
  }

  function AssignToken(op: Option<BinOp>): Token { if op.Some? then OpAssign(op.value) else Bin(Assign) }

  lemma AssignStep(op: Option<BinOp>, ts: seq<Token>, l: R, rest: seq<Token>, r: R)
    requires !Peek(ts).Extension? && ParseCond(ts) == Some(l) && l.rest == [AssignToken(op)] + rest
      && (op.Some? ==> HasAssign(op.value))
    requires ParseAssign(rest) == Some(r)
    ensures ParseAssign(ts) == Some(R(Binary(Assign, l.e, if op.Some? then
      Binary(op.value, l.e, r.e) else r.e), r.rest))
  {
    hide ParseCond;
    assert l.rest[1..] == rest;
  }

  lemma {:induction false} LeftPostfix(t: Tree, post: seq<Token>)
    requires WF(t) && POSTFIX <= Rank(t) <= PRIMARY
    ensures ParsePostfix(Toks(t) + post) == PostfixTail(Mean(t), post)
    decreases t, 1, 0
  {
    hide PostfixTail, WF, ParsePrimary;
    WFParts(t);
    RankIs(t);
    if Rank(t) == PRIMARY {
      Parsed(t, PRIMARY, post);
    } else {
      var e := First(t).value;
      FirstToks(t, post);
      LeftPostfix(e, Follow(t) + post);
      SuffixParsed(t, post);
    }
  }

  lemma {:induction false} SuffixParsed(t: Tree, post: seq<Token>)
    requires WF(t) && Rank(t) == POSTFIX
    ensures PostfixTail(Mean(First(t).value), Follow(t) + post) == PostfixTail(Mean(t), post)
    decreases t, 0, 0
  {
    hide ParseExpr, ParseArgs, Toks, WF, PostfixTail;
    SuffixParts(t);
    match t
    case TPost(_, _) => PostStep(t, post);
    case TIndex(_, i) =>
      RankBound(i);
      Parsed(i, COMMA, [RSquare] + post);
      IndexStep(t, post);
    case TCall(_, args) =>
      ArgsParsed(args, post, []);
      CallStep(t, post);
    case TMember(_, _, _) => PostStep(t, post);
  }

  lemma SuffixParts(t: Tree)
    requires WF(t) && Rank(t) == POSTFIX
    ensures First(t).Some? && (t.TPost? || t.TIndex? || t.TCall? || t.TMember?)
    ensures t.TIndex? ==> WF(t.i)
    ensures t.TCall? ==> WFArgs(t.args)
  {
  }

  lemma PostStep(t: Tree, post: seq<Token>)
    requires t.TPost? || t.TMember?
    ensures PostfixTail(Mean(First(t).value), Follow(t) + post) == PostfixTail(Mean(t), post)
  {
    hide ParseExpr, ParseArgs;
    var ts := Follow(t) + post;
    if t.TPost? { assert ts[1..] == post; } else { assert ts[1..][0] == Ident(t.x) && ts[2..] == post; }
  }

  lemma IndexStep(t: Tree, post: seq<Token>)
    requires t.TIndex? && ParseExpr(Toks(t.i) + ([RSquare] + post)) == Some(R(Mean(t.i), [RSquare] + post))
    ensures PostfixTail(Mean(First(t).value), Follow(t) + post) == PostfixTail(Mean(t), post)
  {
    hide ParseExpr, ParseArgs, Toks;
    assert (Follow(t) + post)[1..] == Toks(t.i) + ([RSquare] + post);
    assert ([RSquare] + post)[1..] == post;
  }

  lemma CallStep(t: Tree, post: seq<Token>)
    requires t.TCall? && ParseArgs(ArgsToks(t.args) + ([RParen] + post), []) == Some(RArgs([] + Means(t.args), post))
    ensures PostfixTail(Mean(First(t).value), Follow(t) + post) == PostfixTail(Mean(t), post)
  {
    hide ParseExpr, ParseArgs, ArgsToks, Means;
    assert (Follow(t) + post)[1..] == ArgsToks(t.args) + ([RParen] + post);
    assert [] + Means(t.args) == Means(t.args);
  }

  lemma {:induction false} ArgsParsed(args: seq<Tree>, post: seq<Token>, acc: seq<Ast>)
    requires WFArgs(args)
    ensures ParseArgs(ArgsToks(args) + ([RParen] + post), acc) == Some(RArgs(acc + Means(args), post))
    decreases args
  {
    hide Toks, MoreToks, ArgsToks, WF, WFArgs, OpRank, Rank, Begins, Mean, Means, ParseArgs, ParseAssign,
      ParseAt, Binds, ParseExpr;
    var post1 := [RParen] + post;
    if args == [] {
      NoArgs(args, post, acc);
    } else {
      var a, rest := args[0], MoreToks(args[1..]) + post1;
      var ts := Toks(a) + rest;
      ArgsParts(args, post1);
      RankBound(a);
      Parsed(a, ASSIGN, rest);
      ParseAtAssign(ts);
      Start(a, rest);
      BeginsParts(a, ts);
      ArgsParsed(args[1..], post, acc + [Mean(a)]);
      ArgStep(ts, rest, ArgsToks(args[1..]) + post1, acc, Mean(a),
        RArgs(acc + [Mean(a)] + Means(args[1..]), post), args[1..] == []);
      assert acc + [Mean(a)] + Means(args[1..]) == acc + ([Mean(a)] + Means(args[1..]));
    }
  }

  lemma NoArgs(args: seq<Tree>, post: seq<Token>, acc: seq<Ast>)
    requires args == []
    ensures ParseArgs(ArgsToks(args) + ([RParen] + post), acc) == Some(RArgs(acc + Means(args), post))
  {
    assert ArgsToks(args) + ([RParen] + post) == [RParen] + post;
    assert ([RParen] + post)[1..] == post && acc + [] == acc;
  }

  lemma ArgsParts(args: seq<Tree>, post1: seq<Token>)
    requires WFArgs(args) && args != [] && Peek(post1).RParen?
    ensures WF(args[0]) && Rank(args[0]) >= ASSIGN && WFArgs(args[1..])
    ensures ArgsToks(args) + post1 == Toks(args[0]) + (MoreToks(args[1..]) + post1)
    ensures Means(args) == [Mean(args[0])] + Means(args[1..])
    ensures var rest, next := MoreToks(args[1..]) + post1, ArgsToks(args[1..]) + post1;
      && Binds(Peek(rest)) < ASSIGN
      && if args[1..] == [] then rest == next == post1 else rest == [Bin(Comma)] + next
  {
    hide Toks, WF, WFArgs, Mean, Rank, OpRank, ArgsToks, MoreToks;
    ArgsWF(args);
    ArgsToksAre(args);
    OpRankIs(Comma);
    var more, rest, next := MoreToks(args[1..]), MoreToks(args[1..]) + post1, ArgsToks(args[1..]) + post1;
    assert (Toks(args[0]) + more) + post1 == Toks(args[0]) + rest;
    if args[1..] == [] { assert rest == post1 && next == post1; }
    else { assert rest == [Bin(Comma)] + next; }
  }

  lemma ArgsWF(args: seq<Tree>)
    requires WFArgs(args) && args != []
    ensures WF(args[0]) && Rank(args[0]) >= ASSIGN && WFArgs(args[1..])
  {
    hide WF, Rank;
  }

  lemma ArgsToksAre(args: seq<Tree>)
    requires args != []
    ensures ArgsToks(args) == Toks(args[0]) + MoreToks(args[1..])
    ensures if args[1..] == [] then MoreToks(args[1..]) == [] && ArgsToks(args[1..]) == []
      else MoreToks(args[1..]) == [Bin(Comma)] + ArgsToks(args[1..])
  {
    hide Toks;
    if args[1..] != [] { assert MoreToks(args[1..]) == [Bin(Comma)] + (Toks(args[1]) + MoreToks(args[1..][1..])); }
  }

  lemma ParseAtAssign(ts: seq<Token>)
    ensures ParseAt(ASSIGN, ts) == ParseAssign(ts)
  {
  }

  lemma ArgStep(ts: seq<Token>, rest: seq<Token>, next: seq<Token>, acc: seq<Ast>, a: Ast, r: RArgs, last: bool)
    requires !Peek(ts).RParen? && ParseAssign(ts) == Some(R(a, rest)) && ParseArgs(next, acc + [a]) == Some(r)
    requires if last then rest == next && Peek(rest).RParen? else rest == [Bin(Comma)] + next
    ensures ParseArgs(ts, acc) == Some(r)
  {
    hide ParseAssign;
    if !last { assert rest[1..] == next; }
  }

  lemma RankBound(t: Tree)
    ensures Rank(t) <= PRIMARY
  {
    hide OpRank;
    if t.TBin? { OpRankIs(t.op); }
  }

  /* The productions of the grammar are the ranks of the trees. */

  ghost predicate Ranked(t: Tree) {
    && (PrimaryExpr(t) <==> WF(t) && Rank(t) >= PRIMARY)
    && (PostfixExpr(t) <==> WF(t) && Rank(t) >= POSTFIX)
    && (UnaryExpr(t) <==> WF(t) && Rank(t) >= UNARY)
    && (CastExpr(t) <==> WF(t) && Rank(t) >= CAST)
    && (ConditionalExpr(t) <==> WF(t) && Rank(t) >= COND)
    && (AssignmentExpr(t) <==> WF(t) && Rank(t) >= ASSIGN)
    && (Expression(t) <==> WF(t))
  }

  /** The ladder of binary operators. */
  ghost predicate Laddered(t: Tree) {
    && (MultiplicativeExpr(t) <==> WF(t) && Rank(t) >= 12)
    && (AdditiveExpr(t) <==> WF(t) && Rank(t) >= 11)
    && (ShiftExpr(t) <==> WF(t) && Rank(t) >= 10)
    && (RelationalExpr(t) <==> WF(t) && Rank(t) >= 9)
    && (EqualityExpr(t) <==> WF(t) && Rank(t) >= 8)
    && (AndExpr(t) <==> WF(t) && Rank(t) >= 7)
    && (ExclusiveOrExpr(t) <==> WF(t) && Rank(t) >= 6)
    && (InclusiveOrExpr(t) <==> WF(t) && Rank(t) >= 5)
    && (LogicalAndExpr(t) <==> WF(t) && Rank(t) >= 4)
    && (LogicalOrExpr(t) <==> WF(t) && Rank(t) >= 3)
  }

  ghost predicate BelowRanked(t: Tree) { forall c: Tree :: c < t ==> Ranked(c) && Laddered(c) }

  /** For every tree and every nonterminal: the grammar derives the tree exactly when its rank says so. */
  lemma {:induction false} GrammarIsRanks(t: Tree)
    ensures Ranked(t) && Laddered(t)
    decreases t
  {
    hide Ranked, Laddered;
    forall c: Tree | c < t ensures Ranked(c) && Laddered(c) { GrammarIsRanks(c); }
    CastRanked(t);
    if t.TBin? { BinaryLaddered(t); } else { NotLaddered(t); }
    TopRanked(t);
  }

  ghost predicate CastLevels(t: Tree) {
    && (PrimaryExpr(t) <==> WF(t) && Rank(t) >= PRIMARY)
    && (PostfixExpr(t) <==> WF(t) && Rank(t) >= POSTFIX)
    && (UnaryExpr(t) <==> WF(t) && Rank(t) >= UNARY)
    && (CastExpr(t) <==> WF(t) && Rank(t) >= CAST)
  }

  lemma {:induction false} CastRanked(t: Tree)
    requires BelowRanked(t)
    ensures CastLevels(t)
  {
    hide Laddered, OpRank;
    if t.TBin? { OpRankIs(t.op); }
    PartsRanked(t);
    if t.TCall? { CallRanked(t); }
    assert PrimaryExpr(t) <==> WF(t) && Rank(t) >= PRIMARY;
    assert PostfixExpr(t) <==> WF(t) && Rank(t) >= POSTFIX;
    assert UnaryExpr(t) <==> WF(t) && Rank(t) >= UNARY;
    assert CastExpr(t) <==> WF(t) && Rank(t) >= CAST;
  }

  lemma CallRanked(t: Tree)
    requires t.TCall? && BelowRanked(t)
    ensures PostfixExpr(t.f) <==> WF(t.f) && Rank(t.f) >= POSTFIX
    ensures WFArgs(t.args) <==> forall k :: 0 <= k < |t.args| ==> AssignmentExpr(t.args[k])
  {
    hide Laddered, OpRank, WF, AssignmentExpr, PostfixExpr;
    assert Ranked(t.f);
    forall k | 0 <= k < |t.args| ensures Ranked(t.args[k]) { assert t.args[k] < t; }
    assert forall k :: 0 <= k < |t.args| ==> (AssignmentExpr(t.args[k])
      <==> WF(t.args[k]) && Rank(t.args[k]) >= ASSIGN);
  }

  lemma PartsRanked(t: Tree)
    requires BelowRanked(t)
    ensures t.TParen? || t.TPost? || t.TIndex? || t.TMember? || t.TPre? || t.TCast? ==> Ranked(t.e)
    ensures t.TIndex? ==> Ranked(t.i)
    ensures t.TBin? || t.TAssign? ==> Ranked(t.l) && Laddered(t.l)
    ensures t.TBin? || t.TAssign? || t.TCond? ==> Ranked(t.r) && Laddered(t.r)
    ensures t.TCond? ==> Ranked(t.c) && Laddered(t.c) && (t.mid.Some? ==> Ranked(t.mid.value))
  {
    hide Ranked, Laddered;
  }

  /** A tree that is no binary operator is in the ladder what it is as a cast expression. */
  lemma {:induction false} NotLaddered(t: Tree)
    requires !t.TBin? && CastLevels(t)
    ensures Laddered(t)
  {
    assert MultiplicativeExpr(t) == CastExpr(t);
    assert AdditiveExpr(t) == CastExpr(t);
    assert ShiftExpr(t) == CastExpr(t);
    assert RelationalExpr(t) == CastExpr(t);
    assert EqualityExpr(t) == CastExpr(t);
    assert AndExpr(t) == CastExpr(t);
    assert ExclusiveOrExpr(t) == CastExpr(t);
    assert InclusiveOrExpr(t) == CastExpr(t);
    assert LogicalAndExpr(t) == CastExpr(t);
    assert LogicalOrExpr(t) == CastExpr(t);
  }

  lemma {:induction false} BinaryLaddered(t: Tree)
    requires t.TBin? && BelowRanked(t) && CastLevels(t)
    ensures Laddered(t)
  {
    PartsRanked(t);
    OpRankIs(t.op);
    assert !CastExpr(t);
  }

  lemma {:induction false} TopRanked(t: Tree)
    requires BelowRanked(t) && CastLevels(t) && Laddered(t)
    ensures Ranked(t)
  {
    PartsRanked(t);
    if t.TBin? { OpRankIs(t.op); }
  }

  /** Any expression that the grammar derives is parsed to its meaning. */
  lemma ExpressionParsed(t: Tree, post: seq<Token>)
    requires Expression(t) && !Continues(Peek(post))
    ensures ParseExpr(Toks(t) + post) == Some(R(Mean(t), post))
  {
    GrammarIsRanks(t);
    RankBound(t);
    Parsed(t, COMMA, post);
  }

  /** The tokens of an expression have only one meaning. */
  lemma Unambiguous(t: Tree, t1: Tree)
    requires Expression(t) && Expression(t1) && Toks(t) == Toks(t1)
    ensures Mean(t) == Mean(t1)
  {
    ExpressionParsed(t, []);
    ExpressionParsed(t1, []);
  }

  /* Writing an expression with parentheses only where they are needed. */

  function Write(a: Ast, k: nat): Tree
    decreases a, 1
  {
    var t := WriteTop(a);
    if Rank(t) >= k then t else TParen(t)
  }

  function WriteTop(a: Ast): Tree
    decreases a, 0
  {
    match a
    case Var(x) => TVar(x)
    case Lit(v) => TLit(v)
    case Unary(op, e) =>
      if op.PostInc? || op.PostDec? then TPost(op.PostDec?, Write(e, POSTFIX))
      else TPre(op, Write(e, if op.PreInc? || op.PreDec? then UNARY else CAST))
    case Binary(op, l, r) =>
      if op == Assign then TAssign(None, Write(l, COND), Write(r, ASSIGN))
        else TBin(op, Write(l, OpRank(op)), Write(r, OpRank(op) + 1))
    case Cond(c, l, r) => TCond(Write(c, BINARY), Some(Write(l, COMMA)), Write(r, COND))
    case Cast(t, e) => TCast(t, Write(e, CAST))
    case Call(f, args) => TCall(Write(f, POSTFIX), WriteArgs(args))
    case Member(e, x) => TMember(Write(e, POSTFIX), false, x)
  }
  function WriteArgs(args: seq<Ast>): seq<Tree>
    decreases args, 0
  {
    if args == [] then [] else [Write(args[0], ASSIGN)] + WriteArgs(args[1..])
  }

  lemma {:induction false} Written(a: Ast, k: nat)
    requires k <= PRIMARY
    ensures WF(Write(a, k)) && Rank(Write(a, k)) >= k && Mean(Write(a, k)) == a
    decreases a, 1
  {
    hide Write;
    WrittenTop(a);
    WriteIs(a, k);
  }

  lemma WriteIs(a: Ast, k: nat)
    ensures Write(a, k) == if Rank(WriteTop(a)) >= k then WriteTop(a) else TParen(WriteTop(a))
  {
  }

  lemma {:induction false} WrittenTop(a: Ast)
    ensures WF(WriteTop(a)) && Mean(WriteTop(a)) == a
    decreases a, 0
  {
    hide Write, WriteArgs, OpRank, Rank, WFArgs, Means;
    match a
    case Var(_) =>
    case Lit(_) =>
    case Unary(op, e) => Written(e, if op.PostInc? || op.PostDec? then POSTFIX else if op.PreInc?
      || op.PreDec? then UNARY else CAST);
    case Binary(op, l, r) =>
      OpRankIs(op);
      Written(l, if op == Assign then COND else OpRank(op));
      Written(r, if op == Assign then ASSIGN else OpRank(op) + 1);
    case Cond(c, l, r) => Written(c, BINARY); Written(l, COMMA); Written(r, COND);
    case Cast(_, e) => Written(e, CAST);
    case Call(f, args) => Written(f, POSTFIX); WrittenArgs(args);
    case Member(e, _) => Written(e, POSTFIX);
  }

  lemma {:induction false} WrittenArgs(args: seq<Ast>)
    ensures Means(WriteArgs(args)) == args && WFArgs(WriteArgs(args))
    decreases args, 0
  {
    hide Write;
    if args != [] {
      Written(args[0], ASSIGN);
      WrittenArgs(args[1..]);
      var ts := WriteArgs(args);
      assert ts[1..] == WriteArgs(args[1..]) && ts[0] == Write(args[0], ASSIGN);
      forall k | 0 <= k < |ts|
        ensures WF(ts[k]) && Rank(ts[k]) >= ASSIGN { if k > 0 { assert ts[k] == WriteArgs(args[1..])[k - 1]; } }
      assert [args[0]] + args[1..] == args;
    }
  }

  /** Round trip: what is written for an expression is parsed back to it, and nothing behind it is
      touched. */
  lemma ExpressionRoundTrip(a: Ast, post: seq<Token>)
    requires !Continues(Peek(post))
    ensures Expression(Write(a, COMMA)) && Mean(Write(a, COMMA)) == a
    ensures ParseExpr(Toks(Write(a, COMMA)) + post) == Some(R(a, post))
  {
    Written(a, COMMA);
    GrammarIsRanks(Write(a, COMMA));
    ExpressionParsed(Write(a, COMMA), post);
  }
}
