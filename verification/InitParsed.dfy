/** The parser on the tokens of an initializer tree is the consumption of its items. */
module InitParsed {
  import opened Common
  import opened ArrayInit
  import opened InitMeaning
  import opened InitLists
  import opened InitTrees

  /* Tokens in order. */

  lemma Regroup(a: seq<Token>, b: seq<Token>, c: seq<Token>)
    ensures (a + b) + c == a + (b + c)
  {
  }

  lemma ItemsIs(items: seq<Item>)
    requires items != []
    ensures ItemsToks(items) == if |items| == 1 then ItemToks(items[0])
      else ItemToks(items[0]) + [Comma] + ItemsToks(items[1..])
  {
  }

  /** The items from the `k`-th on. */
  lemma ItemsFrom(items: seq<Item>, k: nat, post: seq<Token>)
    requires k < |items|
    ensures ItemsToks(items[k..]) + post == Head(items[k]) + Body(items, k, post)
  {
    hide Head, InitToks, ItemsToks;
    var ks := items[k..];
    assert ks[0] == items[k] && ks[1..] == items[k + 1..];
    ItemsIs(ks);
    var h, i := Head(items[k]), InitToks(items[k].init);
    if |ks| == 1 {
      Regroup(h, i, post);
    } else {
      var more := ItemsToks(items[k + 1..]);
      Regroup(h + i + [Comma], more, post);
      Regroup(h + i, [Comma], more + post);
      Regroup(h, i, [Comma] + (more + post));
    }
  }

  lemma InitStart(i: Init, rest: seq<Token>)
    ensures var p := Peek(InitToks(i) + rest); p.Const? || p.LBrace?
  {
    hide ItemsToks;
  }

  lemma HeadStart(it: Item)
    ensures it.path != [] ==> Head(it) != [] && Head(it)[0] == LSquare
    ensures it.path == [] ==> Head(it) == []
  {
  }

  /** How what follows an item starts. */
  lemma TailStart(items: seq<Item>, k: nat, post: seq<Token>)
    requires k <= |items|
    ensures k == |items| ==> Tail(items, k, post) == post
    ensures k < |items| ==>
        Peek(Tail(items, k, post)).Comma? && Rest(Tail(items, k, post)) == Head(items[k]) + Body(items, k, post)
    ensures Plain(items, k) ==>
        Rest(Tail(items, k, post)) == Body(items, k, post) && var p := Peek(Body(items, k, post)); p.Const? || p.LBrace?
    ensures k < |items| && items[k].path != [] ==> Peek(Rest(Tail(items, k, post))).LSquare?
  {
    hide InitToks, ItemsToks, Head;
    if k < |items| {
      ItemsFrom(items, k, post);
      assert Tail(items, k, post)[1..] == ItemsToks(items[k..]) + post;
      HeadStart(items[k]);
      InitStart(items[k].init, Tail(items, k + 1, post));
      if items[k].path == [] { assert [] + Body(items, k, post) == Body(items, k, post); }
    }
  }

  /** What ends a list. */
  predicate Closes(post: seq<Token>) { Peek(post).RBrace? || (Peek(post).Comma? && Peek(Rest(post)).RBrace?) }

  /** What is left when the items before the `k`-th have been read. An array without braces that has room takes
      the comma behind the last item. */
  predicate AtTail(rest: seq<Token>, items: seq<Item>, k: nat, post: seq<Token>)
    requires k <= |items|
  {
    rest == Tail(items, k, post) || (k == |items| && Peek(post).Comma? && rest == Rest(post))
  }

  predicate TookVal(r: Option<R>, x: Option<(Val, nat)>, items: seq<Item>, post: seq<Token>)
    requires x.Some? ==> x.value.1 <= |items|
  {
    (r.Some? <==> x.Some?) && (r.Some? ==> r.value.v == x.value.0 && AtTail(r.value.rest, items, x.value.1, post))
  }
  predicate TookVec(r: Option<RVec>, x: Option<(seq<Val>, nat)>, items: seq<Item>, post: seq<Token>)
    requires x.Some? ==> x.value.1 <= |items|
  {
    (r.Some? <==> x.Some?) && (r.Some? ==> r.value.vs == x.value.0 && AtTail(r.value.rest, items, x.value.1, post))
  }

  /* Steps of the parser. */

  lemma ElemFirst(prev: seq<Token>, ts: seq<Token>, e: Type, bound: Option<nat>, brace: bool, i: nat, vals: seq<Val>)
    requires |ts| <= |prev| && (Peek(ts).Const? || Peek(ts).LBrace?)
    ensures var x, r := ParseInit(ts, e, false), ParseElems(prev, ts, e, bound, brace, false, i, vals);
      if x.None? then r.None?
      else |x.value.rest| <= |ts| && r == NextElem(ts, x.value, e, bound, brace, i + 1, Put(e, vals, i, x.value.v))
  {
    hide ParseInit, NextElem, Put;
  }

  lemma Designated(prev: seq<Token>, ts: seq<Token>, e: Type, bound: Option<nat>, brace: bool, flag: bool, idx: nat,
    vals: seq<Val>, i: nat, rest: seq<Token>)
    requires ts == [LSquare, Const(i), RSquare] + rest && |ts| <= |prev| && (brace || flag)
    ensures var r, x := ParseElems(prev, ts, e, bound, brace, flag, idx, vals), ParseInit(rest, e, true);
      if Within(bound, i) && x.Some? then
        |x.value.rest| <= |ts| && r == NextElem(ts, x.value, e, bound, brace, i + 1, Put(e, vals, i, x.value.v))
      else r.None?
  {
    hide ParseInit, NextElem, Put;
    assert ts[3..] == rest;
  }

  /** Behind an element of an array without braces. */
  lemma MoreIs(ts: seq<Token>, x: R, e: Type, n: nat, i: nat, vals: seq<Val>, items: seq<Item>,
    k: nat, post: seq<Token>)
    requires |x.rest| <= |ts| && k <= |items| && AtTail(x.rest, items, k, post) && Closes(post)
    ensures i < n && Plain(items, k) ==>
      |Body(items, k, post)| <= |x.rest| && NextElem(ts, x, e, Some(n), false, i, vals) ==
        ParseElems(x.rest, Body(items, k, post), e, Some(n), false, false, i, vals)
    ensures !(i < n && Plain(items, k)) ==>
        var r := NextElem(ts, x, e, Some(n), false, i, vals);
        r.Some? && r.value.vs == vals && AtTail(r.value.rest, items, k, post)
  {
    hide ParseElems, Tail, Body;
    TailStart(items, k, post);
    if i >= n { ArrayFull(ts, x, e, n, i, vals); }
    else if k == |items| {
      if Peek(x.rest).Comma? { LastComma(ts, x, e, n, i, vals); } else { ListEnds(ts, x, e, Some(n), false, i, vals); }
    }
    else if Plain(items, k) { CommaStep(ts, x, e, Some(n), false, i, vals); }
    else { DesignatorNext(ts, x, e, Some(n), i, vals); }
  }

  lemma LastComma(ts: seq<Token>, x: R, e: Type, n: nat, i: nat, vals: seq<Val>)
    requires |x.rest| <= |ts| && i < n && Peek(x.rest).Comma? && Peek(Rest(x.rest)).RBrace?
    ensures NextElem(ts, x, e, Some(n), false, i, vals) == Some(RVec(vals, Rest(x.rest)))
  {
    hide ParseInit;
  }

  lemma ArrayInitIs(ts: seq<Token>, e: Type, n: nat)
    requires Peek(ts).Const?
    ensures ParseInit(ts, Array(e, n), false) ==
      var r := ParseElems(ts, ts, e, Some(n), false, false, 0, Zeros(e, n));
        if r.None? then None else Some(R(Vec(r.value.vs), r.value.rest))
  {
    hide ParseElems, Zeros;
  }

  lemma PathInitIs(ts: seq<Token>, e: Type, n: nat)
    requires Peek(ts).LSquare?
    ensures ParseInit(ts, Array(e, n), true) ==
      var r := ParseElems(ts, ts, e, Some(n), false, true, 0, Zeros(e, n));
        if r.None? then None else Some(R(Vec(r.value.vs), r.value.rest))
  {
    hide ParseElems, Zeros;
  }

  lemma ListInitIs(ts: seq<Token>, e: Type, n: nat)
    requires Peek(ts).LBrace?
    ensures ParseInit(ts, Array(e, n), false) ==
      var r := ParseArray(ts, e, Some(n), false); if r.None? then None else Some(R(Vec(r.value.vs), r.value.rest))
  {
    hide ParseElems, Zeros;
  }

  lemma BraceIs(ts: seq<Token>, e: Type, bound: Option<nat>)
    requires Peek(ts).LBrace?
    ensures ParseArray(ts, e, bound, false) == ParseElems(ts, ts[1..], e, bound, true, false, 0, Start(e, bound))
  {
    hide ParseElems, Zeros;
  }

  lemma EqualSign(ts: seq<Token>, body: seq<Token>, t: Type)
    requires ts == [Equal] + body && (Peek(body).Const? || Peek(body).LBrace?)
    ensures ParseInit(ts, t, true) == ParseInit(body, t, false)
  {
    hide ParseElems, Zeros;
    assert ts[1..] == body;
    if t.Array? { FlagUnused(body, t.elem, t.n, Zeros(t.elem, t.n)); }
  }

  lemma FlagUnused(ts: seq<Token>, e: Type, n: nat, vals: seq<Val>)
    requires Peek(ts).Const? || Peek(ts).LBrace?
    ensures Peek(ts).Const? ==>
        ParseElems(ts, ts, e, Some(n), false, true, 0, vals) == ParseElems(ts, ts, e, Some(n), false, false, 0, vals)
    ensures Peek(ts).LBrace? ==>
        ParseElems(ts, ts[1..], e, Some(n), true, true, 0, vals) ==
          ParseElems(ts, ts[1..], e, Some(n), true, false, 0, vals)
  {
    hide ParseInit, NextElem, Put;
  }

  lemma NotScalar(ts: seq<Token>)
    requires Peek(ts).LSquare?
    ensures ParseInit(ts, Scalar, true).None?
  {
  }

  lemma HeadIs(path: seq<nat>, body: seq<Token>)
    requires path != []
    ensures PathToks(path) + ([Equal] + body) == [LSquare, Const(path[0]),
      RSquare] + (PathToks(path[1..]) + ([Equal] + body))
  {
  }

  /* The parser consumes what the tree functions take. */

  lemma {:induction false} InitTaken(t: Type, items: seq<Item>, k: nat, post: seq<Token>)
    requires Proper(t) && k < |items| && Closes(post)
    ensures TookVal(ParseInit(Body(items, k, post), t, false), TakeInit(t, items, k), items, post)
    decreases items, |items| - k, t, 1
  {
    hide ParseElems, Tail, Zeros, TakeElems, TakeList;
    var ts, rest := Body(items, k, post), Tail(items, k + 1, post);
    match items[k].init
    case List(l, comma) => ListTaken(t, l, comma, rest);
    case Value(v) =>
      assert ts == [Const(v)] + rest && ts[1..] == rest;
      match t
      case Scalar =>
      case Array(e, n) =>
        ArrayInitIs(ts, e, n);
        ElemsTaken(ts, e, n, 0, Zeros(e, n), items, k, post);
  }

  lemma {:induction false} ElemsTaken(prev: seq<Token>, e: Type, n: nat, i: nat, vals: seq<Val>, items: seq<Item>,
    k: nat, post: seq<Token>)
    requires Proper(e) && k < |items| && Closes(post) && |Body(items, k, post)| <= |prev|
    ensures TookVec(ParseElems(prev, Body(items, k, post), e, Some(n), false, false, i, vals),
      TakeElems(e, n, i, vals, items, k), items, post)
    decreases items, |items| - k, e, 2
  {
    hide ParseElems, ParseInit, NextElem, Put, Tail, TakeInit, TakeMore;
    var ts, x := Body(items, k, post), TakeInit(e, items, k);
    InitStart(items[k].init, Tail(items, k + 1, post));
    InitTaken(e, items, k, post);
    ElemFirst(prev, ts, e, Some(n), false, i, vals);
    if x.Some? {
      MoreTaken(ts, ParseInit(ts, e, false).value, e, n, i + 1, Put(e, vals, i, x.value.0), items, x.value.1, post);
    }
  }

  lemma {:induction false} MoreTaken(ts: seq<Token>, x: R, e: Type, n: nat, i: nat, vals: seq<Val>, items: seq<Item>,
    k: nat, post: seq<Token>)
    requires Proper(e) && k <= |items| && Closes(post) && |x.rest| <= |ts| && AtTail(x.rest, items, k, post)
    ensures TookVec(NextElem(ts, x, e, Some(n), false, i, vals), TakeMore(e, n, i, vals, items, k), items, post)
    decreases items, |items| - k, e, 3
  {
    hide ParseElems, NextElem, Tail, TakeElems, Body;
    MoreIs(ts, x, e, n, i, vals, items, k, post);
    if i < n && Plain(items, k) { ElemsTaken(x.rest, e, n, i, vals, items, k, post); }
  }

  lemma {:induction false} PathTaken(t: Type, path: seq<nat>, items: seq<Item>, k: nat, post: seq<Token>)
    requires Proper(t) && k < |items| && Closes(post)
    ensures TookVal(ParseInit(PathToks(path) + ([Equal] + Body(items, k, post)), t, true),
      TakePath(t, path, items, k), items, post)
    decreases items, |items| - k, t, 3
  {
    hide ParseElems, ParseInit, NextElem, Put, Tail, TakeInit, TakeMore, Zeros, Body, PathToks;
    var body := Body(items, k, post);
    var ts := PathToks(path) + ([Equal] + body);
    if path == [] {
      NoPath(path, [Equal] + body);
      BodyStart(items, k, post);
      EqualSign(ts, body, t);
      InitTaken(t, items, k, post);
    } else {
      var rest := PathToks(path[1..]) + ([Equal] + body);
      HeadIs(path, body);
      match t
      case Scalar => NotScalar(ts);
      case Array(e, n) =>
        PathTaken(e, path[1..], items, k, post);
        PathInitIs(ts, e, n);
        Designated(ts, ts, e, Some(n), false, true, 0, Zeros(e, n), path[0], rest);
        var x := TakePath(e, path[1..], items, k);
        if path[0] < n && x.Some? {
          MoreTaken(ts, ParseInit(rest, e, true).value, e, n, path[0] + 1,
            Put(e, Zeros(e, n), path[0], x.value.0), items, x.value.1, post);
        }
    }
  }

  lemma NoPath(path: seq<nat>, ts: seq<Token>)
    requires path == []
    ensures PathToks(path) + ts == ts
  {
  }

  lemma BodyStart(items: seq<Item>, k: nat, post: seq<Token>)
    requires k < |items|
    ensures var p := Peek(Body(items, k, post)); p.Const? || p.LBrace?
  {
    hide InitToks, Tail;
    InitStart(items[k].init, Tail(items, k + 1, post));
  }

  /** What follows the brace. */
  function Behind(post: seq<Token>): seq<Token> { Rest(if Peek(post).Comma? then Rest(post) else post) }

  function OutAll(r: Option<seq<Val>>, post: seq<Token>): Option<RVec> {
    if r.None? then None else Some(RVec(r.value, Behind(post))) }

  /** One item, and the loop behind it. */
  lemma {:induction false} ItemTaken(prev: seq<Token>, e: Type, bound: Option<nat>, i: nat, vals: seq<Val>,
    items: seq<Item>, k: nat, post: seq<Token>) returns (rest: seq<Token>)
    requires Proper(e) && k < |items| && Closes(post) && |ItemsToks(items[k..]) + post| <= |prev| && Within(bound, i)
    ensures var ts, j, x := ItemsToks(items[k..]) + post, ElemOf(items, k, i), TakeItem(e, items, k);
      var r := ParseElems(prev, ts, e, bound, true, false, i, vals);
      if Within(bound, j) && x.Some? then
        var y := R(x.value.0, rest);
        AtTail(rest, items, x.value.1, post) && |y.rest| <= |ts|
          && r == NextElem(ts, y, e, bound, true, j + 1, Put(e, vals, j, x.value.0))
      else r.None?
    decreases items, |items| - k, e, 4
  {
    hide ParseElems, ParseInit, NextElem, Put, Tail, TakeInit, TakePath, Body, PathToks, ItemsToks;
    var ts, path, body := ItemsToks(items[k..]) + post, items[k].path, Body(items, k, post);
    ItemsFrom(items, k, post);
    rest := [];
    if path == [] {
      HeadStart(items[k]);
      assert ts == body;
      BodyStart(items, k, post);
      InitTaken(e, items, k, post);
      ElemFirst(prev, ts, e, bound, true, i, vals);
      if ParseInit(ts, e, false).Some? { rest := ParseInit(ts, e, false).value.rest; }
    } else {
      HeadToks(items[k], body);
      HeadIs(path, body);
      PathTaken(e, path[1..], items, k, post);
      var inner := PathToks(path[1..]) + ([Equal] + body);
      Designated(prev, ts, e, bound, true, false, i, vals, path[0], inner);
      if ParseInit(inner, e, true).Some? { rest := ParseInit(inner, e, true).value.rest; }
    }
  }

  lemma {:induction false} AllTaken(prev: seq<Token>, e: Type, bound: Option<nat>, i: nat, vals: seq<Val>,
    items: seq<Item>, k: nat, post: seq<Token>)
    requires Proper(e) && k < |items| && Closes(post) && |ItemsToks(items[k..]) + post| <= |prev| && Within(bound, i)
    ensures ParseElems(prev, ItemsToks(items[k..]) + post, e, bound, true, false, i, vals)
      == OutAll(TakeItems(e, bound, i, vals, items, k), post)
    decreases items, |items| - k, e, 5
  {
    hide ParseElems, NextElem, Put, Tail, TakeItem, ItemsToks, TakeItems, ElemOf, Head, Body;
    var ts, j, x := ItemsToks(items[k..]) + post, ElemOf(items, k, i), TakeItem(e, items, k);
    var rest := ItemTaken(prev, e, bound, i, vals, items, k, post);
    AllIs(e, bound, i, vals, items, k);
    if Within(bound, j) && x.Some? {
      var k1, vals1 := x.value.1, Put(e, vals, j, x.value.0);
      var y := R(x.value.0, rest);
      if k1 < |items| { TailLength(items, k1, post); }
      if k1 < |items| && Within(bound, j + 1) {
        AllTaken(y.rest, e, bound, j + 1, vals1, items, k1, post);
      }
      AfterItem(ts, y, e, bound, j + 1, vals1, items, k1, post);
    }
  }

  /** Behind an item the list ends, goes on, or is full. */
  lemma {:induction false} AfterItem(ts: seq<Token>, y: R, e: Type, bound: Option<nat>, i: nat, vals: seq<Val>,
    items: seq<Item>, k: nat, post: seq<Token>)
    requires k <= |items| && Closes(post) && |y.rest| <= |ts| && AtTail(y.rest, items, k, post)
    requires k < |items| ==> |ItemsToks(items[k..]) + post| <= |y.rest|
    requires k < |items| && Within(bound, i) ==>
        ParseElems(y.rest, ItemsToks(items[k..]) + post, e, bound, true, false, i, vals)
          == OutAll(TakeItems(e, bound, i, vals, items, k), post)
    ensures NextElem(ts, y, e, bound, true, i, vals) ==
      if k == |items| then Some(RVec(vals, Behind(post)))
      else if Within(bound, i) then OutAll(TakeItems(e, bound, i, vals, items, k), post)
      else None
  {
    hide ParseElems, NextElem, Tail, ItemsToks, TakeItems, OutAll;
    TailIs(items, k, post);
    if k == |items| {
      if Peek(y.rest).Comma? { LastCommaBrace(ts, y, e, bound, i, vals); } else {
        ListEnds(ts, y, e, bound, true, i, vals); }
    } else if Within(bound, i) {
      CommaStep(ts, y, e, bound, true, i, vals);
    } else {
      NotBrace(items, k, post);
      Excess(ts, y, e, bound.value, i, vals);
    }
  }

  lemma LastCommaBrace(ts: seq<Token>, y: R, e: Type, bound: Option<nat>, i: nat, vals: seq<Val>)
    requires |y.rest| <= |ts| && Peek(y.rest).Comma? && Peek(Rest(y.rest)).RBrace?
    ensures NextElem(ts, y, e, bound, true, i, vals) == Some(RVec(vals, Rest(Rest(y.rest))))
  {
    hide ParseInit;
  }

  lemma TailIs(items: seq<Item>, k: nat, post: seq<Token>)
    requires k <= |items|
    ensures k == |items| ==> Tail(items, k, post) == post
    ensures k < |items| ==>
        Peek(Tail(items, k, post)).Comma? && Rest(Tail(items, k, post)) == ItemsToks(items[k..]) + post
  {
    hide ItemsToks;
  }

  lemma HeadToks(it: Item, body: seq<Token>)
    requires it.path != []
    ensures Head(it) + body == PathToks(it.path) + ([Equal] + body)
  {
    hide PathToks;
    Regroup(PathToks(it.path), [Equal], body);
  }

  lemma TailLength(items: seq<Item>, k: nat, post: seq<Token>)
    requires k < |items|
    ensures |ItemsToks(items[k..]) + post| < |Tail(items, k, post)|
  {
  }

  lemma NotBrace(items: seq<Item>, k: nat, post: seq<Token>)
    requires k < |items|
    ensures !Peek(Rest(Tail(items, k, post))).RBrace?
  {
    hide Tail, Body, InitToks;
    TailStart(items, k, post);
  }

  lemma {:induction false} VecTaken(e: Type, bound: Option<nat>, items: seq<Item>, comma: bool, post: seq<Token>)
    requires Proper(e) && (bound.Some? ==> bound.value > 0)
    ensures ParseArray(InitToks(List(items, comma)) + post, e, bound, false) ==
      var r := TakeVec(e, bound, items); if r.None? then None else Some(RVec(r.value, post))
    decreases items, |items| + 1, e, 5
  {
    hide ParseElems, TakeItems, ItemsToks, Start, Closing;
    var end := Closing(comma && items != []) + post;
    var ts, inner := InitToks(List(items, comma)) + post, ItemsToks(items) + end;
    ListToks(items, comma, post);
    ClosingIs(comma && items != [], post);
    BraceIs(ts, e, bound);
    if items == [] {
      NoItems(end);
      EmptyElems(ts, inner, e, bound, Start(e, bound));
    } else {
      assert items[0..] == items;
      AllTaken(ts, e, bound, 0, Start(e, bound), items, 0, end);
    }
  }

  lemma ClosingIs(comma: bool, post: seq<Token>)
    ensures var end := Closing(comma) + post; Closes(end) && Behind(end) == post && (!comma ==> Peek(end).RBrace?)
    ensures comma ==> Peek(Closing(comma) + post).Comma?
  {
    var end := Closing(comma) + post;
    if comma { assert end[1..][1..] == post; } else { assert end[1..] == post; }
  }

  lemma ListToks(items: seq<Item>, comma: bool, post: seq<Token>)
    ensures var ts := InitToks(List(items, comma)) + post;
      Peek(ts).LBrace? && ts[1..] == ItemsToks(items) + (Closing(comma && items != []) + post)
  {
    hide ItemsToks, Closing;
    var end := Closing(comma && items != []);
    assert InitToks(List(items, comma)) + post == [LBrace] + (ItemsToks(items) + (end + post));
  }

  lemma NoItems(post: seq<Token>)
    ensures ItemsToks([]) + post == post
  {
  }

  lemma EmptyElems(prev: seq<Token>, ts: seq<Token>, e: Type, bound: Option<nat>, vals: seq<Val>)
    requires |ts| <= |prev| && Peek(ts).RBrace?
    ensures ParseElems(prev, ts, e, bound, true, false, 0, vals) == Some(RVec(vals, Rest(ts)))
  {
  }

  lemma {:induction false} ListTaken(t: Type, items: seq<Item>, comma: bool, post: seq<Token>)
    requires Proper(t)
    ensures ParseInit(InitToks(List(items, comma)) + post, t, false) == var r := TakeList(t, items);
      if r.None? then None else Some(R(r.value, post))
    decreases items, |items| + 1, t, 6
  {
    hide ParseArray, TakeVec, ParseElems;
    var ts := InitToks(List(items, comma)) + post;
    match t
    case Scalar => ScalarTaken(items, comma, post);
    case Array(e, n) =>
      ListToks(items, comma, post);
      ListInitIs(ts, e, n);
      VecTaken(e, Some(n), items, comma, post);
  }

  /** A scalar in braces. */
  lemma ScalarTaken(items: seq<Item>, comma: bool, post: seq<Token>)
    ensures ParseInit(InitToks(List(items, comma)) + post, Scalar, false) ==
      if |items| == 1 && items[0].path == [] && items[0].init.Value? then Some(R(Num(items[0].init.v), post)) else None
  {
    hide ItemsToks, PathToks, Closing;
    var end := Closing(comma && items != []) + post;
    var ts, inner := InitToks(List(items, comma)) + post, ItemsToks(items) + end;
    ListToks(items, comma, post);
    ClosingIs(comma && items != [], post);
    if items == [] { NoItems(end); }
    else {
      ItemsFrom(items, 0, end);
      assert items[0..] == items;
      HeadStart(items[0]);
      if items[0].path == [] {
        match items[0].init
        case List(l, c) => ListToks(l, c, Tail(items, 1, end));
        case Value(v) =>
          assert inner == [Const(v)] + Tail(items, 1, end);
          assert inner[1..] == Tail(items, 1, end);
          TailStart(items, 1, end);
          if |items| > 1 { NotBrace(items, 1, end); }
      }
    }
  }
}
