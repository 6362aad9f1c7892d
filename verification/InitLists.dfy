/** Lists of values with all braces, with one pair, and without. */
module InitLists {
  import opened Common
  import opened ArrayInit
  import opened InitMeaning

  /** The values, with commas between them. */
  function Listed(vs: seq<int>): seq<Token> {
    if vs == [] then [] else if |vs| == 1 then [Const(vs[0])] else [Const(vs[0]), Comma] + Listed(vs[1..])
  }

  /** What is left of the list behind the first `n` values. */
  function Left(vs: seq<int>, n: nat, post: seq<Token>): seq<Token> {
    if n < |vs| then [Comma] + Listed(vs[n..]) + post else post
  }

  lemma ListedParts(vs: seq<int>, post: seq<Token>)
    requires vs != []
    ensures var ts := Listed(vs) + post; ts != [] && ts[0] == Const(vs[0]) && ts[1..] == Left(vs, 1, post)
  {
    hide Listed, Left;
    ListedIs(vs);
    var tail := if |vs| == 1 then [] else [Comma] + Listed(vs[1..]);
    FrontOff(Const(vs[0]), tail, post);
    LeftOne(vs, post);
  }

  lemma FrontOff(t: Token, tail: seq<Token>, post: seq<Token>)
    ensures [t] + tail + post != [] && ([t] + tail + post)[0] == t && ([t] + tail + post)[1..] == tail + post
  {
  }

  lemma LeftOne(vs: seq<int>, post: seq<Token>)
    requires vs != []
    ensures Left(vs, 1, post) == (if |vs| == 1 then [] else [Comma] + Listed(vs[1..])) + post
  {
    hide Listed;
    if |vs| == 1 { assert [] + post == post; }
  }

  lemma ListedIs(vs: seq<int>)
    requires vs != []
    ensures Listed(vs) == [Const(vs[0])] + if |vs| == 1 then [] else [Comma] + Listed(vs[1..])
  {
  }

  /** Where a run of values without designators ends: at a brace, or at a designator. */
  predicate Ends(post: seq<Token>) { Peek(post).RBrace? || (Peek(post).Comma? && Peek(Rest(post)).LSquare?) }

  /** The elements that are there before and after: all of them, or as many as the values need. */
  function Room(bound: Option<nat>, i: nat): nat { if bound.Some? && i <= bound.value then bound.value - i else 0 }

  function Rows(e: Type, vs: seq<int>): nat
    requires Proper(e)
    decreases |vs|
  {
    SizePositive(e);
    if vs == [] then 0 else 1 + Rows(e, Drop(vs, Size(e)))
  }
  function Total(e: Type, bound: Option<nat>, i: nat, vs: seq<int>): nat
    requires Proper(e)
  {
    if bound.Some? then Room(bound, i) else Rows(e, vs)
  }

  /** An element without braces takes as many values as it has room for. */
  lemma {:induction false} ElidedInit(t: Type, vs: seq<int>, post: seq<Token>)
    requires Proper(t) && vs != [] && Ends(post)
    ensures ParseInit(Listed(vs) + post, t, false) == Some(R(Fill(t, Take(vs, Size(t))), Left(vs, Size(t), post)))
    decreases t, 1, |vs|
  {
    hide Listed, ParseElems, Left, FillFrom, Zeros, Rows, Total;
    var ts := Listed(vs) + post;
    ListedParts(vs, post);
    match t
    case Scalar =>
    case Array(e, n) =>
      ZerosFill(e, n);
      ElidedElems(ts, e, Some(n), vs, post, 0, [], false);
      TotalIs(e, n, 0, vs);
      FillTake(e, n, vs);
      assert [] + FillFrom(e, n, vs) == FillFrom(e, n, vs) && [] + FillFrom(e, n, []) == FillFrom(e, n, []);
  }

  lemma TotalIs(e: Type, n: nat, i: nat, vs: seq<int>)
    requires Proper(e)
    ensures Total(e, Some(n), i, vs) == Room(Some(n), i)
  {
  }

  /** One element done: the vector, and where the next one starts. */
  lemma FilledOne(e: Type, bound: Option<nat>, i: nat, vs: seq<int>, done: seq<Val>)
    requires Proper(e) && vs != [] && |done| == i && (bound.Some? ==> i < bound.value)
    ensures var x := Fill(e, Take(vs, Size(e)));
      && Put(e, done + FillFrom(e, Room(bound, i), []), i, x) == done + [x] + FillFrom(e, Room(bound, i + 1), [])
      && done + FillFrom(e, Total(e, bound, i, vs), vs) ==
        done + [x] + FillFrom(e, Total(e, bound, i + 1, Drop(vs, Size(e))), Drop(vs, Size(e)))
  {
    hide Fill, Size, Drop, Take, FillFrom, Rows, Put;
    SizePositive(e);
    NothingLeft(e);
    NoMore(e, []);
    TotalNext(e, bound, i, vs);
    FillFromIs(e, Total(e, bound, i, vs), vs);
    RegroupVals(done, Fill(e, Take(vs, Size(e))), FillFrom(e,
      Total(e, bound, i + 1, Drop(vs, Size(e))), Drop(vs, Size(e))));
    if bound.Some? {
      FillFromIs(e, Room(bound, i), []);
      PutFirst(e, done, Fill(e, []), FillFrom(e, Room(bound, i + 1), []), Fill(e, Take(vs, Size(e))));
    } else {
      PutEnd(e, done, Fill(e, Take(vs, Size(e))));
    }
  }

  lemma TotalNext(e: Type, bound: Option<nat>, i: nat, vs: seq<int>)
    requires Proper(e) && vs != [] && (bound.Some? ==> i < bound.value)
    ensures Total(e, bound, i, vs) == 1 + Total(e, bound, i + 1, Drop(vs, Size(e)))
  {
    SizePositive(e);
  }

  lemma RegroupVals(done: seq<Val>, x: Val, rest: seq<Val>)
    ensures done + ([x] + rest) == done + [x] + rest
  {
  }

  lemma PutFirst(e: Type, done: seq<Val>, y: Val, rest: seq<Val>, x: Val)
    ensures Put(e, done + ([y] + rest), |done|, x) == done + [x] + rest
  {
  }

  lemma PutEnd(e: Type, done: seq<Val>, x: Val)
    ensures Put(e, done + [], |done|, x) == done + [x] + []
  {
  }

  lemma NothingLeft(e: Type)
    ensures Drop([], Size(e)) == [] && Take([], Size(e)) == []
  {
  }

  lemma LeftLater(vs: seq<int>, n: nat, m: nat, post: seq<Token>)
    requires n < |vs|
    ensures Left(vs, n + m, post) == Left(vs[n..], m, post) && Left(vs, n, post) == [Comma] + (Listed(vs[n..]) + post)
  {
    if n + m < |vs| { assert vs[n..][m..] == vs[n + m..]; }
    assert [Comma] + Listed(vs[n..]) + post == [Comma] + (Listed(vs[n..]) + post);
  }

  /** The end of a list of values: between braces, all of them must fit. */
  function ListEnd(e: Type, bound: Option<nat>, i: nat, vs: seq<int>, post: seq<Token>, brace: bool,
    vals: seq<Val>): Option<RVec> {
    if !brace then Some(RVec(vals, Left(vs, Mul(Room(bound, i), Size(e)), post)))
    else if bound.Some? && |vs| > Mul(Room(bound, i), Size(e)) then None
    else Some(RVec(vals, Rest(post)))
  }

  /** Elements from the `|done|`-th of an array, of which the first ones are done. */
  lemma {:induction false} ElidedElems(prev: seq<Token>, e: Type, bound: Option<nat>, vs: seq<int>, post: seq<Token>,
    i: nat, done: seq<Val>, brace: bool)
    requires Proper(e) && |done| == i && vs != [] && |Listed(vs) + post| <= |prev| && (bound.Some? ==> i < bound.value)
    requires if brace then Peek(post).RBrace? else bound.Some? && Ends(post)
    ensures ParseElems(prev, Listed(vs) + post, e, bound, brace, false, i, done + FillFrom(e, Room(bound, i), [])) ==
      ListEnd(e, bound, i, vs, post, brace, done + FillFrom(e, Total(e, bound, i, vs), vs))
    decreases e, 2, |vs|
  {
    hide Listed, ParseInit, Fill, FillFrom, ParseElems, NextElem, Left, Rows, Total, Put;
    var s, ts, vals := Size(e), Listed(vs) + post, done + FillFrom(e, Room(bound, i), []);
    var x := R(Fill(e, Take(vs, s)), Left(vs, s, post));
    SizePositive(e);
    ListedParts(vs, post);
    ElidedInit(e, vs, post);
    FilledOne(e, bound, i, vs, done);
    ElemStep(prev, ts, e, bound, brace, i, vals, x);
    var vals1, ws := done + [x.v] + FillFrom(e, Room(bound, i + 1), []), Drop(vs, s);
    RoomNext(bound, i, s);
    if |vs| <= s {
      LeftNone(vs, s, post);
      if bound.Some? { LeftNone(vs, Mul(Room(bound, i), s), post); }
      NoRows(e, bound, i + 1);
      if Peek(post).RBrace? { ListEnds(ts, x, e, bound, brace, i + 1, vals1); }
      else if bound.Some? && i + 1 >= bound.value { ArrayFull(ts, x, e, bound.value, i + 1, vals1); }
      else { DesignatorNext(ts, x, e, bound, i + 1, vals1); }
    } else {
      assert ws == vs[s..];
      ListedParts(ws, post);
      LeftLater(vs, s, Mul(Room(bound, i + 1), s), post);
      if bound.Some? && i + 1 == bound.value {
        NoMore(e, ws);
        NoMore(e, []);
        TotalIs(e, bound.value, i + 1, ws);
        if brace { Excess(ts, x, e, bound.value, i + 1, vals1); } else {
          ArrayFull(ts, x, e, bound.value, i + 1, vals1); }
      } else {
        assert ([Comma] + (Listed(ws) + post))[1..] == Listed(ws) + post;
        ElidedElems(x.rest, e, bound, ws, post, i + 1, done + [x.v], brace);
        CommaStep(ts, x, e, bound, brace, i + 1, vals1);
      }
    }
  }

  lemma RoomNext(bound: Option<nat>, i: nat, s: nat)
    requires bound.Some? ==> i < bound.value
    ensures bound.Some? ==> Mul(Room(bound, i), s) == s + Mul(Room(bound, i + 1), s)
  {
  }

  lemma NoRows(e: Type, bound: Option<nat>, i: nat)
    requires Proper(e)
    ensures Total(e, bound, i, []) == Room(bound, i)
  {
  }

  lemma LeftNone(vs: seq<int>, n: nat, post: seq<Token>)
    requires |vs| <= n
    ensures Left(vs, n, post) == post
  {
  }

  lemma NoMore(e: Type, vs: seq<int>)
    ensures FillFrom(e, 0, vs) == []
  {
  }

  lemma ElemStep(prev: seq<Token>, ts: seq<Token>, e: Type, bound: Option<nat>, brace: bool,
    i: nat, vals: seq<Val>, x: R)
    requires |ts| <= |prev| && Peek(ts).Const? && ParseInit(ts, e, false) == Some(x)
    ensures |x.rest| <= |ts| && ParseElems(prev, ts, e, bound, brace, false, i, vals) ==
      NextElem(ts, x, e, bound, brace, i + 1, Put(e, vals, i, x.v))
  {
    hide ParseInit, NextElem;
  }

  lemma ListEnds(ts: seq<Token>, x: R, e: Type, bound: Option<nat>, brace: bool, index: nat, vals: seq<Val>)
    requires |x.rest| <= |ts| && Peek(x.rest).RBrace?
    ensures NextElem(ts, x, e, bound, brace, index, vals) == Some(RVec(vals, if brace then Rest(x.rest) else x.rest))
  {
  }

  lemma ArrayFull(ts: seq<Token>, x: R, e: Type, n: nat, index: nat, vals: seq<Val>)
    requires |x.rest| <= |ts| && index >= n
    ensures NextElem(ts, x, e, Some(n), false, index, vals) == Some(RVec(vals, x.rest))
  {
  }

  lemma Excess(ts: seq<Token>, x: R, e: Type, n: nat, index: nat, vals: seq<Val>)
    requires |x.rest| <= |ts| && index >= n && Peek(x.rest).Comma? && !Peek(Rest(x.rest)).RBrace?
    ensures NextElem(ts, x, e, Some(n), true, index, vals).None?
  {
  }

  /** A list without braces stops in front of the comma before a designator. */
  lemma DesignatorNext(ts: seq<Token>, x: R, e: Type, bound: Option<nat>, index: nat, vals: seq<Val>)
    requires |x.rest| <= |ts| && (bound.Some? ==> index < bound.value) && Peek(x.rest).Comma?
      && Peek(Rest(x.rest)).LSquare?
    ensures NextElem(ts, x, e, bound, false, index, vals) == Some(RVec(vals, x.rest))
  {
  }

  lemma CommaStep(ts: seq<Token>, x: R, e: Type, bound: Option<nat>, brace: bool, index: nat, vals: seq<Val>)
    requires |x.rest| <= |ts| && (bound.Some? ==> index < bound.value) && Peek(x.rest).Comma?
    ensures NextElem(ts, x, e, bound, brace, index, vals) ==
      ParseElems(x.rest, x.rest[1..], e, bound, brace, false, index, vals)
  {
    hide ParseElems;
  }

  /** What a list in braces makes of an array; too many values are an error. */
  function Filled(e: Type, bound: Option<nat>, vs: seq<int>, post: seq<Token>): Option<RVec>
    requires Proper(e)
  {
    if bound.Some? && |vs| > Mul(bound.value, Size(e)) then None
    else Some(RVec(FillFrom(e, Total(e, bound, 0, vs), vs), post))
  }

  /** A list in one pair of braces fills the array in row-major order, with zeros at the end; an
      unknown bound becomes the number of elements that the values reach. */
  lemma {:induction false} FlatListFills(e: Type, bound: Option<nat>, vs: seq<int>, post: seq<Token>)
    requires Proper(e) && (bound.Some? ==> bound.value > 0)
    ensures ParseArray([LBrace] + Listed(vs) + [RBrace] + post, e, bound, false) == Filled(e, bound, vs, post)
  {
    hide ParseElems, Listed, FillFrom, Total, Zeros;
    var ts, inner := [LBrace] + Listed(vs) + [RBrace] + post, Listed(vs) + ([RBrace] + post);
    assert ts[1..] == inner && ([RBrace] + post)[1..] == post;
    StartsEmpty(e, bound);
    if vs == [] {
      EmptyList(vs, [RBrace] + post);
      NoRows(e, bound, 0);
      BraceFirst(ts, inner, e, bound, FillFrom(e, Room(bound, 0), []));
    } else {
      ElidedElems(ts, e, bound, vs, [RBrace] + post, 0, [], true);
      var n := Total(e, bound, 0, vs);
      assert [] + FillFrom(e, n, vs) == FillFrom(e, n, vs)
        && [] + FillFrom(e, Room(bound, 0), []) == FillFrom(e, Room(bound, 0), []);
    }
  }

  lemma StartsEmpty(e: Type, bound: Option<nat>)
    ensures FillFrom(e, Room(bound, 0), []) == if bound.Some? then Zeros(e, bound.value) else []
  {
    if bound.Some? { ZerosFill(e, bound.value); }
  }

  lemma EmptyList(vs: seq<int>, post: seq<Token>)
    requires vs == []
    ensures Listed(vs) + post == post
  {
  }

  lemma BraceFirst(prev: seq<Token>, ts: seq<Token>, e: Type, bound: Option<nat>, vals: seq<Val>)
    requires |ts| <= |prev| && Peek(ts).RBrace?
    ensures ParseElems(prev, ts, e, bound, true, false, 0, vals) == Some(RVec(vals, Rest(ts)))
  {
  }

  /* The same with all braces. */

  function Braced(t: Type, vs: seq<int>): seq<Token>
    requires Proper(t)
    decreases t, 1, 0
  {
    match t
    case Scalar => if vs == [] then [] else [Const(vs[0])]
    case Array(e, _) => [LBrace] + BracedElems(e, vs) + [RBrace]
  }
  function BracedElems(t: Type, vs: seq<int>): seq<Token>
    requires Proper(t)
    decreases t, 2, |vs|
  {
    SizePositive(t);
    if vs == [] then []
    else if |vs| <= Size(t) then Braced(t, vs)
    else Braced(t, Take(vs, Size(t))) + [Comma] + BracedElems(t, Drop(vs, Size(t)))
  }

  /** How an element in braces starts. */
  lemma {:induction false} BracedStart(t: Type, vs: seq<int>, post: seq<Token>)
    requires Proper(t) && vs != []
    ensures var p := Peek(Braced(t, vs) + post); p.Const? || p.LBrace?
  {
  }

  /** Braces around every array change nothing. */
  lemma {:induction false} BracedFills(t: Type, vs: seq<int>, post: seq<Token>)
    requires Proper(t) && vs != [] && |vs| <= Size(t)
    ensures ParseInit(Braced(t, vs) + post, t, false) == Some(R(Fill(t, vs), post))
    decreases t, 1, |vs|
  {
    hide ParseElems, BracedElems, FillFrom, Zeros, Total;
    match t
    case Scalar => assert Braced(t, vs) == [Const(vs[0])]; assert ([Const(vs[0])] + post)[1..] == post;
    case Array(e, n) =>
      var ts, inner := Braced(t, vs) + post, BracedElems(e, vs) + ([RBrace] + post);
      assert ts[1..] == inner;
      ZerosFill(e, n);
      BracedElemsFill(ts, e, Some(n), vs, [RBrace] + post, 0, []);
      TotalIs(e, n, 0, vs);
      assert [] + FillFrom(e, n, vs) == FillFrom(e, n, vs) && [] + FillFrom(e, n, []) == FillFrom(e, n, []);
      assert ([RBrace] + post)[1..] == post;
  }

  lemma {:induction false} BracedElemsFill(prev: seq<Token>, e: Type, bound: Option<nat>, vs: seq<int>,
    post: seq<Token>, i: nat, done: seq<Val>)
    requires Proper(e) && |done| == i && vs != [] && Peek(post).RBrace? && |BracedElems(e, vs) + post| <= |prev|
      && (bound.Some? ==> i < bound.value)
    ensures ParseElems(prev, BracedElems(e, vs) + post, e, bound, true, false, i,
      done + FillFrom(e, Room(bound, i), [])) ==
      ListEnd(e, bound, i, vs, post, true, done + FillFrom(e, Total(e, bound, i, vs), vs))
    decreases e, 2, |vs|
  {
    hide Braced, BracedElems, ParseInit, Fill, FillFrom, ParseElems, NextElem, Total, Put, Left;
    var s, ts, vals := Size(e), BracedElems(e, vs) + post, done + FillFrom(e, Room(bound, i), []);
    SizePositive(e);
    var first, ws := Take(vs, s), Drop(vs, s);
    var more := BracedMore(e, ws, post);
    var x := R(Fill(e, first), more);
    BracedParts(e, vs, post);
    BracedStart(e, first, more);
    BracedFills(e, first, more);
    FilledOne(e, bound, i, vs, done);
    BraceStep(prev, ts, e, bound, i, vals, x);
    var vals1 := done + [x.v] + FillFrom(e, Room(bound, i + 1), []);
    RoomNext(bound, i, s);
    if ws == [] {
      NoRows(e, bound, i + 1);
      ListEnds(ts, x, e, bound, true, i + 1, vals1);
    } else if bound.Some? && i + 1 == bound.value {
      BracedElemsStart(e, ws, post);
      Excess(ts, x, e, bound.value, i + 1, vals1);
    } else {
      BracedElemsFill(more, e, bound, ws, post, i + 1, done + [x.v]);
      CommaStep(ts, x, e, bound, true, i + 1, vals1);
    }
  }

  function BracedMore(e: Type, ws: seq<int>, post: seq<Token>): (r: seq<Token>)
    requires Proper(e)
    ensures ws == [] ==> r == post
    ensures ws != [] ==> Peek(r).Comma? && r[1..] == BracedElems(e, ws) + post
  {
    if ws == [] then post else [Comma] + (BracedElems(e, ws) + post)
  }

  lemma BracedElemsStart(e: Type, vs: seq<int>, post: seq<Token>)
    requires Proper(e) && vs != []
    ensures var p := Peek(BracedElems(e, vs) + post); p.Const? || p.LBrace?
  {
    hide Braced;
    SizePositive(e);
    BracedParts(e, vs, post);
    BracedStart(e, Take(vs, Size(e)), BracedMore(e, Drop(vs, Size(e)), post));
  }

  lemma BracedParts(e: Type, vs: seq<int>, post: seq<Token>)
    requires Proper(e) && vs != []
    ensures BracedElems(e, vs) + post == Braced(e, Take(vs, Size(e))) + BracedMore(e, Drop(vs, Size(e)), post)
    ensures Take(vs, Size(e)) != [] && |Take(vs, Size(e))| <= Size(e)
  {
    hide Braced, Size, BracedElems, Take, Drop;
    SizePositive(e);
    BracedElemsIs(e, vs);
    TakeAll(vs, Size(e));
    if Drop(vs, Size(e)) != [] { Regroup(Braced(e, Take(vs, Size(e))), Comma,
      BracedElems(e, Drop(vs, Size(e))), post); }
  }

  lemma TakeAll(vs: seq<int>, n: nat)
    requires n > 0 && vs != []
    ensures Take(vs, n) != [] && |Take(vs, n)| <= n && (Drop(vs, n) == [] <==> |vs| <= n)
      && (|vs| <= n ==> Take(vs, n) == vs)
  {
  }

  lemma Regroup(xs: seq<Token>, t: Token, ys: seq<Token>, zs: seq<Token>)
    ensures xs + [t] + ys + zs == xs + ([t] + (ys + zs))
  {
  }

  lemma BracedElemsIs(t: Type, vs: seq<int>)
    requires Proper(t) && vs != []
    ensures Size(t) > 0
    ensures BracedElems(t, vs) == if |vs| <= Size(t) then Braced(t, vs)
      else Braced(t, Take(vs, Size(t))) + [Comma] + BracedElems(t, Drop(vs, Size(t)))
  {
    hide Braced;
    SizePositive(t);
  }

  lemma BraceStep(prev: seq<Token>, ts: seq<Token>, e: Type, bound: Option<nat>, i: nat, vals: seq<Val>, x: R)
    requires |ts| <= |prev| && (Peek(ts).Const? || Peek(ts).LBrace?) && ParseInit(ts, e, false) == Some(x)
    ensures |x.rest| <= |ts| && ParseElems(prev, ts, e, bound, true, false, i, vals) ==
      NextElem(ts, x, e, bound, true, i + 1, Put(e, vals, i, x.v))
  {
    hide ParseInit, NextElem, Put;
  }

  /** A list with all braces fills the array as a flat list does. */
  lemma BracedListFills(e: Type, bound: Option<nat>, vs: seq<int>, post: seq<Token>)
    requires Proper(e) && (bound.Some? ==> bound.value > 0)
    ensures ParseArray([LBrace] + BracedElems(e, vs) + [RBrace] + post, e, bound, false) == Filled(e, bound, vs, post)
  {
    hide ParseElems, BracedElems, FillFrom, Total, Zeros;
    var ts, inner := [LBrace] + BracedElems(e, vs) + [RBrace] + post, BracedElems(e, vs) + ([RBrace] + post);
    assert ts[1..] == inner && ([RBrace] + post)[1..] == post;
    StartsEmpty(e, bound);
    if vs == [] {
      NoBraced(e, [RBrace] + post);
      NoRows(e, bound, 0);
      BraceFirst(ts, inner, e, bound, FillFrom(e, Room(bound, 0), []));
    } else {
      BracedElemsFill(ts, e, bound, vs, [RBrace] + post, 0, []);
      var n := Total(e, bound, 0, vs);
      assert [] + FillFrom(e, n, vs) == FillFrom(e, n, vs)
        && [] + FillFrom(e, Room(bound, 0), []) == FillFrom(e, Room(bound, 0), []);
    }
  }

  /** Any number of values, for any bound: with and without the inner braces they give the same array,
      or are too many. */
  lemma ElidedIsBraced(e: Type, bound: Option<nat>, vs: seq<int>, post: seq<Token>)
    requires Proper(e) && (bound.Some? ==> bound.value > 0)
    ensures ParseArray([LBrace] + BracedElems(e, vs) + [RBrace] + post, e, bound, false) ==
      ParseArray([LBrace] + Listed(vs) + [RBrace] + post, e, bound, false)
  {
    hide ParseArray, BracedElems, Listed, Filled;
    FlatListFills(e, bound, vs, post);
    BracedListFills(e, bound, vs, post);
  }

  lemma NoBraced(e: Type, post: seq<Token>)
    requires Proper(e)
    ensures BracedElems(e, []) + post == post
  {
  }
}
