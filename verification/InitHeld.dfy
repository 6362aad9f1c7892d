/** Which lists are accepted, and what the scalars then hold. */
module InitHeld {
  import opened Common
  import opened ArrayInit
  import opened InitMeaning
  import opened InitTrees
  import opened InitCursor

  /* Acceptance. */

  /** An initializer fits an object: a scalar in braces has one value. */
  predicate InitOK(t: Type, init: Init)
    decreases init, 1
  {
    match init
    case Value(_) => true
    case List(l, _) =>
      match t
      case Scalar => |l| == 1 && l[0].path == [] && l[0].init.Value?
      case Array(e, n) => ListOK(e, Some(n), l)
  }

  /** An item is inside of the array and fits its place, and no item follows the last element: not even
      one with a designator. */
  predicate ItemOK(e: Type, bound: Option<nat>, items: seq<Item>, k: nat)
    requires k < |items|
    decreases items, 0
  {
    var path := TargetAt(e, items, k);
    && (items[k].path != [] ==> PathIn(e, path[1..]))
    && Within(bound, path[0])
    && (k > 0 && EntersAt(e, items, k) ==> Within(bound, PathAt(e, items, k - 1)[0] + 1))
    && InitOK(SubType(e, path[1..]), items[k].init)
  }

  predicate ListOK(e: Type, bound: Option<nat>, items: seq<Item>)
    decreases items, 1
  {
    forall k :: 0 <= k < |items| ==> ItemOK(e, bound, items, k)
  }

  /* Places. */

  lemma {:induction false} SubIn(t: Type, path: seq<nat>, more: seq<nat>)
    requires PathIn(t, path)
    ensures SubType(t, path + more) == SubType(SubType(t, path), more)
    ensures PathIn(t, path + more) <==> PathIn(SubType(t, path), more)
    decreases path
  {
    if path == [] { assert path + more == more; }
    else {
      SubIn(t.elem, path[1..], more);
      assert (path + more)[1..] == path[1..] + more;
    }
  }

  lemma {:induction false} SubProper(t: Type, path: seq<nat>)
    requires Proper(t)
    ensures Proper(SubType(t, path))
    decreases path
  {
    if path != [] && t.Array? { SubProper(t.elem, path[1..]); }
  }

  lemma {:induction false} DownIn(t: Type)
    requires Proper(t)
    ensures PathIn(t, Down(t)) && SubType(t, Down(t)) == Scalar
  {
    if t.Array? {
      DownIn(t.elem);
      assert Down(t)[1..] == Down(t.elem);
    }
  }

  lemma FullIn(t: Type, path: seq<nat>, init: Init)
    requires Proper(t) && PathIn(t, path)
    ensures PathIn(t, Full(t, path, init)) && SubType(t, Full(t, path, init)) == if init.Value? then
      Scalar else SubType(t, path)
  {
    hide PathIn, SubType, Down;
    if init.Value? {
      SubProper(t, path);
      DownIn(SubType(t, path));
      SubIn(t, path, Down(SubType(t, path)));
    }
  }

  lemma {:induction false} NextPathIn(t: Type, path: seq<nat>)
    requires PathIn(t, path)
    ensures Next(t, path).Some? ==> PathIn(t, Next(t, path).value)
    decreases path
  {
    if path != [] {
      NextPathIn(t.elem, path[1..]);
      var next := Next(t, path);
      if next.Some? { assert next.value[1..] == [] || Some(next.value[1..]) == Next(t.elem, path[1..]); }
    }
  }

  predicate PathsOK(e: Type, items: seq<Item>, n: nat) {
    forall j :: 0 <= j < n && j < |items| && items[j].path != [] ==> PathIn(e, items[j].path[1..])
  }

  /** All items go inside of an element. */
  lemma {:induction false} PlacesIn(e: Type, items: seq<Item>, k: nat)
    requires Proper(e) && k < |items| && PathsOK(e, items, k + 1)
    ensures PathIn(e, TargetAt(e, items, k)[1..]) && PathIn(e, PathAt(e, items, k)[1..])
    ensures SubType(e, PathAt(e, items, k)[1..]) == if items[k].init.Value? then Scalar
      else SubType(e, TargetAt(e, items, k)[1..])
    decreases k
  {
    hide PathIn, SubType, Next, Full;
    if items[k].path == [] {
      RootIn(e);
      if k == 0 { assert TargetAt(e, items, k)[1..] == []; }
      else {
        PlacesIn(e, items, k - 1);
        CursorIs(e, items, k);
        NextPathIn(e, PathAt(e, items, k - 1)[1..]);
      }
    }
    var path := TargetAt(e, items, k);
    FullIn(e, path[1..], items[k].init);
    PathIs(e, items, k);
  }

  lemma RootIn(e: Type)
    ensures PathIn(e, [])
  {
  }

  lemma CursorIs(e: Type, items: seq<Item>, k: nat)
    requires 0 < k <= |items|
    ensures var path := PathAt(e, items, k - 1);
      var inner := Next(e, path[1..]);
      && CursorAt(e, items, k)[0] == (if inner.Some? then path[0] else path[0] + 1)
      && CursorAt(e, items, k)[1..] == (if inner.Some? then inner.value else [])
      && Index(CursorAt(e, items, k)) == path[0] + 1
  {
    hide Next, PathAt;
  }

  lemma PathIs(e: Type, items: seq<Item>, k: nat)
    requires k < |items|
    ensures PathAt(e, items, k)[0] == TargetAt(e, items, k)[0]
      && PathAt(e, items, k)[1..] == Full(e, TargetAt(e, items, k)[1..], items[k].init)
  {
    hide Full, TargetAt;
  }

  /* What the elements are. */

  function ContentAt(e: Type, items: seq<Item>, k: nat): Option<Val>
    requires k < |items|
  {
    Content(SubType(e, TargetAt(e, items, k)[1..]), items[k].init)
  }

  /** Element `i` behind the first `k` items. */
  function ElemAt(e: Type, items: seq<Item>, k: nat, i: nat): Val
    requires k <= |items|
  {
    if k == 0 then Zero(e) else
    var path, x := PathAt(e, items, k - 1), ContentAt(e, items, k - 1);
    if path[0] != i || x.None? then ElemAt(e, items, k - 1, i)
    else Set(if EntersAt(e, items, k - 1) then Zero(e) else ElemAt(e, items, k - 1, i), e, path[1..], x.value)
  }

  function Length(e: Type, items: seq<Item>, k: nat): nat
    requires k <= |items|
  {
    if k == 0 then 0 else
    var l, i := Length(e, items, k - 1), PathAt(e, items, k - 1)[0];
    if i < l then l else i + 1
  }

  predicate ValsAre(vals: seq<Val>, e: Type, bound: Option<nat>, items: seq<Item>, k: nat)
    requires k <= |items|
  {
    && |vals| == (if bound.Some? then bound.value else Length(e, items, k))
    && forall i :: 0 <= i < |vals| ==> vals[i] == ElemAt(e, items, k, i)
  }

  lemma {:induction false} NothingBeyond(e: Type, items: seq<Item>, k: nat, i: nat)
    requires k <= |items| && i >= Length(e, items, k)
    ensures ElemAt(e, items, k, i) == Zero(e)
    decreases k
  {
    hide PathAt, ContentAt;
    if k > 0 { NothingBeyond(e, items, k - 1, i); }
  }

  lemma LengthIs(e: Type, items: seq<Item>, k: nat)
    requires k < |items|
    ensures var l, i := Length(e, items, k), PathAt(e, items, k)[0];
      Length(e, items, k + 1) == if i < l then l else i + 1
  {
    hide PathAt;
  }

  lemma ElemIs(e: Type, items: seq<Item>, k: nat, i: nat)
    requires k < |items|
    ensures var path, x := PathAt(e, items, k), ContentAt(e, items, k);
      ElemAt(e, items, k + 1, i) ==
        if path[0] != i || x.None? then ElemAt(e, items, k, i)
        else Set(if EntersAt(e, items, k) then Zero(e) else ElemAt(e, items, k, i), e, path[1..], x.value)
  {
    hide PathAt, ContentAt, EntersAt, Set;
  }

  lemma ValsStep(vals: seq<Val>, e: Type, bound: Option<nat>, items: seq<Item>, k: nat)
    requires k < |items| && ValsAre(vals, e, bound, items, k) && Within(bound, PathAt(e, items, k)[0])
      && ContentAt(e, items, k).Some?
    ensures var path, x := PathAt(e, items, k), ContentAt(e, items, k).value;
      var from := if EntersAt(e, items, k) || path[0] >= |vals| then Zero(e) else vals[path[0]];
      ValsAre(Put(e, vals, path[0], Set(from, e, path[1..], x)), e, bound, items, k + 1)
  {
    hide PathAt, ContentAt, EntersAt, Set, ElemAt, Zero, Zeros, Length;
    var i := PathAt(e, items, k)[0];
    var from := if EntersAt(e, items, k) || i >= |vals| then Zero(e) else vals[i];
    var vals1 := Put(e, vals, i, Set(from, e, PathAt(e, items, k)[1..], ContentAt(e, items, k).value));
    LengthIs(e, items, k);
    forall j | 0 <= j < |vals1| ensures vals1[j] == ElemAt(e, items, k + 1, j) {
      ElemIs(e, items, k, j);
      if j >= |vals| {
        NothingBeyond(e, items, k, j);
        if j < i { ZerosAre(e, i - |vals|); ZeroAt(e, i - |vals|, j - |vals|); }
      }
    }
  }

  lemma ZeroAt(e: Type, n: nat, j: nat)
    requires j < n && ZerosFrom(e, Zeros(e, n), 0)
    ensures Zeros(e, n)[j] == Zero(e)
  {
    hide Zero, Zeros;
  }

  predicate OKFrom(e: Type, bound: Option<nat>, items: seq<Item>, k: nat) {
    forall j :: k <= j < |items| ==> ItemOK(e, bound, items, j)
  }

  /** The contents of the items' places are there when the initializers fit. */
  predicate Fits(e: Type, items: seq<Item>) {
    forall k :: 0 <= k < |items| ==>
      (ContentAt(e, items, k).Some? <==> InitOK(SubType(e, TargetAt(e, items, k)[1..]), items[k].init))
  }

  lemma {:induction false} FoldIsOK(e: Type, bound: Option<nat>, vals: seq<Val>, items: seq<Item>, k: nat)
    requires Proper(e) && k <= |items| && ValsAre(vals, e, bound, items, k) && Fits(e, items)
      && (bound.Some? ==> bound.value > 0)
    ensures var r := FoldItems(e, bound, vals, CursorAt(e, items, k), items, k);
      (r.Some? <==> OKFrom(e, bound, items, k)) && (r.Some? ==> ValsAre(r.value, e, bound, items, |items|))
    decreases |items| - k
  {
    hide FoldItems, PathAt, InitOK, Set, ValsAre, OKFrom, SubType, Content, Full, Next, PathIn, CursorAt, Put;
    if k == |items| {
      FoldEnds(e, bound, vals, items);
    } else {
      StepIs(e, bound, vals, CursorAt(e, items, k), items, k);
      OKIs(e, bound, items, k);
      ItemIs(e, bound, items, k);
      PathIs(e, items, k);
      if ItemOK(e, bound, items, k) {
        ValsStep(vals, e, bound, items, k);
        OnwardIs(e, items, k);
        var path, x := PathAt(e, items, k), ContentAt(e, items, k).value;
        var from := if EntersAt(e, items, k) || path[0] >= |vals| then Zero(e) else vals[path[0]];
        FoldIsOK(e, bound, Put(e, vals, path[0], Set(from, e, path[1..], x)), items, k + 1);
      }
    }
  }

  lemma FoldEnds(e: Type, bound: Option<nat>, vals: seq<Val>, items: seq<Item>)
    ensures FoldItems(e, bound, vals, CursorAt(e, items, |items|), items, |items|) == Some(vals)
      && OKFrom(e, bound, items, |items|)
  {
    hide CursorAt;
  }

  lemma OKIs(e: Type, bound: Option<nat>, items: seq<Item>, k: nat)
    requires k < |items|
    ensures OKFrom(e, bound, items, k) <==> ItemOK(e, bound, items, k) && OKFrom(e, bound, items, k + 1)
  {
    hide ItemOK;
  }

  lemma OnwardIs(e: Type, items: seq<Item>, k: nat)
    requires k < |items|
    ensures CursorAt(e, items, k + 1) == Onward(PathAt(e, items, k)[0], Next(e, PathAt(e, items, k)[1..]))
  {
    hide PathAt, Next;
  }

  /** An item without path is inside because the cursor is. */
  lemma ItemIs(e: Type, bound: Option<nat>, items: seq<Item>, k: nat)
    requires k < |items| && (bound.Some? ==> bound.value > 0)
    ensures var path, next := TargetAt(e, items, k), CursorAt(e, items, k);
      ItemOK(e, bound, items, k) <==>
        && Within(bound, path[0]) && (items[k].path != [] ==> PathIn(e, path[1..]) && Within(bound, Index(next)))
        && InitOK(SubType(e, path[1..]), items[k].init)
  {
    hide PathIn, InitOK, SubType, PathAt, Next;
    if k > 0 { CursorIs(e, items, k); }
  }

  /* What the scalars hold. */

  predicate Covers(path: seq<nat>, q: seq<nat>) { |path| <= |q| && q[..|path|] == path }

  /** What an initializer makes of the scalar at a path. */
  function HeldInit(t: Type, init: Init, q: seq<nat>): int
    decreases init, 1
  {
    match init
    case Value(v) => v
    case List(l, _) =>
      match t
      case Scalar => if |l| == 1 && l[0].init.Value? then l[0].init.v else 0
      case Array(e, _) => if q == [] then 0 else HeldIn(e, l, |l|, q[0], q[1..])
  }

  /** What the first `k` items leave at path `q` in element `i`. An item that goes to the element, and not
      on from the item before it, clears the element. */
  function HeldIn(e: Type, items: seq<Item>, k: nat, i: nat, q: seq<nat>): int
    requires k <= |items|
    decreases items, k
  {
    if k == 0 then 0 else
    var path := PathAt(e, items, k - 1);
    if path[0] != i then HeldIn(e, items, k - 1, i, q)
    else if Covers(path[1..], q) then HeldInit(SubType(e, path[1..]), items[k - 1].init, q[|path| - 1..])
    else if EntersAt(e, items, k - 1) then 0
    else HeldIn(e, items, k - 1, i, q)
  }

  lemma ZeroHolds(t: Type, q: seq<nat>)
    requires IsPath(t, q)
    ensures Shaped(Zero(t), t) && At(Zero(t), t, q) == 0
  {
    ZeroFill(t);
    FilledAt(t, [], q);
  }

  lemma ZeroShaped(t: Type)
    ensures Shaped(Zero(t), t)
  {
    ZeroFill(t);
    FillShaped(t, []);
  }

  lemma {:induction false} SetShaped(v: Val, t: Type, path: seq<nat>, x: Val)
    requires Shaped(v, t) && PathIn(t, path) && Shaped(x, SubType(t, path))
    ensures Shaped(Set(v, t, path, x), t)
    decreases path
  {
    if path != [] { SetShaped(v.vs[path[0]], t.elem, path[1..], x); }
  }

  lemma {:induction false} SetAt(v: Val, t: Type, path: seq<nat>, x: Val, q: seq<nat>)
    requires Shaped(v, t) && PathIn(t, path) && Shaped(x, SubType(t, path)) && IsPath(t, q)
      && Shaped(Set(v, t, path, x), t)
    ensures Covers(path, q) ==> IsPath(SubType(t, path), q[|path|..])
    ensures At(Set(v, t, path, x), t, q) == if Covers(path, q) then
      At(x, SubType(t, path), q[|path|..]) else At(v, t, q)
    decreases path
  {
    if path != [] {
      var i, e := path[0], t.elem;
      SetShaped(v.vs[i], e, path[1..], x);
      CoversIs(path, q);
      if q[0] == i { SetAt(v.vs[i], e, path[1..], x, q[1..]); }
    }
  }

  lemma CoversIs(path: seq<nat>, q: seq<nat>)
    requires path != [] && q != []
    ensures Covers(path, q) <==> path[0] == q[0] && Covers(path[1..], q[1..])
    ensures Covers(path, q) ==> q[|path|..] == q[1..][|path| - 1..]
  {
    if Covers(path, q) {
      assert q[1..][..|path| - 1] == q[..|path|][1..];
    }
  }

  /** A content of an object, and what its scalars hold. */
  ghost predicate Holds(x: Val, t: Type, init: Init) {
    Shaped(x, t) && forall q :: IsPath(t, q) ==> At(x, t, q) == HeldInit(t, init, q)
  }

  function PlaceType(e: Type, items: seq<Item>, k: nat): Type
    requires k < |items|
  {
    SubType(e, PathAt(e, items, k)[1..])
  }

  ghost predicate HoldsAt(e: Type, items: seq<Item>, k: nat)
    requires k < |items|
  {
    ContentAt(e, items, k).Some? && Holds(ContentAt(e, items, k).value, PlaceType(e, items, k), items[k].init)
  }

  lemma {:induction false} ElemShaped(e: Type, items: seq<Item>, k: nat, i: nat)
    requires Proper(e) && k <= |items| && PathsOK(e, items, k) && forall j :: 0 <= j < k ==> HoldsAt(e, items, j)
    ensures Shaped(ElemAt(e, items, k, i), e)
    decreases k
  {
    hide ElemAt, PathAt, ContentAt, EntersAt, Set, Zero, PathIn, IsPath, SubType;
    if k == 0 { ZeroShaped(e); ElemZero(e, items, i); } else {
      ElemShaped(e, items, k - 1, i);
      ElemIs(e, items, k - 1, i);
      PlacesIn(e, items, k - 1);
      ZeroShaped(e);
      assert HoldsAt(e, items, k - 1);
      var path, x := PathAt(e, items, k - 1), ContentAt(e, items, k - 1).value;
      SetShaped(if EntersAt(e, items, k - 1) then Zero(e) else ElemAt(e, items, k - 1, i), e, path[1..], x);
    }
  }

  lemma ElemZero(e: Type, items: seq<Item>, i: nat)
    ensures ElemAt(e, items, 0, i) == Zero(e)
  {
  }

  lemma HeldIs(e: Type, items: seq<Item>, k: nat, i: nat, q: seq<nat>)
    requires k < |items|
    ensures HeldIn(e, items, k + 1, i, q) == var path := PathAt(e, items, k);
      if path[0] != i then HeldIn(e, items, k, i, q)
      else if Covers(path[1..], q) then HeldInit(PlaceType(e, items, k), items[k].init, q[|path| - 1..])
      else if EntersAt(e, items, k) then 0
      else HeldIn(e, items, k, i, q)
  {
    hide PathAt, EntersAt, SubType, HeldInit;
  }

  lemma {:induction false} ElemHolds(e: Type, items: seq<Item>, k: nat, i: nat, q: seq<nat>)
    requires Proper(e) && k <= |items| && PathsOK(e, items, k)
      && (forall j :: 0 <= j < k ==> HoldsAt(e, items, j)) && IsPath(e, q)
    requires Shaped(ElemAt(e, items, k, i), e)
    ensures At(ElemAt(e, items, k, i), e, q) == HeldIn(e, items, k, i, q)
    decreases k
  {
    hide ElemAt, PathAt, ContentAt, EntersAt, Set, Zero, PathIn, SubType, IsPath, At, HeldInit, HeldIn, Shaped;
    ZeroHolds(e, q);
    if k == 0 { ElemZero(e, items, i); HeldZero(e, items, i, q); } else {
      ElemShaped(e, items, k - 1, i);
      ElemHolds(e, items, k - 1, i, q);
      ElemIs(e, items, k - 1, i);
      HeldIs(e, items, k - 1, i, q);
      PlacesIn(e, items, k - 1);
      assert HoldsAt(e, items, k - 1);
      var path, x := PathAt(e, items, k - 1), ContentAt(e, items, k - 1).value;
      if path[0] == i {
        var from := if EntersAt(e, items, k - 1) then Zero(e) else ElemAt(e, items, k - 1, i);
        SetShaped(from, e, path[1..], x);
        SetAt(from, e, path[1..], x, q);
      }
    }
  }

  lemma HeldZero(e: Type, items: seq<Item>, i: nat, q: seq<nat>)
    ensures HeldIn(e, items, 0, i, q) == 0
  {
  }

  /* Lists in lists. */

  ghost predicate Reads(r: Option<seq<Val>>, e: Type, bound: Option<nat>, items: seq<Item>) {
    && (r.Some? <==> ListOK(e, bound, items))
    && (r.Some? ==>
          && |r.value| == (if bound.Some? then bound.value else Length(e, items, |items|))
          && forall i :: 0 <= i < |r.value| ==> Shaped(r.value[i], e) && forall q :: IsPath(e, q) ==>
              At(r.value[i], e, q) == HeldIn(e, items, |items|, i, q))
  }

  lemma {:induction false} ListHolds(e: Type, bound: Option<nat>, items: seq<Item>)
    requires Proper(e) && (bound.Some? ==> bound.value > 0)
    ensures Reads(TakeVec(e, bound, items), e, bound, items)
    decreases items, 0
  {
    hide TakeItems, FoldItems, Content, InitOK, ElemAt, Start, Holds, ListOK, SubType, ContentAt, TargetAt, HeldIn,
      Shaped, At, IsPath, Length, PathsOK;
    forall k | 0 <= k < |items|
      ensures (ContentAt(e, items, k).Some? <==> InitOK(SubType(e, TargetAt(e, items, k)[1..]), items[k].init)) {
      ContentHolds(e, items, k);
    }
    var vals := Start(e, bound);
    StartAre(e, bound, items);
    if items != [] { ItemsFold(e, bound, 0, vals, items, 0); }
    FoldIsOK(e, bound, vals, items, 0);
    StartsAtZero(e, bound, items);
    var r := TakeVec(e, bound, items);
    if r.Some? {
      AllIn(e, bound, items);
      forall j | 0 <= j < |items| ensures HoldsAt(e, items, j) {
        ContentHolds(e, items, j);
        PathsFewer(e, items, j + 1);
        PlacesIn(e, items, j);
      }
      forall i | 0 <= i < |r.value| ensures Shaped(r.value[i], e) && forall q ::
          IsPath(e, q) ==> At(r.value[i], e, q) == HeldIn(e, items, |items|, i, q) {
        ElemShaped(e, items, |items|, i);
        forall q | IsPath(e, q)
          ensures At(r.value[i], e, q) == HeldIn(e, items, |items|, i, q) { ElemHolds(e, items, |items|, i, q); }
      }
    }
  }

  lemma AllIn(e: Type, bound: Option<nat>, items: seq<Item>)
    requires ListOK(e, bound, items)
    ensures PathsOK(e, items, |items|)
    ensures forall j :: 0 <= j < |items| ==> InitOK(SubType(e, TargetAt(e, items, j)[1..]), items[j].init)
  {
    hide PathIn, InitOK, SubType, PathAt, Next;
    forall j | 0 <= j < |items|
      ensures InitOK(SubType(e, TargetAt(e, items, j)[1..]), items[j].init) { assert ItemOK(e, bound, items, j); }
    forall j | 0 <= j < |items| && items[j].path != []
      ensures PathIn(e, items[j].path[1..]) { assert ItemOK(e, bound, items, j); }
  }

  lemma PathsFewer(e: Type, items: seq<Item>, n: nat)
    requires n <= |items| && PathsOK(e, items, |items|)
    ensures PathsOK(e, items, n)
  {
    hide PathIn;
  }

  lemma StartAre(e: Type, bound: Option<nat>, items: seq<Item>)
    ensures ValsAre(Start(e, bound), e, bound, items, 0)
  {
    hide Zeros, Zero;
    if bound.Some? {
      ZerosAre(e, bound.value);
      forall i | 0 <= i < bound.value
        ensures Start(e, bound)[i] == ElemAt(e, items, 0, i) { ZeroAt(e, bound.value, i); ElemZero(e, items, i); }
    }
  }

  lemma StartsAtZero(e: Type, bound: Option<nat>, items: seq<Item>)
    ensures CursorAt(e, items, 0) == [0] && (OKFrom(e, bound, items, 0) <==> ListOK(e, bound, items))
    ensures items == [] ==> FoldItems(e, bound, Start(e, bound), [0], items, 0) == Some(Start(e, bound))
  {
    hide ItemOK, Start;
  }

  /** The content of an item's place. */
  lemma {:induction false} ContentHolds(e: Type, items: seq<Item>, k: nat)
    requires Proper(e) && k < |items|
    ensures var t, init, x := SubType(e, TargetAt(e, items, k)[1..]), items[k].init, ContentAt(e, items, k);
      (x.Some? <==> InitOK(t, init)) && (x.Some? ==> Holds(x.value, if init.Value? then Scalar else t, init))
    decreases items[k].init, 1
  {
    hide TargetAt, SubType, InitOK, Holds, Content;
    var t := SubType(e, TargetAt(e, items, k)[1..]);
    SubProper(e, TargetAt(e, items, k)[1..]);
    InitHolds(t, items[k].init);
  }

  lemma {:induction false} VecHolds(vals: seq<Val>, e: Type, n: nat, l: seq<Item>, comma: bool)
    requires |vals| == n
    requires forall i ::
        0 <= i < n ==> Shaped(vals[i], e) && forall q :: IsPath(e, q) ==> At(vals[i], e, q) == HeldIn(e, l, |l|, i, q)
    ensures Holds(Vec(vals), Array(e, n), List(l, comma))
  {
    hide HeldIn;
    forall q | IsPath(Array(e, n), q)
      ensures At(Vec(vals), Array(e, n), q) == HeldInit(Array(e, n), List(l, comma), q) {
      assert At(vals[q[0]], e, q[1..]) == HeldIn(e, l, |l|, q[0], q[1..]);
    }
  }

  lemma {:induction false} InitHolds(t: Type, init: Init)
    requires Proper(t)
    ensures var x := Content(t, init);
      (x.Some? <==> InitOK(t, init)) && (x.Some? ==> Holds(x.value, if init.Value? then Scalar else t, init))
    decreases init, 0
  {
    hide TakeVec, HeldIn, ListOK, Length;
    match init
    case Value(_) =>
    case List(l, comma) =>
      match t
      case Scalar =>
      case Array(e, n) =>
        ListHolds(e, Some(n), l);
        var r := TakeVec(e, Some(n), l);
        if r.Some? { VecHolds(r.value, e, n, l, comma); }
  }
}
