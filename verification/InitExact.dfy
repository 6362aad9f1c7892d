/** What initializer lists leave in an array, which legal lists are rejected, and when every scalar keeps
    its last value. */
module InitExact {
  import opened Common
  import opened ArrayInit
  import opened InitMeaning
  import opened InitTrees
  import opened InitParsed
  import opened InitCursor
  import opened InitHeld

  function ParseList(e: Type, bound: Option<nat>, items: seq<Item>, comma: bool, post: seq<Token>): Option<RVec> {
    ParseArray(InitToks(List(items, comma)) + post, e, bound, false)
  }

  predicate AllShaped(vs: seq<Val>, e: Type) { forall i :: 0 <= i < |vs| ==> Shaped(vs[i], e) }

  /** The scalar at a path inside of element `i`. */
  function ScalarAt(vs: seq<Val>, e: Type, i: nat, q: seq<nat>): int
    requires i < |vs| && Shaped(vs[i], e) && IsPath(e, q)
  {
    At(vs[i], e, q)
  }

  /** Which lists are accepted, how long an unknown bound becomes, and what every scalar holds. */
  lemma DesignatedList(e: Type, bound: Option<nat>, items: seq<Item>, comma: bool, post: seq<Token>)
    requires Proper(e) && (bound.Some? ==> bound.value > 0)
    ensures var r := ParseList(e, bound, items, comma, post);
      && (r.Some? <==> ListOK(e, bound, items))
      && (r.Some? ==>
            && r.value.rest == post && AllShaped(r.value.vs, e)
            && |r.value.vs| == (if bound.Some? then bound.value else Length(e, items, |items|))
            && forall i, q :: 0 <= i < |r.value.vs| && IsPath(e, q) ==>
                ScalarAt(r.value.vs, e, i, q) == HeldIn(e, items, |items|, i, q))
  {
    hide ParseArray, InitToks, TakeVec, ListOK, HeldIn, At, Shaped, IsPath, Length;
    VecTaken(e, bound, items, comma, post);
    ListHolds(e, bound, items);
  }

  /* C's constraints: every item is inside of its array and fits its place. */

  predicate InitLegal(t: Type, init: Init)
    decreases init, 1
  {
    match init
    case Value(_) => true
    case List(l, _) =>
      match t
      case Scalar => |l| == 1 && l[0].path == [] && l[0].init.Value?
      case Array(e, n) => ListLegal(e, Some(n), l)
  }
  predicate ListLegal(e: Type, bound: Option<nat>, items: seq<Item>)
    decreases items, 1
  {
    forall k :: 0 <= k < |items| ==> ItemLegal(e, bound, items, k)
  }
  predicate ItemLegal(e: Type, bound: Option<nat>, items: seq<Item>, k: nat)
    requires k < |items|
    decreases items, 0
  {
    var path := TargetAt(e, items, k);
    && (items[k].path != [] ==> PathIn(e, path[1..]))
    && Within(bound, path[0])
    && InitLegal(SubType(e, path[1..]), items[k].init)
  }

  /** Somewhere an item with a designator follows an item of the last element. */
  predicate InitBlocked(t: Type, init: Init)
    decreases init, 1
  {
    init.List? && t.Array? && ListBlocked(t.elem, Some(t.n), init.items)
  }
  predicate ListBlocked(e: Type, bound: Option<nat>, items: seq<Item>)
    decreases items, 1
  {
    exists k :: 0 <= k < |items| && ItemBlocked(e, bound, items, k)
  }
  predicate ItemBlocked(e: Type, bound: Option<nat>, items: seq<Item>, k: nat)
    requires k < |items|
    decreases items, 0
  {
    || (k > 0 && items[k].path != [] && bound.Some? && PathAt(e, items, k - 1)[0] + 1 >= bound.value)
    || InitBlocked(SubType(e, TargetAt(e, items, k)[1..]), items[k].init)
  }

  lemma {:induction false} InitExactly(t: Type, init: Init)
    ensures InitOK(t, init) <==> InitLegal(t, init) && !InitBlocked(t, init)
    decreases init, 1
  {
    hide ListOK, ListLegal, ListBlocked;
    if init.List? && t.Array? { ListExactly(t.elem, Some(t.n), init.items); }
  }

  /** A list is accepted exactly when it is legal and no item is blocked. */
  lemma {:induction false} ListExactly(e: Type, bound: Option<nat>, items: seq<Item>)
    ensures ListOK(e, bound, items) <==> ListLegal(e, bound, items) && !ListBlocked(e, bound, items)
    decreases items, 1
  {
    hide ItemOK, ItemLegal, ItemBlocked;
    forall k | 0 <= k < |items|
      ensures ItemOK(e, bound, items, k) <==> ItemLegal(e, bound, items, k) && !ItemBlocked(e, bound, items, k) {
      ItemExactly(e, bound, items, k);
    }
    if ListLegal(e, bound, items) && !ListBlocked(e, bound, items) {
      forall k | 0 <= k < |items| ensures ItemOK(e, bound, items, k) {
        assert ItemLegal(e, bound, items, k) && !ItemBlocked(e, bound, items, k);
      }
    }
    if ListOK(e, bound, items) {
      forall k | 0 <= k < |items| ensures ItemLegal(e, bound, items, k) && !ItemBlocked(e, bound, items, k) {
        assert ItemOK(e, bound, items, k);
      }
    }
  }

  lemma {:induction false} ItemExactly(e: Type, bound: Option<nat>, items: seq<Item>, k: nat)
    requires k < |items|
    ensures ItemOK(e, bound, items, k) <==> ItemLegal(e, bound, items, k) && !ItemBlocked(e, bound, items, k)
    decreases items, 0
  {
    hide PathAt, PathIn, SubType, InitOK, InitLegal, InitBlocked, Next;
    InitExactly(SubType(e, TargetAt(e, items, k)[1..]), items[k].init);
    if k > 0 { CursorIs(e, items, k); }
  }

  /** A legal list is rejected exactly when somewhere a designator follows an item of the last element. */
  lemma LegalAccepted(e: Type, bound: Option<nat>, items: seq<Item>, comma: bool, post: seq<Token>)
    requires Proper(e) && (bound.Some? ==> bound.value > 0) && ListLegal(e, bound, items)
    ensures ParseList(e, bound, items, comma, post).None? <==> ListBlocked(e, bound, items)
  {
    hide ParseList, ListOK, ListLegal, ListBlocked;
    DesignatedList(e, bound, items, comma, post);
    ListExactly(e, bound, items);
  }

  /* What C asks for: the last value given to a scalar. */

  function GivenInit(t: Type, init: Init, q: seq<nat>): int
    decreases init, 1
  {
    match init
    case Value(v) => v
    case List(l, _) =>
      match t
      case Scalar => if |l| == 1 && l[0].init.Value? then l[0].init.v else 0
      case Array(e, _) => if q == [] then 0 else GivenIn(e, l, |l|, q[0], q[1..])
  }
  /** The last item that goes to the scalar, or to an object around it, decides. */
  function GivenIn(e: Type, items: seq<Item>, k: nat, i: nat, q: seq<nat>): int
    requires k <= |items|
    decreases items, k
  {
    if k == 0 then 0
    else if GoesTo(e, items, k - 1, i, q) then GivenInit(PlaceType(e, items, k - 1), items[k - 1].init,
      Inner(e, items, k - 1, q))
    else GivenIn(e, items, k - 1, i, q)
  }

  predicate GoesTo(e: Type, items: seq<Item>, k: nat, i: nat, q: seq<nat>)
    requires k < |items|
  {
    PathAt(e, items, k)[0] == i && Covers(PathAt(e, items, k)[1..], q)
  }

  /** The path inside of the item's place. */
  function Inner(e: Type, items: seq<Item>, k: nat, q: seq<nat>): seq<nat>
    requires k < |items|
  {
    var l := |PathAt(e, items, k)| - 1;
    if l <= |q| then q[l..] else []
  }

  /** The last item that goes to the scalar, if there is one. */
  function LastAt(e: Type, items: seq<Item>, n: nat, i: nat, q: seq<nat>): (k: int)
    requires n <= |items|
    ensures -1 <= k < n
    ensures k >= 0 ==> GoesTo(e, items, k, i, q)
    ensures forall j :: k < j < n ==> !GoesTo(e, items, j, i, q)
  {
    if n == 0 then -1 else if GoesTo(e, items, n - 1, i, q) then n - 1 else LastAt(e, items, n - 1, i, q)
  }

  predicate EnteredAfter(e: Type, items: seq<Item>, n: nat, k: int, i: nat)
    requires n <= |items| && -1 <= k
  {
    exists m :: k < m < n && PathAt(e, items, m)[0] == i && EntersAt(e, items, m)
  }

  /** The scalar's last value is not zero, and a later item enters its element again without giving it a
      value. In a list in braces the same holds for the element of that list. */
  predicate LostIn(e: Type, items: seq<Item>, i: nat, q: seq<nat>)
    decreases items, 0
  {
    var k := LastAt(e, items, |items|, i, q);
    && k >= 0
    && var t, q1 := PlaceType(e, items, k), Inner(e, items, k, q);
    if EnteredAfter(e, items, |items|, k, i) then GivenInit(t, items[k].init, q1) != 0
      else LostInit(t, items[k].init, q1)
  }
  predicate LostInit(t: Type, init: Init, q: seq<nat>)
    decreases init, 1
  {
    init.List? && t.Array? && q != [] && LostIn(t.elem, init.items, q[0], q[1..])
  }

  ghost predicate NoneLost(e: Type, items: seq<Item>) { forall i: nat, q :: IsPath(e, q) ==> !LostIn(e, items, i, q) }

  lemma {:induction false} GivenIs(e: Type, items: seq<Item>, n: nat, i: nat, q: seq<nat>)
    requires n <= |items|
    ensures var k := LastAt(e, items, n, i, q);
      GivenIn(e, items, n, i, q) == if k >= 0 then
        GivenInit(PlaceType(e, items, k), items[k].init, Inner(e, items, k, q)) else 0
    decreases n
  {
    hide GoesTo, PlaceType, Inner, GivenInit;
    if n > 0 { GivenIs(e, items, n - 1, i, q); }
  }

  /** A scalar holds its last value, unless its element is entered again behind it. */
  lemma {:induction false} HeldLast(e: Type, items: seq<Item>, n: nat, i: nat, q: seq<nat>)
    requires n <= |items|
    ensures var k := LastAt(e, items, n, i, q);
      HeldIn(e, items, n, i, q) ==
        if k >= 0 && !EnteredAfter(e, items, n, k, i) then
          HeldInit(PlaceType(e, items, k), items[k].init, Inner(e, items, k, q)) else 0
    decreases n
  {
    hide PathAt, EntersAt, PlaceType, HeldInit, HeldIn, Covers;
    if n == 0 { HeldZero(e, items, i, q); } else {
      HeldLast(e, items, n - 1, i, q);
      HeldIs(e, items, n - 1, i, q);
      CoversLength(PathAt(e, items, n - 1)[1..], q);
      var k := LastAt(e, items, n, i, q);
      if k < n - 1 {
        if PathAt(e, items, n - 1)[0] == i && EntersAt(e, items, n - 1) { assert EnteredAfter(e, items, n, k, i); }
        else { assert EnteredAfter(e, items, n - 1, k, i) <==> EnteredAfter(e, items, n, k, i); }
      }
    }
  }

  lemma CoversLength(path: seq<nat>, q: seq<nat>)
    ensures Covers(path, q) ==> |path| <= |q|
  {
  }

  lemma {:induction false} HeldGiven(e: Type, items: seq<Item>, i: nat, q: seq<nat>)
    ensures HeldIn(e, items, |items|, i, q) == GivenIn(e, items, |items|, i, q) <==> !LostIn(e, items, i, q)
    decreases items, 0
  {
    hide PlaceType, Inner, HeldInit, HeldIn, GivenIn, GivenInit, LostInit, EnteredAfter, GoesTo;
    HeldLast(e, items, |items|, i, q);
    GivenIs(e, items, |items|, i, q);
    var k := LastAt(e, items, |items|, i, q);
    if k >= 0 { InitHeldGiven(PlaceType(e, items, k), items[k].init, Inner(e, items, k, q)); }
  }

  lemma {:induction false} InitHeldGiven(t: Type, init: Init, q: seq<nat>)
    ensures HeldInit(t, init, q) == GivenInit(t, init, q) <==> !LostInit(t, init, q)
    decreases init, 1
  {
    hide HeldIn, GivenIn, LostIn;
    if init.List? && t.Array? && q != [] { HeldGiven(t.elem, init.items, q[0], q[1..]); }
  }

  /** Every place of an accepted list is inside of the array. */
  lemma PlaceInside(e: Type, items: seq<Item>, bound: Option<nat>, k: nat)
    requires ListOK(e, bound, items) && k < |items|
    ensures PathAt(e, items, k)[0] < if bound.Some? then bound.value else Length(e, items, |items|)
  {
    hide PathIn, SubType, InitOK, PathAt;
    assert ItemOK(e, bound, items, k);
    PathIs(e, items, k);
    LengthCovers(e, items, |items|, k);
  }

  lemma {:induction false} LengthCovers(e: Type, items: seq<Item>, n: nat, k: nat)
    requires k < n <= |items|
    ensures PathAt(e, items, k)[0] < Length(e, items, n)
    decreases n
  {
    hide PathAt;
    if k < n - 1 { LengthCovers(e, items, n - 1, k); }
  }

  ghost predicate KeepsLast(vs: seq<Val>, e: Type, items: seq<Item>)
    requires AllShaped(vs, e)
  {
    forall i, q :: 0 <= i < |vs| && IsPath(e, q) ==> ScalarAt(vs, e, i, q) == GivenIn(e, items, |items|, i, q)
  }

  /** In an accepted list every scalar keeps its last value exactly when no value is lost. */
  lemma LastValuesExactly(e: Type, bound: Option<nat>, items: seq<Item>, comma: bool, post: seq<Token>)
    requires Proper(e) && (bound.Some? ==> bound.value > 0) && ListOK(e, bound, items)
    ensures var r := ParseList(e, bound, items, comma, post);
      r.Some? && AllShaped(r.value.vs, e) && (KeepsLast(r.value.vs, e, items) <==> NoneLost(e, items))
  {
    hide HeldIn, GivenIn, At, ParseList, Shaped, PathAt, IsPath, ListOK, LostIn, Length;
    DesignatedList(e, bound, items, comma, post);
    var vs := ParseList(e, bound, items, comma, post).value.vs;
    if NoneLost(e, items) {
      forall i, q | 0 <= i < |vs| && IsPath(e, q) ensures ScalarAt(vs, e, i, q) == GivenIn(e, items, |items|, i, q) {
        HeldGiven(e, items, i, q);
      }
    } else {
      var i: nat, q :| IsPath(e, q) && LostIn(e, items, i, q);
      HeldGiven(e, items, i, q);
      PlaceInside(e, items, bound, LostPlace(e, items, i, q));
      assert ScalarAt(vs, e, i, q) != GivenIn(e, items, |items|, i, q);
    }
  }

  function LostPlace(e: Type, items: seq<Item>, i: nat, q: seq<nat>): (k: nat)
    requires LostIn(e, items, i, q)
    ensures k < |items| && PathAt(e, items, k)[0] == i
  {
    LastAt(e, items, |items|, i, q)
  }

  /** An array of scalars always keeps last values. */
  lemma ScalarsKeepLast(items: seq<Item>)
    requires forall k :: 0 <= k < |items| ==> |items[k].path| <= 1
    ensures NoneLost(Scalar, items)
  {
    forall i: nat, q | IsPath(Scalar, q) ensures !LostIn(Scalar, items, i, q) {
      var k := LastAt(Scalar, items, |items|, i, q);
      forall m | k < m < |items| && PathAt(Scalar, items, m)[0] == i
        ensures GoesTo(Scalar, items, m, i, q) { ScalarPlace(items, m); }
      if k >= 0 { ScalarPlace(items, k); }
    }
  }

  lemma ScalarPlace(items: seq<Item>, k: nat)
    requires k < |items| && |items[k].path| <= 1
    ensures PathAt(Scalar, items, k)[1..] == [] && PlaceType(Scalar, items, k) == Scalar
  {
    PathIs(Scalar, items, k);
    if items[k].path == [] && k > 0 { CursorIs(Scalar, items, k); }
  }

  lemma TwoScalars(v: Val)
    requires Shaped(v, Array(Scalar, 2))
    ensures var e := Array(Scalar, 2);
      IsPath(e, [0]) && IsPath(e, [1]) && v == Vec([Num(At(v, e, [0])), Num(At(v, e, [1]))])
  {
    assert [0][1..] == [] && [1][1..] == [];
    assert Shaped(v.vs[0], Scalar) && Shaped(v.vs[1], Scalar);
    assert v.vs == [v.vs[0], v.vs[1]];
  }

  /** The row is entered again at its second element: whatever stood in front of it is gone. */
  lemma RowAgain(first: Item, v: int)
    requires var e, items := Array(Scalar, 2), [first, Item([0, 1], Value(v))];
      ListOK(e, None, items) && PathAt(e, items, 0)[0] == 0
    ensures ParseList(Array(Scalar, 2), None, [first, Item([0, 1], Value(v))], false, []) ==
      Some(RVec([Vec([Num(0), Num(v)])], []))
  {
    hide ParseList, ListOK, PathAt, HeldIn, At, Shaped, IsPath, EntersAt;
    var e, items := Array(Scalar, 2), [first, Item([0, 1], Value(v))];
    DesignatedList(e, None, items, false, []);
    SecondItem(first, v);
    LengthIs(e, items, 0);
    LengthIs(e, items, 1);
    var vs := ParseList(e, None, items, false, []).value.vs;
    TwoScalars(vs[0]);
    assert ScalarAt(vs, e, 0, [0]) == 0 && ScalarAt(vs, e, 0, [1]) == v;
    assert vs == [vs[0]];
  }

  lemma SecondItem(first: Item, v: int)
    ensures var e, items := Array(Scalar, 2), [first, Item([0, 1], Value(v))];
      && PathAt(e, items, 1) == [0, 1] && EntersAt(e, items, 1)
      && HeldIn(e, items, 2, 0, [0]) == 0 && HeldIn(e, items, 2, 0, [1]) == v
  {
    var e, items := Array(Scalar, 2), [first, Item([0, 1], Value(v))];
    assert [0, 1][1..] == [1] && [1][1..] == [];
    assert [0] + [1] == [0, 1] && [1] + [] == [1];
    HeldIs(e, items, 1, 0, [0]);
    HeldIs(e, items, 1, 0, [1]);
  }

  lemma FirstLost(e: Type, items: seq<Item>, q: seq<nat>)
    requires |items| == 2 && IsPath(e, q) && GoesTo(e, items, 0, 0, q) && !GoesTo(e, items, 1, 0, q)
    requires PathAt(e, items, 1)[0] == 0 && EntersAt(e, items, 1)
    requires GivenInit(PlaceType(e, items, 0), items[0].init, Inner(e, items, 0, q)) != 0
    ensures !NoneLost(e, items)
  {
    hide GoesTo, PathAt, EntersAt, GivenInit, PlaceType, Inner, IsPath;
    assert LastAt(e, items, 2, 0, q) == 0;
    assert EnteredAfter(e, items, 2, 0, 0);
    assert LostIn(e, items, 0, q);
  }

  /** `int a[][2] = {[0][0] = 1, [0][1] = 2};` holds 0 and 2. */
  lemma ReenteredRow()
    ensures var e, items := Array(Scalar, 2), [Item([0, 0], Value(1)), Item([0, 1], Value(2))];
      !NoneLost(e, items) && ParseList(e, None, items, false, []) == Some(RVec([Vec([Num(0), Num(2)])], []))
  {
    hide ParseList;
    var e, items := Array(Scalar, 2), [Item([0, 0], Value(1)), Item([0, 1], Value(2))];
    assert [0, 0][1..] == [0] && [0][1..] == [];
    assert [0] + [0] == [0, 0] && [0] + [] == [0];
    SecondItem(items[0], 2);
    assert PathAt(e, items, 0) == [0, 0];
    assert ItemOK(e, None, items, 0) && ItemOK(e, None, items, 1);
    RowAgain(items[0], 2);
    FirstLost(e, items, [0]);
  }

  /** Two plain values stand next to each other. */
  lemma RowPlaces(items: seq<Item>)
    requires |items| >= 2 && items[0].path == [] && items[1].path == [] && items[0].init.Value? && items[1].init.Value?
    ensures PathAt(Scalar, items, 0) == [0] && PathAt(Scalar, items, 1) == [1]
  {
    assert [0] + [] == [0] && [1] + [] == [1] && [0][1..] == [] && [1][1..] == [];
    assert PathAt(Scalar, items, 0) == [0];
  }

  lemma RowOK(items: seq<Item>)
    requires |items| == 2 && items[0].path == [] && items[1].path == [] && items[0].init.Value? && items[1].init.Value?
    ensures ListOK(Scalar, Some(2), items) && GivenIn(Scalar, items, 2, 0, []) == items[0].init.v
  {
    hide PathAt;
    RowPlaces(items);
    PathIs(Scalar, items, 0);
    PathIs(Scalar, items, 1);
    assert ItemOK(Scalar, Some(2), items, 0) && ItemOK(Scalar, Some(2), items, 1);
    assert GoesTo(Scalar, items, 0, 0, []) && !GoesTo(Scalar, items, 1, 0, []);
    assert GivenIn(Scalar, items, 1, 0, []) == items[0].init.v;
  }

  /** `int a[][2] = {[0] = {1, 2}, [0][1] = 5};` holds 0 and 5. */
  lemma ListThenItem()
    ensures var e, items := Array(Scalar, 2), [Item([0], List([Item([], Value(1)), Item([], Value(2))], false)),
      Item([0, 1], Value(5))];
      !NoneLost(e, items) && ParseList(e, None, items, false, []) == Some(RVec([Vec([Num(0), Num(5)])], []))
  {
    hide ParseList, PathAt, ListOK, ItemOK, GivenInit, GoesTo, NoneLost, EntersAt, PlaceType, Inner;
    var e, row := Array(Scalar, 2), [Item([], Value(1)), Item([], Value(2))];
    var items := [Item([0], List(row, false)), Item([0, 1], Value(5))];
    SecondItem(items[0], 5);
    ListPlace(items);
    RowOK(row);
    ListIsOK(items);
    BothOK(e, items);
    RowAgain(items[0], 5);
    GivenRow(row);
    NotGoing(items);
    FirstLost(e, items, [0]);
  }

  lemma BothOK(e: Type, items: seq<Item>)
    requires |items| == 2 && ItemOK(e, None, items, 0) && ItemOK(e, None, items, 1)
    ensures ListOK(e, None, items)
  {
    hide ItemOK;
  }

  /** A list for the row 0. */
  lemma ListPlace(items: seq<Item>)
    requires |items| == 2 && items[0].path == [0] && items[0].init.List?
    ensures var e := Array(Scalar, 2);
      && PathAt(e, items, 0) == [0] && PlaceType(e, items, 0) == e && Inner(e, items, 0, [0]) == [0]
      && GoesTo(e, items, 0, 0, [0])
  {
    assert [0][1..] == [] && [0] + [] == [0];
    assert PathAt(Array(Scalar, 2), items, 0) == [0];
    assert [0][..0] == [] && [0][0..] == [0];
  }

  lemma ListIsOK(items: seq<Item>)
    requires |items| == 2 && items[0].path == [0] && items[0].init.List? && ListOK(Scalar, Some(2), items[0].init.items)
    requires items[1].path == [0, 1] && items[1].init.Value?
    ensures ItemOK(Array(Scalar, 2), None, items, 0) && ItemOK(Array(Scalar, 2), None, items, 1)
  {
    hide ListOK, PathAt;
    assert [0][1..] == [] && [0, 1][1..] == [1] && [1][1..] == [];
  }

  lemma GivenRow(row: seq<Item>)
    requires |row| == 2 && GivenIn(Scalar, row, 2, 0, []) == 1
    ensures GivenInit(Array(Scalar, 2), List(row, false), [0]) == 1
  {
    hide GivenIn;
    assert [0][1..] == [];
  }

  lemma NotGoing(items: seq<Item>)
    requires |items| == 2 && PathAt(Array(Scalar, 2), items, 1) == [0, 1]
    ensures !GoesTo(Array(Scalar, 2), items, 1, 0, [0]) && PathAt(Array(Scalar, 2), items, 1)[0] == 0
  {
    hide PathAt;
    assert [0, 1][1..] == [1];
  }

  /** `int a[2] = {1, 2, [0] = 3};` is legal and rejected. */
  lemma FullThenDesignated(post: seq<Token>)
    ensures var items := [Item([], Value(1)), Item([], Value(2)), Item([0], Value(3))];
      ListLegal(Scalar, Some(2), items) && ListBlocked(Scalar, Some(2), items)
        && ParseList(Scalar, Some(2), items, false, post).None?
  {
    hide ParseList, PathAt;
    var items := [Item([], Value(1)), Item([], Value(2)), Item([0], Value(3))];
    RowPlaces(items);
    PathIs(Scalar, items, 0);
    PathIs(Scalar, items, 1);
    PathIs(Scalar, items, 2);
    assert [0][1..] == [];
    assert ItemLegal(Scalar, Some(2), items, 0) && ItemLegal(Scalar, Some(2), items, 1)
      && ItemLegal(Scalar, Some(2), items, 2);
    assert ItemBlocked(Scalar, Some(2), items, 2);
    LegalAccepted(Scalar, Some(2), items, false, post);
  }
}
