/** One item of an initializer list at a time: each has a place, found from the place of the one before it,
    and sets the object there. */
module InitCursor {
  import opened Common
  import opened ArrayInit
  import opened InitMeaning
  import opened InitLists
  import opened InitTrees

  /** A path may end at an array. */
  predicate PathIn(t: Type, path: seq<nat>) {
    path == [] || (t.Array? && path[0] < t.n && PathIn(t.elem, path[1..]))
  }
  function SubType(t: Type, path: seq<nat>): Type {
    if path == [] || t.Scalar? then t else SubType(t.elem, path[1..])
  }
  /** The path to the first scalar. */
  function Down(t: Type): seq<nat> { match t case Scalar => [] case Array(e, _) => [0] + Down(e) }

  /** A value goes to the first scalar of the object at a path, a list to the object itself. */
  function Full(t: Type, path: seq<nat>, init: Init): seq<nat> {
    if init.Value? then path + Down(SubType(t, path)) else path
  }

  /** The object behind the one at a path, in the innermost array that has room for one more. */
  function Next(t: Type, path: seq<nat>): (r: Option<seq<nat>>)
    ensures r.Some? ==> r.value != []
  {
    if path == [] || t.Scalar? then None else
    var inner := Next(t.elem, path[1..]);
    if inner.Some? then Some([path[0]] + inner.value) else if path[0] + 1 < t.n then Some([path[0] + 1]) else None
  }

  function Set(v: Val, t: Type, path: seq<nat>, x: Val): Val {
    if path == [] then x else
    match t
    case Scalar => v
    case Array(e, _) => if v.Vec? && path[0] < |v.vs| then
      Vec(v.vs[path[0] := Set(v.vs[path[0]], e, path[1..], x)]) else v
  }

  function Content(t: Type, init: Init): Option<Val> {
    match init
    case Value(v) => Some(Num(v))
    case List(l, _) => TakeList(t, l)
  }

  /* Inside of an object. */

  /** The items from the `k`-th on set objects in `v`, the first one at `path`. */
  function FoldFrom(t: Type, v: Val, path: seq<nat>, items: seq<Item>, k: nat): (r: Option<(Val, nat)>)
    requires k < |items|
    ensures r.Some? ==> k < r.value.1 <= |items|
    decreases |items| - k, 0
  {
    var x := Content(SubType(t, path), items[k].init);
    if x.None? then None else
    var full := Full(t, path, items[k].init);
    FoldOn(t, Set(v, t, full, x.value), Next(t, full), items, k + 1)
  }
  function FoldOn(t: Type, v: Val, next: Option<seq<nat>>, items: seq<Item>, k: nat): (r: Option<(Val, nat)>)
    requires k <= |items|
    ensures r.Some? ==> k <= r.value.1 <= |items|
    decreases |items| - k, 1
  {
    if next.None? || !Plain(items, k) then Some((v, k)) else FoldFrom(t, v, next.value, items, k)
  }

  lemma FoldIs(t: Type, v: Val, path: seq<nat>, items: seq<Item>, k: nat)
    requires k < |items|
    ensures var x, full := Content(SubType(t, path), items[k].init), Full(t, path, items[k].init);
      FoldFrom(t, v, path, items, k) == if x.None? then None
        else FoldOn(t, Set(v, t, full, x.value), Next(t, full), items, k + 1)
  {
  }

  lemma {:induction false} SubTypeIn(e: Type, n: nat, i: nat, path: seq<nat>, init: Init)
    ensures SubType(Array(e, n), [i] + path) == SubType(e, path)
      && Full(Array(e, n), [i] + path, init) == [i] + Full(e, path, init)
  {
    hide Down;
    assert ([i] + path)[1..] == path;
    var down := Down(SubType(e, path));
    assert ([i] + path) + down == [i] + (path + down);
  }

  lemma SetIn(vals: seq<Val>, e: Type, n: nat, i: nat, path: seq<nat>, x: Val)
    requires i < |vals|
    ensures Set(Vec(vals), Array(e, n), [i] + path, x) == Vec(vals[i := Set(vals[i], e, path, x)])
  {
    assert ([i] + path)[1..] == path;
  }

  lemma NextIn(e: Type, n: nat, i: nat, path: seq<nat>)
    ensures Next(Array(e, n), [i] + path) == var inner := Next(e, path);
      if inner.Some? then Some([i] + inner.value) else After(n, i)
  {
    assert ([i] + path)[1..] == path;
  }

  function After(n: nat, i: nat): Option<seq<nat>> { if i + 1 < n then Some([i + 1]) else None }

  /** What happens inside of an element, and then behind it. */
  lemma {:induction false} FoldLift(e: Type, n: nat, vals: seq<Val>, i: nat, path: seq<nat>, items: seq<Item>, k: nat)
    requires k < |items| && i < |vals|
    ensures FoldFrom(Array(e, n), Vec(vals), [i] + path, items, k) ==
      var r := FoldFrom(e, vals[i], path, items, k);
      if r.None? then None else FoldOn(Array(e, n), Vec(vals[i := r.value.0]), After(n, i), items, r.value.1)
    decreases |items| - k
  {
    hide Set, Next, SubType, Full, Content;
    var init := items[k].init;
    SubTypeIn(e, n, i, path, init);
    var x, full := Content(SubType(e, path), init), Full(e, path, init);
    if x.Some? {
      SetIn(vals, e, n, i, full, x.value);
      NextIn(e, n, i, full);
      var vals1, inner := vals[i := Set(vals[i], e, full, x.value)], Next(e, full);
      if inner.Some? && Plain(items, k + 1) {
        FoldLift(e, n, vals1, i, inner.value, items, k + 1);
        var r := FoldFrom(e, vals1[i], inner.value, items, k + 1);
        if r.Some? { assert vals1[i := r.value.0] == vals[i := r.value.0]; }
      }
    }
  }

  predicate ZerosFrom(e: Type, vals: seq<Val>, i: nat) { forall j :: i <= j < |vals| ==> vals[j] == Zero(e) }

  lemma {:induction false} ZerosAre(e: Type, n: nat)
    ensures ZerosFrom(e, Zeros(e, n), 0)
    decreases n
  {
    if n > 0 {
      ZerosAre(e, n - 1);
      assert Zeros(e, n)[1..] == Zeros(e, n - 1);
      forall j | 0 <= j < n ensures Zeros(e, n)[j] == Zero(e) {
        if j > 0 { assert Zeros(e, n)[j] == Zeros(e, n - 1)[j - 1]; } }
    }
  }

  function AsVec(r: Option<(seq<Val>, nat)>): Option<(Val, nat)> {
    if r.None? then None else Some((Vec(r.value.0), r.value.1)) }

  /** An object without designator starts from zeros. */
  lemma {:induction false} InitFolds(t: Type, items: seq<Item>, k: nat)
    requires Proper(t) && k < |items|
    ensures TakeInit(t, items, k) == FoldFrom(t, Zero(t), [], items, k)
    decreases |items| - k, t, 1
  {
    hide TakeElems, TakeList, Zeros;
    match items[k].init
    case List(l, _) =>
    case Value(v) =>
      match t
      case Scalar =>
      case Array(e, n) =>
        ZerosAre(e, n);
        ElemsFold(e, n, 0, Zeros(e, n), items, k);
        FirstElem(e, n, v);
  }

  lemma FirstElem(e: Type, n: nat, v: int)
    ensures Full(Array(e, n), [], Value(v)) == Full(Array(e, n), [0], Value(v))
  {
    assert [0][1..] == [];
    assert SubType(Array(e, n), [0]) == SubType(e, []) == e;
    assert [] + Down(Array(e, n)) == [0] + Down(e);
  }

  lemma {:induction false} ElemsFold(e: Type, n: nat, i: nat, vals: seq<Val>, items: seq<Item>, k: nat)
    requires Proper(e) && k < |items| && i < n == |vals| && ZerosFrom(e, vals, i)
    ensures AsVec(TakeElems(e, n, i, vals, items, k)) == FoldFrom(Array(e, n), Vec(vals), [i], items, k)
    decreases |items| - k, e, 2
  {
    hide TakeInit, TakeMore, FoldFrom, FoldOn;
    InitFolds(e, items, k);
    assert [i] + [] == [i];
    FoldLift(e, n, vals, i, [], items, k);
    var x := TakeInit(e, items, k);
    if x.Some? { MoreFolds(e, n, i + 1, vals[i := x.value.0], items, x.value.1); }
  }

  lemma {:induction false} MoreFolds(e: Type, n: nat, i: nat, vals: seq<Val>, items: seq<Item>, k: nat)
    requires Proper(e) && k <= |items| && 0 < i && |vals| == n && ZerosFrom(e, vals, i)
    ensures AsVec(TakeMore(e, n, i, vals, items, k)) == FoldOn(Array(e, n), Vec(vals), After(n, i - 1), items, k)
    decreases |items| - k, e, 3
  {
    hide TakeElems, FoldFrom;
    if i < n && Plain(items, k) { ElemsFold(e, n, i, vals, items, k); }
  }

  /** An object that is entered through a path starts from zeros. */
  lemma {:induction false} PathFolds(t: Type, path: seq<nat>, items: seq<Item>, k: nat)
    requires Proper(t) && k < |items|
    ensures TakePath(t, path, items, k) == if PathIn(t, path) then FoldFrom(t, Zero(t), path, items, k) else None
    decreases path
  {
    hide TakeInit, TakeMore, FoldFrom, FoldOn, Zeros;
    if path == [] { InitFolds(t, items, k); }
    else if t.Array? && path[0] < t.n {
      var e, n := t.elem, t.n;
      PathFolds(e, path[1..], items, k);
      ZerosAre(e, n);
      assert [path[0]] + path[1..] == path;
      FoldLift(e, n, Zeros(e, n), path[0], path[1..], items, k);
      var x := TakePath(e, path[1..], items, k);
      if x.Some? { MoreFolds(e, n, path[0] + 1, Zeros(e, n)[path[0] := x.value.0], items, x.value.1); }
    }
  }

  /* In a list. */

  /** Inside of the element, or to the one behind it. */
  function Onward(i: nat, inner: Option<seq<nat>>): (r: seq<nat>)
    ensures r != []
  {
    if inner.Some? then [i] + inner.value else [i + 1]
  }

  /** Where the item would go without a path. A path has at least the index of the element. */
  function CursorAt(e: Type, items: seq<Item>, k: nat): (r: seq<nat>)
    requires k <= |items|
    ensures r != []
    decreases k, 0
  {
    if k == 0 then [0] else
    var path := PathAt(e, items, k - 1);
    Onward(path[0], Next(e, path[1..]))
  }
  function TargetAt(e: Type, items: seq<Item>, k: nat): (r: seq<nat>)
    requires k < |items|
    ensures r != []
    decreases k, 1
  {
    if items[k].path == [] then CursorAt(e, items, k) else items[k].path
  }
  /** The place that the item sets. */
  function PathAt(e: Type, items: seq<Item>, k: nat): (r: seq<nat>)
    requires k < |items|
    ensures r != [] && r[0] == TargetAt(e, items, k)[0]
    decreases k, 2
  {
    var path := TargetAt(e, items, k);
    [path[0]] + Full(e, path[1..], items[k].init)
  }
  /** The item starts its element again, from zeros. */
  predicate EntersAt(e: Type, items: seq<Item>, k: nat)
    requires k < |items|
  {
    items[k].path != [] || |CursorAt(e, items, k)| == 1
  }

  /** The element that comes after those that have been entered. */
  function Index(next: seq<nat>): nat
    requires next != []
  {
    if |next| == 1 then next[0] else next[0] + 1
  }

  /** The list from the `k`-th item on; `next` is the cursor. */
  function FoldItems(e: Type, bound: Option<nat>, vals: seq<Val>, next: seq<nat>, items: seq<Item>,
    k: nat): Option<seq<Val>>
    requires k <= |items| && next != []
    decreases |items| - k
  {
    if k == |items| then Some(vals) else
    var it := items[k];
    var path := if it.path == [] then next else it.path;
    var i := path[0];
    if !Within(bound, i) || (it.path != [] && !(PathIn(e, path[1..]) && Within(bound, Index(next)))) then None else
    var x := Content(SubType(e, path[1..]), it.init);
    if x.None? then None else
    var full := Full(e, path[1..], it.init);
    var from := if it.path != [] || |next| == 1 || i >= |vals| then Zero(e) else vals[i];
    FoldItems(e, bound, Put(e, vals, i, Set(from, e, full, x.value)), Onward(i, Next(e, full)), items, k + 1)
  }

  /** Behind the last item and in front of a designator the place in the element does not count. */
  lemma SameOuter(e: Type, bound: Option<nat>, vals: seq<Val>, next: seq<nat>, next1: seq<nat>,
    items: seq<Item>, k: nat)
    requires k <= |items| && next != [] && next1 != [] && !Plain(items, k) && Index(next) == Index(next1)
    ensures FoldItems(e, bound, vals, next, items, k) == FoldItems(e, bound, vals, next1, items, k)
  {
    hide Set, Next, SubType, Full, Content, Put, PathIn;
  }

  function AfterVisit(r: Option<(Val, nat)>, e: Type, bound: Option<nat>, vals: seq<Val>, i: nat,
    items: seq<Item>): Option<seq<Val>>
    requires i < |vals| && (r.Some? ==> r.value.1 <= |items|)
  {
    if r.None? then None else FoldItems(e, bound, vals[i := r.value.0], [i + 1], items, r.value.1)
  }

  /** The items up to the end of the element that is being filled. */
  lemma {:induction false} VisitGoes(e: Type, bound: Option<nat>, vals: seq<Val>, i: nat, next: Option<seq<nat>>,
    items: seq<Item>, k: nat)
    requires k <= |items| && i < |vals| && Within(bound, i) && (next.Some? ==> next.value != [])
    ensures FoldItems(e, bound, vals, Onward(i, next), items, k) ==
      AfterVisit(FoldOn(e, vals[i], next, items, k), e, bound, vals, i, items)
    decreases |items| - k
  {
    hide Set, Next, SubType, Full, Content, PathIn, FoldItems;
    assert vals[i := vals[i]] == vals;
    if next.Some? && Plain(items, k) {
      var path := Onward(i, next);
      assert path[1..] == next.value;
      StepIs(e, bound, vals, path, items, k);
      var x, full := Content(SubType(e, next.value), items[k].init), Full(e, next.value, items[k].init);
      if x.Some? {
        var v := Set(vals[i], e, full, x.value);
        VisitGoes(e, bound, vals[i := v], i, Next(e, full), items, k + 1);
        var r := FoldOn(e, v, Next(e, full), items, k + 1);
        if r.Some? { assert vals[i := v][i := r.value.0] == vals[i := r.value.0]; }
      }
    } else if next.Some? {
      SameOuter(e, bound, vals, Onward(i, next), [i + 1], items, k);
    }
  }

  lemma StepIs(e: Type, bound: Option<nat>, vals: seq<Val>, next: seq<nat>, items: seq<Item>, k: nat)
    requires k < |items| && next != []
    ensures var it := items[k];
      var path := if it.path == [] then next else it.path;
      var i, x, full := path[0], Content(SubType(e, path[1..]), it.init), Full(e, path[1..], it.init);
      FoldItems(e, bound, vals, next, items, k) ==
        if !Within(bound, i) || (it.path != [] && !(PathIn(e, path[1..]) && Within(bound, Index(next))))
          || x.None? then None else
        var from := if it.path != [] || |next| == 1 || i >= |vals| then Zero(e) else vals[i];
        FoldItems(e, bound, Put(e, vals, i, Set(from, e, full, x.value)), Onward(i, Next(e, full)), items, k + 1)
  {
    hide Set, Next, SubType, Full, Content, PathIn, Put;
  }

  lemma PutPut(e: Type, vals: seq<Val>, i: nat, x: Val, y: Val)
    ensures i < |Put(e, vals, i, x)| && Put(e, vals, i, x)[i] == x && Put(e, vals, i, x)[i := y] == Put(e, vals, i, y)
  {
    hide Zeros;
  }

  /** The list is read one item at a time. */
  lemma {:induction false} ItemsFold(e: Type, bound: Option<nat>, i: nat, vals: seq<Val>, items: seq<Item>, k: nat)
    requires Proper(e) && k < |items| && Within(bound, i)
    ensures TakeItems(e, bound, i, vals, items, k) == FoldItems(e, bound, vals, [i], items, k)
    decreases |items| - k
  {
    hide Set, Next, SubType, Full, Content, PathIn, FoldItems, Put, TakeInit, TakePath, FoldOn, TakeItems;
    var path, next := items[k].path, [i];
    var target := if path == [] then next else path;
    var j, p := target[0], target[1..];
    assert path == [] ==> p == [];
    FoldIs(e, Zero(e), p, items, k);
    AllIs(e, bound, i, vals, items, k);
    StepIs(e, bound, vals, next, items, k);
    if path == [] { InitFolds(e, items, k); } else { PathFolds(e, p, items, k); }
    var x, full := Content(SubType(e, p), items[k].init), Full(e, p, items[k].init);
    if Within(bound, j) && (path == [] || PathIn(e, p)) && x.Some? {
      var v, inner := Set(Zero(e), e, full, x.value), Next(e, full);
      var r := FoldOn(e, v, inner, items, k + 1);
      PutPut(e, vals, j, v, v);
      VisitGoes(e, bound, Put(e, vals, j, v), j, inner, items, k + 1);
      if r.Some? {
        var y, k1 := r.value.0, r.value.1;
        PutPut(e, vals, j, v, y);
        AfterIs(e, bound, Put(e, vals, j, y), j + 1, items, k1);
        if k1 < |items| && Within(bound, j + 1) { ItemsFold(e, bound, j + 1, Put(e, vals, j, y), items, k1); }
      }
    }
  }

  lemma AfterIs(e: Type, bound: Option<nat>, vals: seq<Val>, i: nat, items: seq<Item>, k: nat)
    requires k <= |items|
    ensures k == |items| ==> FoldItems(e, bound, vals, [i], items, k) == Some(vals)
    ensures k < |items| && !Within(bound, i) ==> FoldItems(e, bound, vals, [i], items, k).None?
  {
    hide Set, Next, SubType, Full, Content, PathIn, Put;
  }
}
