/** Initializer lists as trees: designators, and braces anywhere. The parser on tokens consumes them as
    the functions here do. */
module InitTrees {
  import opened Common
  import opened ArrayInit
  import opened InitMeaning
  import opened InitLists

  /** A comma may stand behind the last item of a list. */
  datatype Init = Value(v: int) | List(items: seq<Item>, comma: bool)

  /** An initializer, and the indices in front of it. */
  datatype Item = Item(path: seq<nat>, init: Init)

  /* Tokens. */

  function PathToks(path: seq<nat>): seq<Token> {
    if path == [] then [] else [LSquare, Const(path[0]), RSquare] + PathToks(path[1..])
  }
  function InitToks(i: Init): seq<Token>
    decreases i
  {
    match i
    case Value(v) => [Const(v)]
    case List(items, comma) => [LBrace] + ItemsToks(items) + Closing(comma && items != [])
  }
  function Closing(comma: bool): seq<Token> { if comma then [Comma, RBrace] else [RBrace] }
  function Head(it: Item): seq<Token> { if it.path == [] then [] else PathToks(it.path) + [Equal] }
  function ItemToks(it: Item): seq<Token>
    decreases it
  {
    Head(it) + InitToks(it.init)
  }
  function ItemsToks(items: seq<Item>): seq<Token>
    decreases items
  {
    if items == [] then [] else if |items| == 1 then ItemToks(items[0])
      else ItemToks(items[0]) + [Comma] + ItemsToks(items[1..])
  }

  /** What follows when the items before the `k`-th have been read. */
  function Tail(items: seq<Item>, k: nat, post: seq<Token>): seq<Token>
    requires k <= |items|
  {
    if k == |items| then post else [Comma] + (ItemsToks(items[k..]) + post)
  }

  /** The tokens from the initializer of the `k`-th item. */
  function Body(items: seq<Item>, k: nat, post: seq<Token>): seq<Token>
    requires k < |items|
  {
    InitToks(items[k].init) + Tail(items, k + 1, post)
  }

  /* How the parser consumes the items. The result of each is a value and the number of the next item. */

  predicate Plain(items: seq<Item>, k: nat) { k < |items| && items[k].path == [] }

  /** An object without designator: a list in braces, a value, or, if it is an array, as many items as it
      has room for. */
  function TakeInit(t: Type, items: seq<Item>, k: nat): (r: Option<(Val, nat)>)
    requires k < |items|
    ensures r.Some? ==> k < r.value.1 <= |items|
    decreases items, |items| - k, t, 1
  {
    match items[k].init
    case List(l, _) => var x := TakeList(t, l); if x.None? then None else Some((x.value, k + 1))
    case Value(v) =>
      match t
      case Scalar => Some((Num(v), k + 1))
      case Array(e, n) =>
        var r := TakeElems(e, n, 0, Zeros(e, n), items, k);
        if r.None? then None else Some((Vec(r.value.0), r.value.1))
  }

  /** The elements of an array without braces, from the `i`-th on. */
  function TakeElems(e: Type, n: nat, i: nat, vals: seq<Val>, items: seq<Item>, k: nat): (r: Option<(seq<Val>, nat)>)
    requires k < |items|
    ensures r.Some? ==> k < r.value.1 <= |items|
    decreases items, |items| - k, e, 2
  {
    var x := TakeInit(e, items, k);
    if x.None? then None else TakeMore(e, n, i + 1, Put(e, vals, i, x.value.0), items, x.value.1)
  }
  function TakeMore(e: Type, n: nat, i: nat, vals: seq<Val>, items: seq<Item>, k: nat): (r: Option<(seq<Val>, nat)>)
    requires k <= |items|
    ensures r.Some? ==> k <= r.value.1 <= |items|
    decreases items, |items| - k, e, 3
  {
    if i < n && Plain(items, k) then TakeElems(e, n, i, vals, items, k) else Some((vals, k))
  }

  /** An object that is entered through the rest of a path. An array starts from zeros. */
  function TakePath(t: Type, path: seq<nat>, items: seq<Item>, k: nat): (r: Option<(Val, nat)>)
    requires k < |items|
    ensures r.Some? ==> k < r.value.1 <= |items|
    decreases items, |items| - k, t, 3
  {
    if path == [] then TakeInit(t, items, k) else
    match t
    case Scalar => None
    case Array(e, n) =>
      if path[0] >= n then None else
      var x := TakePath(e, path[1..], items, k);
      if x.None? then None else
      var r := TakeMore(e, n, path[0] + 1, Put(e, Zeros(e, n), path[0], x.value.0), items, x.value.1);
      if r.None? then None else Some((Vec(r.value.0), r.value.1))
  }

  predicate Within(bound: Option<nat>, i: nat) { bound.Some? ==> i < bound.value }

  /** The elements of an array in braces, when the next one by itself is the `i`-th. */
  function TakeItems(e: Type, bound: Option<nat>, i: nat, vals: seq<Val>, items: seq<Item>, k: nat): Option<seq<Val>>
    requires k < |items|
    decreases items, |items| - k, e, 4
  {
    var path := items[k].path;
    var j := if path == [] then i else path[0];
    if !Within(bound, j) then None else
    var x := if path == [] then TakeInit(e, items, k) else TakePath(e, path[1..], items, k);
    if x.None? then None else
    var vals1 := Put(e, vals, j, x.value.0);
    if x.value.1 == |items| then Some(vals1)
    else if Within(bound, j + 1) then TakeItems(e, bound, j + 1, vals1, items, x.value.1)
    else None
  }

  /** What the parser takes for the `k`-th item, whose element is the `i`-th when it has no path. */
  function TakeItem(e: Type, items: seq<Item>, k: nat): (r: Option<(Val, nat)>)
    requires k < |items|
    ensures r.Some? ==> k < r.value.1 <= |items|
  {
    if items[k].path == [] then TakeInit(e, items, k) else TakePath(e, items[k].path[1..], items, k)
  }
  function ElemOf(items: seq<Item>, k: nat, i: nat): nat
    requires k < |items|
  {
    if items[k].path == [] then i else items[k].path[0]
  }

  lemma AllIs(e: Type, bound: Option<nat>, i: nat, vals: seq<Val>, items: seq<Item>, k: nat)
    requires k < |items|
    ensures var j, x := ElemOf(items, k, i), TakeItem(e, items, k);
      TakeItems(e, bound, i, vals, items, k) ==
        if !Within(bound, j) || x.None? then None
        else if x.value.1 == |items| then Some(Put(e, vals, j, x.value.0))
        else if Within(bound, j + 1) then TakeItems(e, bound, j + 1, Put(e, vals, j, x.value.0), items, x.value.1)
        else None
  {
    hide TakeInit, TakePath, Put;
  }

  function Start(e: Type, bound: Option<nat>): seq<Val> { if bound.Some? then Zeros(e, bound.value) else [] }

  function TakeVec(e: Type, bound: Option<nat>, items: seq<Item>): Option<seq<Val>>
    decreases items, |items| + 1, e, 4
  {
    if items == [] then Some(Start(e, bound)) else TakeItems(e, bound, 0, Start(e, bound), items, 0)
  }

  /** A list in braces. A scalar takes one value. */
  function TakeList(t: Type, items: seq<Item>): Option<Val>
    decreases items, |items| + 1, t, 5
  {
    match t
    case Scalar => if |items| == 1 && items[0].path == [] && items[0].init.Value? then
      Some(Num(items[0].init.v)) else None
    case Array(e, n) => var r := TakeVec(e, Some(n), items); if r.None? then None else Some(Vec(r.value))
  }
}
