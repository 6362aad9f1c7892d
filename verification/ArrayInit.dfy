/** Constant initializers of arrays, as the parser reads them. */
module ArrayInit {
  import opened Common

  datatype Type = Scalar | Array(elem: Type, n: nat)
  datatype Val = Num(v: int) | Vec(vs: seq<Val>)
  datatype Token = LBrace | RBrace | Comma | LSquare | RSquare | Equal | Period | Const(v: int) | Eof

  function Zero(t: Type): Val
    decreases t, 0
  {
    match t
    case Scalar => Num(0)
    case Array(e, n) => Vec(Zeros(e, n))
  }
  function Zeros(t: Type, n: nat): (r: seq<Val>)
    ensures |r| == n
    decreases t, n
  {
    if n == 0 then [] else [Zero(t)] + Zeros(t, n - 1)
  }

  function Peek(ts: seq<Token>): Token { if ts == [] then Eof else ts[0] }
  function Rest(ts: seq<Token>): seq<Token> { if ts == [] then [] else ts[1..] }

  datatype R = R(v: Val, rest: seq<Token>)
  datatype RVec = RVec(vs: seq<Val>, rest: seq<Token>)

  /** ParseConstantInitializer of an element. */
  function ParseInit(ts: seq<Token>, t: Type, designated: bool): (r: Option<R>)
    ensures r.Some? ==> |r.value.rest| <= |ts|
    decreases |ts|, t, 1
  {
    var needEqual := designated && !Peek(ts).Period? && !Peek(ts).LSquare?;
    if needEqual && !Peek(ts).Equal? then None else
    var ts1 := if needEqual then Rest(ts) else ts;
    match t
    case Scalar => ParseScalar(ts1)
    case Array(e, n) =>
      var r := ParseArray(ts1, e, Some(n), designated);
      if r.None? then None else Some(R(Vec(r.value.vs), r.value.rest))
  }

  function ParseScalar(ts: seq<Token>): (r: Option<R>)
    ensures r.Some? ==> |r.value.rest| < |ts|
  {
    var brace := Peek(ts).LBrace?;
    var ts1 := if brace then Rest(ts) else ts;
    if !Peek(ts1).Const? then None else
    var v, ts2 := Num(ts1[0].v), ts1[1..];
    if !brace then Some(R(v, ts2)) else
    var ts3 := if Peek(ts2).Comma? then Rest(ts2) else ts2;
    if Peek(ts3).RBrace? then Some(R(v, Rest(ts3))) else None
  }

  /** ParseConstantArrayInitializer; `bound` is None for an array of unknown size. */
  function ParseArray(ts: seq<Token>, elem: Type, bound: Option<nat>, designated: bool): (r: Option<RVec>)
    ensures r.Some? ==> |r.value.rest| <= |ts|
    decreases |ts|, elem, 3
  {
    var brace := Peek(ts).LBrace?;
    ParseElems(ts, if brace then Rest(ts) else ts, elem, bound, brace, designated, 0, if bound.Some? then
      Zeros(elem, bound.value) else [])
  }

  /** `vals` with `x` at `index`; a vector that is too short is filled up with zeros. */
  function Put(elem: Type, vals: seq<Val>, index: nat, x: Val): seq<Val> {
    if index < |vals| then vals[index := x] else vals + Zeros(elem, index - |vals|) + [x]
  }

  /** The designator at the front of the tokens, and what follows it. */
  function ParseDesignator(ts: seq<Token>, bound: Option<nat>): (r: Option<(nat, seq<Token>)>)
    ensures r.Some? ==> |r.value.1| < |ts|
  {
    if |ts| >= 3 && ts[0].LSquare? && ts[1].Const? && ts[1].v >= 0 && ts[2].RSquare?
      && (bound.Some? ==> ts[1].v < bound.value)
    then Some((ts[1].v, ts[3..])) else None
  }

  /** The loop over the elements. `prev`: the tokens before the comma that was read last. */
  function ParseElems(prev: seq<Token>, ts: seq<Token>, elem: Type, bound: Option<nat>, brace: bool, designated: bool,
    index: nat, vals: seq<Val>): (r: Option<RVec>)
    requires |ts| <= |prev|
    ensures r.Some? ==> |r.value.rest| <= |prev|
    decreases |ts|, elem, 2
  {
    if Peek(ts).RBrace? then Some(RVec(vals, if brace then Rest(ts) else ts))
    else if !designated && !brace && (Peek(ts).Period? || Peek(ts).LSquare?) then Some(RVec(vals, prev))
    else
      var d := if Peek(ts).LSquare? then ParseDesignator(ts, bound) else Some((index, ts));
      if d.None? then None else
      var x := ParseInit(d.value.1, elem, Peek(ts).LSquare?);
      if x.None? then None else
      NextElem(ts, x.value, elem, bound, brace, d.value.0 + 1, Put(elem, vals, d.value.0, x.value.v))
  }

  /** After an element: the array is full, or a comma follows, or the list ends. */
  function NextElem(ts: seq<Token>, x: R, elem: Type, bound: Option<nat>, brace: bool, index: nat,
    vals: seq<Val>): (r: Option<RVec>)
    requires |x.rest| <= |ts|
    ensures r.Some? ==> |r.value.rest| <= |x.rest|
    decreases |ts|, elem, 0
  {
    var ts1 := x.rest;
    if bound.Some? && index >= bound.value then
      if !brace then Some(RVec(vals, ts1)) else
      var ts2 := if Peek(ts1).Comma? then Rest(ts1) else ts1;
      if Peek(ts2).RBrace? then Some(RVec(vals, Rest(ts2))) else None
    else if Peek(ts1).Comma? then ParseElems(ts1, Rest(ts1), elem, bound, brace, false, index, vals)
    else if !brace then Some(RVec(vals, ts1))
    else if Peek(ts1).RBrace? then Some(RVec(vals, Rest(ts1)))
    else None
  }
}
