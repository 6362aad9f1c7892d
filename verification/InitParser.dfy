/** The parser of constant array initializers: a cursor, and a vector that is filled or grows. */
module InitParser {
  import opened Common
  import opened ArrayInit

  predicate NeedsEqual(ts: seq<Token>, designated: bool) { designated && !Peek(ts).Period? && !Peek(ts).LSquare? }

  lemma InitIs(ts: seq<Token>, t: Type, designated: bool)
    ensures NeedsEqual(ts, designated) && !Peek(ts).Equal? ==> ParseInit(ts, t, designated).None?
    ensures !(NeedsEqual(ts, designated) && !Peek(ts).Equal?) ==>
      var ts1 := if NeedsEqual(ts, designated) then Rest(ts) else ts;
      ParseInit(ts, t, designated) == match t
        case Scalar => ParseScalar(ts1)
        case Array(e, n) => var r := ParseArray(ts1, e, Some(n), designated);
          if r.None? then None else Some(R(Vec(r.value.vs), r.value.rest))
  {
    hide ParseScalar, ParseArray;
  }

  lemma ElemsIs(prev: seq<Token>, ts: seq<Token>, elem: Type, bound: Option<nat>, brace: bool, designated: bool,
    index: nat, vals: seq<Val>)
    requires |ts| <= |prev|
    ensures Peek(ts).RBrace? ==>
      ParseElems(prev, ts, elem, bound, brace, designated, index, vals) ==
        Some(RVec(vals, if brace then Rest(ts) else ts))
    ensures !Peek(ts).RBrace? && !designated && !brace && (Peek(ts).Period? || Peek(ts).LSquare?) ==>
      ParseElems(prev, ts, elem, bound, brace, designated, index, vals) == Some(RVec(vals, prev))
    ensures !Peek(ts).RBrace? && !(!designated && !brace && (Peek(ts).Period? || Peek(ts).LSquare?)) ==>
      var d := if Peek(ts).LSquare? then ParseDesignator(ts, bound) else Some((index, ts));
      if d.None? then ParseElems(prev, ts, elem, bound, brace, designated, index, vals).None? else
      var x := ParseInit(d.value.1, elem, Peek(ts).LSquare?);
      if x.None? then ParseElems(prev, ts, elem, bound, brace, designated, index, vals).None? else
      ParseElems(prev, ts, elem, bound, brace, designated, index, vals) ==
      NextElem(ts, x.value, elem, bound, brace, d.value.0 + 1, Put(elem, vals, d.value.0, x.value.v))
  {
    hide ParseInit, NextElem, Put, ParseDesignator;
  }

  lemma NextElemIs(ts: seq<Token>, x: R, elem: Type, bound: Option<nat>, brace: bool, index: nat, vals: seq<Val>)
    requires |x.rest| <= |ts|
    ensures var ts1 := x.rest;
      NextElem(ts, x, elem, bound, brace, index, vals) ==
      if bound.Some? && index >= bound.value then
        (if !brace then Some(RVec(vals, ts1)) else
         var ts2 := if Peek(ts1).Comma? then Rest(ts1) else ts1;
         if Peek(ts2).RBrace? then Some(RVec(vals, Rest(ts2))) else None)
      else if Peek(ts1).Comma? then ParseElems(ts1, Rest(ts1), elem, bound, brace, false, index, vals)
      else if !brace then Some(RVec(vals, ts1))
      else if Peek(ts1).RBrace? then Some(RVec(vals, Rest(ts1)))
      else None
  {
    hide ParseElems;
  }

  lemma ArrayIs(ts: seq<Token>, elem: Type, bound: Option<nat>, designated: bool)
    ensures var brace := Peek(ts).LBrace?;
      ParseArray(ts, elem, bound, designated) ==
      ParseElems(ts, if brace then Rest(ts) else ts, elem, bound, brace, designated, 0, if bound.Some? then
        Zeros(elem, bound.value) else [])
  {
    hide ParseElems, Zeros;
  }

  /** Methods return false where the source reports an error. */
  class InitParser {
    const tokens: seq<Token>
    var index: nat

    constructor (tokens: seq<Token>)
      ensures this.tokens == tokens && index == 0
    {
      this.tokens := tokens;
      index := 0;
    }

    predicate Valid()
      reads this
    {
      index <= |tokens|
    }

    /** The tokens that are left. */
    function Here(): seq<Token>
      reads this
      requires Valid()
    {
      tokens[index..]
    }

    method Try(t: Token) returns (found: bool)
      requires Valid() && t != Eof
      modifies this`index
      ensures Valid() && found == (Peek(old(Here())) == t) && index == if found then old(index) + 1 else old(index)
      ensures Here() == if found then Rest(old(Here())) else old(Here())
    {
      found := index < |tokens| && tokens[index] == t;
      if found { index := index + 1; }
    }

    method ScalarInit() returns (ok: bool, v: Val)
      requires Valid()
      modifies this`index
      ensures Valid() && old(index) <= index
      ensures ParseScalar(old(Here())) == if ok then Some(R(v, Here())) else None
    {
      v := Num(0);
      var brace := Try(LBrace);
      if !(index < |tokens| && tokens[index].Const?) { return false, v; }
      v := Num(tokens[index].v);
      ghost var ts := Here();
      index := index + 1;
      assert Here() == ts[1..];
      ok := true;
      if brace {
        var _ := Try(Comma);
        ok := Try(RBrace);
      }
    }

    method Init(t: Type, designated: bool) returns (ok: bool, v: Val)
      requires Valid()
      modifies this`index
      ensures Valid() && old(index) <= index
      ensures ParseInit(old(Here()), t, designated) == if ok then Some(R(v, Here())) else None
      decreases |tokens| - index, t, 1
    {
      hide ParseInit, ParseArray, ParseScalar;
      v := Num(0);
      InitIs(Here(), t, designated);
      var next := if index < |tokens| then tokens[index] else Eof;
      if designated && !next.Period? && !next.LSquare? {
        ok := Try(Equal);
        if !ok { return; }
      }
      match t
      case Scalar => ok, v := ScalarInit();
      case Array(e, n) =>
        var vs;
        ok, vs := ArrayInit(e, Some(n), designated);
        v := Vec(vs);
    }

    /** The index in brackets, inside of the array. */
    method Designator(bound: Option<nat>) returns (ok: bool, i: nat)
      requires Valid()
      modifies this`index
      ensures Valid() && old(index) <= index
      ensures ParseDesignator(old(Here()), bound) == if ok then Some((i, Here())) else None
    {
      ok, i := false, 0;
      if index + 2 < |tokens| && tokens[index].LSquare? && tokens[index + 1].Const? && tokens[index + 1].v >= 0
        && tokens[index + 2].RSquare? {
        i := tokens[index + 1].v;
        if bound.Some? && i >= bound.value { return; }
        ghost var ts := Here();
        index := index + 3;
        assert Here() == ts[3..];
        ok := true;
      }
    }

    /** An element, at the index before it or at the next one. */
    method Element(elem: Type, bound: Option<nat>, next: nat) returns (ok: bool, i: nat, v: Val)
      requires Valid()
      modifies this`index
      ensures Valid() && old(index) <= index
      ensures var ts := old(Here());
        var d := if Peek(ts).LSquare? then ParseDesignator(ts, bound) else Some((next, ts));
        if ok then d.Some? && i == d.value.0 && ParseInit(d.value.1, elem, Peek(ts).LSquare?) == Some(R(v, Here()))
        else d.None? || ParseInit(d.value.1, elem, Peek(ts).LSquare?).None?
      decreases |tokens| - index, elem, 2
    {
      hide ParseInit, ParseDesignator;
      i, v := next, Num(0);
      var d := index < |tokens| && tokens[index].LSquare?;
      if d {
        ok, i := Designator(bound);
        if !ok { return; }
      }
      ok, v := Init(elem, d);
    }

    /** The end of a list whose array is full. */
    method CloseFull(brace: bool) returns (ok: bool)
      requires Valid()
      modifies this`index
      ensures Valid() && old(index) <= index && (!brace ==> ok && index == old(index))
      ensures brace ==>
        var ts := if Peek(old(Here())).Comma? then Rest(old(Here())) else old(Here());
        ok == Peek(ts).RBrace? && (ok ==> Here() == Rest(ts))
    {
      ok := true;
      if brace {
        var _ := Try(Comma);
        ok := Try(RBrace);
      }
    }

    /** One element of the list, and what comes after it: `more` after a comma. */
    method Step(elem: Type, bound: Option<nat>, brace: bool, d: bool, i: nat, vals: seq<Val>, ghost prev: seq<Token>)
      returns (ok: bool, more: bool, i1: nat, vals1: seq<Val>)
      requires Valid() && |Here()| <= |prev| && !Peek(Here()).RBrace?
        && !(!d && !brace && (Peek(Here()).Period? || Peek(Here()).LSquare?))
      modifies this`index
      ensures Valid() && old(index) <= index && (ok && more ==> old(index) < index)
      ensures ParseElems(prev, old(Here()), elem, bound, brace, d, i, vals) ==
        if !ok then None else if more then ParseElems(tokens[index - 1..], Here(), elem, bound, brace, false, i1,
          vals1) else Some(RVec(vals1, Here()))
      decreases |tokens| - index, elem, 3
    {
      hide ParseElems, NextElem, ParseInit, ParseDesignator, Put;
      ghost var ts := Here();
      ElemsIs(prev, ts, elem, bound, brace, d, i, vals);
      var v;
      more, vals1 := false, vals;
      ok, i1, v := Element(elem, bound, i);
      if !ok { return; }
      vals1 := Put(elem, vals, i1, v);
      i1 := i1 + 1;
      NextElemIs(ts, R(v, Here()), elem, bound, brace, i1, vals1);
      if bound.Some? && i1 >= bound.value {
        ok := CloseFull(brace);
        return;
      }
      more := Try(Comma);
      if !more && brace { ok := Try(RBrace); }
    }

    /** ParseConstantArrayInitializer. */
    method ArrayInit(elem: Type, bound: Option<nat>, designated: bool) returns (ok: bool, vals: seq<Val>)
      requires Valid()
      modifies this`index
      ensures Valid() && old(index) <= index
      ensures ParseArray(old(Here()), elem, bound, designated) == if ok then Some(RVec(vals, Here())) else None
      decreases |tokens| - index, elem, 4
    {
      hide ParseElems, Zeros, ParseArray;
      ghost var start := Here();
      ArrayIs(start, elem, bound, designated);
      var brace := Try(LBrace);
      vals := if bound.Some? then Zeros(elem, bound.value) else [];
      var i: nat, d, comma := 0, designated, false;
      ghost var prev := start;
      ok := true;
      while true
        invariant Valid() && old(index) <= index && |Here()| <= |prev| && ok
        invariant ParseArray(start, elem, bound, designated) == ParseElems(prev, Here(), elem, bound, brace, d, i, vals)
        invariant if comma then index > old(index) && prev == tokens[index - 1..] else prev == start && (!brace ==>
            Here() == start)
        decreases |tokens| - index
      {
        ghost var ts := Here();
        var next := if index < |tokens| then tokens[index] else Eof;
        if next.RBrace? {
          ElemsIs(prev, ts, elem, bound, brace, d, i, vals);
          if brace { index := index + 1; assert Here() == Rest(ts); }
          return;
        }
        if !d && !brace && (next.Period? || next.LSquare?) {
          ElemsIs(prev, ts, elem, bound, brace, d, i, vals);
          // Before the first element there is no comma to put back; the source steps back all the
          // same, and reports an error at the token it then finds.
          if comma { index := index - 1; }
          return;
        }
        ok, comma, i, vals := Step(elem, bound, brace, d, i, vals, prev);
        if !ok || !comma { return; }
        d := false;
        prev := tokens[index - 1..];
      }
    }
  }
}
