/** What a list of values means for an array: row-major order, and zeros behind the last value. */
module InitMeaning {
  import opened Common
  import opened ArrayInit

  /** Multiplication, unfolded along with the elements of an array. */
  function Mul(n: nat, s: nat): nat { if n == 0 then 0 else s + Mul(n - 1, s) }

  lemma {:induction false} MulIs(n: nat, s: nat)
    ensures Mul(n, s) == n * s
    decreases n
  {
    if n > 0 {
      MulIs(n - 1, s);
      assert n * s == (n - 1) * s + s;
    }
  }

  /** The number of scalars in an object. */
  function Size(t: Type): nat {
    match t
    case Scalar => 1
    case Array(e, n) => Mul(n, Size(e))
  }

  predicate Proper(t: Type) {
    match t
    case Scalar => true
    case Array(e, n) => n > 0 && Proper(e)
  }

  function Drop(vs: seq<int>, n: nat): seq<int> { if n <= |vs| then vs[n..] else [] }
  function Take(vs: seq<int>, n: nat): seq<int> { if n <= |vs| then vs[..n] else vs }

  /** An object filled with the values in order, and with zeros when they run out. */
  function Fill(t: Type, vs: seq<int>): Val
    decreases t, 0
  {
    match t
    case Scalar => Num(if vs == [] then 0 else vs[0])
    case Array(e, n) => Vec(FillFrom(e, n, vs))
  }
  function FillFrom(t: Type, n: nat, vs: seq<int>): (r: seq<Val>)
    ensures |r| == n
    decreases t, n
  {
    if n == 0 then [] else [Fill(t, Take(vs, Size(t)))] + FillFrom(t, n - 1, Drop(vs, Size(t)))
  }

  /** The scalar at a path of indices, and the position of that path in row-major order. */
  predicate IsPath(t: Type, path: seq<nat>) {
    match t
    case Scalar => path == []
    case Array(e, n) => path != [] && path[0] < n && IsPath(e, path[1..])
  }
  predicate Shaped(v: Val, t: Type)
    decreases t
  {
    match t
    case Scalar => v.Num?
    case Array(e, n) => v.Vec? && |v.vs| == n && forall i :: 0 <= i < n ==> Shaped(v.vs[i], e)
  }
  function At(v: Val, t: Type, path: seq<nat>): int
    requires Shaped(v, t) && IsPath(t, path)
    decreases t
  {
    match t
    case Scalar => v.v
    case Array(e, _) => At(v.vs[path[0]], e, path[1..])
  }
  function RowMajor(t: Type, path: seq<nat>): nat
    requires IsPath(t, path)
    decreases t
  {
    match t
    case Scalar => 0
    case Array(e, _) => Mul(path[0], Size(e)) + RowMajor(e, path[1..])
  }

  /** With multiplication: the position of a path in an array. */
  lemma RowMajorIs(t: Type, path: seq<nat>)
    requires t.Array? && IsPath(t, path)
    ensures Size(t) == t.n * Size(t.elem) && RowMajor(t, path) == path[0] * Size(t.elem) + RowMajor(t.elem, path[1..])
  {
    hide Mul;
    MulIs(t.n, Size(t.elem));
    MulIs(path[0], Size(t.elem));
  }

  lemma {:induction false} RowMajorBound(t: Type, path: seq<nat>)
    requires IsPath(t, path)
    ensures RowMajor(t, path) < Size(t)
    decreases t
  {
    if t.Array? {
      RowMajorBound(t.elem, path[1..]);
      TimesLess(path[0] + 1, t.n, Size(t.elem));
    }
  }

  lemma {:induction false} TimesLess(a: nat, b: nat, c: nat)
    requires a <= b
    ensures Mul(a, c) <= Mul(b, c)
    decreases b
  {
    if a < b { TimesLess(a, b - 1, c); }
  }

  lemma DropNone(vs: seq<int>)
    ensures Drop(vs, 0) == vs
  {
  }

  lemma DropDrop(vs: seq<int>, a: nat, b: nat)
    ensures Drop(Drop(vs, a), b) == Drop(vs, a + b)
  {
  }

  lemma {:induction false} FillFromAt(t: Type, n: nat, vs: seq<int>, i: nat)
    requires i < n
    ensures FillFrom(t, n, vs)[i] == Fill(t, Take(Drop(vs, Mul(i, Size(t))), Size(t)))
    decreases n
  {
    hide Fill, Size, Take, Drop;
    if i == 0 { DropNone(vs); }
    else {
      FillFromAt(t, n - 1, Drop(vs, Size(t)), i - 1);
      DropDrop(vs, Size(t), Mul(i - 1, Size(t)));
    }
  }

  /** The k-th value is at row-major position k, and zero everywhere else. */
  lemma {:induction false} FilledAt(t: Type, vs: seq<int>, path: seq<nat>)
    requires IsPath(t, path)
    ensures Shaped(Fill(t, vs), t)
    ensures At(Fill(t, vs), t, path) == var k := RowMajor(t, path); if k < |vs| then vs[k] else 0
    decreases t
  {
    FillShaped(t, vs);
    if t.Array? {
      var e, i := t.elem, path[0];
      var ws := Take(Drop(vs, Mul(i, Size(e))), Size(e));
      FillFromAt(e, t.n, vs, i);
      FilledAt(e, ws, path[1..]);
      RowMajorBound(e, path[1..]);
    }
  }

  lemma {:induction false} FillShaped(t: Type, vs: seq<int>)
    ensures Shaped(Fill(t, vs), t)
    decreases t
  {
    if t.Array? {
      forall i | 0 <= i < t.n ensures Shaped(FillFrom(t.elem, t.n, vs)[i], t.elem) {
        FillFromAt(t.elem, t.n, vs, i);
        FillShaped(t.elem, Take(Drop(vs, Mul(i, Size(t.elem))), Size(t.elem)));
      }
    }
  }

  lemma {:induction false} ZerosFill(t: Type, n: nat)
    ensures Zeros(t, n) == FillFrom(t, n, [])
    decreases t, n, 1
  {
    if n > 0 {
      ZeroFill(t);
      ZerosFill(t, n - 1);
      assert Take([], Size(t)) == [] && Drop([], Size(t)) == [];
    }
  }
  lemma {:induction false} ZeroFill(t: Type)
    ensures Zero(t) == Fill(t, [])
    decreases t, 0, 0
  {
    if t.Array? { ZerosFill(t.elem, t.n); }
  }

  lemma {:induction false} SizePositive(t: Type)
    requires Proper(t)
    ensures Size(t) >= 1
  {
    if t.Array? {
      SizePositive(t.elem);
      TimesLess(1, t.n, Size(t.elem));
      assert Mul(1, Size(t.elem)) == Size(t.elem) + Mul(0, Size(t.elem));
    }
  }

  lemma FillFromIs(e: Type, n: nat, vs: seq<int>)
    requires n > 0
    ensures FillFrom(e, n, vs) == [Fill(e, Take(vs, Size(e)))] + FillFrom(e, n - 1, Drop(vs, Size(e)))
  {
  }

  lemma TakeTake(vs: seq<int>, a: nat, b: nat)
    ensures Take(Take(vs, a + b), a) == Take(vs, a) && Drop(Take(vs, a + b), a) == Take(Drop(vs, a), b)
  {
  }

  /** Values beyond the end do not count. */
  lemma {:induction false} FillTake(t: Type, n: nat, vs: seq<int>)
    ensures FillFrom(t, n, Take(vs, Mul(n, Size(t)))) == FillFrom(t, n, vs)
    decreases n
  {
    hide Fill, Size, Take, Drop;
    if n > 0 {
      TakeTake(vs, Size(t), Mul(n - 1, Size(t)));
      FillTake(t, n - 1, Drop(vs, Size(t)));
    }
  }
}
