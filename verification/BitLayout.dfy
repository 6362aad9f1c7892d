/** Struct layout: members become elements of the LLVM struct type, and bit-fields are packed into
    units that become elements. */
module BitLayout {
  /** An element of the LLVM struct; `agg`: it is itself a struct. */
  datatype Elem = Elem(size: nat, align: nat, agg: bool)

  /** A member, and the element that holds it. A bit-field has a type of `bytes` bytes. */
  datatype Member =
    | Plain(index: nat, size: nat)
    | Bits(index: nat, begin: nat, width: nat, bytes: nat)

  /** One step of the path to a member: an element of a struct, or a reinterpreted union. */
  datatype Step = Step(isStruct: bool, elems: seq<Elem>, index: nat)

  /** What is recorded for a name: its byte offset, its element, and the path inside of the anonymous
      member that it comes from. */
  datatype Entry = Entry(name: string, at: int, index: nat, path: seq<Step>)

  function Max(x: nat, y: nat): nat { if x < y then y else x }

  function MakeAlign(offset: nat, align: nat): (r: nat)
    requires align > 0
    ensures offset <= r < offset + align
  {
    if offset % align == 0 then offset else offset + align - offset % align
  }

  lemma {:induction false} MultipleOf(k: nat, a: nat)
    requires a > 0
    ensures (k * a) % a == 0
    decreases k
  {
    if k > 0 {
      MultipleOf(k - 1, a);
      assert k * a == (k - 1) * a + a;
      SameRemainder((k - 1) * a, a);
    }
  }

  lemma SameRemainder(x: nat, a: nat)
    requires a > 0
    ensures (x + a) % a == x % a
  {
    var q, r := x / a, x % a;
    assert x + a == (q + 1) * a + r;
    QuotientIs(x + a, a, q + 1, r);
  }

  lemma QuotientIs(x: nat, a: nat, q: nat, r: nat)
    requires a > 0 && x == q * a + r && r < a
    ensures x / a == q && x % a == r
  {
    var q1, r1 := x / a, x % a;
    assert x == q1 * a + r1;
    SmallMultiple(a, q - q1, r1 - r);
  }

  lemma SmallMultiple(a: int, d: int, e: int)
    requires a > 0 && d * a == e && -a < e < a
    ensures d == 0
  {
    if d >= 1 { AtLeast(d, a); }
    if d <= -1 { AtLeast(-d, a); }
  }

  lemma AtLeast(k: int, a: int)
    requires k >= 1 && a > 0
    ensures k * a >= a
  {
  }

  /** The result is the least multiple of the alignment that is not below the offset. */
  lemma {:induction false} AlignedUp(offset: nat, align: nat)
    requires align > 0
    ensures MakeAlign(offset, align) % align == 0
    ensures forall m: nat :: m % align == 0 && m >= offset ==> m >= MakeAlign(offset, align)
  {
    var q, r, up := offset / align, offset % align, MakeAlign(offset, align);
    if r != 0 {
      assert up == (q + 1) * align;
      MultipleOf(q + 1, align);
    } else {
      assert up == q * align;
    }
    forall m: nat | m % align == 0 && m >= offset ensures m >= up {
      assert m == (m / align) * align;
      if m < up { SmallMultiple(align, up / align - m / align, up - m) by { assert up == (up / align) * align; } }
    }
  }

  /** The bytes that stand for `width` bits. The width is passed as an 8-bit signed integer. */
  function BitSpace(width: nat): (r: nat)
    ensures r >= 1 && (width <= 127 ==> width <= 8 * r < width + 8 || r == 1)
  {
    var w := if width % 256 >= 128 then width % 256 - 256 else width % 256;
    if w <= 8 then 1 else (w + 7) / 8
  }

  /* Natural layout, as LLVM computes it. */

  predicate Aligned(elems: seq<Elem>) { forall i :: 0 <= i < |elems| ==> elems[i].align > 0 }

  function Addr(elems: seq<Elem>, i: nat): nat
    requires i < |elems| && Aligned(elems)
  {
    if i == 0 then 0 else MakeAlign(Addr(elems, i - 1) + elems[i - 1].size, elems[i].align)
  }

  /** Where the last element ends. */
  function End(elems: seq<Elem>): nat
    requires Aligned(elems)
  {
    if elems == [] then 0 else Addr(elems, |elems| - 1) + elems[|elems| - 1].size
  }

  function MaxAlign(elems: seq<Elem>): nat {
    if elems == [] then 1 else Max(MaxAlign(elems[..|elems| - 1]), elems[|elems| - 1].align)
  }

  lemma {:induction false} AddrsGrow(elems: seq<Elem>, i: nat, j: nat)
    requires i < j < |elems| && Aligned(elems)
    ensures Addr(elems, i) + elems[i].size <= Addr(elems, j)
    decreases j
  {
    if i < j - 1 { AddrsGrow(elems, i, j - 1); }
  }

  /** Elements that are added later change no address. */
  lemma {:induction false} AddrKept(elems: seq<Elem>, more: seq<Elem>, i: nat)
    requires i < |elems| && Aligned(elems + more) && Aligned(elems)
    ensures Addr(elems + more, i) == Addr(elems, i)
    decreases i
  {
    hide MakeAlign;
    assert (elems + more)[i] == elems[i];
    if i > 0 { AddrKept(elems, more, i - 1); assert (elems + more)[i - 1] == elems[i - 1]; }
  }

  lemma AddrIs(elems: seq<Elem>, i: nat)
    requires i < |elems| && Aligned(elems)
    ensures Addr(elems, i) == if i == 0 then 0 else MakeAlign(Addr(elems, i - 1) + elems[i - 1].size, elems[i].align)
  {
  }

  /** A new element starts at the next aligned address. */
  lemma EndSnoc(elems: seq<Elem>, e: Elem)
    requires Aligned(elems) && e.align > 0
    ensures Aligned(elems + [e]) && Addr(elems + [e], |elems|) == MakeAlign(End(elems), e.align)
    ensures End(elems + [e]) == MakeAlign(End(elems), e.align) + e.size
  {
    hide MakeAlign, Addr, End;
    var es, n := elems + [e], |elems|;
    assert es[n] == e && Aligned(es);
    AddrIs(es, n);
    EndIs(elems);
    EndIs(es);
    if n > 0 {
      assert es[n - 1] == elems[n - 1];
      AddrKept(elems, [e], n - 1);
    } else {
      ZeroAligned(e.align);
    }
  }

  lemma EndIs(elems: seq<Elem>)
    requires Aligned(elems)
    ensures End(elems) == if elems == [] then 0 else Addr(elems, |elems| - 1) + elems[|elems| - 1].size
  {
  }

  lemma ZeroAligned(align: nat)
    requires align > 0
    ensures MakeAlign(0, align) == 0
  {
  }

  lemma MaxAlignSnoc(elems: seq<Elem>, e: Elem)
    ensures MaxAlign(elems + [e]) == Max(MaxAlign(elems), e.align)
  {
    assert (elems + [e])[..|elems|] == elems;
  }

  function StepAddr(s: Step): int
    requires s.isStruct ==> s.index < |s.elems| && Aligned(s.elems)
  {
    if s.isStruct then Addr(s.elems, s.index) else 0
  }

  predicate IsPath(path: seq<Step>) {
    forall i :: 0 <= i < |path| ==> path[i].isStruct ==> path[i].index < |path[i].elems| && Aligned(path[i].elems)
  }

  /** The byte address that the steps of a path lead to. */
  function PathAddr(path: seq<Step>): int
    requires IsPath(path)
  {
    if path == [] then 0 else StepAddr(path[0]) + PathAddr(path[1..])
  }

  /* Where members live. */

  predicate Housed(elems: seq<Elem>, pending: nat, m: Member) {
    match m
    case Plain(i, size) => i < |elems| && elems[i].size == size
    case Bits(i, begin, width, bytes) =>
      width > 0 && begin + width <= 32 && if i < |elems| then begin + width <= 8 * elems[i].size else i == |elems| && begin + width <= pending
  }

  /** Two members in the same element are bit-fields that share no bit. */
  predicate Separate(m: Member, m1: Member) {
    m.index == m1.index ==> m.Bits? && m1.Bits? && (m.begin + m.width <= m1.begin || m1.begin + m1.width <= m.begin)
  }

  /** Every member has bits of its own; `pending` bits are used in the unit that is still open. */
  predicate Laid(elems: seq<Elem>, pending: nat, members: seq<Member>) {
    && Aligned(elems)
    && (forall i :: 0 <= i < |members| ==> Housed(elems, pending, members[i]))
    && (forall i, j :: 0 <= i < j < |members| ==> Separate(members[i], members[j]))
  }

  lemma HousedPast(elems: seq<Elem>, pending: nat, m: Member)
    requires Housed(elems, pending, m)
    ensures m.index <= |elems| && (m.index == |elems| ==> m.Bits? && m.begin + m.width <= pending)
  {
  }

  /** The open unit becomes an element. */
  lemma CloseUnit(elems: seq<Elem>, pending: nat, members: seq<Member>, unit: Elem)
    requires Laid(elems, pending, members) && pending <= 8 * unit.size && unit.align > 0
    ensures Laid(elems + [unit], 0, members)
  {
    var elems1 := elems + [unit];
    forall i | 0 <= i < |members| ensures Housed(elems1, 0, members[i]) { HousedPast(elems, pending, members[i]); }
  }

  /** An element is added while no unit is open. */
  lemma AddElem(elems: seq<Elem>, members: seq<Member>, e: Elem)
    requires Laid(elems, 0, members) && e.align > 0
    ensures Laid(elems + [e], 0, members) && forall i :: 0 <= i < |members| ==> members[i].index < |elems|
  {
    forall i | 0 <= i < |members|
      ensures Housed(elems + [e], 0, members[i]) && members[i].index < |elems| { HousedPast(elems, 0, members[i]); }
  }

  lemma AddPlain(elems: seq<Elem>, members: seq<Member>, e: Elem)
    requires Laid(elems, 0, members) && e.align > 0
    ensures Laid(elems + [e], 0, members + [Plain(|elems|, e.size)])
  {
    AddElem(elems, members, e);
  }

  lemma AddBits(elems: seq<Elem>, pending: nat, members: seq<Member>, width: nat, bytes: nat)
    requires Laid(elems, pending, members) && width > 0 && pending + width <= 32
    ensures Laid(elems, pending + width, members + [Bits(|elems|, pending, width, bytes)])
  {
    forall i | 0 <= i < |members|
      ensures Housed(elems, pending + width, members[i]) && Separate(members[i], Bits(|elems|, pending, width, bytes)) {
      assert Housed(elems, pending, members[i]);
    }
  }
}
