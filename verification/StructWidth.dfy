/** The width of a struct or union, and the size that its LLVM type has. */
module StructWidth {
  import opened BitLayout
  import opened StructLayout
  import opened StructOffsets
  import opened StructRuns

  predicate PowerOfTwo(n: nat) { n == 1 || (n > 1 && n % 2 == 0 && PowerOfTwo(n / 2)) }

  lemma {:induction false} Divides(a: nat, b: nat)
    requires PowerOfTwo(a) && PowerOfTwo(b) && a <= b
    ensures b % a == 0
    decreases a
  {
    if a > 1 {
      Divides(a / 2, b / 2);
      var k := (b / 2) / (a / 2);
      assert b / 2 == k * (a / 2);
      assert b == k * a by { assert b == 2 * (k * (a / 2)) && a == 2 * (a / 2); Twice(k, a / 2); }
      MultipleOf(k, a);
    }
  }

  lemma Twice(k: nat, h: nat)
    ensures 2 * (k * h) == k * (2 * h)
  {
  }

  /** A multiple of the larger is one of the smaller. */
  lemma MultipleToo(n: nat, a: nat, b: nat)
    requires PowerOfTwo(a) && PowerOfTwo(b) && a <= b && n % b == 0
    ensures n % a == 0
  {
    Divides(a, b);
    var p, q := Factor(n, b), Factor(b, a);
    assert p * b == (p * q) * a by { assert b == q * a; Grouped(p, q, a); }
    MultipleOf(p * q, a);
  }

  function Factor(n: nat, a: nat): (q: nat)
    requires a > 0 && n % a == 0
    ensures n == q * a
  {
    n / a
  }

  lemma Grouped(p: nat, q: nat, a: nat)
    ensures p * (q * a) == (p * q) * a
  {
  }

  /** Aligning for less first changes nothing. */
  lemma AlignTwice(n: nat, a: nat, b: nat)
    requires PowerOfTwo(a) && PowerOfTwo(b) && a <= b
    ensures MakeAlign(MakeAlign(n, a), b) == MakeAlign(n, b)
  {
    hide MakeAlign;
    AlignedUp(n, a);
    AlignedUp(n, b);
    AlignedUp(MakeAlign(n, a), b);
    MultipleToo(MakeAlign(n, b), a, b);
    assert MakeAlign(n, a) <= MakeAlign(n, b);
  }

  /** The larger of two aligned values is the larger one, aligned. */
  lemma AlignMax(n: nat, m: nat, a: nat, b: nat)
    requires PowerOfTwo(a) && PowerOfTwo(b) && a <= b
    ensures MakeAlign(Max(MakeAlign(n, a), m), b) == MakeAlign(Max(n, m), b)
  {
    hide MakeAlign;
    AlignTwice(n, a, b);
    AlignedUp(n, a);
    AlignedUp(n, b);
    AlignedUp(m, b);
    AlignedUp(Max(MakeAlign(n, a), m), b);
    MultipleToo(MakeAlign(m, b), a, b);
  }

  /** Two alignments of an offset agree exactly when the offset is aligned for the larger one, or is less
      than the smaller one away from it. */
  lemma AlignsAgree(n: nat, a: nat, b: nat)
    requires PowerOfTwo(a) && PowerOfTwo(b) && a <= b
    ensures MakeAlign(n, a) == MakeAlign(n, b) <==> n % b == 0 || n % b > b - a
  {
    hide MakeAlign;
    AlignedUp(n, a);
    AlignedUp(n, b);
    AlignedIs(n, b);
    var up := MakeAlign(n, b);
    MultipleToo(up, a, b);
    if n % b != 0 {
      LessMultiple(up, a);
      if n <= up - a { assert MakeAlign(n, a) <= up - a; }
      else { MultiplesApart(up, MakeAlign(n, a), a); }
    } else {
      assert MakeAlign(n, a) <= up;
    }
  }

  lemma AlignedIs(n: nat, a: nat)
    requires a > 0
    ensures MakeAlign(n, a) == if n % a == 0 then n else n + a - n % a
  {
  }

  lemma LessMultiple(n: nat, a: nat)
    requires a > 0 && n % a == 0
    ensures n >= a ==> (n - a) % a == 0
    ensures n > 0 ==> n >= a
  {
    var q := Factor(n, a);
    if q > 0 {
      assert n - a == (q - 1) * a;
      MultipleOf(q - 1, a);
    }
  }

  lemma MultiplesApart(n: nat, m: nat, a: nat)
    requires a > 0 && n % a == 0 && m % a == 0 && n - a < m <= n
    ensures m == n
  {
    var p, q := Factor(n, a), Factor(m, a);
    assert (p - q) * a == n - m;
    SmallMultiple(a, p - q, n - m);
  }

  /** Alignments are powers of two. */
  predicate Fits(l: Layout) {
    && PowerOfTwo(l.align)
    && (forall i :: 0 <= i < |l.elems| ==> PowerOfTwo(l.elems[i].align))
    && (forall i :: 0 <= i < |l.members| && l.members[i].Bits? ==> l.members[i].bytes in {1, 4})
  }

  lemma FitsBefore(l: Layout)
    requires l.align > 0 && Fits(l)
    ensures Fits(BeforeMember(l))
  {
    hide MakeAlign, BitSpace, PowerOfTwo;
    OneIsPower();
  }

  lemma OneIsPower()
    ensures PowerOfTwo(1) && PowerOfTwo(4)
  {
    assert PowerOfTwo(2);
  }

  lemma PowerMax(a: nat, b: nat)
    requires PowerOfTwo(a) && PowerOfTwo(b)
    ensures PowerOfTwo(Max(a, b))
  {
  }

  lemma FitsReady(l: Layout, align: nat)
    requires l.align > 0 && Fits(l) && PowerOfTwo(align)
    ensures Fits(Ready(l, align)) && Ready(l, align).align == Max(l.align, align)
  {
    hide BeforeMember;
    PowerMax(l.align, align);
    FitsBefore(l.(align := Max(l.align, align)));
  }

  lemma FitsPlain(l: Layout, start: nat, e: Elem)
    requires l.align > 0 && Fits(l) && PowerOfTwo(e.align)
    ensures Fits(WithPlain(l, start, e))
  {
    hide MakeAlign, PowerOfTwo;
  }

  lemma FitsPushed(l: Layout, bits: nat, bytes: nat)
    requires l.align > 0 && Fits(l)
    ensures Fits(Pushed(l, bits, bytes))
  {
    hide MakeAlign, BitSpace, PowerOfTwo;
    OneIsPower();
    AtLeastOne(l.align);
  }

  lemma FitsUnit(l: Layout, bytes: nat, bitWidth: nat)
    requires l.align > 0 && Fits(l) && (l.used > 0 ==> MakeAlign(l.used, 8) <= l.base)
    ensures (l.used == 0 ==> Fits(FirstUnit(l, bytes))) && Fits(UnitFor(l, bytes, bitWidth))
    ensures l.used > 0 ==> Fits(SpaceBetween(l))
    ensures UnitFor(l, bytes, bitWidth).align == l.align
  {
    hide Pushed, BitSpace, PowerOfTwo, MakeAlign;
    if l.used == 0 {
      var l1 := l.(width := MakeAlign(l.offset, l.align));
      var n := l1.width - l1.offset;
      FitsPushed(l1, n * 8, BitSpace(n * 8));
      PushedAlign(l1, n * 8, BitSpace(n * 8));
    } else {
      FitsSpaceBetween(l);
      FitsSpaceBetween(l.(base := Max(l.base, bytes * 8)));
    }
  }

  lemma PushedAlign(l: Layout, bits: nat, bytes: nat)
    requires l.align > 0
    ensures Pushed(l, bits, bytes).align == l.align
  {
  }

  lemma FitsSpaceBetween(l: Layout)
    requires l.align > 0 && Fits(l) && MakeAlign(l.used, 8) <= l.base
    ensures Fits(SpaceBetween(l)) && SpaceBetween(l).align == l.align
  {
    hide Pushed, BitSpace, PowerOfTwo, MakeAlign;
    var l1, rest := Pushed(l, l.used, MakeAlign(l.used, 8) / 8), l.base - MakeAlign(l.used, 8);
    FitsPushed(l, l.used, MakeAlign(l.used, 8) / 8);
    PushedAlign(l, l.used, MakeAlign(l.used, 8) / 8);
    FitsPushed(l1, rest, BitSpace(rest));
    PushedAlign(l1, rest, BitSpace(rest));
  }

  lemma FitsBits(l: Layout, name: string, bytes: nat, bitWidth: nat)
    requires l.align > 0 && Fits(l) && bytes in {1, 4} && (l.isStruct && l.used > 0 ==> MakeAlign(l.used, 8) <= l.base)
    ensures Fits(AddBitField(l, name, bytes, bitWidth))
  {
    hide MakeAlign, PowerOfTwo, AddStructBits, AddUnionBits;
    OneIsPower();
    PowerMax(bytes, l.align);
    var l1 := Raised(l, bytes, bitWidth);
    if l.isStruct { FitsStructBits(l1, name, bytes, bitWidth); } else { FitsUnionBits(l1, name, bytes, bitWidth); }
  }

  lemma FitsUnionBits(l: Layout, name: string, bytes: nat, bitWidth: nat)
    requires l.align > 0 && Fits(l) && bytes in {1, 4}
    ensures Fits(AddUnionBits(l, name, bytes, bitWidth))
  {
    hide MakeAlign, PowerOfTwo;
    OneIsPower();
  }

  lemma FitsStructBits(l1: Layout, name: string, bytes: nat, bitWidth: nat)
    requires l1.align > 0 && Fits(l1) && bytes in {1, 4} && (l1.used > 0 ==> MakeAlign(l1.used, 8) <= l1.base)
    ensures Fits(AddStructBits(l1, name, bytes, bitWidth))
  {
    hide MakeAlign, PowerOfTwo, UnitFor, FirstUnit, SpaceBetween, Pushed;
    OneIsPower();
    FitsUnit(l1, bytes, bitWidth);
    if bitWidth > 0 {
      var l2 := UnitFor(l1, bytes, bitWidth);
      FitsPushed(l2.(members := l2.members + [Bits(l2.index, l2.used, bitWidth, bytes)],
        names := l2.names + [Entry(name, l2.offset, l2.index, [])], used := l2.used + bitWidth), l2.base, l2.base / 8);
    }
  }

  lemma {:induction false} FitsMax(elems: seq<Elem>)
    requires forall i :: 0 <= i < |elems| ==> PowerOfTwo(elems[i].align)
    ensures PowerOfTwo(MaxAlign(elems))
    decreases |elems|
  {
    hide PowerOfTwo;
    OneIsPower();
    if elems != [] { FitsMax(elems[..|elems| - 1]); }
  }

  lemma AtLeastOne(a: nat)
    requires PowerOfTwo(a)
    ensures a >= 1
  {
  }

  function Largest(members: seq<Member>): nat {
    if members == [] then 0
    else Max(Largest(members[..|members| - 1]), match members[|members| - 1] case Plain(_,
      size) => size case Bits(_, _, _, bytes) => bytes)
  }

  /** A union keeps one element, as large as its largest member. The width was computed with
      alignment `a`. */
  predicate Sized(l: Layout, a: nat) {
    && PowerOfTwo(a) && a <= l.align && a > 0 && |l.elems| <= 1 && Aligned(l.elems)
    && Largest(l.members) == End(l.elems) && l.width == MakeAlign(End(l.elems), a)
    && (l.used > 0 ==> l.used <= l.base <= 32 && l.base % 8 == 0 && l.base / 8 <= End(l.elems))
  }

  lemma EndOfOne(x: Elem)
    requires x.align > 0
    ensures Aligned([x]) && End([x]) == x.size
  {
  }

  lemma LargestSnoc(members: seq<Member>, m: Member)
    ensures Largest(members + [m]) == Max(Largest(members), if m.Plain? then m.size else m.bytes)
  {
    assert (members + [m])[..|members|] == members;
  }

  lemma OneElem(elems: seq<Elem>)
    requires |elems| <= 1 && Aligned(elems)
    ensures End(elems) == if elems == [] then 0 else elems[0].size
  {
    if elems != [] {
      assert elems == [elems[0]];
      EndOfOne(elems[0]);
    } else {
      EndOfNone();
    }
  }

  /** The bit-fields of a union need no more space than the type of one of them. */
  lemma CloseSized(l: Layout, a: nat, align: nat)
    requires Sized(l, a) && !l.isStruct && PowerOfTwo(align) && a <= align
    ensures Sized(BeforeMember(l.(align := align)), if l.used == 0 then a else align)
  {
    hide PowerOfTwo, MakeAlign, Largest, End, BitSpace;
    AtLeastOne(align);
    OneElem(l.elems);
    AlignTwice(End(l.elems), a, align);
    if l.used > 0 {
      ByteSpace(l.used);
      UpTo(l.used, l.base);
      assert MakeAlign(l.used, 8) / 8 <= l.base / 8 <= End(l.elems);
      assert MakeAlign(End(l.elems), a) >= End(l.elems);
    }
  }

  lemma PlainSized(l: Layout, a: nat, e: Elem)
    requires Sized(l, a) && !l.isStruct && PowerOfTwo(l.align) && PowerOfTwo(e.align)
    ensures Ready(l, e.align).align > 0
    ensures forall start: nat :: Sized(WithPlain(Ready(l, e.align), start, e), Ready(l, e.align).align)
  {
    hide PowerOfTwo, MakeAlign, Largest, End, BeforeMember;
    AtLeastOne(e.align);
    PowerMax(l.align, e.align);
    CloseSized(l, a, Max(l.align, e.align));
    var r := Ready(l, e.align);
    OneElem(r.elems);
    LargestSnoc(r.members, Plain(r.index, e.size));
    AlignMax(End(r.elems), e.size, if l.used == 0 then a else r.align, r.align);
    forall start: nat ensures Sized(WithPlain(r, start, e), r.align) {
      var l1 := WithPlain(r, start, e);
      BeforeUsed(l.(align := Max(l.align, e.align)));
      assert |l1.elems| == 1 && l1.elems[0].size == Max(End(r.elems), e.size);
      OneElem(l1.elems);
    }
  }

  lemma BeforeUsed(l: Layout)
    requires l.align > 0
    ensures BeforeMember(l).used == 0
  {
    hide MakeAlign, BitSpace;
  }

  lemma UnionBitsSized(l: Layout, a: nat, name: string, bytes: nat, bitWidth: nat)
    requires Sized(l, a) && !l.isStruct && PowerOfTwo(l.align) && bytes in {1, 4}
    requires l.used + bitWidth <= if l.used == 0 then 8 * bytes else Max(l.base, 8 * bytes)
    ensures var l1 := AddBitField(l, name, bytes, bitWidth); Sized(l1, if bitWidth == 0 then a else l1.align)
  {
    hide PowerOfTwo, MakeAlign, Largest, End, Aligned;
    LargerAligned(l.elems, Elem(bytes, bytes, false));
    OneIsPower();
    PowerMax(bytes, l.align);
    var l1 := Raised(l, bytes, bitWidth);
    OneElem(l.elems);
    if bitWidth > 0 {
      var e, l2 := Elem(bytes, bytes, false), AddUnionBits(l1, name, bytes, bitWidth);
      LargestSnoc(l.members, Bits(l.index, 0, bitWidth, bytes));
      OneElem(Larger(l.elems, e));
      assert End(l2.elems) == Max(End(l.elems), bytes);
      var base := if l.used == 0 then bytes * 8 else Max(l.base, bytes * 8);
      UnionBase(l.width, End(l.elems), a, l1.align, bytes, base / 8);
    }
  }

  /** A type that the union already has room for does not count again. */
  lemma UnionBase(width: nat, end: nat, a: nat, b: nat, bytes: nat, base: nat)
    requires PowerOfTwo(a) && PowerOfTwo(b) && a <= b && width == MakeAlign(end, a) && bytes <= base
      && (base == bytes || base <= end)
    ensures MakeAlign(Max(width, base), b) == MakeAlign(Max(end, bytes), b)
  {
    hide PowerOfTwo, MakeAlign;
    AlignMax(end, base, a, b);
  }

  lemma EndOfNone()
    ensures End([]) == 0
  {
  }

  /** Alignments of ordinary members, at any depth, are powers of two. */
  predicate PowerItems(items: seq<Item>)
    decreases items
  {
    items == [] || (PowerItems(items[..|items| - 1]) &&
      match items[|items| - 1]
      case Ordinary(_, e) => PowerOfTwo(e.align)
      case Anonymous(_, ds) => PowerItems(ds)
      case BitField(_, _, _) => true)
  }

  lemma FitsFinish(l: Layout)
    requires l.align > 0 && Fits(l)
    ensures Fits(Finish(l)) && PowerOfTwo(MaxAlign(Finish(l).elems))
      && l.align <= Finish(l).align && PowerOfTwo(l.align)
  {
    hide PowerOfTwo, BeforeMember;
    OneIsPower();
    if !(l.used == 0 || l.members == [] || LastIsPlain(l)) {
      var bytes := l.members[|l.members| - 1].bytes;
      PowerMax(l.align, bytes);
      FitsBefore(l.(align := Max(l.align, bytes)));
    }
    FitsMax(Finish(l).elems);
  }

  lemma NamesFit(l: Layout, l1: Layout)
    requires Fits(l) && l1 == l.(names := l1.names)
    ensures Fits(l1)
  {
  }

  lemma PlainFits(l: Layout, e: Elem)
    requires l.align > 0 && Fits(l) && PowerOfTwo(e.align)
    ensures Ready(l, e.align).align > 0 && forall start: nat :: Fits(WithPlain(Ready(l, e.align), start, e))
  {
    hide Fits, BeforeMember, WithPlain;
    AtLeastOne(e.align);
    FitsReady(l, e.align);
    forall start: nat ensures Fits(WithPlain(Ready(l, e.align), start, e)) { FitsPlain(Ready(l, e.align), start, e); }
  }

  lemma {:induction false} RunFits(isStruct: bool, items: seq<Item>)
    requires ItemsOK(isStruct, items) && PowerItems(items)
    ensures Fits(Run(isStruct, items))
    decreases items, 0
  {
    hide Valid, Fits, BeforeMember, WithPlain, AddBitField, PowerOfTwo, Finish, MakeAlign, Follows;
    if items == [] { EmptyFits(isStruct); } else {
      var l := Run(isStruct, items[..|items| - 1]);
      RunFits(isStruct, items[..|items| - 1]);
      ValidAligned(l);
      match items[|items| - 1]
      case Ordinary(name, e) =>
        PlainFits(l, e);
        NamesFit(WithPlain(Ready(l, e.align), MakeAlign(Ready(l, e.align).offset, e.align), e), AddMember(l, name, e));
      case Anonymous(inner, ds) =>
        var e := AnonymousElem(inner, ds);
        PlainFits(l, e);
        NamesFit(WithPlain(Ready(l, e.align), MakeAlign(Ready(l, e.align).offset, e.align), e),
          MergeAnonymous(l, Build(inner, ds)));
      case BitField(name, bytes, bits) => FitsBits(l, name, bytes, bits);
    }
  }

  /** The element of an anonymous member. */
  lemma {:induction false} AnonymousElem(inner: bool, ds: seq<Item>) returns (e: Elem)
    requires ItemsOK(inner, ds) && PowerItems(ds)
    ensures Aligned(Build(inner, ds).elems) && e == ElemOf(Build(inner, ds)) && PowerOfTwo(e.align)
    decreases ds, 1
  {
    hide Valid, Fits, PowerOfTwo, Finish, MakeAlign, Follows, MaxAlign, End;
    var d := Run(inner, ds);
    RunFits(inner, ds);
    ValidAligned(d);
    FitsFinish(d);
    FinishGoes(d);
    e := ElemOf(Build(inner, ds));
  }

  lemma EmptyFits(isStruct: bool)
    ensures Fits(Empty(isStruct)) && Sized(Empty(false), 1)
  {
    OneIsPower();
  }

  /** What the source asserts of a union: the bits of bit-fields in a row fit the widest of their types. */
  predicate Asserted(items: seq<Item>)
    requires ItemsOK(false, items)
  {
    items == [] || (Asserted(items[..|items| - 1]) &&
      var l, last := Run(false, items[..|items| - 1]), items[|items| - 1];
      last.BitField? && l.used > 0 ==> l.used + last.bits <= Max(l.base, 8 * last.bytes))
  }

  lemma {:induction false} RunSized(items: seq<Item>) returns (a: nat)
    requires ItemsOK(false, items) && PowerItems(items) && Asserted(items)
    ensures Sized(Run(false, items), a) && (Core(items) == items ==> a == Run(false, items).align)
    decreases |items|
  {
    hide Valid, Sized, Fits, BeforeMember, WithPlain, AddBitField, PowerOfTwo, Finish, MakeAlign, Follows, Core;
    if items == [] {
      EmptyFits(false);
      a := 1;
    } else {
      var l := Run(false, items[..|items| - 1]);
      a := RunSized(items[..|items| - 1]);
      RunFits(false, items[..|items| - 1]);
      PowerOf(l);
      ValidAligned(l);
      CoreIs(items);
      match items[|items| - 1]
      case Ordinary(name, e) =>
        AtLeastOne(e.align);
        PlainSized(l, a, e);
        a := Ready(l, e.align).align;
        var l1 := WithPlain(Ready(l, e.align), MakeAlign(Ready(l, e.align).offset, e.align), e);
        PlainAlign(Ready(l, e.align), MakeAlign(Ready(l, e.align).offset, e.align), e);
        NamesSized(l1, a, AddMember(l, name, e));
      case Anonymous(inner, ds) =>
        var e := AnonymousElem(inner, ds);
        AtLeastOne(e.align);
        PlainSized(l, a, e);
        a := Ready(l, e.align).align;
        var l1 := WithPlain(Ready(l, e.align), MakeAlign(Ready(l, e.align).offset, e.align), e);
        PlainAlign(Ready(l, e.align), MakeAlign(Ready(l, e.align).offset, e.align), e);
        NamesSized(l1, a, MergeAnonymous(l, Build(inner, ds)));
      case BitField(name, bytes, bits) =>
        UnionBitsSized(l, a, name, bytes, bits);
        a := if bits == 0 then a else Run(false, items).align;
    }
  }

  lemma PlainAlign(l: Layout, start: nat, e: Elem)
    requires l.align > 0
    ensures WithPlain(l, start, e).align == l.align
  {
  }

  lemma NamesSized(l: Layout, a: nat, l1: Layout)
    requires Sized(l, a) && l1 == l.(names := l1.names)
    ensures Sized(l1, a)
  {
  }

  /** The items without the zero-width bit-fields at their end. */
  function Core(items: seq<Item>): seq<Item> {
    if items != [] && items[|items| - 1].BitField? && items[|items| - 1].bits == 0 then
      Core(items[..|items| - 1]) else items
  }

  lemma CoreIs(items: seq<Item>)
    ensures Core(items) == items <==> items == [] || !items[|items| - 1].BitField? || items[|items| - 1].bits > 0
    ensures Core(items) != items ==> Core(items) == Core(items[..|items| - 1])
  {
    CoreShorter(items);
    if items != [] { CoreShorter(items[..|items| - 1]); }
  }

  lemma {:induction false} CoreShorter(items: seq<Item>)
    ensures |Core(items)| <= |items|
    decreases |items|
  {
    if items != [] { CoreShorter(items[..|items| - 1]); }
  }

  lemma {:induction false} CoreOK(isStruct: bool, items: seq<Item>)
    requires ItemsOK(isStruct, items)
    ensures ItemsOK(isStruct, Core(items)) && Core(Core(items)) == Core(items)
    ensures !isStruct && PowerItems(items) && Asserted(items) ==> PowerItems(Core(items)) && Asserted(Core(items))
    decreases |items|
  {
    CoreIs(items);
    if Core(items) != items { CoreOK(isStruct, items[..|items| - 1]); }
  }

  /** Zero-width bit-fields at the end that open or close no unit raise the alignment and leave the
      width, unless a struct has an ordinary member before them. The end is then aligned differently. */
  predicate Stale(isStruct: bool, items: seq<Item>)
    requires ItemsOK(isStruct, items)
  {
    CoreOK(isStruct, items);
    var l := Run(isStruct, Core(items));
    ValidAligned(l);
    ValidAligned(Run(isStruct, items));
    l.used == 0 && !(isStruct && LastIsPlain(l)) && MakeAlign(End(l.elems), l.align) != MakeAlign(End(l.elems),
      Run(isStruct, items).align)
  }

  lemma PlainWidth(l: Layout, start: nat, e: Elem)
    requires l.align > 0 && l.isStruct
    ensures var l1 := WithPlain(l, start, e); l1.width == MakeAlign(l1.offset, l1.align)
  {
  }

  lemma BitsWidth(l: Layout, name: string, bytes: nat, bitWidth: nat)
    requires l.align > 0 && l.isStruct && (l.used > 0 ==> MakeAlign(l.used, 8) <= l.base)
    ensures var l1 := AddBitField(l, name, bytes, bitWidth);
      l1.used == 0 && !(bitWidth == 0 && l.used == 0 && !LastIsPlain(l)) ==>
          l1.align > 0 && l1.width == MakeAlign(l1.offset, l1.align)
    ensures bitWidth == 0 && l.used == 0 && !LastIsPlain(l)
      ==> AddBitField(l, name, bytes, bitWidth) == l.(align := Max(bytes, l.align), base := bytes * 8)
  {
    hide MakeAlign, BitSpace;
  }

  lemma FinishWidth(l: Layout)
    requires l.align > 0 && l.isStruct && (l.used > 0 ==> l.members != [] && !LastIsPlain(l))
    ensures l.used > 0 ==> Finish(l).align > 0 && Finish(l).width == MakeAlign(Finish(l).offset, Finish(l).align)
    ensures Finish(l).isStruct == l.isStruct && (l.used == 0 ==> Finish(l) == l)
  {
    hide MakeAlign, BitSpace;
  }

  /** The width is the end of the elements, aligned. */
  predicate RightWidth(l: Layout) { l.align > 0 && Aligned(l.elems) && l.width == MakeAlign(End(l.elems), l.align) }

  /** After anything but a zero-width bit-field. */
  lemma CoreWidth(items: seq<Item>)
    requires ItemsOK(true, items) && Core(items) == items && Run(true, items).used == 0
    ensures RightWidth(Run(true, items))
  {
    hide Valid, BeforeMember, WithPlain, AddBitField, Finish, MakeAlign, Follows, End;
    var l := Run(true, items);
    ValidUnitary(l);
    CoreIs(items);
    if items != [] {
      var l0 := Run(true, items[..|items| - 1]);
      ValidAligned(l0);
      match items[|items| - 1]
      case Ordinary(name, e) =>
        ReadyGoes(l0, e.align);
        PlainWidth(Ready(l0, e.align), MakeAlign(Ready(l0, e.align).offset, e.align), e);
        assert l.width == MakeAlign(l.offset, l.align);
      case Anonymous(inner, ds) =>
        var d := Run(inner, ds);
        ValidAligned(d);
        FinishGoes(d);
        var e := ElemOf(Complete(Finish(d)));
        ReadyGoes(l0, e.align);
        PlainWidth(Ready(l0, e.align), MakeAlign(Ready(l0, e.align).offset, e.align), e);
      case BitField(name, bytes, bits) =>
        BitsWidth(l0, name, bytes, bits);
    } else {
      EmptyWidth();
    }
  }

  lemma EmptyWidth()
    ensures Finish(Empty(true)) == Empty(true) && MakeAlign(0, 1) == 0 && End([]) == 0
  {
  }

  /** What zero-width bit-fields at the end do to a struct. */
  lemma {:induction false} ZerosDo(items: seq<Item>)
    requires ItemsOK(true, items) && ItemsOK(true, Core(items))
    ensures var l0, l := Run(true, Core(items)), Run(true, items);
      && l.align >= l0.align && l.members == l0.members
      && (l0.used == 0 ==>
          l.used == 0 && (LastIsPlain(l0) ==> RightWidth(l))
            && (!LastIsPlain(l0) ==> l.elems == l0.elems && l.width == l0.width))
      && (l0.used > 0 && l.used == 0 ==> RightWidth(l) && l.align >= 4)
      && (l.used > 0 ==> !LastIsPlain(l))
    decreases |items|
  {
    hide Valid, Follows, MakeAlign, Spaced, SpaceBetween, End, AddBitField;
    CoreIs(items);
    var l0, l := Run(true, Core(items)), Run(true, items);
    ValidUnitary(l);
    if Core(items) == items {
      if l0.used == 0 { CoreWidth(items); }
    } else {
      var init, z := items[..|items| - 1], items[|items| - 1];
      var l1 := Run(true, init);
      CoreOK(true, init);
      ZerosDo(init);
      ValidUnitary(l1);
      ValidAligned(l1);
      ZeroStep(l1, z.name, z.bytes);
    }
  }

  lemma ZeroStep(l: Layout, name: string, bytes: nat)
    requires Valid(l) && l.isStruct && bytes in {1, 4} && (l.used > 0 ==> MakeAlign(l.used, 8) <= l.base)
    ensures var l1 := AddBitField(l, name, bytes, 0);
      && l1.align == Max(bytes, l.align) && l1.members == l.members
      && (l.used == 0 ==> l1.used == 0)
      && (l.used == 0 && LastIsPlain(l) ==> RightWidth(l1))
      && (l.used == 0 && !LastIsPlain(l) ==> l1.elems == l.elems && l1.width == l.width)
      && (l.used > 0 && l1.used == 0 ==> RightWidth(l1) && bytes == 4)
  {
    hide Laid, MakeAlign, End, Addr, BitSpace, Placed;
    AddBitFieldGoes(l, name, bytes, 0);
    ZeroCore(l, name, bytes);
    BitsWidth(l, name, bytes, 0);
  }

  lemma ZeroCore(l: Layout, name: string, bytes: nat)
    requires l.align > 0 && l.isStruct && bytes in {1, 4} && (l.used > 0 ==> MakeAlign(l.used, 8) <= l.base)
    ensures var l1 := AddBitField(l, name, bytes, 0);
      && l1.isStruct && l1.align == Max(bytes, l.align) && l1.members == l.members && (l.used == 0 ==> l1.used == 0)
      && (l.used > 0 && bytes == 1 ==> l1.used > 0)
  {
    hide MakeAlign, BitSpace;
  }

  /** The width of a finished struct or union is the end of its elements, aligned, unless it ends in
      zero-width bit-fields as described. */
  lemma WidthExactly(isStruct: bool, items: seq<Item>)
    requires ItemsOK(isStruct, items) && (!isStruct ==> PowerItems(items) && Asserted(items))
    ensures var l := Finish(Run(isStruct, items));
      l.align > 0 && Aligned(l.elems) && (l.width == MakeAlign(End(l.elems), l.align) <==> !Stale(isStruct, items))
  {
    if isStruct { StructWidthExactly(items); } else { UnionWidthExactly(items); }
  }

  lemma StructWidthExactly(items: seq<Item>)
    requires ItemsOK(true, items)
    ensures var l := Finish(Run(true, items));
      l.align > 0 && Aligned(l.elems) && (l.width == MakeAlign(End(l.elems), l.align) <==> !Stale(true, items))
  {
    hide Valid, Finish, MakeAlign, Follows, End, Run;
    CoreOK(true, items);
    var l0, l := Run(true, Core(items)), Run(true, items);
    ValidUnitary(l);
    ValidUnitary(l0);
    FinishGoes(l);
    ValidUnitary(Finish(l));
    FinishWidth(l);
    ZerosDo(items);
    if l0.used == 0 { CoreWidth(Core(items)); }
  }

  lemma {:induction false} UnionZeros(items: seq<Item>)
    requires ItemsOK(false, items) && ItemsOK(false, Core(items))
    ensures var l0, l := Run(false, Core(items)), Run(false, items);
      l.used == l0.used && l.elems == l0.elems && l.width == l0.width && l.align >= l0.align
    decreases |items|
  {
    hide Valid, Follows, MakeAlign, End;
    CoreIs(items);
    if Core(items) != items {
      CoreOK(false, items[..|items| - 1]);
      UnionZeros(items[..|items| - 1]);
      ValidAligned(Run(false, items[..|items| - 1]));
    }
  }

  lemma UnionWidthExactly(items: seq<Item>)
    requires ItemsOK(false, items) && PowerItems(items) && Asserted(items)
    ensures var l := Finish(Run(false, items));
      l.align > 0 && Aligned(l.elems) && (l.width == MakeAlign(End(l.elems), l.align) <==> !Stale(false, items))
  {
    hide Valid, Finish, MakeAlign, Follows, End, Run, Fits, Asserted, PowerItems, PowerOfTwo;
    CoreOK(false, items);
    var l0, l := Run(false, Core(items)), Run(false, items);
    ValidAligned(l);
    UnionZeros(items);
    var a0 := RunSized(Core(items));
    if l.used > 0 { UnionFinished(items); } else { FinishIs(l); }
  }

  lemma FinishIs(l: Layout)
    requires l.align > 0
    ensures l.used == 0 ==> Finish(l) == l
    ensures l.used > 0 && l.members != [] && l.members[|l.members| - 1].Bits? ==>
      Finish(l) == BeforeMember(l.(align := Max(l.align, l.members[|l.members| - 1].bytes)))
  {
  }

  /** An open row of bit-fields is closed with the alignment of the last. */
  lemma UnionFinished(items: seq<Item>)
    requires ItemsOK(false, items) && PowerItems(items) && Asserted(items) && Run(false, items).used > 0
    ensures RightWidth(Finish(Run(false, items))) && Largest(Finish(Run(false, items)).members) ==
      End(Finish(Run(false, items)).elems)
  {
    hide Valid, MakeAlign, Follows, End, Run, Asserted, PowerItems, PowerOfTwo, BeforeMember, Largest;
    var l := Run(false, items);
    ValidUnitary(l);
    FinishIs(l);
    RunFits(false, items);
    OneIsPower();
    var bytes := l.members[|l.members| - 1].bytes;
    PowerMax(l.align, bytes);
    var a := RunSized(items);
    CloseSized(l, a, Max(l.align, bytes));
  }

  lemma FinishedWidth(isStruct: bool, items: seq<Item>)
    requires ItemsOK(isStruct, items) && (!isStruct ==> PowerItems(items) && Asserted(items)) && !Stale(isStruct, items)
    ensures RightWidth(Finish(Run(isStruct, items)))
  {
    hide Valid, MakeAlign, End, Stale, Finish, Run;
    WidthExactly(isStruct, items);
  }

  /** The width of a union is the size of its largest member, aligned; that of a bit-field is the size of
      its type. */
  lemma UnionWidth(items: seq<Item>)
    requires ItemsOK(false, items) && PowerItems(items) && Asserted(items) && !Stale(false, items)
    ensures var l := Finish(Run(false, items)); l.align > 0 && l.width == MakeAlign(Largest(l.members), l.align)
  {
    hide Valid, MakeAlign, Largest, End, Run, Finish, Stale, Asserted, PowerItems;
    FinishedWidth(false, items);
    var l := Run(false, items);
    ValidAligned(l);
    if l.used > 0 { UnionFinished(items); } else {
      FinishIs(l);
      var a := RunSized(items);
    }
  }

  /** So the width covers all elements, and no smaller multiple of the alignment does. */
  lemma WidthIsLeast(isStruct: bool, items: seq<Item>)
    requires ItemsOK(isStruct, items) && (!isStruct ==> PowerItems(items) && Asserted(items)) && !Stale(isStruct, items)
    ensures var l := Finish(Run(isStruct, items));
      && l.align > 0 && Aligned(l.elems) && l.width % l.align == 0
      && (forall i :: 0 <= i < |l.elems| ==> Addr(l.elems, i) + l.elems[i].size <= l.width)
      && (forall m: nat :: m % l.align == 0 && m >= End(l.elems) ==> m >= l.width)
  {
    hide MakeAlign, Valid, Run, Finish, Addr, Stale;
    ValidAligned(Run(isStruct, items));
    FinishedWidth(isStruct, items);
    var l := Finish(Run(isStruct, items));
    AlignedUp(End(l.elems), l.align);
    forall i | 0 <= i < |l.elems| ensures Addr(l.elems, i) + l.elems[i].size <= l.width {
      if i < |l.elems| - 1 { AddrsGrow(l.elems, i, |l.elems| - 1); }
    }
  }

  /** What the declaration asks for and what LLVM sees are two alignments. */
  function Coarse(l: Layout): nat { Max(l.align, MaxAlign(l.elems)) }
  function Fine(l: Layout): nat { if l.align < MaxAlign(l.elems) then l.align else MaxAlign(l.elems) }

  /** The size of a struct or union is that of the LLVM type. It is the width exactly when the end of the
      elements is aligned for the larger of both, or less than the smaller one away from that. */
  lemma SizeExactly(isStruct: bool, items: seq<Item>)
    requires ItemsOK(isStruct, items) && PowerItems(items) && (!isStruct ==> Asserted(items)) && !Stale(isStruct, items)
    ensures var l := Finish(Run(isStruct, items));
      && l.align > 0 && Aligned(l.elems) && Coarse(l) > 0
      && (LLVMSize(l.elems) == l.width <==>
          End(l.elems) % Coarse(l) == 0 || End(l.elems) % Coarse(l) > Coarse(l) - Fine(l))
  {
    hide MakeAlign, Valid, Run, Finish, End, Fits, MaxAlign, Stale, Asserted, PowerItems;
    FinishedWidth(isStruct, items);
    RunFits(isStruct, items);
    ValidAligned(Run(isStruct, items));
    FitsFinish(Run(isStruct, items));
    var l := Finish(Run(isStruct, items));
    PositiveAlign(l.elems);
    PowerOf(l);
    AlignsAgree(End(l.elems), Fine(l), Coarse(l));
  }

  lemma PowerOf(l: Layout)
    requires Fits(l)
    ensures PowerOfTwo(l.align)
  {
  }

  predicate TopWithoutBits(items: seq<Item>) { forall i :: 0 <= i < |items| ==> !items[i].BitField? }

  lemma {:induction false} MaxAlignIs(items: seq<Item>)
    requires ItemsOK(true, items) && TopWithoutBits(items)
    ensures var l := Run(true, items); l.used == 0 && l.align == MaxAlign(l.elems)
    decreases |items|
  {
    hide Valid, MakeAlign, Follows, Laid, End;
    if items != [] {
      MaxAlignIs(items[..|items| - 1]);
      var l := Run(true, items[..|items| - 1]);
      match items[|items| - 1]
      case Ordinary(_, e) => MaxAlignSnoc(l.elems, e);
      case Anonymous(inner, ds) =>
        var d := Run(inner, ds);
        ValidAligned(d);
        FinishGoes(d);
        MaxAlignSnoc(l.elems, ElemOf(Complete(Finish(d))));
    }
  }

  /** A struct whose own members are ordinary has the size and the alignment that were asked for. */
  lemma StructSizeRight(items: seq<Item>)
    requires ItemsOK(true, items) && TopWithoutBits(items)
    ensures var l := Finish(Run(true, items));
      l.align > 0 && Aligned(l.elems) && LLVMSize(l.elems) == l.width && MaxAlign(l.elems) == l.align
  {
    hide Valid, MakeAlign, Run, End, Core;
    StructWidthExactly(items);
    NoZeros(items);
    MaxAlignIs(items);
  }

  lemma NoZeros(items: seq<Item>)
    requires TopWithoutBits(items)
    ensures Core(items) == items
  {
  }

  /** `union { char c[5]; int i; }` is 5 bytes wide, and 8 were asked for. */
  lemma UnionTooSmall()
    ensures var items := [Ordinary("c", Elem(5, 1, false)), Ordinary("i", Elem(4, 4, false))];
      ItemsOK(false, items) && var l := Run(false, items); l.width == 8 && Aligned(l.elems) && LLVMSize(l.elems) == 5
  {
    hide Valid, Follows;
    var items := [Ordinary("c", Elem(5, 1, false)), Ordinary("i", Elem(4, 4, false))];
    var first := items[..1];
    assert first == [items[0]] && first[..0] == [];
    assert ItemsOK(false, []) && ItemsOK(false, first);
    assert Run(false, []) == Empty(false);
    assert Run(false, first).elems == [items[0].elem] && Run(false, first).width == 5;
    assert Run(false, items).elems == [items[0].elem];
    EndOfOne(items[0].elem);
  }

  function FullUnit(): Layout {
    Layout(true, 4, 4, 4, 1, 0, 0, 0, [Elem(4, 1, false)], [Bits(0, 0, 32, 4)], [Entry("a", 0, 0, [])])
  }

  lemma AfterFullUnit()
    ensures AddBitField(Empty(true), "a", 4, 32) == FullUnit()
  {
    hide BitSpace, MakeAlign;
    assert BitSpace(32) == 4 by { ByteSpace(32); }
    SmallAligned();
  }

  lemma AfterChar()
    ensures var l := AddMember(FullUnit(), "c", Elem(1, 1, false));
      l.used == 0 && l.width == 8 && l.elems == [Elem(4, 1, false), Elem(1, 1, false)]
  {
  }

  lemma FiveBytes()
    ensures var es := [Elem(4, 1, false), Elem(1, 1, false)]; Aligned(es) && LLVMSize(es) == 5
  {
    var es := [Elem(4, 1, false), Elem(1, 1, false)];
    AddrIs(es, 1);
    assert es[..1] == [es[0]];
    assert MaxAlign(es[..1]) == 1;
  }

  /** So is `struct { int a : 32; char c; }`: bit-fields leave no trace of their alignment. */
  lemma StructTooSmall()
    ensures var items := [BitField("a", 4, 32), Ordinary("c", Elem(1, 1, false))];
      ItemsOK(true, items) && var l := Finish(Run(true, items));
        l.width == 8 && Aligned(l.elems) && LLVMSize(l.elems) == 5
  {
    hide Valid, Follows, AddBitField, AddMember, LLVMSize;
    var items := [BitField("a", 4, 32), Ordinary("c", Elem(1, 1, false))];
    var first := items[..1];
    assert first == [items[0]] && first[..0] == [];
    assert ItemsOK(true, []) && ItemsOK(true, first);
    AfterFullUnit();
    assert Run(true, []) == Empty(true);
    assert Run(true, first) == FullUnit();
    AfterChar();
    FiveBytes();
  }

  function TwentyBits(): Layout {
    Layout(false, 4, 0, 4, 0, 20, 32, 0, [Elem(4, 4, false)], [Bits(0, 0, 20, 4)], [Entry("a", 0, 0, [])])
  }

  function FortyBits(): Layout {
    TwentyBits().(used := 40, members := [Bits(0, 0, 20, 4), Bits(0, 0, 20, 4)],
      names := [Entry("a", 0, 0, []), Entry("b", 0, 0, [])])
  }

  lemma AfterTwentyBits()
    ensures AddBitField(Empty(false), "a", 4, 20) == TwentyBits()
      && AddBitField(TwentyBits(), "b", 4, 20) == FortyBits()
  {
    hide MakeAlign;
    SmallAligned();
  }

  lemma FortyBitsClosed()
    ensures var l := Finish(FortyBits());
      l.width == 8 && l.elems == [Elem(5, 1, false)] && Aligned(l.elems) && LLVMSize(l.elems) == 5
  {
    assert BitSpace(40) == 5 && MakeAlign(40, 8) == 40;
    EndOfOne(Elem(5, 1, false));
  }

  /** `union { int a : 20; int b : 20; }` would stop a build with assertions. Without them its size is 5,
      though no member needs more than 4. */
  lemma UnionOverflow()
    ensures var items := [BitField("a", 4, 20), BitField("b", 4, 20)];
      && ItemsOK(false, items) && !Asserted(items)
      && var l := Finish(Run(false, items));
        l.width == 8 && Largest(l.members) == 4 && Aligned(l.elems) && LLVMSize(l.elems) == 5
  {
    hide Valid, Follows, AddBitField, LLVMSize, Finish;
    var items := [BitField("a", 4, 20), BitField("b", 4, 20)];
    var first := items[..1];
    assert first == [items[0]] && first[..0] == [];
    assert ItemsOK(false, []) && ItemsOK(false, first);
    AfterTwentyBits();
    assert Run(false, []) == Empty(false);
    assert Run(false, first) == TwentyBits();
    assert Run(false, items) == FortyBits();
    FortyBitsClosed();
    FinishMembers();
    LargestSnoc([], Bits(0, 0, 20, 4));
    LargestSnoc([Bits(0, 0, 20, 4)], Bits(0, 0, 20, 4));
  }

  lemma FinishMembers()
    ensures Finish(FortyBits()).members == [] + [Bits(0, 0, 20, 4)] + [Bits(0, 0, 20, 4)]
  {
    hide MakeAlign, BitSpace;
  }
}
