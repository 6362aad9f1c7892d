/** What every run of the layout keeps: recorded offsets against addresses, and the width. */
module StructOffsets {
  import opened BitLayout
  import opened StructLayout

  /** The offset is where the last element ends. */
  predicate Core(l: Layout) {
    && l.align > 0 && Aligned(l.elems)
    && (if l.isStruct then l.index == |l.elems| && l.offset == End(l.elems) else l.offset == 0 && l.spaces == 0)
  }

  /** The element that a name refers to is there, or is the unit that is still open. */
  predicate Placed(l: Layout, e: Entry) {
    IsPath(e.path) && (l.isStruct ==> e.index < |l.elems| || (e.index == |l.elems| && l.used > 0))
  }

  /** The byte address along the elements that an access steps through. */
  function AddressOf(l: Layout, e: Entry): int
    requires Core(l) && Placed(l, e)
  {
    PathAddr(e.path) + if !l.isStruct then 0 else if e.index < |l.elems| then Addr(l.elems, e.index) else End(l.elems)
  }

  /** What has a place keeps it. */
  ghost predicate Follows(l: Layout, l1: Layout) {
    && Core(l) && Core(l1) && l1.isStruct == l.isStruct
    && forall e: Entry :: Placed(l, e) ==> Placed(l1, e) && AddressOf(l1, e) == AddressOf(l, e)
  }

  lemma FollowsTrans(l: Layout, l1: Layout, l2: Layout)
    requires Follows(l, l1) && Follows(l1, l2)
    ensures Follows(l, l2)
  {
    hide AddressOf;
  }

  lemma FollowsSame(l: Layout, l1: Layout)
    requires Core(l) && Core(l1) && l1.isStruct == l.isStruct && l1.elems == l.elems && (l1.used == 0 ==> l.used == 0)
    ensures Follows(l, l1)
  {
  }

  /** An element behind the others. Only an open unit stands where the next element will be. */
  lemma FollowsSnoc(l: Layout, l1: Layout, x: Elem)
    requires Core(l) && Core(l1) && l.isStruct && l1.isStruct && l1.elems == l.elems + [x]
      && (l.used > 0 ==> x.align == 1)
    ensures Follows(l, l1)
  {
    hide Addr, End, MakeAlign, PathAddr, IsPath;
    forall e: Entry | Placed(l, e) ensures Placed(l1, e) && AddressOf(l1, e) == AddressOf(l, e) {
      if e.index < |l.elems| { AddrKept(l.elems, [x], e.index); } else {
        EndSnoc(l.elems, x); UnitAligned(End(l.elems)); }
    }
  }

  lemma UnitAligned(n: nat)
    ensures MakeAlign(n, 1) == n
  {
  }

  lemma ByteSpace(bits: nat)
    requires bits <= 32
    ensures bits > 0 ==> BitSpace(bits) == MakeAlign(bits, 8) / 8 && MakeAlign(bits, 8) <= 32
    ensures bits <= 8 * BitSpace(bits)
    ensures bits > 0 && bits % 8 == 0 ==> BitSpace(bits) == bits / 8
  {
  }

  /** A unit or padding becomes an element, and no unit is open. */
  lemma PushedFollows(l: Layout, bits: nat, bytes: nat)
    requires Core(l) && l.isStruct && bytes == BitSpace(bits)
    ensures Core(Pushed(l, bits, bytes)) && Follows(l, Closed(Pushed(l, bits, bytes)))
  {
    hide MakeAlign, BitSpace, End, Follows, Placed;
    EndSnoc(l.elems, Unit(bits));
    UnitAligned(End(l.elems));
    FollowsSnoc(l, Closed(Pushed(l, bits, bytes)), Unit(bits));
  }

  /** The last bit-field of an open unit is the last member. In a struct a unit is never more than full. */
  predicate Unitary(l: Layout) {
    l.used > 0 ==>
        l.members != [] && l.members[|l.members| - 1].Bits?
          && (l.isStruct ==> l.used <= l.base <= 32 && l.base % 8 == 0)
  }

  /** The invariant. */
  predicate Valid(l: Layout) {
    && Core(l) && Unitary(l)
    && (l.isStruct ==> Laid(l.elems, l.used, l.members))
    && (forall i :: 0 <= i < |l.names| ==> Placed(l, l.names[i]))
  }

  /** From one valid state to another; old names keep their places. */
  ghost predicate Goes(l: Layout, l1: Layout) {
    Valid(l1) && Follows(l, l1) && l.names <= l1.names
  }

  lemma GoesSame(l: Layout, l1: Layout)
    requires Valid(l) && l1 == l.(align := l1.align, width := l1.width, base := l1.base, spaces := l1.spaces)
    requires l1.align > 0 && Unitary(l1) && (l.isStruct || l1.spaces == 0)
    ensures Goes(l, l1)
  {
    hide AddressOf, Laid;
    FollowsSame(l, l1);
    forall i | 0 <= i < |l1.names| ensures Placed(l1, l1.names[i]) { assert Placed(l, l.names[i]); }
  }

  lemma GoesTrans(l: Layout, l1: Layout, l2: Layout)
    requires Goes(l, l1) && Goes(l1, l2)
    ensures Goes(l, l2)
  {
    hide Valid, Follows;
    FollowsTrans(l, l1, l2);
  }

  /** The unit, or what fills it, becomes an element. */
  lemma PushedGoes(l: Layout, bits: nat, bytes: nat)
    requires Valid(l) && l.isStruct && bytes == BitSpace(bits) && l.used <= 8 * bytes
    ensures Goes(l, Closed(Pushed(l, bits, bytes)))
  {
    hide AddressOf, Laid, BitSpace, Placed, Addr, MakeAlign, End;
    PushedFollows(l, bits, bytes);
    CloseUnit(l.elems, l.used, l.members, Unit(bits));
    var l1 := Closed(Pushed(l, bits, bytes));
    forall i | 0 <= i < |l1.names| ensures Placed(l1, l1.names[i]) { assert Placed(l, l.names[i]); }
  }

  lemma SpacedGoes(l: Layout, bytes: nat)
    requires Valid(l) && l.isStruct && l.used == 0 && l.base == 0
    ensures Goes(l, Spaced(l, bytes)) && Spaced(l, bytes).used == 0
  {
    hide Valid, Follows, BitSpace, MakeAlign;
    if bytes == 0 { GoesSame(l, l) by { ValidUnitary(l); } } else { PushedGoes(l, bytes * 8, BitSpace(bytes * 8)); }
  }

  lemma ValidUnitary(l: Layout)
    requires Valid(l)
    ensures l.align > 0 && Unitary(l) && (!l.isStruct ==> l.spaces == 0 && l.offset == 0)
    ensures Core(l)
  {
  }

  /** A full unit. */
  lemma PackedGoes(l: Layout)
    requires Valid(l) && l.isStruct && 0 < l.used == l.base
    ensures Goes(l, Packed(l)) && Packed(l).used == 0
  {
    hide Valid, Follows, BitSpace, MakeAlign;
    ValidUnitary(l);
    ByteSpace(l.base);
    PushedGoes(l, l.base, l.base / 8);
  }

  lemma SpaceBetweenGoes(l: Layout)
    requires Valid(l) && l.isStruct && l.used > 0
    ensures MakeAlign(l.used, 8) <= l.base && Goes(l, SpaceBetween(l)) && SpaceBetween(l).used == 0
      && SpaceBetween(l).base == 0
  {
    hide Valid, Follows, BitSpace, MakeAlign;
    ValidUnitary(l);
    ByteSpace(l.used);
    UpTo(l.used, l.base);
    var l1 := Closed(Pushed(l, l.used, MakeAlign(l.used, 8) / 8));
    PushedGoes(l, l.used, MakeAlign(l.used, 8) / 8);
    var rest := l.base - MakeAlign(l.used, 8);
    PushedGoes(l1, rest, BitSpace(rest));
    GoesTrans(l, l1, SpaceBetween(l));
  }

  lemma UpTo(used: nat, base: nat)
    requires used <= base <= 32 && base % 8 == 0
    ensures MakeAlign(used, 8) <= base
  {
  }

  lemma LargerAligned(elems: seq<Elem>, e: Elem)
    requires Aligned(elems) && e.align > 0
    ensures Aligned(Larger(elems, e))
  {
  }

  /** In a union every name stays at its address. */
  lemma UnionGoes(l: Layout, l1: Layout)
    requires Valid(l) && !l.isStruct && !l1.isStruct && l1.align > 0 && Aligned(l1.elems) && l1.offset == 0
      && l1.spaces == 0 && Unitary(l1)
    requires l.names <= l1.names && forall i :: |l.names| <= i < |l1.names| ==> l1.names[i].path == []
    ensures Goes(l, l1) && forall e: Entry :: e.path == [] ==> Placed(l1, e) && AddressOf(l1, e) == 0
  {
    forall i | 0 <= i < |l1.names|
      ensures Placed(l1, l1.names[i]) { if i < |l.names| {
      assert l1.names[i] == l.names[i] && Placed(l, l.names[i]); } }
  }

  lemma BeforeMemberGoes(l: Layout)
    requires Valid(l)
    ensures Goes(l, BeforeMember(l)) && BeforeMember(l).used == 0 && BeforeMember(l).base == 0
  {
    hide Valid, Follows, BitSpace, MakeAlign;
    ValidUnitary(l);
    if l.used == 0 {
      GoesSame(l, BeforeMember(l));
    } else if !l.isStruct {
      UnionGoes(l, UnionClosed(l));
    } else {
      var bytes := MakeAlign(l.used, 8) / 8;
      ByteSpace(l.used);
      PushedGoes(l, l.used, bytes);
      var l1 := Closed(Pushed(l, l.used, bytes));
      var space := l1.width - l1.offset;
      var l2 := l1.(spaces := l1.spaces + space);
      GoesSame(l1, l2) by { ValidUnitary(l1); }
      SpacedGoes(l2, space);
      GoesTrans(l, l1, l2);
      GoesTrans(l, l2, BeforeMember(l));
    }
  }

  lemma NamesGoes(l: Layout, l1: Layout, more: seq<Entry>)
    requires Goes(l, l1) && forall i :: 0 <= i < |more| ==> Placed(l1, more[i])
    ensures Goes(l, l1.(names := l1.names + more))
  {
    hide Laid, AddressOf, Addr, End;
    var l2 := l1.(names := l1.names + more);
    FollowsSame(l1, l2);
    FollowsTrans(l, l1, l2);
    forall i | 0 <= i < |l2.names| ensures Placed(l2, l2.names[i]) {
      if i < |l1.names| { assert Placed(l1, l1.names[i]); } else { assert Placed(l1, more[i - |l1.names|]); }
    }
  }

  /** An element of its own, at the next aligned offset. */
  lemma WithPlainGoes(l: Layout, e: Elem)
    requires Valid(l) && l.used == 0 && e.align > 0
    ensures var l1, start := WithPlain(l, MakeAlign(l.offset, e.align), e), MakeAlign(l.offset, e.align);
      Goes(l, l1) && forall x: Entry ::
          x.index == l.index && IsPath(x.path) ==> Placed(l1, x) && AddressOf(l1, x) == start + PathAddr(x.path)
  {
    hide Laid, Addr, MakeAlign, PathAddr, IsPath, End;
    var start := MakeAlign(l.offset, e.align);
    var l1 := WithPlain(l, start, e);
    if l.isStruct {
      EndSnoc(l.elems, e);
      AddPlain(l.elems, l.members, e);
      FollowsSnoc(l, l1, e);
    } else {
      ZeroAligned(e.align);
      assert Core(l1);
    }
    forall i | 0 <= i < |l1.names| ensures Placed(l1, l1.names[i]) { assert Placed(l, l.names[i]); }
  }

  /** How far the recorded offset of a name is from its address. */
  function Drift(l: Layout, e: Entry): int
    requires Core(l) && Placed(l, e)
  {
    AddressOf(l, e) - e.at
  }

  /** The state in which the element of a new member is added. */
  function Ready(l: Layout, align: nat): Layout
    requires l.align > 0
  {
    BeforeMember(l.(align := Max(l.align, align)))
  }

  lemma ReadyGoes(l: Layout, align: nat)
    requires Valid(l)
    ensures Goes(l, Ready(l, align)) && Ready(l, align).used == 0
    ensures Ready(l, align).names == l.names && Ready(l, align).align == Max(l.align, align)
  {
    hide Valid, Follows, BeforeMember;
    ValidUnitary(l);
    var l1 := l.(align := Max(l.align, align));
    GoesSame(l, l1);
    BeforeMemberGoes(l1);
    GoesTrans(l, l1, BeforeMember(l1));
  }

  /** The recorded offset of a member is its address, less the padding behind bit-fields so far. */
  lemma AddMemberGoes(l: Layout, name: string, e: Elem)
    requires Valid(l) && e.align > 0
    ensures var l1 := AddMember(l, name, e);
      Goes(l, l1) && l1.used == 0 && |l1.names| == |l.names| + 1
        && Drift(l1, l1.names[|l.names|]) == Ready(l, e.align).spaces
  {
    hide Valid, Follows, BeforeMember, WithPlain, MakeAlign, Placed, AddressOf;
    ValidUnitary(l);
    var r := Ready(l, e.align);
    ReadyGoes(l, e.align);
    var start := MakeAlign(r.offset, e.align);
    var x := Entry(name, start - r.spaces, r.index, []);
    WithPlainGoes(r, e);
    WithPlainIs(r, start, e);
    GoesTrans(l, r, WithPlain(r, start, e));
    NamesGoes(l, WithPlain(r, start, e), [x]);
    ValidUnitary(WithPlain(r, start, e));
    SamePlace(WithPlain(r, start, e), AddMember(l, name, e), x);
  }

  lemma WithPlainIs(l: Layout, start: nat, e: Elem)
    requires l.align > 0
    ensures var l1 := WithPlain(l, start, e);
      l1.names == l.names && l1.used == l.used && l1.index == l.index + 1 && l1.align == l.align
      && l1.spaces == l.spaces
  {
  }

  lemma SamePlace(l: Layout, l1: Layout, e: Entry)
    requires Core(l) && Placed(l, e) && l1 == l.(names := l1.names)
    ensures Core(l1) && Placed(l1, e) && AddressOf(l1, e) == AddressOf(l, e)
  {
  }

  /** A finished struct or union: what it records has its place. */
  predicate Ended(d: Done) {
    Aligned(d.elems) && forall i ::
        0 <= i < |d.names| ==> IsPath(d.names[i].path) && (d.isStruct ==> d.names[i].index < |d.elems|)
  }

  function AddressIn(d: Done, e: Entry): int
    requires Aligned(d.elems) && IsPath(e.path) && (d.isStruct ==> e.index < |d.elems|)
  {
    PathAddr([Step(d.isStruct, d.elems, e.index)] + e.path)
  }

  function DriftIn(d: Done, e: Entry): int
    requires Aligned(d.elems) && IsPath(e.path) && (d.isStruct ==> e.index < |d.elems|)
  {
    AddressIn(d, e) - e.at
  }

  lemma StepFirst(d: Done, e: Entry)
    requires Aligned(d.elems) && IsPath(e.path) && (d.isStruct ==> e.index < |d.elems|)
    ensures IsPath([Step(d.isStruct, d.elems, e.index)] + e.path)
    ensures AddressIn(d, e) == (if d.isStruct then Addr(d.elems, e.index) else 0) + PathAddr(e.path)
  {
    hide Addr;
    assert ([Step(d.isStruct, d.elems, e.index)] + e.path)[1..] == e.path;
  }

  /** The names of an anonymous member are recorded as well, or as badly, as they were in it. */
  lemma MergeGoes(l: Layout, d: Done)
    requires Valid(l) && Ended(d)
    ensures var l1, n := MergeAnonymous(l, d), |l.names|;
      && Goes(l, l1) && l1.used == 0 && |l1.names| == n + |d.names|
      && forall i :: 0 <= i < |d.names| ==> Drift(l1, l1.names[n + i]) == DriftIn(d, d.names[i])
  {
    hide Valid, Follows, BeforeMember, WithPlain, MakeAlign, Placed, AddressOf, Addr, PathAddr, IsPath, AddressIn,
      End, MaxAlign, LLVMSize;
    PositiveAlign(d.elems);
    var e := ElemOf(d);
    ValidUnitary(l);
    var r := Ready(l, e.align);
    ReadyGoes(l, e.align);
    var start := MakeAlign(r.offset, e.align);
    var l1 := WithPlain(r, start, e);
    var more := Lifted(d.names, d, start, r.index);
    WithPlainGoes(r, e);
    WithPlainIs(r, start, e);
    GoesTrans(l, r, l1);
    ValidUnitary(l1);
    forall i | 0 <= i < |more|
      ensures Placed(l1, more[i]) && AddressOf(l1, more[i]) == start + AddressIn(d, d.names[i]) {
      StepFirst(d, d.names[i]);
      AddressInIs(d, d.names[i]);
    }
    NamesGoes(l, l1, more);
    var l2 := MergeAnonymous(l, d);
    ValidUnitary(l2);
    forall i | 0 <= i < |more| ensures Placed(l2, more[i]) && Drift(l2, more[i]) == DriftIn(d, d.names[i]) {
      SamePlace(l1, l2, more[i]);
    }
  }

  lemma AddressInIs(d: Done, e: Entry)
    requires Aligned(d.elems) && IsPath(e.path) && (d.isStruct ==> e.index < |d.elems|)
    ensures AddressIn(d, e) == PathAddr([Step(d.isStruct, d.elems, e.index)] + e.path)
  {
  }

  /* Bit-fields. */

  lemma FirstUnitGoes(l: Layout, bytes: nat)
    requires Valid(l) && l.isStruct && l.used == 0
    ensures Goes(l, FirstUnit(l, bytes)) && FirstUnit(l, bytes).used == 0
  {
    hide Valid, Follows, BitSpace, MakeAlign;
    ValidUnitary(l);
    if LastIsPlain(l) {
      var l1 := l.(width := MakeAlign(l.offset, l.align), base := 0);
      GoesSame(l, l1);
      SpacedGoes(l1, l1.width - l1.offset);
      var l2 := Spaced(l1, l1.width - l1.offset);
      GoesTrans(l, l1, l2);
      GoesSame(l2, FirstUnit(l, bytes)) by { ValidUnitary(l2); }
      GoesTrans(l, l2, FirstUnit(l, bytes));
    } else {
      GoesSame(l, FirstUnit(l, bytes));
    }
  }

  lemma UnitForGoes(l: Layout, bytes: nat, bitWidth: nat)
    requires Valid(l) && l.isStruct && bytes in {1, 4} && bitWidth <= 8 * bytes
    ensures l.used > 0 ==> MakeAlign(l.used, 8) <= l.base
    ensures var l1 := UnitFor(l, bytes, bitWidth);
      Goes(l, l1) && l1.used + bitWidth <= l1.base <= 32 && l1.base % 8 == 0
  {
    hide Valid, Follows, BitSpace, MakeAlign, FirstUnit, SpaceBetween;
    ValidUnitary(l);
    FirstUnitIs(l, bytes);
    if l.used == 0 {
      FirstUnitGoes(l, bytes);
    } else {
      UpTo(l.used, l.base);
      var l1 := l.(base := Max(l.base, bytes * 8));
      GoesSame(l, l1);
      if l1.used + bitWidth > l1.base {
        SpaceBetweenGoes(l1);
        GoesTrans(l, l1, SpaceBetween(l1));
        ValidUnitary(SpaceBetween(l1));
        GoesSame(SpaceBetween(l1), UnitFor(l, bytes, bitWidth));
        GoesTrans(l, SpaceBetween(l1), UnitFor(l, bytes, bitWidth));
      }
    }
  }

  lemma FirstUnitIs(l: Layout, bytes: nat)
    requires l.align > 0
    ensures FirstUnit(l, bytes).base == bytes * 8
  {
  }

  /** A bit-field is recorded at the start of its unit. */
  lemma BitsGoes(l: Layout, name: string, bytes: nat, bitWidth: nat)
    requires Valid(l) && l.isStruct && bitWidth > 0 && l.used + bitWidth <= l.base <= 32 && l.base % 8 == 0
    ensures var x := Entry(name, l.offset, l.index, []); var m := Bits(l.index, l.used, bitWidth, bytes);
      var l1 := l.(members := l.members + [m], names := l.names + [x], used := l.used + bitWidth);
      Goes(l, l1) && Drift(l1, x) == 0
  {
    hide Laid, Addr, End;
    AddBits(l.elems, l.used, l.members, bitWidth, bytes);
    var l1 := l.(members := l.members + [Bits(l.index, l.used, bitWidth, bytes)], used := l.used + bitWidth);
    FollowsSame(l, l1);
    forall i | 0 <= i < |l.names| ensures Placed(l1, l1.names[i]) { assert Placed(l, l.names[i]); }
    NamesGoes(l, l1, [Entry(name, l.offset, l.index, [])]);
  }

  lemma AddToUnitGoes(l: Layout, name: string, bytes: nat, bitWidth: nat)
    requires Valid(l) && l.isStruct && bitWidth > 0 && l.used + bitWidth <= l.base <= 32 && l.base % 8 == 0
    ensures var l1, n := AddToUnit(l, name, bytes, bitWidth), |l.names|;
      Goes(l, l1) && |l1.names| == n + 1 && Drift(l1, l1.names[n]) == 0 && (l1.used == 0 || l1.used < l1.base)
  {
    hide Valid, AddressOf, Packed, Placed, Core;
    var x := Entry(name, l.offset, l.index, []);
    var l1 := l.(members := l.members + [Bits(l.index, l.used, bitWidth, bytes)], names := l.names + [x],
      used := l.used + bitWidth);
    BitsGoes(l, name, bytes, bitWidth);
    ValidUnitary(l1);
    if l1.used == l1.base {
      PackedGoes(l1);
      PackedIs(l1);
      GoesTrans(l, l1, Packed(l1));
      ValidPlaced(l1, |l.names|);
      assert Placed(l1, x) && Placed(Packed(l1), x) && AddressOf(Packed(l1), x) == AddressOf(l1, x);
    }
  }

  lemma PackedIs(l: Layout)
    requires l.align > 0
    ensures var l1 := Packed(l);
      l1.names == l.names && l1.align == l.align && l1.width == MakeAlign(l1.offset, l1.align) && l1.used == 0
  {
  }

  lemma StructBitsGo(l: Layout, name: string, bytes: nat, bitWidth: nat)
    requires Valid(l) && l.isStruct && bytes in {1, 4} && bitWidth <= 8 * bytes
    ensures l.used > 0 ==> MakeAlign(l.used, 8) <= l.base
    ensures var l1, n := AddStructBits(l, name, bytes, bitWidth), |l.names|;
      && Goes(l, l1) && |l1.names| == n + (if bitWidth == 0 then 0 else 1)
      && (bitWidth > 0 ==> Drift(l1, l1.names[n]) == 0 && (l1.used == 0 || l1.used < l1.base))
  {
    hide Valid, Follows, BitSpace, MakeAlign, FirstUnit, SpaceBetween, UnitFor, AddToUnit, AddressOf, Placed, Core;
    ValidUnitary(l);
    if l.used > 0 { UpTo(l.used, l.base); }
    UnitNames(l, bytes, bitWidth);
    if bitWidth == 0 && l.used == 0 {
      FirstUnitGoes(l, bytes);
    } else if bitWidth == 0 {
      SpaceBetweenGoes(l);
      if bytes == 1 { GoesSame(l, l); }
    } else {
      UnitForGoes(l, bytes, bitWidth);
      AddToUnitGoes(UnitFor(l, bytes, bitWidth), name, bytes, bitWidth);
      GoesTrans(l, UnitFor(l, bytes, bitWidth), AddStructBits(l, name, bytes, bitWidth));
    }
  }

  lemma UnionBitsGo(l: Layout, name: string, bytes: nat, bitWidth: nat)
    requires Valid(l) && !l.isStruct && bytes in {1, 4}
    ensures var l1, n := AddUnionBits(l, name, bytes, bitWidth), |l.names|;
      && Goes(l, l1) && |l1.names| == n + (if bitWidth == 0 then 0 else 1)
      && (bitWidth > 0 ==> Drift(l1, l1.names[n]) == 0 && (l1.used == 0 || l1.used != l1.base))
  {
    hide Valid, Goes, MakeAlign, Larger, Placed, AddressOf;
    ValidUnitary(l);
    LargerAligned(l.elems, Elem(bytes, bytes, false));
    UnionGoes(l, AddUnionBits(l, name, bytes, bitWidth));
  }

  /** A bit-field is always recorded at its address. In a struct it never leaves a full unit open. */
  lemma AddBitFieldGoes(l: Layout, name: string, bytes: nat, bitWidth: nat)
    requires Valid(l) && bytes in {1, 4} && bitWidth <= 8 * bytes
    ensures l.isStruct && l.used > 0 ==> MakeAlign(l.used, 8) <= l.base
    ensures var l1, n := AddBitField(l, name, bytes, bitWidth), |l.names|;
      && Goes(l, l1) && |l1.names| == n + (if bitWidth == 0 then 0 else 1)
      && (bitWidth > 0 ==> Drift(l1, l1.names[n]) == 0 && (l1.used == 0 || l1.used != l1.base))
      && (l.isStruct && bitWidth > 0 ==> l1.used == 0 || l1.used < l1.base)
  {
    hide Valid, Follows, MakeAlign, AddStructBits, AddUnionBits, AddressOf, Placed, Core;
    ValidUnitary(l);
    var l1 := Raised(l, bytes, bitWidth);
    GoesSame(l, l1);
    if l.isStruct {
      StructBitsGo(l1, name, bytes, bitWidth);
      GoesTrans(l, l1, AddStructBits(l1, name, bytes, bitWidth));
    } else {
      UnionBitsGo(l1, name, bytes, bitWidth);
      GoesTrans(l, l1, AddUnionBits(l1, name, bytes, bitWidth));
    }
  }

  lemma UnitNames(l: Layout, bytes: nat, bitWidth: nat)
    requires l.align > 0 && (l.used > 0 ==> MakeAlign(l.used, 8) <= l.base)
    ensures UnitFor(l, bytes, bitWidth).names == l.names && FirstUnit(l, bytes).names == l.names
    ensures UnitFor(l, bytes, bitWidth).isStruct == l.isStruct
    ensures l.used > 0 ==> SpaceBetween(l).names == l.names
  {
  }

  lemma FinishGoes(l: Layout)
    requires Valid(l)
    ensures Goes(l, Finish(l)) && Finish(l).used == 0 && Finish(l).names == l.names && Ended(Complete(Finish(l)))
  {
    hide Valid, Follows, BeforeMember, AddressOf, IsPath;
    ValidUnitary(l);
    var l1 := Finish(l);
    if l.used == 0 { GoesSame(l, l); } else {
      var l2 := l.(align := Max(l.align, l.members[|l.members| - 1].bytes));
      GoesSame(l, l2);
      BeforeMemberGoes(l2);
      GoesTrans(l, l2, l1);
    }
    ValidUnitary(l1);
    forall i | 0 <= i < |l1.names| ensures Placed(l1, l1.names[i]) { ValidPlaced(l1, i); }
  }

  lemma ValidPlaced(l: Layout, i: nat)
    requires Valid(l) && i < |l.names|
    ensures Placed(l, l.names[i])
  {
  }
}