/** Where C's rules of packing, as the code follows them, put every member of a declaration. The rules are
    stated on the declared items alone: which bit-fields share a unit, where a unit begins, and which
    items raise the alignment. */
module StructPlaces {
  import opened Common
  import opened BitLayout
  import opened StructLayout
  import opened StructOffsets
  import opened StructRuns

  function Init(items: seq<Item>): seq<Item>
    requires items != []
  {
    items[..|items| - 1]
  }
  function Last(items: seq<Item>): Item
    requires items != []
  {
    items[|items| - 1]
  }

  /* Units. */

  /** The bits of the bit-fields from the `s`-th item on, and the size of the largest of their types. */
  function SumBits(items: seq<Item>, s: nat): nat {
    if |items| <= s then 0 else SumBits(Init(items), s) + if Last(items).BitField? then Last(items).bits else 0
  }
  function Room(items: seq<Item>, s: nat): nat {
    if |items| <= s then 0
    else Max(Room(Init(items), s), if Last(items).BitField? then 8 * Last(items).bytes else 0)
  }

  predicate IsField(it: Item) { it.BitField? && it.bits > 0 }

  /** The item whose bit-field opened the unit in which the last bit-field stands. */
  function UnitOf(items: seq<Item>): (s: nat)
    requires items != [] && IsField(Last(items))
    ensures s < |items|
    decreases |items|, 0
  {
    var u := OpenUnit(Init(items));
    if u.Some? && SumBits(items, u.value) <= Room(items, u.value) then u.value else |items| - 1
  }

  /** The item that opened the unit that can take more bits. An ordinary member ends it, and so does a
      bit-field of width zero, if its type is not a character type, and one that fills the unit. */
  function OpenUnit(items: seq<Item>): (s: Option<nat>)
    ensures s.Some? ==> s.value < |items|
    decreases |items|, 1
  {
    if items == [] || !Last(items).BitField? then None
    else if Last(items).bits == 0 then (if Last(items).bytes == 1 then OpenUnit(Init(items)) else None)
    else if SumBits(items, UnitOf(items)) == Room(items, UnitOf(items)) then None
    else Some(UnitOf(items))
  }

  /** The last item that has a member is no bit-field. */
  predicate AfterPlain(items: seq<Item>) {
    items != [] && (!Last(items).BitField? || (Last(items).bits == 0 && AfterPlain(Init(items))))
  }

  /* Alignment. */

  function ItemAlign(it: Item): (a: nat)
    requires it.Anonymous? ==> ItemsOK(it.isStruct, it.items)
  {
    match it
    case Ordinary(_, e) => e.align
    case Anonymous(inner, ds) => ElemOf(Build(inner, ds)).align
    case BitField(_, bytes, bits) => if bits == 0 || bits > 8 then bytes else 1
  }
  function AlignOf(isStruct: bool, items: seq<Item>): (a: nat)
    requires ItemsOK(isStruct, items)
    ensures a > 0
  {
    if items == [] then 1 else Max(AlignOf(isStruct, Init(items)), ItemAlign(Last(items)))
  }

  /* Bytes. */

  function Bytes(bits: nat): nat { (bits + 7) / 8 }

  /** Padding takes a width in bits that is passed as an 8-bit signed integer. */
  function Padded(n: nat, a: nat): nat
    requires a > 0
  {
    var gap := MakeAlign(n, a) - n;
    if gap == 0 then n else n + BitSpace(8 * gap)
  }

  /** The bytes of a unit that is left although it is not full. When nothing of it is unused, a byte of
      padding follows all the same. */
  function LeftBytes(used: nat, room: nat): nat {
    if 8 * Bytes(used) < room then room / 8 else Bytes(used) + 1
  }

  /** Where the open unit begins; without one, where the last element ends. */
  function Pos(items: seq<Item>): nat
    requires ItemsOK(true, items)
    decreases items, 1
  {
    if items == [] then 0 else
    match Last(items)
    case Ordinary(_, e) => Start(items) + e.size
    case Anonymous(inner, ds) => Start(items) + ElemOf(Build(inner, ds)).size
    case BitField(_, bytes, bits) =>
      if bits > 0 && OpenUnit(items).None? then Start(items) + Room(items, UnitOf(items)) / 8 else Start(items)
  }

  /** Where the last item begins: an ordinary member at the next multiple of its alignment, a bit-field with
      its unit. */
  function Start(items: seq<Item>): nat
    requires ItemsOK(true, items) && items != []
    decreases items, 0
  {
    var before, a, u := Init(items), AlignOf(true, items), OpenUnit(Init(items));
    match Last(items)
    case BitField(_, bytes, bits) =>
      if u.None? then (if AfterPlain(before) then Padded(Pos(before), a) else Pos(before))
      else if (if bits == 0 then bytes == 1 else UnitOf(items) == u.value) then Pos(before)
      else Pos(before) + LeftBytes(SumBits(before, u.value), if bits == 0 then Room(before, u.value)
        else Room(items, u.value))
    case it =>
      ItemAligned(it);
      MakeAlign(if u.None? then Pos(before) else Padded(Pos(before) + Bytes(SumBits(before,
        u.value)), a), ItemAlign(it))
  }

  lemma ItemAligned(it: Item)
    requires match it case Ordinary(_, e) => e.align > 0 case Anonymous(inner, ds) => ItemsOK(inner, ds)
      case BitField(_, bytes, _) => bytes > 0
    ensures ItemAlign(it) > 0
  {
    if it.Anonymous? { PositiveAlign(Build(it.isStruct, it.items).elems); }
  }

  /* The state of the layout. */

  predicate StateIs(l: Layout, items: seq<Item>)
    requires ItemsOK(true, items)
  {
    var u := OpenUnit(items);
    && l.align == AlignOf(true, items) && l.offset == Pos(items)
    && (LastIsPlain(l) <==> AfterPlain(items))
    && (l.used > 0 <==> u.Some?)
    && (u.Some? ==> l.used == SumBits(items, u.value) && l.base == Room(items, u.value))
  }

  lemma BytesIs(bits: nat)
    ensures MakeAlign(bits, 8) / 8 == Bytes(bits)
  {
  }

  /** Before an ordinary member. */
  lemma BeforeIs(l: Layout)
    requires l.align > 0 && l.isStruct
    ensures var l1 := BeforeMember(l);
      && l1.offset == (if l.used == 0 then l.offset else Padded(l.offset + Bytes(l.used), l.align))
      && l1.used == 0 && l1.members == l.members
  {
    hide BitSpace, MakeAlign, Bytes;
    if l.used > 0 {
      BytesIs(l.used);
      var n := l.offset + MakeAlign(l.used, 8) / 8;
      assert 8 * (MakeAlign(n, l.align) - n) == (MakeAlign(n, l.align) - n) * 8;
    }
  }

  lemma FirstUnitOffset(l: Layout, bytes: nat)
    requires l.align > 0
    ensures var l1 := FirstUnit(l, bytes);
      && l1.offset == (if LastIsPlain(l) then Padded(l.offset, l.align) else l.offset)
      && l1.used == l.used && l1.members == l.members && l1.align == l.align && l1.base == bytes * 8
      && l1.isStruct == l.isStruct
  {
    hide BitSpace, MakeAlign;
    var gap := MakeAlign(l.offset, l.align) - l.offset;
    assert 8 * gap == gap * 8;
    if LastIsPlain(l) && gap > 0 { SpacedIs(l.(width := MakeAlign(l.offset, l.align)), gap); }
  }

  lemma SpacedIs(l: Layout, bytes: nat)
    requires l.align > 0 && bytes > 0
    ensures var l1 := Spaced(l, bytes);
      && l1.offset == l.offset + BitSpace(8 * bytes)
      && l1.used == l.used && l1.members == l.members && l1.align == l.align && l1.isStruct == l.isStruct
  {
    hide BitSpace, MakeAlign;
    assert 8 * bytes == bytes * 8;
  }

  lemma SpaceBetweenIs(l: Layout)
    requires l.align > 0 && 0 < l.used <= l.base <= 32 && l.base % 8 == 0 && MakeAlign(l.used, 8) <= l.base
    ensures var l1 := SpaceBetween(l);
      && l1.offset == l.offset + LeftBytes(l.used, l.base)
      && l1.used == 0 && l1.members == l.members && l1.align == l.align && l1.isStruct == l.isStruct
  {
    BytesIs(l.used);
    var rest := l.base - MakeAlign(l.used, 8);
    assert MakeAlign(l.used, 8) == 8 * Bytes(l.used);
    assert rest % 8 == 0 && BitSpace(rest) == if rest == 0 then 1 else rest / 8;
  }

  /* The steps. */

  lemma {:induction false} PlainState(l: Layout, items: seq<Item>, e: Elem, names: seq<Entry>)
    requires ItemsOK(true, items) && items != [] && !Last(items).BitField? && l.isStruct && StateIs(l, Init(items))
    requires e.align > 0 && e == match Last(items) case Ordinary(_, e) => e case Anonymous(inner,
      ds) => ElemOf(Build(inner, ds)) case _ => e
    ensures var r := Ready(l, e.align); StateIs(WithPlain(r, MakeAlign(r.offset, e.align), e).(names := names), items)
  {
    hide MakeAlign, SumBits, Room, Build, ElemOf, Padded, WithElem;
    var r := Ready(l, e.align);
    BeforeIs(l.(align := Max(l.align, e.align)));
    ItemsInit(true, items);
    ItemAligned(Last(items));
    assert AlignOf(true, items) == Max(l.align, e.align) == r.align;
    assert Start(items) == MakeAlign(r.offset, e.align);
    assert Pos(items) == Start(items) + e.size;
    assert OpenUnit(items).None? && AfterPlain(items);
    var l1 := WithPlain(r, MakeAlign(r.offset, e.align), e).(names := names);
    assert l1.align == r.align && l1.used == 0 && LastIsPlain(l1) && l1.offset == Pos(items);
  }

  lemma ItemsInit(isStruct: bool, items: seq<Item>)
    requires ItemsOK(isStruct, items) && items != []
    ensures ItemsOK(isStruct, Init(items))
    ensures match Last(items)
      case Ordinary(_, e) => e.align > 0
      case Anonymous(inner, ds) => ItemsOK(inner, ds)
      case BitField(_, bytes, bits) => bytes in {1, 4} && bits <= 8 * bytes
  {
  }

  lemma {:induction false} RoomGrows(items: seq<Item>, s: nat)
    requires items != [] && s < |items|
    ensures Last(items).BitField? ==> SumBits(items, s) == SumBits(Init(items), s) + Last(items).bits
    ensures Last(items).BitField? ==> Room(items, s) == Max(Room(Init(items), s), 8 * Last(items).bytes)
    ensures s == |items| - 1 ==> SumBits(Init(items), s) == 0 && Room(Init(items), s) == 0
  {
  }

  lemma {:induction false} FieldState(l: Layout, items: seq<Item>)
    requires ItemsOK(true, items) && items != [] && IsField(Last(items))
    requires Valid(l) && l.isStruct && StateIs(l, Init(items))
    ensures (l.used > 0 ==> MakeAlign(l.used, 8) <= l.base)
    ensures StateIs(AddBitField(l, Last(items).name, Last(items).bytes, Last(items).bits), items)
  {
    hide MakeAlign, Padded, SumBits, Room, FirstUnit, SpaceBetween, Laid, Placed, Core, LeftBytes, UnitFor, AddToUnit;
    var name, bytes, bits := Last(items).name, Last(items).bytes, Last(items).bits;
    ItemsInit(true, items);
    ValidUnitary(l);
    ValidAligned(l);
    var l1 := Raised(l, bytes, bits);
    assert l1.used == l.used && l1.align == AlignOf(true, items);
    UnitIs(l1, items);
    var l2 := UnitFor(l1, bytes, bits);
    AddToUnitIs(l2, name, bytes, bits);
    var s := UnitOf(items);
    if SumBits(items, s) == Room(items, s) { assert OpenUnit(items).None?;
      assert Pos(items) == Start(items) + Room(items, s) / 8; }
    else { assert OpenUnit(items) == Some(s); assert Pos(items) == Start(items); }
    assert !AfterPlain(items);
  }

  /** The unit that the last bit-field is added to. */
  lemma {:induction false} UnitIs(l: Layout, items: seq<Item>)
    requires ItemsOK(true, items) && items != [] && IsField(Last(items))
    requires l.align == AlignOf(true, items) && (l.used > 0 ==> MakeAlign(l.used, 8) <= l.base)
      && Unitary(l) && l.isStruct
    requires StateIs(l.(align := AlignOf(true, Init(items))), Init(items))
    ensures var l1, s := UnitFor(l, Last(items).bytes, Last(items).bits), UnitOf(items);
      && l1.align == l.align && l1.members == l.members && l1.isStruct
      && l1.offset == Start(items) && l1.base == Room(items, s) && l1.used + Last(items).bits == SumBits(items, s)
  {
    hide MakeAlign, Padded, SumBits, Room, FirstUnit, SpaceBetween, LeftBytes;
    var bytes, bits, u := Last(items).bytes, Last(items).bits, OpenUnit(Init(items));
    RoomGrows(items, |items| - 1);
    if u.None? { FirstUnitOffset(l, bytes); }
    else {
      RoomGrows(items, u.value);
      var l1 := l.(base := Max(l.base, bytes * 8));
      assert l1.base == Room(items, u.value);
      if l1.used + bits > l1.base { SpaceBetweenIs(l1); }
    }
  }

  lemma AddToUnitIs(l: Layout, name: string, bytes: nat, bits: nat)
    requires l.align > 0 && bits > 0
    ensures var l1, m := AddToUnit(l, name, bytes, bits), Bits(l.index, l.used, bits, bytes);
      && l1.align == l.align && l1.members == l.members + [m] && l1.isStruct == l.isStruct
      && if l.used + bits == l.base then l1.used == 0 && l1.offset == l.offset + l.base / 8 && l1.index == l.index + 1
         else l1.used == l.used + bits && l1.base == l.base && l1.offset == l.offset && l1.index == l.index
  {
    hide MakeAlign;
  }

  lemma {:induction false} ZeroState(l: Layout, items: seq<Item>)
    requires ItemsOK(true, items) && items != [] && Last(items).BitField? && Last(items).bits == 0
    requires Valid(l) && l.isStruct && StateIs(l, Init(items))
    ensures (l.used > 0 ==> MakeAlign(l.used, 8) <= l.base)
      && StateIs(AddBitField(l, Last(items).name, Last(items).bytes, 0), items)
  {
    hide MakeAlign, Padded, SumBits, Room, FirstUnit, SpaceBetween, Laid, Placed, Core, LeftBytes;
    var bytes := Last(items).bytes;
    ItemsInit(true, items);
    ValidUnitary(l);
    ValidAligned(l);
    var l1 := Raised(l, bytes, 0);
    assert l1.used == l.used && l1.align == AlignOf(true, items);
    if l.used == 0 {
      FirstUnitOffset(l1, bytes);
      assert OpenUnit(items).None? && Pos(items) == Start(items) == FirstUnit(l1, bytes).offset;
      assert LastIsPlain(l) <==> AfterPlain(items);
      assert AddBitField(l, Last(items).name, bytes, 0) == FirstUnit(l1, bytes);
    } else {
      var u := OpenUnit(Init(items)).value;
      RoomGrows(items, u);
      SpaceBetweenIs(l1);
      if bytes == 1 {
        assert OpenUnit(items) == Some(u);
        assert Room(items, u) == l.base;
        assert Pos(items) == Start(items) == Pos(Init(items));
      } else {
        assert OpenUnit(items).None?;
        assert Start(items) == Pos(Init(items)) + LeftBytes(l.used, l.base);
        assert Pos(items) == Start(items);
      }
    }
  }

  /** What an item adds. */
  lemma {:induction false} RunStep(isStruct: bool, items: seq<Item>)
    requires ItemsOK(isStruct, items) && items != []
    ensures ItemsOK(isStruct, Init(items))
    ensures var l := Run(isStruct, Init(items));
      Valid(l) && l.isStruct == isStruct && l.align > 0 && (l.isStruct && l.used > 0 ==> MakeAlign(l.used, 8) <= l.base)
    ensures var l := Run(isStruct, Init(items));
      Run(isStruct, items) ==
      match Last(items)
      case Ordinary(name, e) => AddMember(l, name, e)
      case Anonymous(inner, ds) => MergeAnonymous(l, Build(inner, ds))
      case BitField(name, bytes, bits) => AddBitField(l, name, bytes, bits)
  {
    hide Valid, Follows, AddMember, MergeAnonymous, AddBitField, MakeAlign;
    ItemsInit(isStruct, items);
    ValidAligned(Run(isStruct, Init(items)));
  }

  /** In every declaration of a struct, the state of the layout is what the items say. */
  lemma {:induction false} RunState(items: seq<Item>)
    requires ItemsOK(true, items)
    ensures StateIs(Run(true, items), items)
    decreases |items|
  {
    hide Valid, Follows, AddBitField, MakeAlign, StateIs, WithPlain, Run, Build, Ready, ElemOf;
    if items == [] { EmptyState(); } else {
      RunStep(true, items);
      ItemsInit(true, items);
      RunState(Init(items));
      var l := Run(true, Init(items));
      match Last(items)
      case Ordinary(name, e) =>
        var r := Ready(l, e.align);
        PlainState(l, items, e, Run(true, items).names);
        AddMemberIs(l, name, e);
      case Anonymous(inner, ds) =>
        var d := Build(inner, ds);
        PositiveAlign(d.elems);
        MergeIs(l, d);
        PlainState(l, items, ElemOf(d), Run(true, items).names);
      case BitField(_, _, bits) => if bits == 0 { ZeroState(l, items); } else { FieldState(l, items); }
    }
  }

  lemma EmptyState()
    ensures StateIs(Run(true, []), [])
  {
  }

  lemma AddMemberIs(l: Layout, name: string, e: Elem)
    requires l.align > 0 && e.align > 0
    ensures var l1, r := AddMember(l, name, e), Ready(l, e.align);
      var start := MakeAlign(r.offset, e.align);
      && l1 == WithPlain(r, start, e).(names := l1.names)
      && l1.names == l.names + [Entry(name, start - r.spaces, r.index, [])]
      && l1.members == l.members + [Plain(r.index, e.size)] && l1.index == r.index + 1
  {
    hide MakeAlign, WithElem;
  }

  lemma MergeIs(l: Layout, d: Done)
    requires l.align > 0 && Aligned(d.elems)
    ensures ElemOf(d).align > 0
    ensures var e := ElemOf(d);
      var l1, r := MergeAnonymous(l, d), Ready(l, e.align);
      var start := MakeAlign(r.offset, e.align);
      && l1 == WithPlain(r, start, e).(names := l1.names)
      && l1.names == l.names + Lifted(d.names, d, start, r.index)
      && l1.members == l.members + [Plain(r.index, e.size)] && l1.index == r.index + 1
  {
    hide MakeAlign, WithElem, LLVMSize, MaxAlign;
    PositiveAlign(d.elems);
  }

  /* Names. */

  datatype Place = Place(name: string, at: nat)

  /** Every name, and the byte at which it stands. Those of an anonymous member stand in it. */
  function Places(isStruct: bool, items: seq<Item>): seq<Place>
    requires ItemsOK(isStruct, items)
    decreases items, 1
  {
    if items == [] then [] else Places(isStruct, Init(items)) + LastPlaces(isStruct, items)
  }
  function LastPlaces(isStruct: bool, items: seq<Item>): seq<Place>
    requires ItemsOK(isStruct, items) && items != []
    decreases items, 0
  {
    var start := if isStruct then Start(items) else 0;
    match Last(items)
    case Ordinary(name, _) => [Place(name, start)]
    case BitField(name, _, bits) => if bits == 0 then [] else [Place(name, start)]
    case Anonymous(inner, ds) => Shifted(Places(inner, ds), start)
  }
  function Shifted(ps: seq<Place>, n: nat): seq<Place> {
    seq(|ps|, i requires 0 <= i < |ps| => Place(ps[i].name, ps[i].at + n))
  }

  predicate NamesAre(l: Layout, ps: seq<Place>)
    requires Valid(l)
  {
    |l.names| == |ps| && forall i ::
        0 <= i < |ps| ==> l.names[i].name == ps[i].name && AddressOf(l, l.names[i]) == ps[i].at
  }

  lemma NamesGrow(l: Layout, l1: Layout, ps: seq<Place>, more: seq<Place>)
    requires Valid(l) && Goes(l, l1) && NamesAre(l, ps) && |l1.names| == |l.names| + |more|
    requires forall i :: 0 <= i < |more| ==> var x := l1.names[|l.names| + i];
      x.name == more[i].name && AddressOf(l1, x) == more[i].at
    ensures NamesAre(l1, ps + more)
  {
    hide AddressOf, Placed, Laid;
    forall i | 0 <= i < |l1.names|
      ensures l1.names[i].name == (ps + more)[i].name && AddressOf(l1, l1.names[i]) == (ps + more)[i].at {
      if i < |l.names| { assert Placed(l, l.names[i]); } else {
        assert l1.names[i] == l1.names[|l.names| + (i - |l.names|)]; }
    }
  }

  /** Where the finished members are. */
  predicate Stand(d: Done, ps: seq<Place>)
    requires Ended(d)
  {
    |d.names| == |ps| && forall i ::
        0 <= i < |ps| ==> d.names[i].name == ps[i].name && AddressIn(d, d.names[i]) == ps[i].at
  }

  lemma StandFinish(l: Layout, ps: seq<Place>)
    requires Valid(l) && NamesAre(l, ps)
    ensures Ended(Complete(Finish(l))) && Stand(Complete(Finish(l)), ps)
  {
    hide Finish, Laid, Addr, IsPath, PathAddr, AddressIn;
    FinishGoes(l);
    var l1 := Finish(l);
    forall i | 0 <= i < |l.names| ensures AddressIn(Complete(l1), l1.names[i]) == ps[i].at {
      assert Placed(l, l.names[i]) && Placed(l1, l1.names[i]);
      StepFirst(Complete(l1), l.names[i]);
    }
  }

  /** Where an item begins in the layout. */
  lemma {:induction false} StartIs(l: Layout, items: seq<Item>)
    requires ItemsOK(true, items) && items != [] && StateIs(l, Init(items)) && l.isStruct && Valid(l)
    ensures ItemAlign(Last(items)) > 0
    ensures !Last(items).BitField? ==>
        var a := ItemAlign(Last(items)); MakeAlign(Ready(l, a).offset, a) == Start(items)
    ensures Last(items).BitField? && Last(items).bits > 0 ==>
        && (l.used > 0 ==> MakeAlign(l.used, 8) <= l.base)
        && UnitFor(Raised(l, Last(items).bytes, Last(items).bits), Last(items).bytes,
          Last(items).bits).offset == Start(items)
  {
    hide MakeAlign, Padded, SumBits, Room, UnitFor, Laid, Placed, Core, Build, LLVMSize, MaxAlign, ElemOf, Pos;
    ItemsInit(true, items);
    ItemAligned(Last(items));
    ValidUnitary(l);
    ValidAligned(l);
    if !Last(items).BitField? { BeforeIs(l.(align := Max(l.align, ItemAlign(Last(items))))); }
    else if Last(items).bits > 0 { UnitIs(Raised(l, Last(items).bytes, Last(items).bits), items); }
  }

  lemma {:induction false} NamesOfMember(isStruct: bool, items: seq<Item>, l: Layout)
    requires ItemsOK(isStruct, items) && items != [] && Last(items).Ordinary? && Valid(l) && l.isStruct == isStruct
    requires isStruct ==> StateIs(l, Init(items))
    requires NamesAre(l, Places(isStruct, Init(items)))
    ensures Last(items).elem.align > 0
    ensures var l1 := AddMember(l, Last(items).name, Last(items).elem);
      Valid(l1) && NamesAre(l1, Places(isStruct, items))
  {
    hide Valid, Follows, AddMember, MakeAlign, Ready, NamesAre, StateIs, Start, AddressOf, Placed, ItemsOK;
    ItemsInit(isStruct, items);
    var e := Last(items).elem;
    ValidUnitary(l);
    AddMemberGoes(l, Last(items).name, e);
    AddMemberIs(l, Last(items).name, e);
    if isStruct { StartIs(l, items); } else { UnionStart(l, e.align); }
    NamesGrow(l, AddMember(l, Last(items).name, e), Places(isStruct, Init(items)), LastPlaces(isStruct, items));
  }

  lemma UnionStart(l: Layout, a: nat)
    requires Valid(l) && !l.isStruct && a > 0
    ensures MakeAlign(Ready(l, a).offset, a) == 0
  {
    ReadyGoes(l, a);
    ValidUnitary(l);
    ValidUnitary(Ready(l, a));
    ZeroAligned(a);
  }

  lemma {:induction false} NamesOfAnonymous(isStruct: bool, items: seq<Item>, l: Layout, d: Done)
    requires ItemsOK(isStruct, items) && items != [] && Last(items).Anonymous? && Valid(l) && l.isStruct == isStruct
    requires isStruct ==> StateIs(l, Init(items))
    requires NamesAre(l, Places(isStruct, Init(items)))
    requires d == Build(Last(items).isStruct, Last(items).items)
      && Stand(d, Places(Last(items).isStruct, Last(items).items))
    ensures Valid(MergeAnonymous(l, d)) && NamesAre(MergeAnonymous(l, d), Places(isStruct, items))
  {
    hide Valid, Follows, MergeAnonymous, MakeAlign, Ready, NamesAre, StateIs, Start, Placed,
      AddressIn, ElemOf, AddressOf,
      Build, Places, ItemsOK, IsPath;
    ItemsInit(isStruct, items);
    ValidUnitary(l);
    PositiveAlign(d.elems);
    MergeGoes(l, d);
    MergeIs(l, d);
    ValidUnitary(MergeAnonymous(l, d));
    var e := ElemOf(d);
    if isStruct { StartIs(l, items); } else { UnionStart(l, e.align); }
    PlacesIs(isStruct, items);
    NamesGrow(l, MergeAnonymous(l, d), Places(isStruct, Init(items)), LastPlaces(isStruct, items));
  }

  lemma PlacesIs(isStruct: bool, items: seq<Item>)
    requires ItemsOK(isStruct, items) && items != []
    ensures ItemsOK(isStruct, Init(items))
    ensures Places(isStruct, items) == Places(isStruct, Init(items)) + LastPlaces(isStruct, items)
  {
  }

  lemma AddBitsIs(l: Layout, name: string, bytes: nat, bits: nat)
    requires l.align > 0 && l.isStruct && (l.used > 0 ==> MakeAlign(l.used, 8) <= l.base) && bits > 0
    ensures var l1, u := AddBitField(l, name, bytes, bits), UnitFor(Raised(l, bytes, bits), bytes, bits);
      && l1.names == l.names + [Entry(name, u.offset, u.index, [])]
      && l1.members == l.members + [Bits(u.index, u.used, bits, bytes)]
      && l1.index == if u.used + bits == u.base then u.index + 1 else u.index
  {
    hide MakeAlign, BitSpace;
  }

  lemma AddUnionBitsIs(l: Layout, name: string, bytes: nat, bits: nat)
    requires l.align > 0 && !l.isStruct && bits > 0
    ensures var l1 := AddBitField(l, name, bytes, bits);
      && l1.names == l.names + [Entry(name, l.offset, l.index, [])]
      && l1.members == l.members + [Bits(l.index, 0, bits, bytes)]
  {
    hide MakeAlign, Larger;
  }

  lemma ZeroBitsIs(l: Layout, name: string, bytes: nat)
    requires l.align > 0 && (l.isStruct && l.used > 0 ==> MakeAlign(l.used, 8) <= l.base)
    ensures var l1 := AddBitField(l, name, bytes, 0); l1.names == l.names && l1.members == l.members
  {
    hide MakeAlign, BitSpace;
  }

  lemma {:induction false} NamesOfField(isStruct: bool, items: seq<Item>, l: Layout)
    requires ItemsOK(isStruct, items) && items != [] && Last(items).BitField? && Valid(l) && l.isStruct == isStruct
    requires isStruct ==> StateIs(l, Init(items))
    requires NamesAre(l, Places(isStruct, Init(items)))
    ensures isStruct && l.used > 0 ==> MakeAlign(l.used, 8) <= l.base
    ensures var l1 := AddBitField(l, Last(items).name, Last(items).bytes, Last(items).bits);
      Valid(l1) && NamesAre(l1, Places(isStruct, items))
  {
    hide Valid, Follows, AddBitField, MakeAlign, Ready, NamesAre, StateIs, Start, Placed, AddressOf, UnitFor, ItemsOK;
    ItemsInit(isStruct, items);
    var name, bytes, bits := Last(items).name, Last(items).bytes, Last(items).bits;
    ValidUnitary(l);
    AddBitFieldGoes(l, name, bytes, bits);
    if bits == 0 { ZeroBitsIs(l, name, bytes); }
    else if isStruct { AddBitsIs(l, name, bytes, bits); StartIs(l, items); }
    else { AddUnionBitsIs(l, name, bytes, bits); }
    NamesGrow(l, AddBitField(l, name, bytes, bits), Places(isStruct, Init(items)), LastPlaces(isStruct, items));
  }

  lemma {:induction false} RunNames(isStruct: bool, items: seq<Item>)
    requires ItemsOK(isStruct, items)
    ensures NamesAre(Run(isStruct, items), Places(isStruct, items))
    decreases items, 0
  {
    hide Valid, Follows, AddMember, MergeAnonymous, AddBitField, MakeAlign, NamesAre, StateIs,
      ItemsOK, Run, Build, Places,
      Stand;
    if items == [] { NoNames(isStruct); } else {
      ItemsInit(isStruct, items);
      RunStep(isStruct, items);
      RunNames(isStruct, Init(items));
      var l := Run(isStruct, Init(items));
      if isStruct { RunState(Init(items)); }
      match Last(items)
      case Ordinary(_, _) => NamesOfMember(isStruct, items, l);
      case BitField(_, _, _) => NamesOfField(isStruct, items, l);
      case Anonymous(inner, ds) =>
        MembersStand(inner, ds);
        NamesOfAnonymous(isStruct, items, l, Build(inner, ds));
    }
  }

  lemma NoNames(isStruct: bool)
    ensures ItemsOK(isStruct, []) && Valid(Run(isStruct, [])) && NamesAre(Run(isStruct, []), Places(isStruct, []))
  {
  }

  /** In every finished declaration, with anonymous members of any depth, the names are those declared and
      each stands where the rules put it. */
  lemma {:induction false} MembersStand(isStruct: bool, items: seq<Item>)
    requires ItemsOK(isStruct, items)
    ensures Stand(Build(isStruct, items), Places(isStruct, items))
    decreases items, 1
  {
    hide Valid, NamesAre, Stand, Finish;
    RunNames(isStruct, items);
    StandFinish(Run(isStruct, items), Places(isStruct, items));
  }

  /* Members. */

  /** What an item says of its member: the unit by the item that opened it, and the bits in it. */
  datatype Cell = Whole(size: nat) | Field(unit: nat, begin: nat, width: nat, bytes: nat)

  predicate HasMember(it: Item) { it.BitField? ==> it.bits > 0 }

  /** A bit-field of a union begins at its first bit; one of a struct, where those before it in the unit end. */
  function CellOf(isStruct: bool, items: seq<Item>): Cell
    requires ItemsOK(isStruct, items) && items != [] && HasMember(Last(items))
  {
    match Last(items)
    case Ordinary(_, e) => Whole(e.size)
    case Anonymous(inner, ds) => Whole(ElemOf(Build(inner, ds)).size)
    case BitField(_, bytes, bits) =>
      if isStruct then Field(UnitOf(items), SumBits(Init(items), UnitOf(items)), bits, bytes)
        else Field(0, 0, bits, bytes)
  }
  function Cells(isStruct: bool, items: seq<Item>): seq<Cell>
    requires ItemsOK(isStruct, items)
    decreases |items|
  {
    if items == [] then [] else
    Cells(isStruct, Init(items)) + if HasMember(Last(items)) then [CellOf(isStruct, items)] else []
  }

  predicate Matches(m: Member, c: Cell) {
    match c
    case Whole(size) => m.Plain? && m.size == size
    case Field(_, begin, width, bytes) => m.Bits? && m.begin == begin && m.width == width && m.bytes == bytes
  }
  predicate SameUnit(c: Cell, c1: Cell) { c.Field? && c1.Field? && c.unit == c1.unit }

  /** Members have the same element exactly when they are bit-fields of the same unit. */
  predicate InOrder(ms: seq<Member>, cs: seq<Cell>)
    requires |ms| == |cs|
  {
    forall i, j ::
        0 <= i < j < |ms| ==> ms[i].index <= ms[j].index && (ms[i].index == ms[j].index <==> SameUnit(cs[i], cs[j]))
  }

  predicate AllMatch(ms: seq<Member>, cs: seq<Cell>) {
    |ms| == |cs| && forall i :: 0 <= i < |ms| ==> Matches(ms[i], cs[i]) }

  /** The next element is that of the open unit. */
  predicate Ahead(ms: seq<Member>, cs: seq<Cell>, index: nat, u: Option<nat>)
    requires |ms| == |cs|
  {
    forall i :: 0 <= i < |ms| ==>
        ms[i].index <= index && (ms[i].index == index <==> u.Some? && cs[i].Field? && cs[i].unit == u.value)
  }

  predicate UnitsBelow(cs: seq<Cell>, n: nat) { forall i :: 0 <= i < |cs| ==> cs[i].Field? ==> cs[i].unit < n }

  predicate MembersAre(l: Layout, items: seq<Item>)
    requires ItemsOK(true, items)
  {
    var cs := Cells(true, items);
    AllMatch(l.members, cs) && InOrder(l.members, cs) && Ahead(l.members, cs, l.index, OpenUnit(items))
      && UnitsBelow(cs, |items|)
  }

  lemma MatchSnoc(ms: seq<Member>, cs: seq<Cell>, m: Member, c: Cell)
    requires AllMatch(ms, cs) && Matches(m, c)
    ensures AllMatch(ms + [m], cs + [c])
  {
  }

  lemma OrderSnoc(ms: seq<Member>, cs: seq<Cell>, m: Member, c: Cell)
    requires |ms| == |cs| && InOrder(ms, cs)
    requires forall i :: 0 <= i < |ms| ==> ms[i].index <= m.index && (ms[i].index == m.index <==> SameUnit(cs[i], c))
    ensures InOrder(ms + [m], cs + [c])
  {
  }

  /** A member in an element behind all others. */
  lemma NewElement(ms: seq<Member>, cs: seq<Cell>, m: Member, c: Cell, index: nat, u: Option<nat>, n: nat)
    requires AllMatch(ms, cs) && InOrder(ms, cs) && Ahead(ms, cs, index, u) && UnitsBelow(cs, n) && Matches(m, c)
    requires (if u.Some? then m.index > index else m.index >= index) && (c.Field? ==> c.unit == n)
    ensures AllMatch(ms + [m], cs + [c]) && InOrder(ms + [m], cs + [c]) && UnitsBelow(cs + [c], n + 1)
    ensures Ahead(ms + [m], cs + [c], m.index + 1, None)
    ensures c.Field? ==> Ahead(ms + [m], cs + [c], m.index, Some(n))
  {
    MatchSnoc(ms, cs, m, c);
    OrderSnoc(ms, cs, m, c);
  }

  /** A bit-field that joins the open unit. */
  lemma SameElement(ms: seq<Member>, cs: seq<Cell>, m: Member, c: Cell, s: nat, n: nat)
    requires AllMatch(ms, cs) && InOrder(ms, cs) && Ahead(ms, cs, m.index, Some(s))
      && UnitsBelow(cs, n) && Matches(m, c)
    requires c.Field? && c.unit == s < n
    ensures AllMatch(ms + [m], cs + [c]) && InOrder(ms + [m], cs + [c]) && UnitsBelow(cs + [c], n + 1)
    ensures Ahead(ms + [m], cs + [c], m.index + 1, None) && Ahead(ms + [m], cs + [c], m.index, Some(s))
  {
    MatchSnoc(ms, cs, m, c);
    OrderSnoc(ms, cs, m, c);
  }

  lemma ReadyIndex(l: Layout, align: nat)
    requires l.align > 0
    ensures var r := Ready(l, align); if l.isStruct && l.used > 0 then r.index > l.index else r.index >= l.index
  {
    hide MakeAlign, BitSpace;
  }

  lemma UnitIndex(l: Layout, bytes: nat, bits: nat)
    requires l.align > 0 && (l.used > 0 ==> MakeAlign(l.used, 8) <= l.base)
    ensures var u := UnitFor(l, bytes, bits);
      if l.used == 0 then u.used == 0 && u.index >= l.index
      else if l.used + bits > Max(l.base, bytes * 8) then u.used == 0 && u.index > l.index
      else u.used == l.used && u.index == l.index
  {
    hide MakeAlign, BitSpace;
  }

  lemma ZeroIndex(l: Layout, name: string, bytes: nat)
    requires l.align > 0 && l.isStruct && (l.used > 0 ==> MakeAlign(l.used, 8) <= l.base)
    ensures var l1 := AddBitField(l, name, bytes, 0);
      if l.used > 0 && bytes == 1 then l1.index == l.index
      else if l.used > 0 then l1.index > l.index else l1.index >= l.index
  {
    hide MakeAlign, BitSpace;
  }

  lemma MembersMore(l: Layout, items: seq<Item>)
    requires ItemsOK(true, items) && items != [] && MembersAre(l, Init(items))
    ensures |Cells(true, Init(items))| == |l.members|
    ensures HasMember(Last(items)) ==> Cells(true, items) == Cells(true, Init(items)) + [CellOf(true, items)]
    ensures !HasMember(Last(items)) ==> Cells(true, items) == Cells(true, Init(items))
  {
    hide CellOf;
  }

  lemma {:induction false} PlainMember(l: Layout, l1: Layout, items: seq<Item>, size: nat, align: nat)
    requires ItemsOK(true, items) && items != [] && !Last(items).BitField? && Valid(l) && l.isStruct
    requires MembersAre(l, Init(items)) && StateIs(l, Init(items)) && CellOf(true, items) == Whole(size)
    requires var r := Ready(l, align); l1.members == l.members + [Plain(r.index, size)] && l1.index == r.index + 1
    ensures MembersAre(l1, items)
  {
    hide Ready, Ahead, InOrder, AllMatch, UnitsBelow, CellOf, ItemsOK, Valid;
    ItemsInit(true, items);
    ValidUnitary(l);
    ReadyIndex(l, align);
    MembersMore(l, items);
    var m := l1.members[|l.members|];
    NewElement(l.members, Cells(true, Init(items)), m, Whole(size), l.index, OpenUnit(Init(items)), |Init(items)|);
  }

  lemma {:induction false} FieldMember(l: Layout, items: seq<Item>)
    requires ItemsOK(true, items) && items != [] && IsField(Last(items)) && Valid(l) && l.isStruct
    requires MembersAre(l, Init(items)) && StateIs(l, Init(items))
    ensures (l.used > 0 ==> MakeAlign(l.used, 8) <= l.base)
    ensures MembersAre(AddBitField(l, Last(items).name, Last(items).bytes, Last(items).bits), items)
  {
    hide MakeAlign, AddBitField, UnitFor, Ahead, InOrder, AllMatch, UnitsBelow, Valid, SumBits, Room;
    var name, bytes, bits := Last(items).name, Last(items).bytes, Last(items).bits;
    ValidUnitary(l);
    ValidAligned(l);
    var l0 := Raised(l, bytes, bits);
    AddBitsIs(l, name, bytes, bits);
    UnitIndex(l0, bytes, bits);
    RaisedState(l, items);
    UnitIs(l0, items);
    var v, u, s := UnitFor(l0, bytes, bits), OpenUnit(Init(items)), UnitOf(items);
    var m, c := Bits(v.index, v.used, bits, bytes), CellOf(true, items);
    RoomGrows(items, s);
    if u.Some? { RoomGrows(items, u.value); }
    MembersMore(l, items);
    if u.Some? && s == u.value { SameElement(l.members, Cells(true, Init(items)), m, c, s, |Init(items)|); }
    else { NewElement(l.members, Cells(true, Init(items)), m, c, l.index, u, |Init(items)|); }
  }

  lemma RaisedState(l: Layout, items: seq<Item>)
    requires ItemsOK(true, items) && items != [] && IsField(Last(items)) && StateIs(l, Init(items))
    ensures Raised(l, Last(items).bytes, Last(items).bits).align == AlignOf(true, items)
    ensures StateIs(Raised(l, Last(items).bytes, Last(items).bits).(align := AlignOf(true, Init(items))), Init(items))
  {
    hide Pos, OpenUnit, SumBits, Room;
  }

  lemma {:induction false} ZeroMember(l: Layout, items: seq<Item>)
    requires ItemsOK(true, items) && items != [] && Last(items).BitField? && Last(items).bits == 0
      && Valid(l) && l.isStruct
    requires MembersAre(l, Init(items)) && StateIs(l, Init(items))
    ensures (l.used > 0 ==> MakeAlign(l.used, 8) <= l.base)
    ensures MembersAre(AddBitField(l, Last(items).name, Last(items).bytes, 0), items)
  {
    hide MakeAlign, AddBitField, InOrder, AllMatch, Valid, SumBits, Room;
    ItemsInit(true, items);
    ValidUnitary(l);
    ValidAligned(l);
    ZeroBitsIs(l, Last(items).name, Last(items).bytes);
    ZeroIndex(l, Last(items).name, Last(items).bytes);
    MembersMore(l, items);
  }

  lemma {:induction false} RunMembers(items: seq<Item>)
    requires ItemsOK(true, items)
    ensures MembersAre(Run(true, items), items)
    decreases |items|
  {
    hide Valid, AddBitField, AddMember, MergeAnonymous, MakeAlign, StateIs, Run, Build, Ready, ElemOf, MembersAre;
    if items == [] { NoMembers(); } else {
      RunStep(true, items);
      ItemsInit(true, items);
      RunMembers(Init(items));
      RunState(Init(items));
      var l := Run(true, Init(items));
      match Last(items)
      case Ordinary(name, e) =>
        AddMemberIs(l, name, e);
        PlainMember(l, Run(true, items), items, e.size, e.align);
      case Anonymous(inner, ds) =>
        var d := Build(inner, ds);
        MergeIs(l, d);
        PlainMember(l, Run(true, items), items, ElemOf(d).size, ElemOf(d).align);
      case BitField(_, _, bits) => if bits == 0 { ZeroMember(l, items); } else { FieldMember(l, items); }
    }
  }

  lemma NoMembers()
    ensures MembersAre(Run(true, []), [])
  {
  }

  lemma {:induction false} UnionMembers(items: seq<Item>)
    requires ItemsOK(false, items)
    ensures AllMatch(Run(false, items).members, Cells(false, items))
    decreases |items|
  {
    hide Valid, AddBitField, AddMember, MergeAnonymous, MakeAlign, Run, Build, Ready, ElemOf, ItemsOK, AllMatch;
    if items == [] { NoneYet(); } else {
      RunStep(false, items);
      ItemsInit(false, items);
      UnionMembers(Init(items));
      var l := Run(false, Init(items));
      var cs := Cells(false, Init(items));
      match Last(items)
      case Ordinary(name, e) =>
        AddMemberIs(l, name, e);
        MatchSnoc(l.members, cs, Plain(Ready(l, e.align).index, e.size), CellOf(false, items));
      case Anonymous(inner, ds) =>
        var d := Build(inner, ds);
        MergeIs(l, d);
        MatchSnoc(l.members, cs, Plain(Ready(l, ElemOf(d).align).index, ElemOf(d).size), CellOf(false, items));
      case BitField(name, bytes, bits) =>
        if bits == 0 {
          ZeroBitsIs(l, name, bytes);
          assert cs + [] == cs;
        } else {
          AddUnionBitsIs(l, name, bytes, bits);
          MatchSnoc(l.members, cs, Bits(l.index, 0, bits, bytes), CellOf(false, items));
        }
    }
  }

  lemma NoneYet()
    ensures ItemsOK(false, []) && AllMatch(Run(false, []).members, Cells(false, []))
  {
  }

  /** In every declaration the members are those of the items: sizes, widths and types as declared, a bit-field
      of a struct behind the others of its unit, and one of a union at the first bit. In a struct, members have
      the same element exactly when they are bit-fields of the same unit. */
  lemma MembersPacked(isStruct: bool, items: seq<Item>)
    requires ItemsOK(isStruct, items)
    ensures var ms, cs := Run(isStruct, items).members, Cells(isStruct, items);
      AllMatch(ms, cs) && (isStruct ==> InOrder(ms, cs))
  {
    hide Run, Cells;
    if isStruct { RunMembers(items); } else { UnionMembers(items); }
  }

  /* One bit-field behind another. */

  /** Between the items, nothing has a member and nothing ends a unit. */
  predicate NothingBetween(items: seq<Item>, j: nat, k: nat) {
    forall i :: j < i < k && i < |items| ==> items[i].BitField? && items[i].bits == 0 && items[i].bytes == 1
  }

  /** The unit behind the `j`-th item, which is a bit-field, as long as nothing ends it. */
  lemma {:induction false} UnitStays(items: seq<Item>, j: nat)
    requires j < |items| && IsField(items[j]) && (forall i :: j < i < |items| ==> !IsField(items[i]))
    ensures OpenUnit(items) == if NothingBetween(items, j, |items|) then OpenUnit(items[..j + 1]) else None
    decreases |items|
  {
    var n := |items|;
    if j + 1 == n { assert items[..n] == items; } else {
      var init := Init(items);
      assert forall i :: j < i < n - 1 ==> init[i] == items[i];
      UnitStays(init, j);
      assert init[..j + 1] == items[..j + 1];
      assert NothingBetween(items, j, n) <==>
          NothingBetween(init, j, n - 1) && Last(items).BitField? && Last(items).bytes == 1;
    }
  }

  lemma {:induction false} SumStays(items: seq<Item>, j: nat, s: nat)
    requires s <= j < |items| && forall i :: j < i < |items| ==> !IsField(items[i])
    ensures SumBits(items, s) == SumBits(items[..j + 1], s)
    decreases |items|
  {
    var n := |items|;
    if j + 1 == n { assert items[..n] == items; } else {
      assert forall i :: j < i < n - 1 ==> Init(items)[i] == items[i];
      SumStays(Init(items), j, s);
      assert Init(items)[..j + 1] == items[..j + 1];
    }
  }

  /** The place of an item among the members. */
  function MemberNo(isStruct: bool, items: seq<Item>, k: nat): nat
    requires ItemsOK(isStruct, items) && k <= |items|
  {
    PrefixOK(isStruct, items, k);
    |Cells(isStruct, items[..k])|
  }

  lemma {:induction false} PrefixOK(isStruct: bool, items: seq<Item>, k: nat)
    requires ItemsOK(isStruct, items) && k <= |items|
    ensures ItemsOK(isStruct, items[..k])
    decreases |items|
  {
    if k == |items| { assert items[..k] == items; } else {
      ItemsInit(isStruct, items);
      PrefixOK(isStruct, Init(items), k);
      assert Init(items)[..k] == items[..k];
    }
  }

  lemma {:induction false} CellAt(isStruct: bool, items: seq<Item>, k: nat)
    requires ItemsOK(isStruct, items) && k < |items| && HasMember(items[k])
    ensures ItemsOK(isStruct, items[..k + 1]) && MemberNo(isStruct, items, k) < |Cells(isStruct, items)|
    ensures Cells(isStruct, items)[MemberNo(isStruct, items, k)] == CellOf(isStruct, items[..k + 1])
    decreases |items|
  {
    hide CellOf, ItemsOK;
    PrefixOK(isStruct, items, k + 1);
    PrefixOK(isStruct, items, k);
    if k + 1 == |items| { assert items[..k + 1] == items && Init(items) == items[..k]; } else {
      ItemsInit(isStruct, items);
      CellAt(isStruct, Init(items), k);
      assert Init(items)[..k] == items[..k] && Init(items)[..k + 1] == items[..k + 1];
    }
  }

  lemma {:induction false} NumbersGrow(isStruct: bool, items: seq<Item>, j: nat, k: nat)
    requires ItemsOK(isStruct, items) && j < k <= |items| && HasMember(items[j])
    ensures MemberNo(isStruct, items, j) < MemberNo(isStruct, items, k)
    decreases k
  {
    hide CellOf, ItemsOK;
    PrefixOK(isStruct, items, k);
    PrefixOK(isStruct, items, k - 1);
    PrefixOK(isStruct, items, j);
    assert Init(items[..k]) == items[..k - 1] && Last(items[..k]) == items[k - 1];
    if k - 1 > j { NumbersGrow(isStruct, items, j, k - 1); }
  }

  /** The bit-field `k` goes on in the unit of the bit-field `j` before it. */
  predicate GoesOn(items: seq<Item>, j: nat, k: nat)
    requires j < k < |items| && IsField(items[j])
  {
    var s := UnitOf(items[..j + 1]);
    && NothingBetween(items, j, k)
    && SumBits(items[..j + 1], s) < Room(items[..j + 1], s)
    && SumBits(items[..k + 1], s) <= Room(items[..k + 1], s)
  }

  lemma {:induction false} UnitNext(items: seq<Item>, j: nat, k: nat)
    requires j < k < |items| && IsField(items[j]) && IsField(items[k]) && forall i :: j < i < k ==> !IsField(items[i])
    requires SumBits(items[..j + 1], UnitOf(items[..j + 1])) <= Room(items[..j + 1], UnitOf(items[..j + 1]))
    ensures UnitOf(items[..k + 1]) == if GoesOn(items, j, k) then UnitOf(items[..j + 1]) else k
    ensures SumBits(items[..k], k) == 0
    ensures SumBits(items[..k], UnitOf(items[..j + 1])) ==
      SumBits(items[..j], UnitOf(items[..j + 1])) + items[j].bits
  {
    hide SumBits, Room;
    var to, upto := items[..k], items[..k + 1];
    assert Init(upto) == to && Last(upto) == items[k];
    assert to[..j + 1] == items[..j + 1] && Init(items[..j + 1]) == items[..j] && Last(items[..j + 1]) == items[j];
    UnitStays(to, j);
    SumStays(to, j, UnitOf(items[..j + 1]));
    RoomGrows(items[..j + 1], UnitOf(items[..j + 1]));
    RoomGrows(upto, k);
    assert NothingBetween(to, j, k) <==> NothingBetween(items, j, k);
  }

  /** No unit is more than full. */
  lemma {:induction false} UnitFits(items: seq<Item>)
    requires ItemsOK(true, items) && items != [] && IsField(Last(items))
    ensures SumBits(items, UnitOf(items)) <= Room(items, UnitOf(items))
  {
    ItemsInit(true, items);
    RoomGrows(items, |items| - 1);
  }

  /** A bit-field has the element of the bit-field before it, and begins where that one ends, exactly when only
      zero-width ones of character type lie between, the unit was not full, and all its bits so far fit the
      largest of their types. Otherwise it begins an element behind. */
  lemma {:induction false} SharesUnitExactly(items: seq<Item>, j: nat, k: nat)
    requires ItemsOK(true, items) && j < k < |items|
    requires IsField(items[j]) && IsField(items[k]) && forall i :: j < i < k ==> !IsField(items[i])
    ensures var ms, a, b := Run(true, items).members, MemberNo(true, items, j), MemberNo(true, items, k);
      && a < b < |ms| && ms[a].Bits? && ms[b].Bits?
      && (ms[b].index == ms[a].index <==> GoesOn(items, j, k))
      && ms[b].index >= ms[a].index
      && ms[b].begin == if GoesOn(items, j, k) then ms[a].begin + ms[a].width else 0
  {
    hide Run, Cells, GoesOn, SumBits, Room, ItemsOK, UnitOf;
    var a, b := MemberNo(true, items, j), MemberNo(true, items, k);
    MembersPacked(true, items);
    CellAt(true, items, j);
    CellAt(true, items, k);
    NumbersGrow(true, items, j, k);
    var upto, to := items[..j + 1], items[..k + 1];
    assert Last(upto) == items[j] && Last(to) == items[k] && Init(upto) == items[..j] && Init(to) == items[..k];
    UnitFits(upto);
    UnitNext(items, j, k);
    assert Matches(Run(true, items).members[a], Cells(true, items)[a]);
    assert Matches(Run(true, items).members[b], Cells(true, items)[b]);
  }

  /* Alignment. */

  /** The alignment that is asked for is the least that all items agree with: a bit-field counts when it has no
      width, or more bits than a byte. */
  lemma {:induction false} AlignIs(isStruct: bool, items: seq<Item>)
    requires ItemsOK(isStruct, items)
    ensures Run(isStruct, items).align == AlignOf(isStruct, items)
    decreases |items|
  {
    hide Valid, MakeAlign, BitSpace, ItemsOK, Run, Build;
    if items == [] { EmptyAlign(isStruct); } else {
      RunStep(isStruct, items);
      ItemsInit(isStruct, items);
      AlignIs(isStruct, Init(items));
      var l := Run(isStruct, Init(items));
      match Last(items)
      case Ordinary(name, e) => AddMemberIs(l, name, e); BeforeAlign(l, e.align);
      case Anonymous(inner, ds) => MergeIs(l, Build(inner, ds)); BeforeAlign(l, ElemOf(Build(inner, ds)).align);
      case BitField(name, bytes, bits) => BitsAlign(l, name, bytes, bits);
    }
  }

  lemma EmptyAlign(isStruct: bool)
    ensures ItemsOK(isStruct, []) && Run(isStruct, []).align == 1
  {
  }

  lemma BeforeAlign(l: Layout, a: nat)
    requires l.align > 0
    ensures Ready(l, a).align == Max(l.align, a)
  {
  }

  lemma BitsAlign(l: Layout, name: string, bytes: nat, bits: nat)
    requires l.align > 0 && (l.isStruct && l.used > 0 ==> MakeAlign(l.used, 8) <= l.base)
    ensures AddBitField(l, name, bytes, bits).align == Max(l.align, if bits == 0 || bits > 8 then bytes else 1)
  {
    hide MakeAlign, BitSpace, Larger;
  }

  /** The bytes of the type of the last bit-field. */
  function LastBytes(items: seq<Item>): nat {
    if items == [] then 1 else if IsField(Last(items)) then Last(items).bytes else LastBytes(Init(items))
  }

  lemma {:induction false} LastBytesIs(items: seq<Item>)
    requires ItemsOK(true, items) && OpenUnit(items).Some?
    ensures var ms := Run(true, items).members; ms != [] && ms[|ms| - 1].Bits? && ms[|ms| - 1].bytes == LastBytes(items)
    decreases |items|
  {
    hide Run, CellOf, InOrder, SumBits, Room;
    RunMembers(items);
    var ms, cs := Run(true, items).members, Cells(true, items);
    LastCell(items);
    assert Matches(ms[|ms| - 1], cs[|cs| - 1]);
  }

  lemma {:induction false} LastCell(items: seq<Item>)
    requires ItemsOK(true, items) && OpenUnit(items).Some?
    ensures var cs := Cells(true, items); cs != [] && cs[|cs| - 1].Field? && cs[|cs| - 1].bytes == LastBytes(items)
    decreases |items|
  {
    hide SumBits, Room, UnitOf;
    ItemsInit(true, items);
    if !IsField(Last(items)) { LastCell(Init(items)); }
  }

  /** Where a finished struct ends: an open unit is padded to the alignment that counts the last bit-field. */
  function EndOf(items: seq<Item>): nat
    requires ItemsOK(true, items)
  {
    var u := OpenUnit(items);
    if u.None? then Pos(items)
    else Padded(Pos(items) + Bytes(SumBits(items, u.value)), Max(AlignOf(true, items), LastBytes(items)))
  }

  lemma {:induction false} EndIs(items: seq<Item>)
    requires ItemsOK(true, items)
    ensures var l := Finish(Run(true, items)); Aligned(l.elems) && End(l.elems) == EndOf(items)
    ensures Finish(Run(true, items)).align ==
      if OpenUnit(items).None? then AlignOf(true, items) else Max(AlignOf(true, items), LastBytes(items))
  {
    hide Valid, Run, MakeAlign, BitSpace, SumBits, Room, Pos, LastBytes, OpenUnit;
    var l := Run(true, items);
    RunState(items);
    ValidUnitary(l);
    FinishGoes(l);
    ValidUnitary(Finish(l));
    if l.used > 0 {
      LastBytesIs(items);
      BeforeIs(l.(align := Max(l.align, LastBytes(items))));
    }
  }

  /** Padding reaches the next multiple of the alignment exactly when it is less than sixteen bytes: its
      width in bits is an 8-bit number. */
  lemma PaddedExactly(n: nat, a: nat)
    requires a > 0
    ensures Padded(n, a) == MakeAlign(n, a) <==> MakeAlign(n, a) - n < 16
  {
    hide MakeAlign, BitSpace;
    var gap := MakeAlign(n, a) - n;
    if gap > 0 { SpaceExactly(gap); }
  }

  lemma SpaceExactly(gap: nat)
    requires gap > 0
    ensures BitSpace(8 * gap) == gap <==> gap < 16
  {
  }

  /** `struct { int a : 16; int b : 16; }` is one unit. */
  lemma TwoHalves()
    ensures var items := [BitField("a", 4, 16), BitField("b", 4, 16)];
      && ItemsOK(true, items) && GoesOn(items, 0, 1) && UnitOf(items[..1]) == 0 && EndOf(items) == 4
  {
    var items := [BitField("a", 4, 16), BitField("b", 4, 16)];
    var one := items[..1];
    assert Init(items) == one && Init(one) == [] && items[..2] == items;
    assert ItemsOK(true, []) && ItemsOK(true, one);
    assert SumBits(one, 0) == 16 && Room(one, 0) == 32 && SumBits(items, 0) == 32 && Room(items, 0) == 32;
    assert OpenUnit([]).None? && UnitOf(one) == 0 && OpenUnit(one) == Some(0) && UnitOf(items) == 0
      && OpenUnit(items).None?;
    assert Pos([]) == 0 && Start(one) == 0 && Pos(one) == 0 && Start(items) == 0;
  }

  /** `struct { int a : 25; int b : 8; }`: no bit of the first unit's four bytes is left for padding, and one byte
      follows it all the same, so b stands at 5. */
  lemma PaddedForNothing()
    ensures var items := [BitField("a", 4, 25), BitField("b", 4, 8)];
      && ItemsOK(true, items) && !GoesOn(items, 0, 1) && Places(true, items) == [Place("a", 0), Place("b", 5)]
  {
    var items := [BitField("a", 4, 25), BitField("b", 4, 8)];
    var one := items[..1];
    assert Init(items) == one && Init(one) == [] && items[..2] == items;
    assert ItemsOK(true, []) && ItemsOK(true, one);
    assert SumBits(one, 0) == 25 && Room(one, 0) == 32 && SumBits(items, 0) == 33 && Room(items, 0) == 32;
    assert OpenUnit([]).None? && UnitOf(one) == 0 && OpenUnit(one) == Some(0) && UnitOf(items) == 1;
    assert Pos([]) == 0 && Start(one) == 0 && Pos(one) == 0 && LeftBytes(25, 32) == 5 && Start(items) == 5;
    assert Places(true, []) == [] && Places(true, one) == [Place("a", 0)];
  }

  /* The element of a union. */

  function ItemElem(it: Item): Elem
    requires match it case Ordinary(_, _) => true case Anonymous(inner, ds) => ItemsOK(inner, ds) case _ => false
  {
    match it
    case Ordinary(_, e) => e
    case Anonymous(inner, ds) => var es := Build(inner, ds).elems; Elem(LLVMSize(es), MaxAlign(es), true)
  }

  predicate Ordinaries(items: seq<Item>)
    decreases items
  {
    forall i ::
        0 <= i < |items| ==> !items[i].BitField? && (items[i].Anonymous? ==> ItemsOK(items[i].isStruct, items[i].items))
  }

  /** The `k`-th element is the one that is kept: the first of the largest, and a struct only if all of the
      largest are structs. */
  predicate Kept(items: seq<Item>, k: nat)
    requires Ordinaries(items) && k < |items|
  {
    var e := ItemElem(items[k]);
    && (forall j :: 0 <= j < |items| ==> ItemElem(items[j]).size <= e.size)
    && (forall j :: 0 <= j < k && ItemElem(items[j]).size == e.size ==> ItemElem(items[j]).agg && !e.agg)
    && (forall j :: 0 <= j < |items| && ItemElem(items[j]).size == e.size && e.agg ==> ItemElem(items[j]).agg)
  }

  /** So it is in every union without bit-fields of its own. */
  lemma {:induction false} UnionElement(items: seq<Item>) returns (k: nat)
    requires ItemsOK(false, items) && Ordinaries(items) && items != []
    ensures k < |items| && Kept(items, k) && Run(false, items).elems == [ItemElem(items[k])]
    ensures Run(false, items).used == 0
    decreases |items|
  {
    hide Kept, Run, ItemElem;
    var init := Init(items);
    UnionNext(items);
    if init == [] {
      NoElems();
      k := 0;
      KeptFirst(items);
    } else {
      k := UnionElement(init);
      KeptNext(items, k);
      var e := ItemElem(Last(items));
      assert [ItemElem(init[k])][0 := e] == [e];
      if Replaces(ItemElem(init[k]), e) { k := |items| - 1; }
    }
  }

  lemma KeptFirst(items: seq<Item>)
    requires Ordinaries(items) && |items| == 1
    ensures Kept(items, 0)
  {
    hide Build, ElemOf;
  }

  lemma UnionNext(items: seq<Item>)
    requires ItemsOK(false, items) && Ordinaries(items) && items != []
    ensures ItemsOK(false, Init(items)) && Ordinaries(Init(items))
    ensures var l, l1, e := Run(false, Init(items)), Run(false, items), ItemElem(Last(items));
      l.used == 0 ==> l1.used == 0 && l1.elems == if l.elems == [] then [e]
        else if Replaces(l.elems[|l.elems| - 1], e) then l.elems[|l.elems| - 1 := e] else l.elems
  {
    hide Valid, AddMember, MergeAnonymous, MakeAlign, Run, Build, LLVMSize, MaxAlign, ItemsOK, WithPlain, Ready;
    assert forall j :: 0 <= j < |Init(items)| ==> Init(items)[j] == items[j];
    assert !Last(items).BitField?;
    RunStep(false, items);
    ItemsInit(false, items);
    var l := Run(false, Init(items));
    match Last(items)
    case Ordinary(name, e) => AddMemberIs(l, name, e); if l.used == 0 { UnionAdds(l, e); }
    case Anonymous(inner, ds) => MergeIs(l, Build(inner, ds));
      if l.used == 0 { UnionAdds(l, ElemOf(Build(inner, ds))); }
  }

  predicate Replaces(back: Elem, e: Elem) { back.size < e.size || (back.size == e.size && back.agg && !e.agg) }

  lemma KeptNext(items: seq<Item>, k: nat)
    requires Ordinaries(items) && k + 1 < |items| && Kept(Init(items), k)
    ensures items[k] == Init(items)[k]
    ensures Kept(items, if Replaces(ItemElem(items[k]), ItemElem(Last(items))) then |items| - 1 else k)
  {
    hide Build, ElemOf;
    var init := Init(items);
    assert forall j :: 0 <= j < |init| ==> init[j] == items[j];
    assert forall j :: 0 <= j < |init| ==> ItemElem(items[j]) == ItemElem(init[j]);
  }

  lemma NoElems()
    ensures ItemsOK(false, []) && Run(false, []).elems == [] && Run(false, []).used == 0
  {
  }

  lemma UnionAdds(l: Layout, e: Elem)
    requires l.align > 0 && !l.isStruct && l.used == 0 && e.align > 0
    ensures var r := Ready(l, e.align);
      var l1 := WithPlain(r, MakeAlign(r.offset, e.align), e);
      l1.used == 0 && l1.elems == if l.elems == [] then [e]
        else if Replaces(l.elems[|l.elems| - 1], e) then l.elems[|l.elems| - 1 := e] else l.elems
  {
    hide MakeAlign;
  }
}
