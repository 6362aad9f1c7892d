/** The layout of a struct or union while its members are added, as functions on its state. */
module StructLayout {
  import opened BitLayout

  /** `spaces` counts the bytes that were put behind bit-fields to reach an aligned end. */
  datatype Layout = Layout(
    isStruct: bool,
    align: nat,
    offset: nat,
    width: nat,
    index: nat,
    used: nat,
    base: nat,
    spaces: nat,
    elems: seq<Elem>,
    members: seq<Member>,
    names: seq<Entry>)

  /** A finished struct or union. */
  datatype Done = Done(isStruct: bool, elems: seq<Elem>, names: seq<Entry>)

  function Empty(isStruct: bool): Layout { Layout(isStruct, 1, 0, 0, 0, 0, 0, 0, [], [], []) }

  /** Size and alignment of the LLVM type. */
  function LLVMSize(elems: seq<Elem>): nat
    requires Aligned(elems)
  {
    PositiveAlign(elems);
    MakeAlign(End(elems), MaxAlign(elems))
  }

  lemma {:induction false} PositiveAlign(elems: seq<Elem>)
    ensures MaxAlign(elems) >= 1
    decreases |elems|
  {
    if elems != [] { PositiveAlign(elems[..|elems| - 1]); }
  }

  function Unit(bits: nat): Elem { Elem(BitSpace(bits), 1, false) }

  /** A unit or padding of `bits` bits, in which `bytes` bytes are counted. */
  function Pushed(l: Layout, bits: nat, bytes: nat): Layout
    requires l.align > 0
  {
    l.(elems := l.elems + [Unit(bits)], index := l.index + 1, offset := l.offset + bytes,
      width := MakeAlign(l.offset + bytes, l.align))
  }

  function Spaced(l: Layout, bytes: nat): Layout
    requires l.align > 0
  {
    if bytes == 0 then l else Pushed(l, bytes * 8, BitSpace(bytes * 8))
  }

  function Closed(l: Layout): Layout { l.(used := 0, base := 0) }

  /** BitFieldPacked: the unit is full. */
  function Packed(l: Layout): Layout
    requires l.align > 0
  {
    Closed(Pushed(l, l.base, l.base / 8))
  }

  /** AddSpaceBetweenBitField: the rest of the unit stays unused. */
  function SpaceBetween(l: Layout): Layout
    requires l.align > 0 && MakeAlign(l.used, 8) <= l.base
  {
    var rest := l.base - MakeAlign(l.used, 8);
    Closed(Pushed(Pushed(l, l.used, MakeAlign(l.used, 8) / 8), rest, BitSpace(rest)))
  }

  /** A union keeps the larger element. */
  function Larger(elems: seq<Elem>, e: Elem): seq<Elem> {
    if elems == [] then [e] else if elems[|elems| - 1].size < e.size then elems[|elems| - 1 := e] else elems
  }

  /** The bit-fields of a union are given the space of all of them together. */
  function UnionClosed(l: Layout): Layout
    requires l.align > 0
  {
    Closed(l.(elems := Larger(l.elems, Unit(l.used)), index := l.index + 1,
              width := MakeAlign(Max(l.width, MakeAlign(l.used, 8) / 8), l.align)))
  }

  /** AddBitFieldBeforeMember. */
  function BeforeMember(l: Layout): (r: Layout)
    requires l.align > 0
    ensures r.align == l.align && r.isStruct == l.isStruct && r.members == l.members && r.names == l.names
  {
    if l.used == 0 then l.(base := 0) else
    if !l.isStruct then UnionClosed(l) else
    var l1 := Closed(Pushed(l, l.used, MakeAlign(l.used, 8) / 8));
    var space := l1.width - l1.offset;
    Spaced(l1.(spaces := l1.spaces + space), space)
  }

  /** AddLLVMType: a union keeps only its largest member. */
  function WithElem(isStruct: bool, elems: seq<Elem>, e: Elem): seq<Elem> {
    if isStruct then elems + [e]
    else if elems == [] then [e]
    else
      var back := elems[|elems| - 1];
      if back.size < e.size || (back.size == e.size && back.agg && !e.agg) then elems[|elems| - 1 := e] else elems
  }

  /** What AddMember and MergeAnonymous have in common: an element of its own. */
  function WithPlain(l: Layout, start: nat, e: Elem): Layout
    requires l.align > 0
  {
    l.(elems := WithElem(l.isStruct, l.elems, e), index := l.index + 1, members := l.members + [Plain(l.index, e.size)],
       offset := if l.isStruct then start + e.size else l.offset,
       width := MakeAlign(if l.isStruct then start + e.size else Max(l.width, e.size), l.align))
  }

  lemma WithPlainNames(l: Layout, start: nat, e: Elem, names: seq<Entry>)
    requires l.align > 0
    ensures WithPlain(l.(names := names), start, e) == WithPlain(l, start, e).(names := names)
  {
  }

  function AddMember(l: Layout, name: string, e: Elem): Layout
    requires l.align > 0 && e.align > 0
  {
    var l1 := BeforeMember(l.(align := Max(l.align, e.align)));
    var start := MakeAlign(l1.offset, e.align);
    WithPlain(l1, start, e).(names := l1.names + [Entry(name, start - l1.spaces, l1.index, [])])
  }

  /** The element that an anonymous member becomes. */
  function ElemOf(d: Done): Elem
    requires Aligned(d.elems)
  {
    Elem(LLVMSize(d.elems), MaxAlign(d.elems), true)
  }

  /** The names of an anonymous member, seen from outside. */
  function Lifted(names: seq<Entry>, d: Done, start: int, index: nat): (r: seq<Entry>)
    ensures |r| == |names|
    ensures forall i ::
        0 <= i < |names| ==> r[i] == Entry(names[i].name, start + names[i].at, index,
          [Step(d.isStruct, d.elems, names[i].index)] + names[i].path)
  {
    if names == [] then []
    else [Entry(names[0].name, start + names[0].at, index,
      [Step(d.isStruct, d.elems, names[0].index)] + names[0].path)] + Lifted(names[1..], d, start, index)
  }

  lemma LiftedSnoc(names: seq<Entry>, d: Done, start: int, index: nat, i: nat)
    requires i < |names|
    ensures Lifted(names[..i + 1], d, start, index) ==
      Lifted(names[..i], d, start, index) + [Entry(names[i].name, start + names[i].at, index,
        [Step(d.isStruct, d.elems, names[i].index)] + names[i].path)]
  {
    hide Lifted;
    assert names[..i + 1][i] == names[i];
  }

  /** MergeAnonymous: the names of an anonymous struct or union become names of this one. */
  function MergeAnonymous(l: Layout, d: Done): Layout
    requires l.align > 0 && Aligned(d.elems)
  {
    PositiveAlign(d.elems);
    var e := ElemOf(d);
    var l1 := BeforeMember(l.(align := Max(l.align, e.align)));
    var start := MakeAlign(l1.offset, e.align);
    WithPlain(l1, start, e).(names := l1.names + Lifted(d.names, d, start, l1.index))
  }

  function AddToUnit(l: Layout, name: string, bytes: nat, bitWidth: nat): Layout
    requires l.align > 0
  {
    var l1 := l.(members := l.members + [Bits(l.index, l.used, bitWidth, bytes)],
      names := l.names + [Entry(name, l.offset, l.index, [])], used := l.used + bitWidth);
    if l1.used == l1.base then Packed(l1) else l1
  }

  predicate LastIsPlain(l: Layout) { l.members != [] && l.members[|l.members| - 1].Plain? }

  /** A first bit-field, and the padding in front of it behind an ordinary member. */
  function FirstUnit(l: Layout, bytes: nat): Layout
    requires l.align > 0
  {
    var l1 := if LastIsPlain(l) then l.(width := MakeAlign(l.offset, l.align)) else l;
    (if LastIsPlain(l) then Spaced(l1, l1.width - l1.offset) else l1).(base := bytes * 8)
  }

  /** The unit in which a bit-field of non-zero width will stand. */
  function UnitFor(l: Layout, bytes: nat, bitWidth: nat): Layout
    requires l.align > 0 && (l.used > 0 ==> MakeAlign(l.used, 8) <= l.base)
  {
    if l.used == 0 then FirstUnit(l, bytes)
    else
      var l1 := l.(base := Max(l.base, bytes * 8));
      if l1.used + bitWidth > l1.base then SpaceBetween(l1).(base := bytes * 8) else l1
  }

  /** A bit-field in a struct. */
  function AddStructBits(l: Layout, name: string, bytes: nat, bitWidth: nat): Layout
    requires l.align > 0 && (l.used > 0 ==> MakeAlign(l.used, 8) <= l.base)
  {
    if bitWidth == 0 && l.used == 0 then FirstUnit(l, bytes)
    else if bitWidth == 0 then (if bytes == 1 then l else SpaceBetween(l))
    else AddToUnit(UnitFor(l, bytes, bitWidth), name, bytes, bitWidth)
  }

  /** A bit-field in a union starts at its first bit. The bits that are counted as used grow with each. */
  function AddUnionBits(l: Layout, name: string, bytes: nat, bitWidth: nat): Layout
    requires l.align > 0
  {
    if bitWidth == 0 then (if l.used == 0 then l.(base := bytes * 8) else l)
    else
      var base := if l.used == 0 then bytes * 8 else Max(l.base, bytes * 8);
      var l1 := l.(
        base := base, used := l.used + bitWidth,
        members := l.members + [Bits(l.index, 0, bitWidth, bytes)],
          names := l.names + [Entry(name, l.offset, l.index, [])],
        elems := Larger(l.elems, Elem(bytes, bytes, false)), width := MakeAlign(Max(l.width, base / 8), l.align));
      if l1.used == l1.base then Closed(l1) else l1
  }

  /** The alignment counts when a bit-field is wider than a byte, or has no width. */
  function Raised(l: Layout, bytes: nat, bitWidth: nat): Layout {
    if bitWidth == 0 || bitWidth > 8 then l.(align := Max(bytes, l.align)) else l
  }

  function AddBitField(l: Layout, name: string, bytes: nat, bitWidth: nat): Layout
    requires l.align > 0 && (l.isStruct && l.used > 0 ==> MakeAlign(l.used, 8) <= l.base)
  {
    var l1 := Raised(l, bytes, bitWidth);
    if l.isStruct then AddStructBits(l1, name, bytes, bitWidth) else AddUnionBits(l1, name, bytes, bitWidth)
  }

  /** An open unit is closed, with the alignment of the last bit-field's type. */
  function Finish(l: Layout): Layout
    requires l.align > 0
  {
    if l.used == 0 || l.members == [] || LastIsPlain(l) then l
    else BeforeMember(l.(align := Max(l.align, l.members[|l.members| - 1].bytes)))
  }

  function Complete(l: Layout): Done { Done(l.isStruct, l.elems, l.names) }
}
