/** The struct type that is updated while the parser reads members. */
module StructTypes {
  import opened BitLayout
  import opened StructLayout
  import opened StructOffsets

  class StructType {
    const isStruct: bool
    var align: nat
    var offset: nat
    var width: nat
    var index: nat
    var used: nat
    var base: nat
    var spaces: nat
    var elems: seq<Elem>
    var members: seq<Member>
    var names: seq<Entry>

    function State(): Layout
      reads this
    {
      Layout(isStruct, align, offset, width, index, used, base, spaces, elems, members, names)
    }

    ghost predicate Valid()
      reads this
    {
      StructOffsets.Valid(State())
    }

    constructor (isStruct: bool)
      ensures Valid() && State() == Empty(isStruct)
    {
      this.isStruct := isStruct;
      align, offset, width, index, used, base, spaces := 1, 0, 0, 0, 0, 0, 0;
      elems, members, names := [], [], [];
    }

    method Push(bits: nat, bytes: nat)
      requires align > 0
      modifies this
      ensures State() == Pushed(old(State()), bits, bytes) && align == old(align)
    {
      elems := elems + [Elem(BitSpace(bits), 1, false)];
      index := index + 1;
      offset := offset + bytes;
      width := MakeAlign(offset, align);
    }

    method AddSpace(bytes: nat)
      requires align > 0
      modifies this
      ensures State() == Spaced(old(State()), bytes) && align == old(align)
    {
      if bytes > 0 { Push(bytes * 8, BitSpace(bytes * 8)); }
    }

    /** The unit has been filled. In a union it becomes no element. */
    method BitFieldPacked()
      requires align > 0
      modifies this
      ensures State() == if isStruct then Packed(old(State())) else Closed(old(State()))
      ensures old(Valid() && isStruct && 0 < used == base) ==> Valid() && Goes(old(State()), State())
    {
      if Valid() && isStruct && 0 < used == base { PackedGoes(State()); }
      if isStruct { Push(base, base / 8); }
      used, base := 0, 0;
    }

    /** The next bit-field does not fit, or a bit-field of width 0 closes the unit. */
    method AddSpaceBetweenBitField()
      requires Valid() && isStruct && used > 0
      modifies this
      ensures MakeAlign(old(used), 8) <= old(base) && State() == SpaceBetween(old(State())) && align == old(align)
      ensures Valid() && Goes(old(State()), State()) && used == 0
    {
      SpaceBetweenGoes(State());
      var rest := base - MakeAlign(used, 8);
      Push(used, MakeAlign(used, 8) / 8);
      used, base := 0, 0;
      Push(rest, BitSpace(rest));
    }

    method KeepLarger(e: Elem)
      modifies this`elems
      ensures elems == Larger(old(elems), e)
    {
      if elems == [] { elems := [e]; } else if elems[|elems| - 1].size < e.size { elems := elems[|elems| - 1 := e]; }
    }

    method AddBitFieldBeforeMember()
      requires Valid()
      modifies this
      ensures State() == BeforeMember(old(State()))
      ensures Valid() && Goes(old(State()), State()) && used == 0
    {
      hide StructOffsets.Valid, Follows, MakeAlign, BitSpace;
      ValidUnitary(State());
      BeforeMemberGoes(State());
      if used == 0 {
        base := 0;
        return;
      }
      if !isStruct {
        KeepLarger(Elem(BitSpace(used), 1, false));
        index := index + 1;
        width := Max(width, MakeAlign(used, 8) / 8);
        width := MakeAlign(width, align);
        used, base := 0, 0;
        return;
      }
      Push(used, MakeAlign(used, 8) / 8);
      if width > offset {
        spaces := spaces + (width - offset);
        AddSpace(width - offset);
      }
      used, base := 0, 0;
    }

    /** A union keeps its largest element. */
    method AddLLVMType(e: Elem)
      modifies this`elems
      ensures elems == WithElem(isStruct, old(elems), e)
    {
      if isStruct || elems == [] {
        elems := elems + [e];
      } else {
        var back := elems[|elems| - 1];
        if back.size < e.size {
          elems := elems[|elems| - 1 := e];
        } else if back.size == e.size && back.agg && !e.agg {
          elems := elems[|elems| - 1 := e];
        }
      }
    }

    method RaiseAlign(a: nat)
      requires Valid()
      modifies this`align
      ensures align == Max(old(align), a) && Valid()
    {
      align := Max(align, a);
      GoesSame(old(State()), State());
    }

    /** What an ordinary and an anonymous member have in common: an element of its own. */
    method AddPlain(start: nat, e: Elem)
      requires align > 0
      modifies this
      ensures State() == WithPlain(old(State()), start, e)
    {
      hide MakeAlign, WithElem;
      members := members + [Plain(index, e.size)];
      index := index + 1;
      AddLLVMType(e);
      if isStruct {
        offset := start + e.size;
        width := MakeAlign(offset, align);
      } else {
        width := Max(width, e.size);
        width := MakeAlign(width, align);
      }
    }

    /** An ordinary member; a flexible array has size 0. */
    method AddMember(name: string, e: Elem)
      requires Valid() && e.align > 0
      modifies this
      ensures State() == StructLayout.AddMember(old(State()), name, e)
      ensures Valid() && Goes(old(State()), State()) && used == 0 && names != []
      ensures Drift(State(), names[|names| - 1]) == Ready(old(State()), e.align).spaces
    {
      hide StructOffsets.Valid, Follows, Drift, BeforeMember, MakeAlign, WithPlain;
      ValidUnitary(State());
      AddMemberGoes(State(), name, e);
      RaiseAlign(e.align);
      AddBitFieldBeforeMember();
      var start := MakeAlign(offset, e.align);
      ghost var before := State();
      names := names + [Entry(name, start - spaces, index, [])];
      WithPlainNames(before, start, e, names);
      AddPlain(start, e);
    }

    /** An anonymous struct or union: its names become names of this one. */
    method MergeAnonymous(d: Done)
      requires Valid() && Ended(d)
      modifies this
      ensures State() == StructLayout.MergeAnonymous(old(State()), d)
      ensures Valid() && Goes(old(State()), State()) && used == 0 && |names| == |old(names)| + |d.names|
      ensures forall i :: 0 <= i < |d.names| ==> Drift(State(), names[|old(names)| + i]) == DriftIn(d, d.names[i])
    {
      hide StructOffsets.Valid, Follows, Drift, BeforeMember, MakeAlign, WithPlain, DriftIn, Lifted, LLVMSize, MaxAlign;
      ValidUnitary(State());
      MergeGoes(State(), d);
      PositiveAlign(d.elems);
      var e := ElemOf(d);
      RaiseAlign(e.align);
      AddBitFieldBeforeMember();
      var start := MakeAlign(offset, e.align);
      ghost var before := State();
      LiftNames(d, start);
      WithPlainNames(before, start, e, names);
      AddPlain(start, e);
    }

    method LiftNames(d: Done, start: int)
      modifies this`names
      ensures names == old(names) + Lifted(d.names, d, start, index)
    {
      hide Lifted;
      assert Lifted([], d, start, index) == [];
      var i := 0;
      while i < |d.names|
        invariant 0 <= i <= |d.names|
        invariant names == old(names) + Lifted(d.names[..i], d, start, index)
      {
        var e := d.names[i];
        names := names + [Entry(e.name, start + e.at, index, [Step(d.isStruct, d.elems, e.index)] + e.path)];
        LiftedSnoc(d.names, d, start, index, i);
        i := i + 1;
      }
      assert d.names[..i] == d.names;
    }

    /** A bit-field of a type of `bytes` bytes. */
    method AddBitField(name: string, bytes: nat, bitWidth: nat)
      requires Valid() && bytes in {1, 4} && bitWidth <= 8 * bytes
      modifies this
      ensures isStruct && old(used) > 0 ==> MakeAlign(old(used), 8) <= old(base)
      ensures State() == StructLayout.AddBitField(old(State()), name, bytes, bitWidth)
      ensures Valid() && Goes(old(State()), State())
      ensures bitWidth > 0 ==>
          |names| == |old(names)| + 1 && Drift(State(), names[|old(names)|]) == 0 && (used == 0 || used != base)
      ensures isStruct && bitWidth > 0 ==> used == 0 || used < base
    {
      hide StructOffsets.Valid, Follows, Drift, MakeAlign, AddStructBits, AddUnionBits;
      ValidUnitary(State());
      AddBitFieldGoes(State(), name, bytes, bitWidth);
      if bitWidth == 0 || bitWidth > 8 { RaiseAlign(bytes); }
      if isStruct { AddToStruct(name, bytes, bitWidth); } else { AddToUnion(name, bytes, bitWidth); }
    }

    method AddToStruct(name: string, bytes: nat, bitWidth: nat)
      requires Valid() && isStruct && bytes in {1, 4}
      modifies this
      ensures old(used) > 0 ==> MakeAlign(old(used), 8) <= old(base)
      ensures State() == AddStructBits(old(State()), name, bytes, bitWidth)
    {
      hide StructOffsets.Valid, Follows, MakeAlign, SpaceBetween, FirstUnit, UnitFor, StructLayout.AddToUnit;
      ValidUnitary(State());
      if used > 0 { UpTo(used, base); }
      if bitWidth > 0 {
        FindUnit(bytes, bitWidth);
        AddToUnit(name, bytes, bitWidth);
      } else if used == 0 {
        OpenUnit(bytes);
      } else if bytes > 1 {
        AddSpaceBetweenBitField();
      }
    }

    /** In a union every bit-field starts at the first bit. */
    method AddToUnion(name: string, bytes: nat, bitWidth: nat)
      requires align > 0 && !isStruct
      modifies this
      ensures State() == AddUnionBits(old(State()), name, bytes, bitWidth)
    {
      hide MakeAlign, StructOffsets.Valid;
      if used == 0 {
        base := bytes * 8;
        if bitWidth == 0 { return; }
      } else {
        if bitWidth == 0 { return; }
        if bytes * 8 > base { base := bytes * 8; }
      }
      names := names + [Entry(name, offset, index, [])];
      members := members + [Bits(index, 0, bitWidth, bytes)];
      UnionAddBitField(bytes);
      used := used + bitWidth;
      if used == base { BitFieldPacked(); }
    }

    method UnionAddBitField(bytes: nat)
      requires align > 0
      modifies this`elems, this`width
      ensures elems == Larger(old(elems), Elem(bytes, bytes, false))
        && width == MakeAlign(Max(old(width), base / 8), align)
    {
      KeepLarger(Elem(bytes, bytes, false));
      width := Max(width, base / 8);
      width := MakeAlign(width, align);
    }

    /** No unit is open. Behind an ordinary member, padding comes first. */
    method OpenUnit(bytes: nat)
      requires align > 0
      modifies this
      ensures State() == FirstUnit(old(State()), bytes) && align == old(align)
    {
      if members != [] && members[|members| - 1].Plain? {
        width := MakeAlign(offset, align);
        AddSpace(width - offset);
      }
      base := bytes * 8;
    }

    /** The unit in which the next bit-field has room. */
    method FindUnit(bytes: nat, bitWidth: nat)
      requires Valid() && isStruct && bytes in {1, 4}
      modifies this
      ensures old(used) > 0 ==> MakeAlign(old(used), 8) <= old(base)
      ensures State() == UnitFor(old(State()), bytes, bitWidth) && align == old(align)
    {
      hide StructOffsets.Valid, Follows, MakeAlign, SpaceBetween, FirstUnit;
      ValidUnitary(State());
      if used > 0 { UpTo(used, base); }
      if used == 0 {
        OpenUnit(bytes);
      } else {
        if bytes * 8 > base { base := bytes * 8; }
        GoesSame(old(State()), State());
        if used + bitWidth > base {
          AddSpaceBetweenBitField();
          base := bytes * 8;
        }
      }
    }

    method AddToUnit(name: string, bytes: nat, bitWidth: nat)
      requires align > 0 && isStruct
      modifies this
      ensures State() == StructLayout.AddToUnit(old(State()), name, bytes, bitWidth)
    {
      names := names + [Entry(name, offset, index, [])];
      members := members + [Bits(index, used, bitWidth, bytes)];
      used := used + bitWidth;
      if used == base { BitFieldPacked(); }
    }

    /** No unit stays open. */
    method Finish()
      requires Valid()
      modifies this
      ensures State() == StructLayout.Finish(old(State()))
      ensures Valid() && Goes(old(State()), State()) && used == 0 && Ended(Complete(State()))
    {
      hide StructOffsets.Valid, Follows, BeforeMember;
      ValidUnitary(State());
      FinishGoes(State());
      if used != 0 {
        RaiseAlign(members[|members| - 1].bytes);
        AddBitFieldBeforeMember();
      }
    }
  }
}
