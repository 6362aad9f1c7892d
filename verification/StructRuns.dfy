/** Whole struct and union declarations: where every name ends up, and how wide the result is. */
module StructRuns {
  import opened BitLayout
  import opened StructLayout
  import opened StructOffsets

  /** What a declaration contains, with anonymous structs and unions of any depth. */
  datatype Item =
    | Ordinary(name: string, elem: Elem)
    | Anonymous(isStruct: bool, items: seq<Item>)
    | BitField(name: string, bytes: nat, bits: nat)

  /** Bit-fields are of character or int type, and fit their type. */
  predicate ItemsOK(isStruct: bool, items: seq<Item>)
    decreases items
  {
    items == [] || (ItemsOK(isStruct, items[..|items| - 1]) &&
      match items[|items| - 1]
      case Ordinary(_, e) => e.align > 0
      case Anonymous(inner, ds) => ItemsOK(inner, ds)
      case BitField(_, bytes, bits) => bytes in {1, 4} && bits <= 8 * bytes)
  }

  lemma EmptyValid(isStruct: bool)
    ensures Valid(Empty(isStruct))
  {
  }

  lemma ValidAligned(l: Layout)
    requires Valid(l)
    ensures l.align > 0 && Aligned(l.elems) && (l.isStruct && l.used > 0 ==> MakeAlign(l.used, 8) <= l.base)
  {
    hide Laid, Placed, MakeAlign, End;
    if l.isStruct && l.used > 0 { UpTo(l.used, l.base); }
  }

  function Run(isStruct: bool, items: seq<Item>): (l: Layout)
    requires ItemsOK(isStruct, items)
    ensures Valid(l) && l.isStruct == isStruct
    decreases items
  {
    if items == [] then EmptyValid(isStruct); Empty(isStruct)
    else
      hide Valid, Follows, AddMember, MergeAnonymous, AddBitField, MakeAlign;
      var l := Run(isStruct, items[..|items| - 1]);
      ValidAligned(l);
      match items[|items| - 1]
      case Ordinary(name, e) => AddMemberGoes(l, name, e); AddMember(l, name, e)
      case Anonymous(inner, ds) =>
        var d := Run(inner, ds);
        FinishGoes(d); ValidAligned(d); MergeGoes(l, Complete(Finish(d))); MergeAnonymous(l, Complete(Finish(d)))
      case BitField(name, bytes, bits) => AddBitFieldGoes(l, name, bytes, bits); AddBitField(l, name, bytes, bits)
  }

  /** The finished declaration. */
  function Build(isStruct: bool, items: seq<Item>): (d: Done)
    requires ItemsOK(isStruct, items)
    ensures Ended(d)
  {
    var l := Run(isStruct, items);
    ValidAligned(l);
    FinishGoes(l);
    Complete(Finish(l))
  }

  /* Recorded offsets. */

  /** For every name: the padding behind bit-fields that had been counted when the member was added to
      the struct in which it is declared. */
  function Paddings(isStruct: bool, items: seq<Item>): seq<int>
    requires ItemsOK(isStruct, items)
    decreases items
  {
    if items == [] then []
    else Paddings(isStruct, items[..|items| - 1]) + LastPaddings(isStruct, items)
  }

  function LastPaddings(isStruct: bool, items: seq<Item>): seq<int>
    requires ItemsOK(isStruct, items) && items != []
    decreases items, 0
  {
    var l := Run(isStruct, items[..|items| - 1]);
    match items[|items| - 1]
    case Ordinary(_, e) => [Ready(l, e.align).spaces]
    case Anonymous(inner, ds) => Paddings(inner, ds)
    case BitField(_, _, bits) => if bits == 0 then [] else [0]
  }

  /** The names of a state drift by these numbers. */
  predicate Drifted(l: Layout, paddings: seq<int>)
    requires Valid(l)
  {
    |l.names| == |paddings| && forall i :: 0 <= i < |l.names| ==> Drift(l, l.names[i]) == paddings[i]
  }

  lemma DriftedGoes(l: Layout, l1: Layout, ps: seq<int>, more: seq<int>)
    requires Valid(l) && Goes(l, l1) && Drifted(l, ps) && |l1.names| == |l.names| + |more|
    requires forall i :: 0 <= i < |more| ==> Drift(l1, l1.names[|l.names| + i]) == more[i]
    ensures Drifted(l1, ps + more)
  {
    hide AddressOf, Placed, Laid;
    forall i | 0 <= i < |l1.names| ensures Drift(l1, l1.names[i]) == (ps + more)[i] {
      if i < |l.names| {
        assert Placed(l, l.names[i]);
      } else {
        assert l1.names[i] == l1.names[|l.names| + (i - |l.names|)];
      }
    }
  }

  lemma DriftedFinish(l: Layout, ps: seq<int>)
    requires Valid(l) && Drifted(l, ps)
    ensures Goes(l, Finish(l)) && Finish(l).names == l.names && Ended(Complete(Finish(l)))
    ensures forall i :: 0 <= i < |l.names| ==> DriftIn(Complete(Finish(l)), l.names[i]) == ps[i]
  {
    hide Finish, Laid, Addr, IsPath, PathAddr, AddressIn;
    FinishGoes(l);
    var l1 := Finish(l);
    forall i | 0 <= i < |l.names| ensures DriftIn(Complete(l1), l.names[i]) == ps[i] {
      assert Placed(l, l.names[i]) && Placed(l1, l1.names[i]);
      StepFirst(Complete(l1), l.names[i]);
    }
  }

  /** In every declaration, the address of every name is its recorded offset and that padding. */
  lemma {:induction false} RunDrifts(isStruct: bool, items: seq<Item>)
    requires ItemsOK(isStruct, items)
    ensures Drifted(Run(isStruct, items), Paddings(isStruct, items))
    decreases items
  {
    hide Valid, Follows, AddMember, MergeAnonymous, AddBitField, MakeAlign, Drift, DriftIn, Finish;
    if items != [] {
      var l, ps, more := Run(isStruct, items[..|items| - 1]), Paddings(isStruct, items[..|items| - 1]),
        LastPaddings(isStruct, items);
      RunDrifts(isStruct, items[..|items| - 1]);
      ValidAligned(l);
      match items[|items| - 1]
      case Ordinary(name, e) =>
        AddMemberGoes(l, name, e);
        DriftedGoes(l, AddMember(l, name, e), ps, more);
      case Anonymous(inner, ds) =>
        var d := Run(inner, ds);
        RunDrifts(inner, ds);
        DriftedFinish(d, more);
        ValidAligned(d);
        MergeGoes(l, Complete(Finish(d)));
        DriftedGoes(l, MergeAnonymous(l, Complete(Finish(d))), ps, more);
      case BitField(name, bytes, bits) =>
        AddBitFieldGoes(l, name, bytes, bits);
        DriftedGoes(l, AddBitField(l, name, bytes, bits), ps, more);
    }
  }

  /** Every name of a finished declaration is recorded at its address. */
  predicate Recorded(d: Done)
    requires Ended(d)
  {
    forall i :: 0 <= i < |d.names| ==> DriftIn(d, d.names[i]) == 0
  }

  predicate Zeros(ns: seq<int>) { forall i :: 0 <= i < |ns| ==> ns[i] == 0 }

  /** No ordinary member, at any depth, comes behind padding that follows bit-fields. */
  predicate Unpadded(isStruct: bool, items: seq<Item>)
    requires ItemsOK(isStruct, items)
    decreases items
  {
    items == [] || (Unpadded(isStruct, items[..|items| - 1]) &&
      match items[|items| - 1]
      case Ordinary(_, e) => Ready(Run(isStruct, items[..|items| - 1]), e.align).spaces == 0
      case Anonymous(inner, ds) => Unpadded(inner, ds)
      case BitField(_, _, _) => true)
  }

  lemma {:induction false} UnpaddedZeros(isStruct: bool, items: seq<Item>)
    requires ItemsOK(isStruct, items)
    ensures Unpadded(isStruct, items) <==> Zeros(Paddings(isStruct, items))
    decreases items
  {
    hide Ready, Run;
    if items != [] {
      var init, last := items[..|items| - 1], items[|items| - 1];
      UnpaddedZeros(isStruct, init);
      if last.Anonymous? { UnpaddedZeros(last.isStruct, last.items); }
      ZerosConcat(Paddings(isStruct, init), LastPaddings(isStruct, items));
      assert last.Ordinary? ==> Zeros(LastPaddings(isStruct, items)) == (LastPaddings(isStruct, items)[0] == 0);
    }
  }

  lemma ZerosConcat(ns: seq<int>, ms: seq<int>)
    ensures Zeros(ns + ms) <==> Zeros(ns) && Zeros(ms)
  {
    if Zeros(ns + ms) { forall i | 0 <= i < |ms| ensures ms[i] == 0 { assert (ns + ms)[|ns| + i] == 0; }
                        forall i | 0 <= i < |ns| ensures ns[i] == 0 { assert (ns + ms)[i] == 0; } }
  }

  /** The recorded offset of every name, through anonymous members of any depth, is its address along
      the elements exactly when nothing was declared behind padding that follows bit-fields. */
  lemma RecordedExactly(isStruct: bool, items: seq<Item>)
    requires ItemsOK(isStruct, items)
    ensures Recorded(Build(isStruct, items)) <==> Unpadded(isStruct, items)
  {
    hide Valid, Finish, Drift, DriftIn, Ended, Run;
    var l, ps := Run(isStruct, items), Paddings(isStruct, items);
    RunDrifts(isStruct, items);
    DriftedIs(l, ps);
    DriftedFinish(l, ps);
    UnpaddedZeros(isStruct, items);
  }

  lemma DriftedIs(l: Layout, ps: seq<int>)
    requires Valid(l) && Drifted(l, ps)
    ensures |l.names| == |ps|
  {
  }

  /** No bit-field at any depth. */
  predicate NoBits(items: seq<Item>)
    decreases items
  {
    items == [] || (NoBits(items[..|items| - 1]) && !items[|items| - 1].BitField?
      && (items[|items| - 1].Anonymous? ==> NoBits(items[|items| - 1].items)))
  }

  /** Without bit-fields every recorded offset is right. */
  lemma {:induction false} RecordedWithoutBits(isStruct: bool, items: seq<Item>)
    requires ItemsOK(isStruct, items) && NoBits(items)
    ensures Run(isStruct, items).used == 0 && Run(isStruct, items).spaces == 0
    ensures Unpadded(isStruct, items) && Recorded(Build(isStruct, items))
    decreases items
  {
    hide MakeAlign, Finish, Laid, Follows, Recorded, Build;
    RecordedExactly(isStruct, items);
    if items != [] {
      RecordedWithoutBits(isStruct, items[..|items| - 1]);
      if items[|items| - 1].Anonymous? { RecordedWithoutBits(items[|items| - 1].isStruct, items[|items| - 1].items); }
    }
  }

  function NineBits(): Layout {
    Layout(true, 4, 0, 0, 0, 9, 32, 0, [], [Bits(0, 0, 9, 4)], [Entry("a", 0, 0, [])])
  }

  function NineBitsThenInt(): Layout {
    Layout(true, 4, 8, 8, 3, 0, 0, 2, [Elem(2, 1, false), Elem(2, 1, false), Elem(4, 4, false)],
      [Bits(0, 0, 9, 4), Plain(2, 4)], [Entry("a", 0, 0, []), Entry("c", 2, 2, [])])
  }

  lemma AfterNineBits()
    ensures AddBitField(Empty(true), "a", 4, 9) == NineBits()
  {
  }

  function NineBitsClosed(): Layout {
    NineBits().(elems := [Elem(2, 1, false)], index := 1, offset := 2, width := 4, used := 0, base := 0)
  }

  lemma CloseNineBits()
    ensures Closed(Pushed(NineBits(), 9, MakeAlign(9, 8) / 8)) == NineBitsClosed()
  {
    assert BitSpace(9) == 2 && MakeAlign(9, 8) / 8 == 2;
  }

  lemma PadNineBits()
    ensures Spaced(NineBitsClosed().(spaces := 2), 2) ==
      NineBitsClosed().(elems := [Elem(2, 1, false), Elem(2, 1, false)], index := 2, offset := 4, spaces := 2)
  {
    assert BitSpace(16) == 2 && MakeAlign(4, 4) == 4;
  }

  lemma AfterInt()
    ensures AddMember(NineBits(), "c", Elem(4, 4, false)) == NineBitsThenInt()
  {
    hide BitSpace, Closed, Pushed, Spaced, MakeAlign;
    CloseNineBits();
    PadNineBits();
    ZeroAligned(4);
    assert MakeAlign(4, 4) == 4 && MakeAlign(8, 4) == 8 by { SmallAligned(); }
  }

  lemma SmallAligned()
    ensures MakeAlign(4, 4) == 4 && MakeAlign(8, 4) == 8
  {
  }

  /** `struct { int a : 9; int c; }`: c is recorded at 2 and stands at 4. */
  lemma PaddedOffset()
    ensures var items := [BitField("a", 4, 9), Ordinary("c", Elem(4, 4, false))];
      && ItemsOK(true, items) && Build(true, items) == Complete(NineBitsThenInt())
      && NineBitsThenInt().names[1].at == 2 && AddressIn(Build(true, items), NineBitsThenInt().names[1]) == 4
  {
    hide AddBitField, AddMember, Valid, PathAddr;
    var items := [BitField("a", 4, 9), Ordinary("c", Elem(4, 4, false))];
    var first := items[..1];
    assert first == [BitField("a", 4, 9)] && first[..0] == [];
    assert ItemsOK(true, []) && ItemsOK(true, first);
    AfterNineBits();
    assert Run(true, []) == Empty(true);
    assert Run(true, first) == NineBits();
    AfterInt();
    assert Run(true, items) == NineBitsThenInt();
    AddressOfInt();
  }

  lemma AddressOfInt()
    ensures var d := Complete(NineBitsThenInt());
      Aligned(d.elems) && AddressIn(d, Entry("c", 2, 2, [])) == 4
  {
    var d := Complete(NineBitsThenInt());
    AddrIs(d.elems, 1);
    AddrIs(d.elems, 2);
    StepFirst(d, Entry("c", 2, 2, []));
  }
}