/** Reading and writing bit-fields of 32-bit types: masks and shifts on the word at the address of
    the field's element. */
module BitAccess {
  import opened BitLayout

  /** 32 bits, the lowest first. */
  type Word = w: seq<bool> | |w| == 32 witness seq(32, i => false)

  function Zero(): Word { seq(32, i => false) }
  function Ones(): Word { seq(32, i => true) }

  function Shl(w: Word, n: nat): Word { seq(32, i requires 0 <= i < 32 => i >= n && w[i - n]) }
  function LShr(w: Word, n: nat): Word { seq(32, i requires 0 <= i < 32 => i + n < 32 && w[i + n]) }
  function AShr(w: Word, n: nat): Word { seq(32, i requires 0 <= i < 32 => if i + n < 32 then w[i + n] else w[31]) }
  function And(x: Word, y: Word): Word { seq(32, i requires 0 <= i < 32 => x[i] && y[i]) }
  function Or(x: Word, y: Word): Word { seq(32, i requires 0 <= i < 32 => x[i] || y[i]) }

  predicate InWord(begin: nat, width: nat) { 0 < width && begin + width <= 32 }

  /** The masks around a field; a shift by the whole width is not an operation of the machine. */
  function LowOnes(begin: nat): Word { if begin > 0 && begin <= 32 then LShr(Ones(), 32 - begin) else Zero() }
  function HighOnes(bit: nat): Word { if bit == 32 then Zero() else Shl(Ones(), bit) }

  /** GetBitField: everything but the field. */
  function Without(w: Word, begin: nat, width: nat): Word { And(w, Or(LowOnes(begin), HighOnes(begin + width))) }

  /** Assign. */
  function Insert(w: Word, v: Word, begin: nat, width: nat): Word { Or(Without(w, begin, width), Shl(v, begin)) }

  /** GetBitFieldValue. */
  function Extract(w: Word, begin: nat, width: nat, unsigned: bool): Word
    requires InWord(begin, width)
  {
    var top := Shl(w, 32 - (begin + width));
    if unsigned then LShr(top, 32 - width) else AShr(top, 32 - width)
  }

  /** `v` cut to `width` bits, and extended again with zeros or with its sign. */
  function Extended(v: Word, width: nat, unsigned: bool): Word
    requires 0 < width <= 32
  {
    seq(32, i requires 0 <= i < 32 => if i < width then v[i] else !unsigned && v[width - 1])
  }

  lemma ShlBit(w: Word, n: nat, i: nat)
    requires i < 32
    ensures Shl(w, n)[i] == (i >= n && w[i - n])
  {
  }

  lemma MaskBit(begin: nat, width: nat, i: nat)
    requires InWord(begin, width) && i < 32
    ensures Or(LowOnes(begin), HighOnes(begin + width))[i] == !(begin <= i < begin + width)
  {
    hide Shl;
    ShlBit(Ones(), begin + width, i);
  }

  lemma InsertBit(w: Word, v: Word, begin: nat, width: nat, i: nat)
    requires InWord(begin, width) && i < 32
    ensures Insert(w, v, begin, width)[i] == if i < begin then w[i] else if i < begin + width then v[i - begin]
      else w[i] || v[i - begin]
  {
    hide Shl, LowOnes, HighOnes;
    MaskBit(begin, width, i);
    ShlBit(v, begin, i);
  }

  lemma ShrBit(w: Word, n: nat, unsigned: bool, i: nat)
    requires i < 32
    ensures (if unsigned then LShr(w, n) else AShr(w, n))[i] == if i + n < 32 then w[i + n] else !unsigned && w[31]
  {
  }

  lemma ExtractBit(w: Word, begin: nat, width: nat, unsigned: bool, i: nat)
    requires InWord(begin, width) && i < 32
    ensures Extract(w, begin, width, unsigned)[i] == if i < width then w[begin + i] else !unsigned && w[begin + width - 1]
  {
    hide Shl, LShr, AShr;
    var top := Shl(w, 32 - (begin + width));
    ShrBit(top, 32 - width, unsigned, i);
    if i < width { ShlBit(w, 32 - (begin + width), i + (32 - width)); } else { ShlBit(w, 32 - (begin + width), 31); }
  }

  /** What was written is read, whatever was there before. */
  lemma ReadBack(w: Word, v: Word, begin: nat, width: nat, unsigned: bool)
    requires InWord(begin, width)
    ensures Extract(Insert(w, v, begin, width), begin, width, unsigned) == Extended(v, width, unsigned)
  {
    hide Extract, Insert;
    var r := Insert(w, v, begin, width);
    forall i | 0 <= i < 32 ensures Extract(r, begin, width, unsigned)[i] == Extended(v, width, unsigned)[i] {
      ExtractBit(r, begin, width, unsigned, i);
      InsertBit(w, v, begin, width, if i < width then begin + i else begin + width - 1);
    }
  }

  /** The value stays out of the bits above the field. */
  predicate StaysInside(v: Word, begin: nat, width: nat) { forall i :: width <= i < 32 && begin + i < 32 ==> !v[i] }

  predicate KeepsOthers(w: Word, r: Word, begin: nat, width: nat) {
    forall i :: 0 <= i < 32 && !(begin <= i < begin + width) ==> r[i] == w[i]
  }

  /** A write leaves the rest of every word alone exactly when the value stays inside the field: the
      value is not masked. */
  lemma OthersKeptExactly(v: Word, begin: nat, width: nat)
    requires InWord(begin, width)
    ensures (forall w: Word :: KeepsOthers(w, Insert(w, v, begin, width), begin, width))
      <==> StaysInside(v, begin, width)
  {
    hide Insert;
    if StaysInside(v, begin, width) {
      forall w: Word ensures KeepsOthers(w, Insert(w, v, begin, width), begin, width) {
        forall i | 0 <= i < 32 && !(begin <= i < begin + width)
          ensures Insert(w, v, begin, width)[i] == w[i] { InsertBit(w, v, begin, width, i); }
      }
    } else {
      var i :| width <= i < 32 && begin + i < 32 && v[i];
      InsertBit(Zero(), v, begin, width, begin + i);
      assert !KeepsOthers(Zero(), Insert(Zero(), v, begin, width), begin, width);
    }
  }

  /** So -1, which fits every signed field, changes the bits above a field that is not the topmost. */
  lemma MinusOneSpills(begin: nat, width: nat)
    requires InWord(begin, width) && begin + width < 32
    ensures Extended(Ones(), width, false) == Ones() && !StaysInside(Ones(), begin, width)
  {
    assert begin + width < 32 && Ones()[width];
  }

  /* Numbers. */

  function Pow2(n: nat): nat { if n == 0 then 1 else 2 * Pow2(n - 1) }
  function Num(bits: seq<bool>): nat { if bits == [] then 0 else (if bits[0] then 1 else 0) + 2 * Num(bits[1..]) }

  predicate ZeroFrom(bits: seq<bool>, width: nat) { forall i :: width <= i < |bits| ==> !bits[i] }

  lemma ZeroFromTail(bits: seq<bool>, width: nat)
    requires bits != []
    ensures ZeroFrom(bits, width) <==>
        (width == 0 ==> !bits[0]) && ZeroFrom(bits[1..], if width == 0 then 0 else width - 1)
  {
    var w := if width == 0 then 0 else width - 1;
    if ZeroFrom(bits, width) { forall i | w <= i < |bits[1..]| ensures !bits[1..][i] { assert !bits[i + 1]; } }
    if ZeroFrom(bits[1..], w) { forall i | width <= i < |bits| && i > 0 ensures !bits[i] { assert !bits[1..][i - 1]; } }
  }

  /** A number is below 2^width when it has nothing but its low bits. */
  lemma {:induction false} NarrowExactly(bits: seq<bool>, width: nat)
    ensures Num(bits) < Pow2(width) <==> ZeroFrom(bits, width)
    decreases |bits|, width
  {
    if bits == [] {
      PowPositive(width);
    } else {
      ZeroFromTail(bits, width);
      NarrowExactly(bits[1..], if width == 0 then 0 else width - 1);
    }
  }

  lemma {:induction false} PowPositive(n: nat)
    ensures Pow2(n) >= 1
  {
    if n > 0 { PowPositive(n - 1); }
  }

  /** An unsigned value that fits the field is read back unchanged, and stays inside. */
  lemma UnsignedFits(v: Word, begin: nat, width: nat)
    requires InWord(begin, width) && Num(v) < Pow2(width)
    ensures StaysInside(v, begin, width) && Extended(v, width, true) == v
  {
    NarrowExactly(v, width);
    assert ZeroFrom(v, width);
  }

  /** Two's complement. */
  function Signed(v: Word): int { if v[31] then Num(v) - Pow2(32) else Num(v) }

  function Not(bits: seq<bool>): (r: seq<bool>)
    ensures |r| == |bits| && forall i :: 0 <= i < |bits| ==> r[i] == !bits[i]
  {
    seq(|bits|, i requires 0 <= i < |bits| => !bits[i])
  }

  lemma {:induction false} NumNot(bits: seq<bool>)
    ensures Num(bits) + Num(Not(bits)) == Pow2(|bits|) - 1
    decreases |bits|
  {
    if bits != [] {
      NumNot(bits[1..]);
      assert Not(bits)[1..] == Not(bits[1..]);
    }
  }

  /** A value is read back from a signed field unchanged exactly when it is in the field's range. */
  lemma SignedFits(v: Word, width: nat)
    requires 0 < width <= 32
    ensures Extended(v, width, false) == v <==> 0 - Pow2(width - 1) <= Signed(v) < Pow2(width - 1)
  {
    hide Num, Pow2;
    NumNot(v);
    NarrowExactly(v, width - 1);
    NarrowExactly(Not(v), width - 1);
    NumBelow(v);
    var x := Extended(v, width, false);
    if v[31] {
      assert x == v ==> ZeroFrom(Not(v), width - 1) by { if x == v { SameSign(v, width); } }
      assert ZeroFrom(Not(v), width - 1) ==> x == v by { if ZeroFrom(Not(v), width - 1) { AllSign(v, width, true); } }
    } else {
      assert x == v ==> ZeroFrom(v, width - 1) by { if x == v { SameSign(v, width); } }
      assert ZeroFrom(v, width - 1) ==> x == v by { if ZeroFrom(v, width - 1) { AllSign(v, width, false); } }
    }
  }

  lemma NumBelow(v: Word)
    ensures Num(v) < Pow2(32)
  {
    NarrowExactly(v, 32);
  }

  lemma SameSign(v: Word, width: nat)
    requires 0 < width <= 32 && Extended(v, width, false) == v
    ensures forall i :: width - 1 <= i < 32 ==> v[i] == v[31]
  {
    var x := Extended(v, width, false);
    forall i | width - 1 <= i < 32 ensures v[i] == v[width - 1] { assert x[i] == v[i]; }
    assert v[31] == v[width - 1];
  }

  lemma AllSign(v: Word, width: nat, sign: bool)
    requires 0 < width <= 32 && if sign then ZeroFrom(Not(v), width - 1) else ZeroFrom(v, width - 1)
    ensures Extended(v, width, false) == v
  {
    forall i | width - 1 <= i < 32 ensures v[i] == sign { assert sign ==> !Not(v)[i]; }
  }

  /* Memory. */

  /** The bits of a member, counted from the start of the struct. */
  function FirstBit(elems: seq<Elem>, m: Member): nat
    requires m.index < |elems| && Aligned(elems)
  {
    8 * Addr(elems, m.index) + if m.Bits? then m.begin else 0
  }
  function BitCount(m: Member): nat { if m.Bits? then m.width else 8 * m.size }

  predicate Owns(elems: seq<Elem>, m: Member, p: nat)
    requires m.index < |elems| && Aligned(elems)
  {
    FirstBit(elems, m) <= p < FirstBit(elems, m) + BitCount(m)
  }

  /** No bit of the struct belongs to two members. */
  lemma MembersApart(elems: seq<Elem>, members: seq<Member>, i: nat, j: nat, p: nat)
    requires Laid(elems, 0, members) && i < |members| && j < |members| && i != j
    ensures members[i].index < |elems| && members[j].index < |elems|
      && !(Owns(elems, members[i], p) && Owns(elems, members[j], p))
  {
    var m, n := members[i], members[j];
    assert Housed(elems, 0, m) && Housed(elems, 0, n);
    assert if i < j then Separate(m, n) else Separate(n, m);
    if m.index < n.index { AddrsGrow(elems, m.index, n.index); }
    if n.index < m.index { AddrsGrow(elems, n.index, m.index); }
  }

  type Mem = nat -> bool

  function Load(mem: Mem, at: nat): Word { seq(32, i requires 0 <= i < 32 => mem(at + i)) }
  function Store(mem: Mem, at: nat, w: Word): Mem { (p: nat) => if at <= p < at + 32 then w[p - at] else mem(p) }

  /** A bit-field of a 32-bit type. */
  predicate IsField(elems: seq<Elem>, m: Member) {
    m.Bits? && m.bytes == 4 && m.index < |elems| && InWord(m.begin, m.width) && Aligned(elems) }

  function SetField(mem: Mem, elems: seq<Elem>, m: Member, v: Word): Mem
    requires IsField(elems, m)
  {
    var at := 8 * Addr(elems, m.index);
    Store(mem, at, Insert(Load(mem, at), v, m.begin, m.width))
  }
  function GetField(mem: Mem, elems: seq<Elem>, m: Member, unsigned: bool): Word
    requires IsField(elems, m)
  {
    Extract(Load(mem, 8 * Addr(elems, m.index)), m.begin, m.width, unsigned)
  }

  /** Only the bits of the field change, although a whole word is written. */
  lemma SetKeeps(mem: Mem, elems: seq<Elem>, m: Member, v: Word, p: nat)
    requires IsField(elems, m) && StaysInside(v, m.begin, m.width) && !Owns(elems, m, p)
    ensures SetField(mem, elems, m, v)(p) == mem(p)
  {
    hide Insert;
    var at := 8 * Addr(elems, m.index);
    if at <= p < at + 32 { InsertBit(Load(mem, at), v, m.begin, m.width, p - at); }
  }

  lemma SetThenGet(mem: Mem, elems: seq<Elem>, m: Member, v: Word, unsigned: bool)
    requires IsField(elems, m)
    ensures GetField(SetField(mem, elems, m, v), elems, m, unsigned) == Extended(v, m.width, unsigned)
  {
    var at := 8 * Addr(elems, m.index);
    var r := Insert(Load(mem, at), v, m.begin, m.width);
    assert Load(SetField(mem, elems, m, v), at) == r;
    ReadBack(Load(mem, at), v, m.begin, m.width, unsigned);
  }

  /** A field only depends on the bits it owns. */
  lemma GetKept(mem: Mem, mem1: Mem, elems: seq<Elem>, m: Member, unsigned: bool)
    requires IsField(elems, m) && forall p: nat :: Owns(elems, m, p) ==> mem1(p) == mem(p)
    ensures GetField(mem1, elems, m, unsigned) == GetField(mem, elems, m, unsigned)
  {
    var at := 8 * Addr(elems, m.index);
    forall i | 0 <= i < 32 ensures GetField(mem1, elems, m, unsigned)[i] == GetField(mem, elems, m, unsigned)[i] {
      ExtractBit(Load(mem, at), m.begin, m.width, unsigned, i);
      ExtractBit(Load(mem1, at), m.begin, m.width, unsigned, i);
      var p := at + if i < m.width then m.begin + i else m.begin + m.width - 1;
      assert Owns(elems, m, p);
    }
  }

  /** Any sequence of writes to the bit-fields of a struct. */
  datatype Write = Write(field: nat, v: Word)

  predicate WritesOK(elems: seq<Elem>, members: seq<Member>, ws: seq<Write>) {
    forall k :: 0 <= k < |ws| ==>
        ws[k].field < |members| && IsField(elems, members[ws[k].field])
          && StaysInside(ws[k].v, members[ws[k].field].begin, members[ws[k].field].width)
  }

  function AfterWrites(mem: Mem, elems: seq<Elem>, members: seq<Member>, ws: seq<Write>): Mem
    requires WritesOK(elems, members, ws)
    decreases |ws|
  {
    if ws == [] then mem else
    var w := ws[|ws| - 1];
    SetField(AfterWrites(mem, elems, members, ws[..|ws| - 1]), elems, members[w.field], w.v)
  }

  function LastWrite(ws: seq<Write>, field: nat): (r: int)
    ensures -1 <= r < |ws| && (r >= 0 ==> ws[r].field == field) && forall k :: r < k < |ws| ==> ws[k].field != field
    decreases |ws|
  {
    if ws == [] then -1 else if ws[|ws| - 1].field == field then |ws| - 1 else LastWrite(ws[..|ws| - 1], field)
  }

  /** In every struct that the packing makes, every field of a 32-bit type reads as its last written
      value, or as it was at first; no bit of any other member is ever changed. */
  lemma {:induction false} FieldsAreIndependent(mem: Mem, elems: seq<Elem>, members: seq<Member>, ws: seq<Write>,
    i: nat, unsigned: bool)
    requires Laid(elems, 0, members) && WritesOK(elems, members, ws) && i < |members|
    ensures members[i].index < |elems|
    ensures IsField(elems, members[i]) ==>
      GetField(AfterWrites(mem, elems, members, ws), elems, members[i], unsigned) ==
      var k := LastWrite(ws, i);
        if k < 0 then GetField(mem, elems, members[i], unsigned) else Extended(ws[k].v, members[i].width, unsigned)
    ensures !IsField(elems, members[i]) ==>
        forall p: nat :: Owns(elems, members[i], p) ==> AfterWrites(mem, elems, members, ws)(p) == mem(p)
    decreases |ws|
  {
    hide GetField, SetField, Laid, Owns, Addr;
    var m := members[i];
    InElems(elems, members, i);
    if ws != [] {
      var init, w := ws[..|ws| - 1], ws[|ws| - 1];
      var before := AfterWrites(mem, elems, members, init);
      var after := SetField(before, elems, members[w.field], w.v);
      FieldsAreIndependent(mem, elems, members, init, i, unsigned);
      if w.field == i {
        SetThenGet(before, elems, m, w.v, unsigned);
      } else {
        forall p: nat | Owns(elems, m, p) ensures after(p) == before(p) {
          MembersApart(elems, members, i, w.field, p);
          SetKeeps(before, elems, members[w.field], w.v, p);
        }
        if IsField(elems, m) { GetKept(before, after, elems, m, unsigned); }
      }
    }
  }

  lemma InElems(elems: seq<Elem>, members: seq<Member>, i: nat)
    requires Laid(elems, 0, members) && i < |members|
    ensures members[i].index < |elems| && Aligned(elems)
    ensures members[i].Bits? && members[i].bytes == 4 ==> IsField(elems, members[i])
  {
    assert Housed(elems, 0, members[i]);
  }
}
