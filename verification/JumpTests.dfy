/** What the tests in front of jumps do to the registers, before and after a list is patched. */
module JumpTests {
  import opened JumpLists

  datatype Value = Nil | Bool(b: bool) | Other(v: int)
  type Regs = map<int, Value>

  predicate IsFalse(v: Value) { v == Nil || v == Bool(false) }
  function Reg(regs: Regs, r: int): Value { if r in regs then regs[r] else Nil }

  /** The registers and the next instruction. */
  datatype State = State(pc: int, regs: Regs)

  /** The register that a test looks at. */
  function Tested(i: Instr): int
    requires i.TestSet? || i.Test?
  {
    if i.TestSet? then i.b else i.a
  }

  /** A test takes the jump behind it or skips it. When it is a TESTSET that takes the jump, it copies the tested
      value first. */
  function Run(code: Code, p: nat, regs: Regs): State
    requires p + 1 < |code| && (code[p].TestSet? || code[p].Test?) && code[p + 1].Jump?
  {
    match code[p]
    case Test(a, _, c) =>
      if (if c != 0 then IsFalse(Reg(regs, a)) else !IsFalse(Reg(regs, a))) then State(p + 2, regs)
      else State(Dest(code, p + 1), regs)
    case TestSet(a, b, c) =>
      if (if c != 0 then IsFalse(Reg(regs, b)) else !IsFalse(Reg(regs, b))) then State(p + 2, regs)
      else State(Dest(code, p + 1), regs[a := Reg(regs, b)])
  }

  /** The jump is taken. */
  predicate Takes(i: Instr, regs: Regs)
    requires i.TestSet? || i.Test?
  {
    IsFalse(Reg(regs, Tested(i))) <==> i.c == 0
  }

  ghost predicate SameBut(regs: Regs, regs1: Regs, r: int) { forall x :: x != r ==> Reg(regs1, x) == Reg(regs, x) }

  /** A patched list: a test that produces a value goes to `vtarget` with the tested value in `reg`, and changes no
      other register; it changes none at all without a register (255), when the register is the tested one, and when
      it does not jump. It still jumps for the same values. */
  lemma ValueDelivered(code: Code, code1: Code, l: int, ms: seq<nat>, vtarget: int, reg: int,
    dtarget: int, m: nat, regs: Regs)
    requires IsList(code, l, ms) && IsPatched(code, code1, ms, vtarget, reg, dtarget) && m in ms
      && TestSetBefore(code, m)
    ensures m < |code1| && code1[m].Jump? && (code1[m - 1].TestSet? || code1[m - 1].Test?)
    ensures var tested, s := code[m - 1].b, Run(code1, m - 1, regs);
      && (Takes(code[m - 1], regs) ==> s.pc == vtarget && SameBut(regs, s.regs, reg))
      && (Takes(code[m - 1], regs) && reg != 255 ==> Reg(s.regs, reg) == Reg(regs, tested))
      && (reg == 255 || reg == tested || !Takes(code[m - 1], regs) ==> s.regs == regs)
      && (!Takes(code[m - 1], regs) ==> s.pc == m + 1)
  {
    MembersBelow(code, l, ms);
    assert code1[m - 1] == PatchedAt(code, ms, vtarget, reg, dtarget, m - 1);
    assert code1[m] == PatchedAt(code, ms, vtarget, reg, dtarget, m);
  }

  /** A test that produces no value keeps its condition, changes no register, and goes to `dtarget`. */
  lemma TestKept(code: Code, code1: Code, l: int, ms: seq<nat>, vtarget: int, reg: int,
    dtarget: int, m: nat, regs: Regs)
    requires IsList(code, l, ms) && IsPatched(code, code1, ms, vtarget, reg, dtarget) && m in ms
    requires 0 < m < |code| && code[m - 1].Test?
    ensures code1[m].Jump? && code1[m - 1] == code[m - 1]
    ensures Run(code1, m - 1, regs) == State(if Takes(code[m - 1], regs) then dtarget else m + 1, regs)
  {
    MembersBelow(code, l, ms);
    assert code1[m - 1] == PatchedAt(code, ms, vtarget, reg, dtarget, m - 1);
    assert code1[m] == PatchedAt(code, ms, vtarget, reg, dtarget, m);
  }

  /** Every offset fits its field of eighteen bits, which counts from -131071. */
  predicate Encodable(code: Code) { forall p :: 0 <= p < |code| && code[p].Jump? ==> -131071 <= code[p].sbx <= 131071 }

  /** Patching keeps the offsets encodable, and it fails exactly when one of the new ones is not. */
  lemma PatchedEncodable(code: Code, code1: Code, l: int, ms: seq<nat>, vtarget: int, reg: int, dtarget: int)
    requires IsList(code, l, ms) && IsPatched(code, code1, ms, vtarget, reg, dtarget) && Encodable(code)
    ensures Encodable(code1) <==> ListInReach(code, ms, vtarget, dtarget)
  {
    MembersBelow(code, l, ms);
    if Encodable(code1) {
      forall k | 0 <= k < |ms| ensures InReach(if TestSetBefore(code, ms[k]) then vtarget else dtarget, ms[k]) {
        assert ms[k] in ms && code1[ms[k]] == PatchedAt(code, ms, vtarget, reg, dtarget, ms[k]);
      }
    }
    if ListInReach(code, ms, vtarget, dtarget) {
      forall p | 0 <= p < |code1| && code1[p].Jump? ensures -131071 <= code1[p].sbx <= 131071 {
        assert code1[p] == PatchedAt(code, ms, vtarget, reg, dtarget, p);
        if p in ms { var k :| 0 <= k < |ms| && ms[k] == p; }
      }
    }
  }
}
