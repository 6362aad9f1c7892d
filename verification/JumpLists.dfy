/** The jump lists of Lua's code generator: jumps to a place that is not known yet are threaded
    through their own offset fields. */
module JumpLists {
  const NO_JUMP: int := -1
  const MAXARG_SBX: int := 131071
  const NO_REG: int := 255

  /** Instructions, as far as jump lists look at them. `Op.test`: the instruction is a test, which
      may skip the next one. */
  datatype Instr =
    | Jump(a: int, sbx: int)
    | TestSet(a: int, b: int, c: int)
    | Test(a: int, b: int, c: int)
    | Op(op: nat, test: bool)

  type Code = seq<Instr>

  predicate IsTest(i: Instr) { i.TestSet? || i.Test? || (i.Op? && i.test) }

  /** Where the jump at `pc` goes. */
  function Dest(code: Code, pc: nat): int
    requires pc < |code| && code[pc].Jump?
  {
    pc + 1 + code[pc].sbx
  }

  /** The next jump of a list: a jump to itself is the last one. */
  function GetJump(code: Code, pc: nat): int
    requires pc < |code| && code[pc].Jump?
  {
    if code[pc].sbx == NO_JUMP then NO_JUMP else Dest(code, pc)
  }

  /** The list that starts with jump `l` has members `ms`. */
  predicate IsList(code: Code, l: int, ms: seq<nat>)
    decreases |ms|
  {
    if ms == [] then l == NO_JUMP
    else l == ms[0] && ms[0] < |code| && code[ms[0]].Jump? && IsList(code, GetJump(code, ms[0]), ms[1..])
  }

  predicate InReach(dest: int, pc: nat) { -MAXARG_SBX <= dest - (pc + 1) <= MAXARG_SBX }

  /** The jump at `pc` is controlled by the TESTSET before it. */
  predicate TestSetBefore(code: Code, pc: nat) { 0 < pc <= |code| && code[pc - 1].TestSet? }

  function PatchedTest(i: Instr, reg: int): Instr
    requires i.TestSet?
  {
    if reg != NO_REG && reg != i.b then TestSet(reg, i.b, i.c) else Test(i.b, 0, i.c)
  }

  lemma {:induction false} ListMember(code: Code, l: int, ms: seq<nat>, k: nat)
    requires IsList(code, l, ms) && k < |ms|
    ensures ms[k] < |code| && code[ms[k]].Jump? && IsList(code, ms[k], ms[k..])
    ensures GetJump(code, ms[k]) == if k + 1 < |ms| then ms[k + 1] else NO_JUMP
    decreases |ms|
  {
    if k > 0 { ListMember(code, GetJump(code, ms[0]), ms[1..], k - 1); }
  }

  /** A list has exactly one reading, so it has no cycle. */
  lemma {:induction false} ListUnique(code: Code, l: int, ms: seq<nat>, ms1: seq<nat>)
    requires IsList(code, l, ms) && IsList(code, l, ms1)
    ensures ms == ms1
    decreases |ms|
  {
    if ms != [] && ms1 != [] { ListUnique(code, GetJump(code, ms[0]), ms[1..], ms1[1..]); }
  }

  lemma ListAcyclic(code: Code, l: int, ms: seq<nat>, i: nat, j: nat)
    requires IsList(code, l, ms) && i < j < |ms|
    ensures ms[i] != ms[j]
  {
    ListMember(code, l, ms, i);
    ListMember(code, l, ms, j);
    if ms[i] == ms[j] { ListUnique(code, ms[i], ms[i..], ms[j..]); }
  }

  /** Lists only depend on their members. */
  lemma {:induction false} ListKept(code: Code, code1: Code, l: int, ms: seq<nat>)
    requires IsList(code, l, ms) && |code| <= |code1| && (forall m :: m in ms && m < |code| ==> code1[m] == code[m])
    ensures IsList(code1, l, ms)
    decreases |ms|
  {
    if ms != [] { ListKept(code, code1, GetJump(code, ms[0]), ms[1..]); }
  }

  function Last(ms: seq<nat>): nat
    requires ms != []
  {
    ms[|ms| - 1]
  }

  function Linked(code: Code, pc: nat, dest: int): Code
    requires pc < |code| && code[pc].Jump?
  {
    code[pc := code[pc].(sbx := dest - (pc + 1))]
  }

  /** Linking the last jump of one list to another list appends it. */
  lemma {:induction false} ListLinked(code: Code, l: int, ms: seq<nat>, l2: int, ms2: seq<nat>)
    requires IsList(code, l, ms) && ms != [] && IsList(code, l2, ms2) && ms2 != []
    requires forall m :: m in ms ==> m !in ms2
    ensures Last(ms) < |code| && code[Last(ms)].Jump?
    ensures IsList(Linked(code, Last(ms), l2), l, ms + ms2)
    decreases |ms|
  {
    ListMember(code, l, ms, |ms| - 1);
    var code1 := Linked(code, Last(ms), l2);
    if |ms| == 1 {
      assert ms + ms2 == [ms[0]] + ms2 && (ms + ms2)[1..] == ms2;
      ListKept(code, code1, l2, ms2);
      assert ms2[0] in ms2 && ms[0] in ms;
    } else {
      ListAcyclic(code, l, ms, 0, |ms| - 1);
      assert Last(ms) == Last(ms[1..]) && (ms + ms2)[1..] == ms[1..] + ms2;
      assert forall m :: m in ms[1..] ==> m in ms;
      ListLinked(code, GetJump(code, ms[0]), ms[1..], l2, ms2);
    }
  }

  /** The code after all members of a list have been given their destination: those that a TESTSET
      controls go to `vtarget`, the others to `dtarget`. */
  predicate IsPatched(code: Code, code1: Code, ms: seq<nat>, vtarget: int, reg: int, dtarget: int) {
    && |code1| == |code|
    && forall p :: 0 <= p < |code| ==> code1[p] == PatchedAt(code, ms, vtarget, reg, dtarget, p)
  }

  function PatchedAt(code: Code, ms: seq<nat>, vtarget: int, reg: int, dtarget: int, p: nat): Instr
    requires p < |code|
  {
    if p in ms && code[p].Jump? then code[p].(sbx := (if TestSetBefore(code, p) then vtarget else dtarget) - (p + 1))
    else if p + 1 in ms && code[p].TestSet? then PatchedTest(code[p], reg)
    else code[p]
  }

  /* Who waits for what. */

  /** `pending`: the jumps to the current position; `held`: the other lists, by their first jump;
      `promised`: every pair of a jump and the place it was to arrive at. */
  datatype Book = Book(pending: seq<nat>, held: map<int, seq<nat>>, promised: set<(nat, nat)>)

  predicate Lists(code: Code, jpc: int, bk: Book) {
    IsList(code, jpc, bk.pending) && forall h :: h in bk.held ==> bk.held[h] != [] && IsList(code, h, bk.held[h])
  }
  predicate Disjoint(xs: seq<nat>, ys: seq<nat>) { forall m :: m in xs ==> m !in ys }
  predicate Apart(bk: Book) {
    && (forall h :: h in bk.held ==> Disjoint(bk.held[h], bk.pending))
    && (forall h, h1 :: h in bk.held && h1 in bk.held && h != h1 ==> Disjoint(bk.held[h], bk.held[h1]))
  }
  predicate Free(bk: Book, j: nat) { j !in bk.pending && forall h :: h in bk.held ==> j !in bk.held[h] }
  ghost predicate Together(bk: Book, j: nat, p: nat) {
    (j in bk.pending && p in bk.pending) || exists h :: h in bk.held && j in bk.held[h] && p in bk.held[h]
  }

  /** Jump `j` arrives at `p`, or will: if another jump was put there, it goes where that goes. */
  ghost predicate Arrives(code: Code, bk: Book, j: nat, p: nat) {
    && j < |code| && code[j].Jump? && p <= |code|
    && (|| (p == |code| && j in bk.pending)
        || (p < |code| && Free(bk, j) && Dest(code, j) == p)
        || (p < |code| && code[p].Jump? && (Together(bk, j, p)
          || (Free(bk, j) && Free(bk, p) && Dest(code, j) == Dest(code, p)))))
  }

  ghost predicate Promised(bk: Book, j: nat) { exists p :: (j, p) in bk.promised }

  ghost predicate Booked(code: Code, jpc: int, bk: Book) {
    && Lists(code, jpc, bk) && Apart(bk)
    && (forall j, p :: (j, p) in bk.promised ==> Arrives(code, bk, j, p))
    && (forall j :: j in bk.pending ==> (j, |code|) in bk.promised)
    && (forall j :: 0 <= j < |code| && code[j].Jump? ==> !Free(bk, j) || Promised(bk, j))
  }

  /** When no list is left, every jump has been given a destination, and every promise is kept. */
  lemma {:induction false} AllArrived(code: Code, jpc: int, bk: Book, j: nat)
    requires Booked(code, jpc, bk) && bk.pending == [] && bk.held == map[] && j < |code| && code[j].Jump?
    ensures exists p :: (j, p) in bk.promised
    ensures forall p :: (j, p) in bk.promised ==>
      p < |code| && (Dest(code, j) == p || (code[p].Jump? && Dest(code, j) == Dest(code, p)))
  {
    assert Free(bk, j);
    forall p | (j, p) in bk.promised
      ensures p < |code| && (Dest(code, j) == p || (code[p].Jump? && Dest(code, j) == Dest(code, p)))
    {
      assert Arrives(code, bk, j, p);
    }
  }

  lemma PatchedList(code: Code, code1: Code, ms: seq<nat>, vtarget: int, reg: int, dtarget: int, l: int, xs: seq<nat>)
    requires IsPatched(code, code1, ms, vtarget, reg, dtarget) && IsList(code, l, xs) && Disjoint(xs, ms)
    ensures IsList(code1, l, xs)
  {
    forall m | m in xs && m < |code| ensures code1[m] == code[m] {
      assert code1[m] == PatchedAt(code, ms, vtarget, reg, dtarget, m);
      var k :| 0 <= k < |xs| && xs[k] == m;
      ListMember(code, l, xs, k);
    }
    ListKept(code, code1, l, xs);
  }

  lemma PatchedDest(code: Code, code1: Code, ms: seq<nat>, target: int, j: nat)
    requires IsPatched(code, code1, ms, target, NO_REG, target) && j < |code| && code[j].Jump?
    ensures code1[j].Jump? && Dest(code1, j) == if j in ms then target else Dest(code, j)
  {
    assert code1[j] == PatchedAt(code, ms, target, NO_REG, target, j);
  }

  lemma PatchedKind(code: Code, code1: Code, ms: seq<nat>, target: int, j: nat)
    requires IsPatched(code, code1, ms, target, NO_REG, target) && j < |code|
    ensures code1[j].Jump? <==> code[j].Jump?
  {
    assert code1[j] == PatchedAt(code, ms, target, NO_REG, target, j);
  }

  /** luaK_code: the pending jumps are given the position of the new instruction. */
  lemma {:induction false} BookCode(code: Code, jpc: int, bk: Book, code1: Code, i: Instr)
    requires Booked(code, jpc, bk) && IsPatched(code, code1, bk.pending, |code|, NO_REG, |code|) && !i.Jump?
    ensures Booked(code1 + [i], NO_JUMP, bk.(pending := []))
  {
    var bk1, code2 := bk.(pending := []), code1 + [i];
    forall h | h in bk1.held ensures IsList(code2, h, bk1.held[h]) {
      PatchedList(code, code1, bk.pending, |code|, NO_REG, |code|, h, bk.held[h]);
      ListKept(code1, code2, h, bk.held[h]);
    }
    assert forall x :: Free(bk, x) ==> Free(bk1, x);
    forall j, p | (j, p) in bk1.promised ensures Arrives(code2, bk1, j, p) {
      assert Arrives(code, bk, j, p);
      PatchedDest(code, code1, bk.pending, |code|, j);
      if j in bk.pending { PendingFree(bk, j); }
      if p < |code| && code[p].Jump? {
        PatchedDest(code, code1, bk.pending, |code|, p);
        if p in bk.pending { PendingFree(bk, p); }
        assert Together(bk, j, p) && !(j in bk.pending && p in bk.pending) ==> Together(bk1, j, p);
      }
    }
    forall j | 0 <= j < |code2| && code2[j].Jump? ensures !Free(bk1, j) || Promised(bk1, j) {
      PatchedKind(code, code1, bk.pending, |code|, j);
      if j in bk.pending { assert (j, |code|) in bk1.promised; }
      else if Free(bk1, j) { assert Free(bk, j) && Promised(bk, j); }
    }
  }

  lemma PendingFree(bk: Book, j: nat)
    requires Apart(bk) && j in bk.pending
    ensures Free(bk.(pending := []), j)
  {
  }

  function JumpedBook(bk: Book, n: nat): Book { bk.(pending := [], held := bk.held[n := [n] + bk.pending]) }

  lemma JumpedLists(code: Code, jpc: int, bk: Book, code1: Code, a: int)
    requires Lists(code, jpc, bk) && Apart(bk)
    requires code1 == if bk.pending == [] then code + [Jump(a, NO_JUMP)]
      else Linked(code + [Jump(a, NO_JUMP)], |code|, jpc)
    ensures Lists(code1, NO_JUMP, JumpedBook(bk, |code|)) && Apart(JumpedBook(bk, |code|)) && HeldBelow(bk, |code|)
  {
    var n := |code|;
    var ms := [n] + bk.pending;
    var code2 := code + [Jump(a, NO_JUMP)];
    MembersBelow(code, jpc, bk.pending);
    ListKept(code, code2, jpc, bk.pending);
    if bk.pending == [] { assert IsList(code1, n, ms); } else { ListLinked(code2, n, [n], jpc, bk.pending); }
    forall h | h in bk.held ensures bk.held[h] != [] && IsList(code1, h, bk.held[h]) && h != n && n !in bk.held[h] {
      MembersBelow(code, h, bk.held[h]);
      ListKept(code, code1, h, bk.held[h]);
    }
  }

  /** The lists only have members below `n`. */
  predicate HeldBelow(bk: Book, n: nat) { n !in bk.pending && n !in bk.held && forall h ::
    h in bk.held ==> n !in bk.held[h] }

  lemma JumpedFree(bk: Book, n: nat, x: nat)
    requires HeldBelow(bk, n)
    ensures Free(JumpedBook(bk, n), x) <==> Free(bk, x) && x != n
  {
    var bk1 := JumpedBook(bk, n);
    if Free(bk1, x) {
      assert x !in bk1.held[n];
      forall h | h in bk.held ensures x !in bk.held[h] { assert bk1.held[h] == bk.held[h]; }
    }
  }

  lemma JumpedTogether(bk: Book, n: nat, j: nat, p: nat)
    requires HeldBelow(bk, n) && (Together(bk, j, p) || (j in bk.pending && p == n))
    ensures Together(JumpedBook(bk, n), j, p)
  {
    var bk1 := JumpedBook(bk, n);
    if j in bk.pending && (p == n || p in bk.pending) { assert j in bk1.held[n] && p in bk1.held[n]; }
    else {
      var h :| h in bk.held && j in bk.held[h] && p in bk.held[h];
      assert h in bk1.held && bk1.held[h] == bk.held[h];
    }
  }

  lemma JumpedArrives(code: Code, jpc: int, bk: Book, code1: Code, a: int, j: nat, p: nat)
    requires HeldBelow(bk, |code|) && Arrives(code, bk, j, p)
    requires code1 == if bk.pending == [] then code + [Jump(a, NO_JUMP)]
      else Linked(code + [Jump(a, NO_JUMP)], |code|, jpc)
    ensures Arrives(code1, JumpedBook(bk, |code|), j, p)
  {
    hide Free, Together, HeldBelow, JumpedBook;
    var n := |code|;
    assert |code1| == n + 1 && code1[n].Jump? && code1[j] == code[j] && (p < n ==> code1[p] == code[p]);
    JumpedFree(bk, n, j);
    if p < n { JumpedFree(bk, n, p); }
    if p == n || Together(bk, j, p) { JumpedTogether(bk, n, j, p); }
  }

  /** luaK_jump: the pending jumps wait together with the new one. */
  lemma BookJump(code: Code, jpc: int, bk: Book, code1: Code, a: int)
    requires Booked(code, jpc, bk)
    requires code1 == if bk.pending == [] then code + [Jump(a, NO_JUMP)]
      else Linked(code + [Jump(a, NO_JUMP)], |code|, jpc)
    ensures Booked(code1, NO_JUMP, bk.(pending := [], held := bk.held[|code| := [|code|] + bk.pending]))
  {
    hide Lists, Apart, Arrives, Free, HeldBelow;
    var bk1 := JumpedBook(bk, |code|);
    JumpedLists(code, jpc, bk, code1, a);
    forall j, p | (j, p) in bk1.promised
      ensures Arrives(code1, bk1, j, p) { JumpedArrives(code, jpc, bk, code1, a, j, p); }
    forall j | 0 <= j < |code1| && code1[j].Jump? ensures !Free(bk1, j) || Promised(bk1, j) {
      JumpedFree(bk, |code|, j);
      if Free(bk, j) && j < |code| { assert Promised(bk, j); var p :| (j, p) in bk.promised;
        assert (j, p) in bk1.promised; }
    }
  }

  lemma {:induction false} MembersBelow(code: Code, l: int, ms: seq<nat>)
    requires IsList(code, l, ms)
    ensures forall m :: m in ms ==> m < |code| && code[m].Jump?
    decreases |ms|
  {
    if ms != [] {
      MembersBelow(code, GetJump(code, ms[0]), ms[1..]);
      assert forall m :: m in ms ==> m == ms[0] || m in ms[1..];
    }
  }

  /** A promise survives when lists only grow together and free jumps are left alone. */
  lemma StillArrives(code: Code, bk: Book, code1: Code, bk1: Book, j: nat, p: nat)
    requires Arrives(code, bk, j, p) && |code1| == |code| && code1[j].Jump?
    requires j in bk.pending ==> j in bk1.pending
    requires Together(bk, j, p) ==> Together(bk1, j, p)
    requires Free(bk, j) ==> Free(bk1, j) && Dest(code1, j) == Dest(code, j)
    requires p < |code| && code[p].Jump? ==>
        code1[p].Jump? && (Free(bk, p) ==> Free(bk1, p) && Dest(code1, p) == Dest(code, p))
    ensures Arrives(code1, bk1, j, p)
  {
  }

  /** The lists of `bk1` are those of `bk`, except that `l1` and `l2` have become `l1`. */
  predicate Merged(bk: Book, bk1: Book, l1: int, l2: int)
    requires l1 in bk.held && l2 in bk.held
  {
    bk1 == bk.(held := (bk.held - {l2})[l1 := bk.held[l1] + bk.held[l2]]) && l1 != l2
  }

  lemma MergedBook(bk: Book, bk1: Book, l1: int, l2: int, j: nat, p: nat)
    requires l1 in bk.held && l2 in bk.held && Merged(bk, bk1, l1, l2)
    ensures Free(bk, j) <==> Free(bk1, j)
    ensures Together(bk, j, p) ==> Together(bk1, j, p)
  {
    if Free(bk1, j) {
      assert j !in bk1.held[l1];
      forall h | h in bk.held ensures j !in bk.held[h] { assert h == l1 || h == l2 || bk1.held[h] == bk.held[h]; }
    }
    if Together(bk, j, p) && !(j in bk.pending && p in bk.pending) {
      var h :| h in bk.held && j in bk.held[h] && p in bk.held[h];
      if h == l1 || h == l2 { assert j in bk1.held[l1] && p in bk1.held[l1]; } else {
        assert bk1.held[h] == bk.held[h]; }
    }
  }

  /** luaK_concat of two lists, neither of them empty. */
  lemma {:induction false} BookConcat(code: Code, jpc: int, bk: Book, l1: int, l2: int)
    requires Booked(code, jpc, bk) && l1 in bk.held && l2 in bk.held && l1 != l2
    ensures Last(bk.held[l1]) < |code| && code[Last(bk.held[l1])].Jump?
    ensures Booked(Linked(code, Last(bk.held[l1]), l2), jpc,
      bk.(held := (bk.held - {l2})[l1 := bk.held[l1] + bk.held[l2]]))
  {
    hide IsList, Arrives, Free, Together;
    var ms1, ms2 := bk.held[l1], bk.held[l2];
    var bk1 := bk.(held := (bk.held - {l2})[l1 := ms1 + ms2]);
    ListLinked(code, l1, ms1, l2, ms2);
    var code1 := Linked(code, Last(ms1), l2);
    LinkedElsewhere(code, jpc, bk.pending, Last(ms1), l2);
    forall h | h in bk1.held ensures bk1.held[h] != [] && IsList(code1, h, bk1.held[h]) {
      if h != l1 { LinkedElsewhere(code, h, bk.held[h], Last(ms1), l2); }
    }
    forall j, p | (j, p) in bk1.promised ensures Arrives(code1, bk1, j, p) {
      MergedBook(bk, bk1, l1, l2, j, p);
      MergedBook(bk, bk1, l1, l2, p, j);
      NotFree(bk, l1, Last(ms1));
      ArrivesJump(code, bk, j, p);
      StillArrives(code, bk, code1, bk1, j, p);
    }
    forall j | 0 <= j < |code1| && code1[j].Jump? ensures !Free(bk1, j) || Promised(bk1, j) {
      MergedBook(bk, bk1, l1, l2, j, j);
      if Free(bk, j) { assert Promised(bk, j); }
    }
  }

  lemma NotFree(bk: Book, l: int, m: nat)
    requires l in bk.held && m in bk.held[l]
    ensures !Free(bk, m)
  {
  }

  lemma ArrivesJump(code: Code, bk: Book, j: nat, p: nat)
    requires Arrives(code, bk, j, p)
    ensures j < |code| && code[j].Jump?
  {
  }

  lemma LinkedElsewhere(code: Code, l: int, ms: seq<nat>, at: nat, dest: int)
    requires IsList(code, l, ms) && at < |code| && code[at].Jump? && at !in ms
    ensures IsList(Linked(code, at, dest), l, ms)
  {
    ListKept(code, Linked(code, at, dest), l, ms);
  }

  /** List `l` has joined the pending jumps. */
  lemma HereBook(bk: Book, bk1: Book, l: int, j: nat, p: nat)
    requires l in bk.held && bk1.pending == bk.pending + bk.held[l] && bk1.held == bk.held - {l}
    ensures Free(bk, j) <==> Free(bk1, j)
    ensures Together(bk, j, p) ==> Together(bk1, j, p)
  {
    if Free(bk1, j) { forall h | h in bk.held ensures j !in bk.held[h] { assert h == l || bk1.held[h] == bk.held[h]; } }
    if Together(bk, j, p) && !(j in bk.pending && p in bk.pending) {
      var h :| h in bk.held && j in bk.held[h] && p in bk.held[h];
      if h != l { assert bk1.held[h] == bk.held[h]; }
    }
  }

  lemma PendingNotFree(bk: Book, m: nat)
    requires m in bk.pending
    ensures !Free(bk, m)
  {
  }

  lemma ArrivesHere(code: Code, bk: Book, j: nat)
    requires j < |code| && code[j].Jump? && j in bk.pending
    ensures Arrives(code, bk, j, |code|)
  {
  }

  /** luaK_patchtohere: the list joins the pending jumps. */
  lemma {:induction false} BookHere(code: Code, jpc: int, bk: Book, l: int, code1: Code, jpc1: int)
    requires Booked(code, jpc, bk) && l in bk.held
    requires bk.pending == [] ==> code1 == code && jpc1 == l
    requires bk.pending != [] ==>
        Last(bk.pending) < |code| && code[Last(bk.pending)].Jump?
          && code1 == Linked(code, Last(bk.pending), l) && jpc1 == jpc
    ensures Booked(code1, jpc1, Book(bk.pending + bk.held[l], bk.held - {l},
      bk.promised + set m | m in bk.held[l] :: (m, |code|)))
  {
    hide IsList, Arrives, Free, Together;
    var ms := bk.held[l];
    var bk1 := Book(bk.pending + ms, bk.held - {l}, bk.promised + set m | m in ms :: (m, |code|));
    MembersBelow(code, l, ms);
    if bk.pending != [] { ListLinked(code, jpc, bk.pending, l, ms); } else { assert [] + ms == ms; }
    forall h | h in bk1.held ensures bk1.held[h] != [] && IsList(code1, h, bk1.held[h]) {
      if bk.pending != [] { LinkedElsewhere(code, h, bk.held[h], Last(bk.pending), l); }
    }
    forall j, p | (j, p) in bk1.promised ensures Arrives(code1, bk1, j, p) {
      if (j, p) in bk.promised {
        HereBook(bk, bk1, l, j, p);
        HereBook(bk, bk1, l, p, j);
        if bk.pending != [] { PendingNotFree(bk, Last(bk.pending)); }
        ArrivesJump(code, bk, j, p);
        StillArrives(code, bk, code1, bk1, j, p);
      } else {
        ArrivesHere(code1, bk1, j);
      }
    }
    forall j | 0 <= j < |code1| && code1[j].Jump? ensures !Free(bk1, j) || Promised(bk1, j) {
      HereBook(bk, bk1, l, j, j);
      if Free(bk, j) { assert Promised(bk, j); var p :| (j, p) in bk.promised; assert (j, p) in bk1.promised; }
    }
  }

  function PatchedBook(bk: Book, l: int, target: nat): Book
    requires l in bk.held
  {
    bk.(held := bk.held - {l}, promised := bk.promised + set m | m in bk.held[l] :: (m, target))
  }

  lemma PatchedLists(code: Code, jpc: int, bk: Book, l: int, target: nat, code1: Code)
    requires Lists(code, jpc, bk) && Apart(bk) && l in bk.held && target < |code|
      && IsPatched(code, code1, bk.held[l], target, NO_REG, target)
    ensures Lists(code1, jpc, PatchedBook(bk, l, target)) && Apart(PatchedBook(bk, l, target))
  {
    var ms, bk1 := bk.held[l], PatchedBook(bk, l, target);
    PatchedList(code, code1, ms, target, NO_REG, target, jpc, bk.pending);
    forall h | h in bk1.held ensures bk1.held[h] != [] && IsList(code1, h, bk1.held[h]) {
      PatchedList(code, code1, ms, target, NO_REG, target, h, bk.held[h]);
    }
  }

  /** Members of the list become free, and nothing else does. */
  lemma PatchedFree(bk: Book, l: int, target: nat, x: nat)
    requires Apart(bk) && l in bk.held
    ensures Free(PatchedBook(bk, l, target), x) <==> Free(bk, x) || x in bk.held[l]
  {
    var bk1 := PatchedBook(bk, l, target);
    if x in bk.held[l] {
      forall h | h in bk1.held ensures x !in bk1.held[h] { assert Disjoint(bk.held[l], bk.held[h]); }
      assert x !in bk.pending;
    } else if Free(bk1, x) {
      forall h | h in bk.held ensures x !in bk.held[h] { assert h == l || bk1.held[h] == bk.held[h]; }
    }
  }

  lemma PatchedTogether(bk: Book, l: int, target: nat, j: nat, p: nat)
    requires Apart(bk) && l in bk.held && Together(bk, j, p)
    ensures Together(PatchedBook(bk, l, target), j, p) || (j in bk.held[l] && p in bk.held[l])
  {
    var bk1 := PatchedBook(bk, l, target);
    if !(j in bk.pending && p in bk.pending) {
      var h :| h in bk.held && j in bk.held[h] && p in bk.held[h];
      if h != l { assert bk1.held[h] == bk.held[h]; }
    }
  }

  lemma PatchedArrives(code: Code, bk: Book, l: int, target: nat, code1: Code, j: nat, p: nat)
    requires Apart(bk) && l in bk.held && target < |code| && IsPatched(code, code1, bk.held[l], target, NO_REG, target)
    requires Arrives(code, bk, j, p) || (j in bk.held[l] && p == target && j < |code| && code[j].Jump?)
    ensures Arrives(code1, PatchedBook(bk, l, target), j, p)
  {
    hide IsPatched, Apart, Free, Together, Dest, PatchedBook;
    var ms, bk1 := bk.held[l], PatchedBook(bk, l, target);
    assert |code1| == |code| by { PatchedLength(code, code1, ms, target); }
    PatchedDest(code, code1, ms, target, j);
    PatchedFree(bk, l, target, j);
    assert bk1.pending == bk.pending by { PatchedPending(bk, l, target); }
    if j in ms && !Free(bk, j) { MemberNotFree(bk, l, j); }
    if p < |code| && code[p].Jump? {
      PatchedDest(code, code1, ms, target, p);
      PatchedFree(bk, l, target, p);
      if Together(bk, j, p) { PatchedTogether(bk, l, target, j, p); }
      if p in ms && Free(bk, p) { MemberNotFree(bk, l, p); }
    }
    if Free(bk, j) { MemberNotFree(bk, l, j); }
  }

  lemma PatchedLength(code: Code, code1: Code, ms: seq<nat>, target: int)
    requires IsPatched(code, code1, ms, target, NO_REG, target)
    ensures |code1| == |code|
  {
  }

  lemma PatchedPending(bk: Book, l: int, target: nat)
    requires l in bk.held
    ensures PatchedBook(bk, l, target).pending == bk.pending
  {
  }

  lemma MemberNotFree(bk: Book, l: int, j: nat)
    requires l in bk.held
    ensures j in bk.held[l] ==> !Free(bk, j)
  {
  }

  /** luaK_patchlist to a place that has been passed. */
  lemma BookPatch(code: Code, jpc: int, bk: Book, l: int, target: nat, code1: Code)
    requires Booked(code, jpc, bk) && l in bk.held && target < |code|
      && IsPatched(code, code1, bk.held[l], target, NO_REG, target)
    ensures Booked(code1, jpc, bk.(held := bk.held - {l},
      promised := bk.promised + set m | m in bk.held[l] :: (m, target)))
  {
    hide Lists, Apart, Arrives, Free, IsPatched;
    var ms, bk1 := bk.held[l], PatchedBook(bk, l, target);
    PatchedLength(code, code1, ms, target);
    PatchedLists(code, jpc, bk, l, target, code1);
    MembersJump(code, jpc, bk, l);
    forall j, p | (j, p) in bk1.promised ensures Arrives(code1, bk1, j, p) {
      PatchedArrives(code, bk, l, target, code1, j, p);
    }
    forall j | 0 <= j < |code1| && code1[j].Jump? ensures !Free(bk1, j) || Promised(bk1, j) {
      PatchedKind(code, code1, ms, target, j);
      PatchedFree(bk, l, target, j);
      if j in ms { assert (j, target) in bk1.promised; }
      else if Free(bk, j) {
        var p :| (j, p) in bk.promised;
        assert (j, p) in bk1.promised;
      }
    }
  }

  lemma MembersJump(code: Code, jpc: int, bk: Book, l: int)
    requires Lists(code, jpc, bk) && l in bk.held
    ensures forall m :: m in bk.held[l] ==> m < |code| && code[m].Jump?
  {
    MembersBelow(code, l, bk.held[l]);
  }

  predicate ListInReach(code: Code, ms: seq<nat>, vtarget: int, dtarget: int) {
    forall m :: m in ms ==> InReach(if TestSetBefore(code, m) then vtarget else dtarget, m)
  }

  lemma PatchedOne(code: Code, code1: Code, ms: seq<nat>, i: nat, vtarget: int, reg: int, dtarget: int, l: int)
    requires IsList(code, l, ms) && i < |ms| && IsPatched(code, code1, ms[..i], vtarget, reg, dtarget)
    ensures ms[i] < |code1| && code1[ms[i]] == code[ms[i]] && code[ms[i]].Jump?
    ensures GetJump(code1, ms[i]) == if i + 1 < |ms| then ms[i + 1] else NO_JUMP
    ensures TestSetBefore(code1, ms[i]) == TestSetBefore(code, ms[i])
    ensures ms[i] > 0 ==> code1[ms[i] - 1] == PatchedAt(code, ms[..i], vtarget, reg, dtarget, ms[i] - 1)
    ensures ms[i] > 0 && code[ms[i] - 1].TestSet? ==> code1[ms[i] - 1] == code[ms[i] - 1]
  {
    ListMember(code, l, ms, i);
    assert ms[i] !in ms[..i] by { if ms[i] in ms[..i] {
      var k :| 0 <= k < i && ms[k] == ms[i]; ListAcyclic(code, l, ms, k, i); } }
    assert code1[ms[i]] == PatchedAt(code, ms[..i], vtarget, reg, dtarget, ms[i]);
    if ms[i] > 0 { assert code1[ms[i] - 1] == PatchedAt(code, ms[..i], vtarget, reg, dtarget, ms[i] - 1); }
  }

  lemma ListHead(code: Code, l: int, ms: seq<nat>)
    requires IsList(code, l, ms)
    ensures if ms == [] then l == NO_JUMP else l == ms[0]
  {
  }

  lemma PatchedNone(code: Code, vtarget: int, reg: int, dtarget: int)
    ensures IsPatched(code, code, [], vtarget, reg, dtarget)
  {
  }

  lemma PatchedNext(was: Code, code: Code, code1: Code, ms: seq<nat>, i: nat, vtarget: int,
    reg: int, dtarget: int, l: int)
    requires IsList(was, l, ms) && i < |ms| && IsPatched(was, code, ms[..i], vtarget, reg, dtarget)
    requires ms[i] < |code| && code[ms[i]].Jump? && |code1| == |code|
    requires TestSetBefore(was, ms[i]) ==>
        code[ms[i] - 1].TestSet? && code1 == Linked(code[ms[i] - 1 :=
          PatchedTest(code[ms[i] - 1], reg)], ms[i], vtarget)
    requires !TestSetBefore(was, ms[i]) ==> code1 == Linked(code, ms[i], dtarget)
    ensures IsPatched(was, code1, ms[..i + 1], vtarget, reg, dtarget)
  {
    hide IsList;
    PatchedOne(was, code, ms, i, vtarget, reg, dtarget, l);
    assert ms[..i + 1] == ms[..i] + [ms[i]];
    forall p | 0 <= p < |was| ensures code1[p] == PatchedAt(was, ms[..i + 1], vtarget, reg, dtarget, p) {
      assert code[p] == PatchedAt(was, ms[..i], vtarget, reg, dtarget, p);
    }
  }

  class FuncState {
    var code: Code
    var jpc: int
    var lasttarget: int
    ghost var book: Book

    ghost predicate Valid()
      reads this
    {
      Booked(code, jpc, book)
    }

    constructor ()
      ensures Valid() && code == [] && jpc == NO_JUMP && book == Book([], map[], {})
    {
      code, jpc, lasttarget := [], NO_JUMP, 0;
      book := Book([], map[], {});
    }

    /** False where the source reports a control structure that is too long. */
    method FixJump(at: nat, dest: int) returns (ok: bool)
      requires at < |code| && code[at].Jump? && dest != NO_JUMP
      modifies this`code
      ensures ok == InReach(dest, at) && code == if ok then Linked(old(code), at, dest) else old(code)
    {
      var offset := dest - (at + 1);
      if offset > MAXARG_SBX || -offset > MAXARG_SBX { return false; }
      code := code[at := code[at].(sbx := offset)];
      ok := true;
    }

    /** luaK_concat, on the list variable `l1`. */
    method Concat(l1: int, l2: int, ghost ms1: seq<nat>, ghost ms2: seq<nat>) returns (l: int, ok: bool)
      requires IsList(code, l1, ms1) && IsList(code, l2, ms2) && Disjoint(ms1, ms2)
      modifies this`code
      ensures ok == (ms1 != [] && ms2 != [] ==> InReach(l2, Last(ms1))) && (!ok ==> code == old(code))
      ensures ok ==> IsList(code, l, ms1 + ms2) && l == if ms1 == [] then l2 else l1
      ensures ok && ms1 != [] && ms2 != [] ==>
          Last(ms1) < |old(code)| && old(code)[Last(ms1)].Jump? && code == Linked(old(code), Last(ms1), l2)
      ensures ok && (ms1 == [] || ms2 == []) ==> code == old(code)
    {
      l, ok := l1, true;
      if l2 == NO_JUMP {
        assert ms1 + ms2 == ms1;
      } else if l1 == NO_JUMP {
        assert ms1 + ms2 == ms2;
        l := l2;
      } else {
        var list := l1;
        ghost var i := 0;
        ListMember(code, l1, ms1, 0);
        while GetJump(code, list) != NO_JUMP
          invariant code == old(code) && 0 <= i < |ms1| && list == ms1[i] && list < |code| && code[list].Jump?
          invariant GetJump(code, list) == if i + 1 < |ms1| then ms1[i + 1] else NO_JUMP
          decreases |ms1| - i
        {
          list, i := GetJump(code, list), i + 1;
          ListMember(code, l1, ms1, i);
        }
        ListLinked(code, l1, ms1, l2, ms2);
        ok := FixJump(list, l2);
      }
    }

    /** Patches the TESTSET that controls the jump at `node`, if there is one. */
    method PatchTestReg(node: nat, reg: int) returns (patched: bool)
      requires node < |code| && code[node].Jump?
      modifies this`code
      ensures patched == TestSetBefore(old(code), node)
      ensures code == if patched then old(code)[node - 1 := PatchedTest(old(code)[node - 1], reg)] else old(code)
    {
      var control := if node >= 1 && IsTest(code[node - 1]) then node - 1 else node;
      if !code[control].TestSet? { return false; }
      var i := code[control];
      if reg != NO_REG && reg != i.b {
        code := code[control := TestSet(reg, i.b, i.c)];
      } else {
        code := code[control := Test(i.b, 0, i.c)];
      }
      patched := true;
    }

    /** patchlistaux. */
    method PatchListAux(l: int, vtarget: int, reg: int, dtarget: int, ghost ms: seq<nat>) returns (ok: bool)
      requires IsList(code, l, ms) && vtarget != NO_JUMP && dtarget != NO_JUMP
      modifies this`code
      ensures ok == ListInReach(old(code), ms, vtarget, dtarget)
      ensures ok ==> IsPatched(old(code), code, ms, vtarget, reg, dtarget)
    {
      hide IsPatched, PatchedAt, IsList, PatchedTest;
      ghost var was := code;
      PatchedNone(was, vtarget, reg, dtarget);
      ListHead(code, l, ms);
      var list := l;
      ghost var i := 0;
      while list != NO_JUMP
        invariant 0 <= i <= |ms| && list == if i < |ms| then ms[i] else NO_JUMP
        invariant IsPatched(was, code, ms[..i], vtarget, reg, dtarget)
        invariant ListInReach(was, ms[..i], vtarget, dtarget)
        decreases |ms| - i
      {
        PatchedOne(was, code, ms, i, vtarget, reg, dtarget, l);
        assert ms[i] in ms && ms[i] == list;
        var next := GetJump(code, list);
        ghost var code0 := code;
        var patched := PatchTestReg(list, reg);
        ok := FixJump(list, if patched then vtarget else dtarget);
        if !ok { return; }
        PatchedNext(was, code0, code, ms, i, vtarget, reg, dtarget, l);
        assert ms[..i + 1] == ms[..i] + [ms[i]];
        list, i := next, i + 1;
      }
      assert ms[..i] == ms;
      ok := true;
    }

    /** luaK_code, for an instruction that is not a jump. */
    method EmitCode(i: Instr) returns (pc: nat, ok: bool)
      requires Valid() && !i.Jump?
      modifies this`code, this`jpc, this`book
      ensures pc == |old(code)| && ok == ListInReach(old(code), old(book).pending, pc, pc)
      ensures ok ==> Valid() && |code| == pc + 1 && code[pc] == i && book == old(book).(pending := [])
      ensures ok ==> IsPatched(old(code), code[..pc], old(book).pending, pc, NO_REG, pc)
    {
      pc := |code|;
      ghost var was := code;
      ok := PatchListAux(jpc, pc, NO_REG, pc, book.pending);
      if ok {
        BookCode(was, jpc, book, code, i);
        jpc := NO_JUMP;
        code := code + [i];
        book := book.(pending := []);
        assert code[..pc] == code[..|code| - 1];
      }
    }

    /** luaK_jump. */
    method EmitJump() returns (j: int, ok: bool)
      requires Valid()
      modifies this`code, this`jpc, this`book
      ensures ok ==> Valid() && j == |old(code)| && |code| == |old(code)| + 1
      ensures ok ==> book == old(book).(pending := [], held := old(book).held[j := [|old(code)|] + old(book).pending])
      ensures ok == (old(book).pending != [] ==> InReach(old(jpc), |old(code)|))
    {
      var here := jpc;
      ghost var was := code;
      j := |code|;
      code := code + [Jump(0, NO_JUMP)];
      ListKept(was, code, here, book.pending);
      MembersBelow(was, here, book.pending);
      j, ok := Concat(j, here, [|was|], book.pending);
      if ok {
        BookJump(was, here, book, code, 0);
        jpc := NO_JUMP;
        book := book.(pending := [], held := book.held[j := [|was|] + book.pending]);
      }
    }

    /** luaK_concat of two lists of the caller. */
    method Join(l1: int, l2: int) returns (l: int, ok: bool)
      requires Valid() && (l1 == NO_JUMP || l1 in book.held) && (l2 == NO_JUMP || l2 in book.held)
        && (l1 == l2 ==> l1 == NO_JUMP)
      modifies this`code, this`jpc, this`book
      ensures ok ==>
          Valid() && book.pending == old(book).pending && book.promised == old(book).promised && |code| == |old(code)|
      ensures ok && (l1 == NO_JUMP || l2 == NO_JUMP)
        ==> book == old(book) && code == old(code) && l == if l2 == NO_JUMP then l1 else l2
      ensures ok && l1 != NO_JUMP && l2 != NO_JUMP ==>
        l == l1 && book.held == (old(book).held - {l2})[l1 := old(book).held[l1] + old(book).held[l2]]
    {
      ghost var ms1, ms2 := HeldList(l1), HeldList(l2);
      if l1 != NO_JUMP && l2 != NO_JUMP { BookConcat(code, jpc, book, l1, l2); }
      ListHeads();
      l, ok := Concat(l1, l2, ms1, ms2);
      if ok && l1 != NO_JUMP && l2 != NO_JUMP {
        book := book.(held := (book.held - {l2})[l1 := ms1 + ms2]);
      }
    }

    ghost function HeldList(l: int): seq<nat>
      reads this
    {
      if l in book.held then book.held[l] else []
    }

    lemma ListHeads()
      requires Valid()
      ensures NO_JUMP !in book.held
    {
      forall h | h in book.held ensures h != NO_JUMP { ListHead(code, h, book.held[h]); }
    }

    /** luaK_patchtohere. */
    method PatchToHere(l: int) returns (ok: bool)
      requires Valid() && (l == NO_JUMP || l in book.held)
      modifies this
      ensures lasttarget == |old(code)|
      ensures ok && l == NO_JUMP ==> Valid() && book == old(book) && code == old(code)
      ensures ok && l != NO_JUMP ==>
        && Valid() && |code| == |old(code)|
        && book == Book(old(book).pending + old(book).held[l], old(book).held - {l},
          old(book).promised + set m | m in old(book).held[l] :: (m, |code|))
    {
      lasttarget := |code|;
      ListHeads();
      ghost var ms, was, here := HeldList(l), code, jpc;
      jpc, ok := Concat(jpc, l, book.pending, ms);
      if ok && l != NO_JUMP {
        if book.pending == [] { ListHead(was, here, []); }
        BookHere(was, here, book, l, code, jpc);
        book := Book(book.pending + ms, book.held - {l}, book.promised + set m | m in ms :: (m, |code|));
      }
    }

    /** luaK_patchlist, to this place or one that has been passed. */
    method PatchList(l: int, target: nat) returns (ok: bool)
      requires Valid() && l in book.held && target <= |code|
      modifies this
      ensures lasttarget == if target == |old(code)| then target else old(lasttarget)
      ensures ok ==> Valid() && |code| == |old(code)| && book.held == old(book).held - {l}
      ensures ok ==> book.promised == old(book).promised + set m | m in old(book).held[l] :: (m, target)
      ensures ok && target < |code| ==> IsPatched(old(code), code, old(book).held[l], target, NO_REG, target)
    {
      if target == |code| {
        ListHeads();
        ok := PatchToHere(l);
      } else {
        ghost var was := code;
        ok := PatchListAux(l, target, NO_REG, target, book.held[l]);
        if ok {
          BookPatch(was, jpc, book, l, target, code);
          book := book.(held := book.held - {l}, promised := book.promised + set m | m in book.held[l] :: (m, target));
        }
      }
    }
  }
}
