# A verified model of kcc's passes

kcc is a C11 compiler written in C++. This project models six of its algorithms, and one that it
carries as a test program, in Dafny, and proves what they are for.

**Control-flow code generation** (`Source` to `Emitter`). A function body, with `if`, `while`, `do`,
`for`, `switch` with case ranges and fall-through, `break`, `continue`, `goto`, labels and `return`,
is translated by an emitter with an insertion point that may be absent, a break/continue stack and an
open switch. `Source` gives the body a small-step meaning over a trace of effects, `Graph` gives the
blocks one, and `Behaviour.CompiledFunctionBehaves` says that the finished function has the same
effects, the same result and the same termination as the body, in both directions, for every body
that C allows but for two expressions (`Corners`), every arithmetic and every environment. It never
runs into a missing block, a missing terminator or a phi without an entry for the block it comes from.
- `Builder` and `CodeGen` say what each operation of the emitter does to its state; class
  `Emitter.Emitter` is the emitter itself, which updates its fields in place, and each of its methods
  is proved to do what `CodeGen` says. `Emitter.CompileFunction` leaves exactly the blocks that the
  theorem is about.
- The graph is kept twice: `plain` is every block that was ever emitted; `gone` are the blocks that
  `SimplifyForwardingBlocks` and `EmitReturnBlock` replaced everywhere by another one. The function's
  own block list is `Real(plain, gone)`. The simulation is proved on `plain`, and `Removal` proves that
  taking the removed blocks out changes nothing.
- Modules `Frames` to `FrameAll` prove that each operation only adds to the graph; `SimExpr` simulates
  expressions, `MatchKont`, `Jumps` and `FindLabel` relate what remains to be done in the source to the
  code behind a point, and `Simulation`, `StepSim`, `StmtSim`, `StepAll` and `Correctness` put whole
  runs together. Small lemmas without a body state the one fact of a definition that a larger lemma
  needs, so that the larger one can hide the definition.
- `WellFormedExpr` to `WellFormedCode` prove what holds of the whole graph, also of blocks that no run
  reaches: every block is closed, every branch leads to a block of the function, every phi has exactly
  one entry for each block that branches to it, every label has been emitted, and one block returns.
- `Folding` says what is folded, by the shape of the expression, and what code that leaves out.
- `Corners` treats the two expressions that kcc compiles wrongly: `c && r` used as a value with a
  constant `c` other than 0 and 1, and a loop condition that folds to a constant although it performs
  effects. For each it proves exactly when the code is right.

**Declarators** (`Declarators` to `DeclParser`). C11 section 6.7.6 as a meaning of declarator trees,
names and abstract declarators alike, the parser that reads a parenthesised declarator twice, and what that parser makes of a tree. The two
meanings are compared: `DeclExact.DeclaratorExact`.

**Expressions** (`ExprSyntax` to `ExprParser`). C11 section 6.5 as productions, one nonterminal a level
(`ExprGrammar`), and the recursive-descent parser, which goes by a table of ranks: what is derived is
parsed to its meaning (`ExprTrees`), what is parsed is derived (`ExprAccepted`), and written expressions
have no parentheses that they do not need (`ExprWritten`).

**Array initializers** (`ArrayInit` to `InitExact`, `InitParser`). C11 section 6.7.9 for constant
initializers of arrays of any shape: brace elision, designators, unknown bounds, lists in lists. The
parser on tokens consumes an initializer tree element by element (`InitTrees`, `InitParsed`); that is
the same as giving each item a place and setting the object there (`InitCursor`), from which follows
what every scalar holds (`InitHeld`).

**Struct layout and bit-fields** (`BitLayout`, `StructLayout` to `StructWidth`, `StructPlaces`,
`StructTypes`, `BitAccess`). Members, anonymous structs and unions and bit-fields become elements of an LLVM struct:
where each name is recorded and where it stands, and how wide the result is. `StructPlaces` states the
rules of packing on the declared items alone, and proves that every member stands where they put it. Class
`StructTypes.StructType` is the type that the parser updates; `StructLayout` says what its methods do.
`BitAccess` has the masks and shifts that read and write a field through the 32-bit word at its
element's address.

**Jump lists** (`JumpLists`, `JumpTests`). The lists that Lua's code generator threads through the
offsets of the jumps themselves, and what the tests in front of the jumps do to the registers.

Modelling decisions:
- A value is an integer; the widening of a truth value is left out. A binary operator stands for an
  LLVM operation with its width and signedness, and what it computes is a parameter (`alu`), the same
  for the constant evaluator, for folding in the builder and for the machine: `src/calc.cpp:358-577` and
  `src/code_gen_expr.cpp:401-630` choose the same operation from the type of the left operand.
  Everything that touches memory or calls something is an effect with operands; its result is a
  function of the whole history, so no two effects can be swapped, dropped or duplicated unnoticed.
- The object that holds the value to return is register 0. The block of a label is identified by the
  label, the return block by `RetBlk`. The switch instruction is written into its block when the
  switch is closed; the code writes it at once and adds to it. The incoming list of a phi is complete
  when its block is placed. A compound statement is a list of `Seq`.
- What is asked of a function body is `Finish.FunctionOK`. Labels are unique and every goto finds its
  own, which the parser checks. At most one default to a switch, and break, continue, case and default
  in their places, which C asks for and the parser does not check (`src/parse_stmt.cpp:74-93`,
  `src/parse_stmt.cpp:221-233`). It also excludes the two expressions of `Corners`.
- Declaration specifiers, a constant array length and a type name in a cast are one token each. Errors
  that the parser throws are a result.
- kcc accepts any conditional expression to the left of an assignment, also where C11 asks for a unary
  expression; the trees follow the code.
- A compound assignment is parsed to an assignment that uses its left operand twice: `a[f()] += 1`
  calls `f` twice, against C11 section 6.5.16.2.
- The declarator parser accepts more than C11 section 6.7.6 allows, or makes something else of it, in
  four shapes: an array of length zero; anything between brackets but a `static` where C has one (a
  storage class of any kind, a misplaced `static`, and a qualifier, which is dropped even where C keeps
  it); a suffix behind a parameter list (`int f()[3]`, `int f()()`); and an abstract declarator that
  starts with an empty parameter list, which is lost (`int ()` is read as `int`).
- It rejects three legal ones: `_Atomic` among qualifiers, an abstract declarator that starts with a
  parameter (`int (int)`), and a parameter `void ()` among others. `DeclExact.DeclaratorExact` shows
  that a legal declarator is rejected exactly when one of these three occurs, and that an accepted
  declarator is right exactly when none of the four shapes occurs.
- A named parameter of type void and a second parameter of the same name are errors, in the parser and
  in C; two names clash when they are in one parameter list.
- An array initializer in braces ends at the last element: `int a[2] = {1, 2, [0] = 3};` is rejected,
  against C11 section 6.7.9. `InitExact.LegalAccepted` says exactly which legal lists are rejected. The
  empty list, which C11 does not have, counts as legal.
- An element of an array starts from zeros each time that a designator enters it:
  `int a[][2] = {[0] = {1, 2}, [0][1] = 5};` holds 0 and 5, against C11 section 6.7.9.
  `InitExact.LastValuesExactly` says for which lists every scalar keeps its last value.
- Padding behind bit-fields is left out of the recorded offset of later members: in
  `struct { int a : 9; int c; }` member `c` is recorded at 2 and stands at 4.
  `StructRuns.RecordedExactly` says when all recorded offsets are right.
- A bit-field that fills its unit closes it, so that `struct { char a : 8; int b : 8; }` has two units. A
  unit that is left early, with its last byte in use, is followed by a byte of padding all the same: in
  `struct { int a : 25; int b : 8; }` member `b` stands at 5 (`StructPlaces.PaddedForNothing`).
- Padding of sixteen bytes or more comes out shorter, because its width in bits is passed as an 8-bit
  number: `StructPlaces.PaddedExactly`.
- The size of a struct or union is that of its LLVM type, in which bit-fields have alignment 1 and a
  union only has its largest member: `union { char c[5]; int i; }` has size 5.
  `StructWidth.SizeExactly` says when the size is what the alignment asks for.
- Bit-fields of a union that stand in a row begin at bit 0 each, but the code counts their bits up as in
  a struct. When the count outgrows the widest of their types, a build with assertions stops; the model
  goes on as a build without them does (`StructWidth.UnionOverflow`), and the theorems on the width of
  a union ask that the assertion holds (`StructWidth.Asserted`).
- A zero-width bit-field that opens a unit leaves the unit's width set; a build with assertions would
  stop at the next bit-field, the model goes on as a build without them does.
- A negative value stored in a signed bit-field is not masked and changes the bits above the field:
  `BitAccess.MinusOneSpills`, and `BitAccess.OthersKeptExactly` for the exact condition.

## Model

| member | source | states |
|---|---|---|
| Behaviour.CompiledFunctionBehaves | src/code_gen_stmt.cpp:16-309 | for every function body that C allows (FunctionOK), arithmetic and environment: the emitted blocks show a trace, return a value, or run for ever exactly when the body does, and never get stuck |
| Behaviour.SourceToCode | src/code_gen_stmt.cpp:16-309 | every finite run of the body is matched by a run of the blocks with the same effects and, if it has ended, the same result |
| Behaviour.CodeToSource | src/code_gen_stmt.cpp:16-309 | every finite run of the blocks belongs to a run of the body; no run is stuck in a missing block, terminator or phi entry |
| WellFormedCode.FunctionWellFormed | src/code_gen.cpp:553-639 | every block has a terminator, every target is a block of the function, every phi lists exactly its predecessors, exactly one block returns |
| WellFormedCode.LabelPlaced | src/code_gen_stmt.cpp:16-21 | every label of the function has a block in the finished code, also in code that was unreachable or in the dead branch of a constant if |
| WellFormedCode.RealWell | src/code_gen.cpp:152-163 | a well-formed graph stays well formed when its removed blocks are taken out |
| WellFormedAll.StmtWell | src/code_gen.cpp:165-187 | after any statement, closed blocks, targets and phis are in order, and the blocks still to come are those that were to come before, except the default block if it was placed |
| WellFormedExpr.ExprFormed | src/code_gen_expr.cpp:21-155 | the same for the code of any expression, which adds no branch to a block that is still to come |
| WellFormedExpr.LogicFormed | src/code_gen_expr.cpp:632-696 | the phi of && and of an or-expression has one entry for each predecessor of its block: those of the condition, and the end of the right operand |
| WellFormedExpr.CondFormed | src/code_gen_expr.cpp:171-214 | the phi of a conditional expression has exactly the two ends of its branches |
| WellFormedExpr.BranchFormed | src/code_gen.cpp:113-150 | a condition branches to its two targets and to no other block that is still to come |
| Source.CalcSound | src/calc.cpp:59-188 | an expression that the constant evaluator folds has the folded value in every run, and no effect |
| Folding.CalcExactly | src/calc.cpp:59-188 | an expression is folded exactly when no effect and no comma occurs in it, but for the operand of ?: that its condition does not select; the result is its value, and evaluating it has no effect |
| Folding.FoldedCode | src/code_gen_expr.cpp:21-155 | such an expression adds no instruction and no block to the code, and its value there is the constant |
| Folding.FoldedIf | src/code_gen_stmt.cpp:75-88 | an if with such a condition is the code of the branch that the condition selects, when no label, case, default or switch stands in the other |
| Folding.TestedIf | src/code_gen_stmt.cpp:91-111 | in every other if each branch gets a block of its own |
| Source.NoLabelNoEntry | src/code_gen.cpp:206-227 | no goto, case or default can enter a statement for which ContainsLabel is false |
| Folding.ContainsLabelExactly | src/code_gen.cpp:206-227 | ContainsLabel holds exactly when a label, case, default or switch stands somewhere in the statement |
| Folding.UnreachableDropped | src/code_gen.cpp:165-187 | an unreachable statement in which none stands adds nothing to the code |
| SimExpr.ExprSim | src/code_gen_expr.cpp:21-155 | running the code of an expression performs its effects in C order, leaves its value, and keeps all older registers |
| SimExpr.BranchSim | src/code_gen.cpp:113-150 | the branch code of a condition goes to the true block when its value is not zero and to the false block otherwise, short-circuited, for any nesting |
| SimExpr.LogicSim | src/code_gen_expr.cpp:632-696 | the phi form of && and of an or-expression computes 0 or 1 as C says, and evaluates the right operand only when needed |
| SimExpr.CondSim | src/code_gen_expr.cpp:157-215 | the phi form of a conditional expression gives the value of the operand that C selects |
| SimExpr.ArgsSim | src/code_gen_expr.cpp:217-235 | operands are evaluated from left to right |
| Static.ExprShape | src/code_gen_expr.cpp:21-155 | what can be said of the code of an expression beforehand: its folded value, whether it ends its block in a test, whether it adds anything |
| FrameAll.StmtFrame | src/code_gen.cpp:165-187 | emitting a statement only adds to the graph, leaves the break/continue stack as it was, and takes no number that was given out before |
| FrameStmt.SimplifyOK | src/code_gen.cpp:152-163 | removing a forwarding block leaves everything but the set of removed blocks as it was, and only adds that block to it |
| Removal.RealStep | src/code_gen.cpp:152-163 | one step without the removed blocks is one or more steps with them |
| Removal.RealRun | src/code_gen.cpp:152-163 | every run without the removed blocks is a run with them |
| Jumps.BreakMatch | src/code_gen_stmt.cpp:278-286 | a break leads to the block after the nearest loop or switch, which has been emitted |
| Jumps.ContinueMatch | src/code_gen_stmt.cpp:268-276 | a continue leads to where the nearest loop goes on, through any switch in between |
| FindLabel.Found | src/code_gen_stmt.cpp:16-54 | the label that a goto or a switch selects has been emitted as the block that the jump enters, and what follows it there is what follows the label |
| FindLabel.NotFound | src/code_gen_stmt.cpp:23-54 | a value that no case covers is in no case of the switch instruction |
| StmtSim.SwitchSim | src/code_gen_stmt.cpp:113-143 | a switch goes to the case that covers its value, else to the default, else behind the statement |
| StmtSim.IfSim | src/code_gen_stmt.cpp:91-111 | an if that is tested runs the branch that its condition selects |
| StmtSim.IfFoldSim | src/code_gen_stmt.cpp:72-88 | an if that is folded runs the branch that its condition would have selected |
| StmtSim.LabelledSim | src/code_gen_stmt.cpp:16-54 | control falls through a label, a case and a default |
| StmtSim.GotoSim | src/code_gen_stmt.cpp:263-266 | a goto continues at its label, before or behind it, inside or outside of the block |
| StmtSim.ReturnSim | src/code_gen_stmt.cpp:288-309 | a return stores its value and leaves through the return block |
| Simulation.WhileHeadSim | src/code_gen_stmt.cpp:145-187 | a while tests its condition each time, or falls into its body when it is the constant 1 |
| Simulation.DoContSim | src/code_gen_stmt.cpp:189-220 | a do tests its condition after its body, or leaves when it is the constant 0 |
| Simulation.ForHeadSim | src/code_gen_stmt.cpp:222-248 | a for tests its condition, if it has one, before each turn |
| Simulation.ForContSim | src/code_gen_stmt.cpp:250-261 | a for evaluates its increment after each turn and on continue |
| StepSim.ResumeSim | src/code_gen.cpp:607-639 | at the end of a statement, and of the body, the code goes on as the source does |
| StepAll.StepMatched | src/code_gen_stmt.cpp:16-309 | each step of the source is matched by zero or more steps of the code, and never by zero for ever |
| Correctness.RunMatched | src/code_gen_stmt.cpp:16-309 | the same for runs of any length, starting anywhere |
| Correctness.RunCaught | src/code_gen_stmt.cpp:16-309 | every run of the code is caught up with by a run of the source |
| Resolve.StepGotosIn | src/code_gen_stmt.cpp:263-266 | in no run does a goto name a label outside of the function |
| Finish.FinishReturns | src/code_gen.cpp:607-639 | every branch to the return block, and the end of the body, reach the return, also when the return block is merged into an empty block or nobody returns |
| Corners.ConstantAndExact | src/code_gen_expr.cpp:665-674 | a returned `l && r` with a constant l is compiled correctly exactly when l is 0 or 1, or r evaluates to 0 without effects |
| Corners.EffectfulWhileExact | src/code_gen_stmt.cpp:145-187 | a while whose condition folds to 1 keeps its effects exactly when its code is more than one block or it has no effects |
| Corners.EffectfulDoExact | src/code_gen_stmt.cpp:189-220 | the same for a do whose condition folds to 0 |
| Settled.SafeLoopEnd | src/code_gen.cpp:152-163 | no block that a later branch may use is removed at the end of a loop |
| Emitter.Emitter.CompileFunction | src/code_gen.cpp:418-450 | the method leaves exactly the blocks of the function that the theorems are about, an empty break/continue stack and no open switch |
| Emitter.Emitter.BranchTo | src/code_gen.cpp:87-95 | closes an open current block with a branch, and leaves no insertion point |
| Emitter.Emitter.StartBlock | src/code_gen.cpp:75-85 | branches to a block and makes it the insertion point |
| Emitter.Emitter.FinishBlock | src/code_gen.cpp:75-85 | the same, but a block that nobody uses is not added |
| Emitter.Emitter.SimplifyForwardingBlocks | src/code_gen.cpp:152-163 | replaces a forwarding block everywhere by its successor and erases it |
| Emitter.Emitter.BranchOnBoolExpr | src/code_gen.cpp:113-150 | emits the branch code of a condition |
| Emitter.Emitter.VisitExpr | src/code_gen_expr.cpp:21-155 | emits the code of an expression and leaves its value |
| Emitter.Emitter.VisitArgs | src/code_gen_expr.cpp:217-235 | emits the operands in a loop, from left to right |
| Emitter.Emitter.LogicOp | src/code_gen_expr.cpp:632-696 | emits && and an or-expression with a phi over the predecessors that the graph then has |
| Emitter.Emitter.ConditionOp | src/code_gen_expr.cpp:182-214 | emits a conditional expression with a phi of two entries |
| Emitter.Emitter.EmitStmt | src/code_gen.cpp:165-187 | emits a statement, or drops it when it is unreachable and has no label |
| Emitter.Emitter.BranchThroughCleanup | src/code_gen.cpp:229-236 | emits a jump and leaves no insertion point |
| Emitter.Emitter.VisitIf | src/code_gen_stmt.cpp:72-111 | emits an if, folded or tested |
| Emitter.Emitter.VisitWhile | src/code_gen_stmt.cpp:145-187 | emits a while, pushes and pops its frame, and removes a condition block that only forwards |
| Emitter.Emitter.VisitDoWhile | src/code_gen_stmt.cpp:189-220 | emits a do in the same way |
| Emitter.Emitter.VisitFor | src/code_gen_stmt.cpp:222-261 | emits a for with and without condition and increment |
| Emitter.Emitter.VisitSwitch | src/code_gen_stmt.cpp:113-143 | emits a switch, and restores the one around it |
| Emitter.Emitter.AddSwitchCases | src/code_gen_stmt.cpp:38-41 | adds one case for every value of a range |
| Emitter.Emitter.FinishFunctionBody | src/code_gen.cpp:607-639 | places the return block, or merges it into the current one |
| Declarators.PassesAgree | src/parse_decl.cpp:670-691 | both passes over a group consume the same tokens and find the same name, for any two base types and any tokens |
| DeclTaken.DeclaratorTaken | src/parse_decl.cpp:637-807 | every declarator tree, legal or not, is parsed to what `Take` says of it, with exactly its tokens consumed, or rejected when that says so; in a parameter list with the errors for a named void and a repeated name |
| DeclTaken.DummyTaken | src/parse_decl.cpp:674-681 | the first pass with the dummy type raises no error that the second would not |
| DeclExact.DeclaratorExact | src/parse_decl.cpp:637-807 | of the declarators that C11 section 6.7.6 allows, exactly those with _Atomic, with an abstract declarator that starts with parameters, or with `void ()` among other parameters are rejected; an accepted one gets the name and the type of the standard exactly when none of the four shapes above occurs in it |
| DeclExact.CleanAgrees | src/parse_decl.cpp:637-807 | without any of those, parser and standard agree on every declarator and base type, also on the illegal ones |
| DeclExact.LegalTaken | src/parse_decl.cpp:693-726 | a declarator with a meaning, and without what the parser cannot read, is accepted over every base type of the same kind, with the same name |
| DeclExact.UnreadableFails | src/parse_decl.cpp:659-783 | a declarator with one of the three that the parser cannot read is rejected over every type |
| DeclExact.SplitIsIllegal | src/parse_decl.cpp:706-725 | a suffix behind a parameter list always violates a constraint |
| DeclExact.SplitTaken | src/parse_decl.cpp:693-726 | such a declarator is accepted exactly when the type in front is neither array nor function, is complete if an array suffix follows, and the parameter lists are accepted |
| DeclExact.SplitIsAccepted | src/parse_decl.cpp:706-725 | `x()[n]` becomes a function that returns an array |
| DeclExact.ZeroLength | src/parse_decl.cpp:755-757 | an array of length zero is accepted, over every complete type |
| DeclExact.StaticOutside | src/parse_decl.cpp:730-737 | `static` between the brackets of something that is no parameter is accepted |
| DeclExact.StorageClassBetween | src/parse_decl.cpp:731-732 | `int a[extern 3]`, and the same with any other storage class, is accepted, in a parameter as well |
| DeclExact.QualifierDropped | src/parse_decl.cpp:730-737 | a qualifier between the brackets of a parameter does not reach the pointer |
| DeclExact.EmptyListLost | src/parse_decl.cpp:674-686 | an abstract declarator `()` is a function in C and nothing to the parser |
| DeclExact.ListRejected | src/parse_decl.cpp:674-686 | an abstract declarator that is a list of one parameter is rejected |
| DeclExact.VoidAmong | src/parse_decl.cpp:780-783 | `int f(int, void ())` is legal and rejected, because its second parameter is read as void |
| DeclExact.AtomicRejected | src/parse_decl.cpp:659-660 | `int *_Atomic p` is legal and rejected |
| DeclExact.DeclaredTwice | src/parse.cpp:187-213 | a second parameter of the same name is an error in both, and so is a named parameter of type void |
| DeclRoundTrip.TypeRoundTrip | src/parse_decl.cpp:637-807 | every declarable type, written as a declarator with a name, is parsed back to that name and type; the names of its parameters are distinct |
| DeclRoundTrip.MeanDeclarable | src/parse_decl.cpp:693-726 | what a legal declarator declares is a type that C can have: arrays of sized elements, functions that return neither array nor function, adjusted parameters with different names |
| DeclRoundTrip.AcceptedDeclarable | src/parse_decl.cpp:693-726 | so is the type of every accepted declarator without one of the four shapes |
| DeclRoundTrip.CompleteIsSized | src/parse_decl.cpp:704-706 | the parser's test for a complete type holds exactly of the types that have a size: arithmetic types, pointers, and arrays of known length of such types |
| DeclRoundTrip.ElementExactly | src/parse_decl.cpp:704-706 | `T a[n]` is accepted exactly when T has a size, so not for void, functions and arrays of unknown size |
| DeclRoundTrip.PointersInArray | src/type.cpp:724-725 | `T *a[n]` is accepted for every T |
| DeclParser.DeclParser.DirectDeclarator | src/parse_decl.cpp:670-691 | the method that moves the cursor, and puts it back between the passes, is that parser |
| DeclParser.DeclParser.DirectDeclaratorTail | src/parse_decl.cpp:693-726 | the same for array and function suffixes |
| DeclParser.DeclParser.ParsePointers | src/parse_decl.cpp:642-646 | the same for the loop over pointers |
| DeclParser.DeclParser.ParamTypeList | src/parse_decl.cpp:761-788 | the same for a parameter list, with void and the names seen so far |
| DeclParser.DeclParser.CommaParams | src/parse_decl.cpp:774-785 | the same for the loop over the parameters behind the first, with the ellipsis and the error for a repeated name |
| ExprTrees.ExpressionParsed | src/parse_expr.cpp:21-587 | every expression that the productions derive, with any parentheses, is parsed to its meaning, and exactly its tokens are consumed |
| ExprTrees.GrammarIsRanks | src/parse_expr.cpp:21-587 | for every tree and each of the seventeen nonterminals of the productions: the tree is derived exactly when the rank of its operator says so |
| ExprTrees.Parsed | src/parse_expr.cpp:37-587 | the same at each of the seventeen ranks, for any following token that does not bind at that rank |
| ExprTrees.LeftBinary | src/parse_expr.cpp:114-286 | binary operators of one rank associate to the left |
| ExprTrees.ExpressionRoundTrip | src/parse_expr.cpp:21-587 | every expression is written as a tree that the productions derive and that means it, and is parsed back to itself |
| ExprWritten.ParenthesesNeeded | src/parse_expr.cpp:21-587 | what is written has no operand in parentheses that the productions would derive without them |
| ExprTrees.Unambiguous | src/parse_expr.cpp:21-587 | the tokens of an expression have only one meaning |
| ExprAccepted.ExprDerived | src/parse_expr.cpp:21-587 | the converse: whatever the parser accepts are the tokens of a tree that the productions derive, up to __extension__ and a comma before the end of a call, and the result is its meaning |
| ExprAccepted.AcceptedIsDerived | src/parse_expr.cpp:21-587 | so every accepted expression has a derivation with the parsed meaning |
| ExprAccepted.ExtensionSkipped | src/parse_expr.cpp:21-38 | __extension__ is skipped before an expression and before an assignment expression |
| ExprAccepted.CallComma | src/parse_expr.cpp:478-502 | a comma behind the last argument of a call is accepted and changes nothing |
| ExprParser.ExprParser.Expr | src/parse_expr.cpp:21-35 | the method with the loop over commas is that parser |
| ExprParser.ExprParser.AssignExpr | src/parse_expr.cpp:37-95 | assignment and compound assignment, which uses its left operand twice |
| ExprParser.ExprParser.BinaryExpr | src/parse_expr.cpp:114-286 | the ten loops of the ladder |
| ExprParser.ExprParser.CastExpr | src/parse_expr.cpp:288-307 | a cast, or the parenthesis is put back |
| ExprParser.ExprParser.PostfixExpr | src/parse_expr.cpp:437-466 | the loop over postfix operators |
| ExprParser.ExprParser.CallArgs | src/parse_expr.cpp:478-502 | the loop over arguments |
| InitMeaning.FilledAt | src/parse_init.cpp:256-339 | the k-th value of a list stands at row-major position k, and zero everywhere behind the last one |
| InitMeaning.RowMajorIs | src/parse_init.cpp:256-339 | that position is the usual sum of products of indices and sizes |
| InitLists.FlatListFills | src/parse_init.cpp:256-339 | a list without inner braces fills an array of any shape in that order; an unknown bound becomes the number of elements that the values reach; with a known bound too many values are an error |
| InitLists.ElidedIsBraced | src/parse_init.cpp:256-339 | any number of values with all braces gives the same array, for known and unknown bounds |
| InitParsed.VecTaken | src/parse_init.cpp:216-339 | a list in braces, with designators, lists in lists and a comma behind the last item of any of them, is consumed as `TakeVec` says, for every bound, or rejected when that says so |
| InitCursor.PathFolds | src/parse_init.cpp:256-339 | an object that is entered by indices starts from zeros; the items that follow set its parts in order, up to its end or the next designator; an index out of bounds or too deep is rejected |
| InitCursor.ItemsFold | src/parse_init.cpp:256-339 | what the parser does element by element is one step for each item: find its place from the place of the item before, and set the object there |
| InitHeld.ListHolds | src/parse_init.cpp:256-339 | for lists in lists of any depth: which are taken, and what every scalar then holds |
| InitExact.DesignatedList | src/parse_init.cpp:216-339 | for elements of any shape, any bound and any tree of lists: which lists are accepted, how large an unknown bound becomes, and that every scalar holds what the last visit to its element gave it, or zero |
| InitExact.LegalAccepted | src/parse_init.cpp:314-335 | a list that C allows is rejected exactly when somewhere in it an item with a designator follows an item of the last element |
| InitExact.LastValuesExactly | src/parse_init.cpp:261-315 | every scalar keeps the last value given to it exactly when no element is entered again behind a non-zero value that is not given again, in the list and in the lists in it |
| InitExact.ScalarsKeepLast | src/parse_init.cpp:304-315 | an array of scalars always keeps its last values |
| InitExact.ReenteredRow | src/parse_init.cpp:261-315 | `int a[][2] = {[0][0] = 1, [0][1] = 2};` loses its first value |
| InitExact.ListThenItem | src/parse_init.cpp:261-315 | `int a[][2] = {[0] = {1, 2}, [0][1] = 5};` loses its first value |
| InitExact.FullThenDesignated | src/parse_init.cpp:314-335 | `int a[2] = {1, 2, [0] = 3};` is legal and rejected |
| InitParser.InitParser.ArrayInit | src/parse_init.cpp:256-339 | the method with the loop that fills or grows the vector is that parser |
| InitParser.InitParser.Init | src/parse_init.cpp:216-254 | the same for one element |
| StructRuns.Run | src/type.cpp:939-1134 | after any declaration of a struct or a union, with bit-fields and with anonymous members of any depth: no unit is more than full, every member has bits of its own in an element that holds them, the offset is the end of the last element, every name has its element |
| StructRuns.RunDrifts | src/type.cpp:939-1134 | the address of every name along its elements is its recorded offset and the padding behind bit-fields that had been counted when it was added |
| StructRuns.RecordedExactly | src/type.cpp:939-1019 | all recorded offsets of a finished declaration are addresses exactly when no ordinary member, at any depth, was added behind such padding |
| StructRuns.RecordedWithoutBits | src/type.cpp:939-1019 | so they are when there is no bit-field at any depth |
| StructRuns.PaddedOffset | src/type.cpp:952-953 | in `struct { int a : 9; int c; }` the second member is recorded at 2 and stands at 4 |
| StructPlaces.MembersStand | src/type.cpp:939-1156 | in every finished declaration, with anonymous members of any depth, the names are those declared, and the address of each along its elements is the byte at which the rules of packing put it |
| StructPlaces.MembersPacked | src/type.cpp:939-1134 | every member has the size, or the width and type, of its item; a bit-field of a union begins at bit 0 and one of a struct behind the others of its unit; two members of a struct have the same element exactly when they are bit-fields of one unit |
| StructPlaces.SharesUnitExactly | src/type.cpp:1079-1131 | a bit-field has the element of the bit-field before it, and begins where that ends, exactly when only zero-width ones of character type lie between, the unit was not full, and all of its widths fit the largest of its types; otherwise it begins an element behind |
| StructPlaces.AlignIs | src/type.cpp:1021-1024 | the alignment is the largest of the items', where a bit-field counts exactly when it has no width or more than eight bits |
| StructPlaces.EndIs | src/type.cpp:1136-1156 | where the elements of a finished struct end, and its alignment, with the unit that was still open |
| StructPlaces.PaddedExactly | src/type.cpp:1250-1259 | padding reaches the next multiple of the alignment exactly when it is less than sixteen bytes |
| StructPlaces.TwoHalves | src/type.cpp:1089-1127 | `struct { int a : 16; int b : 16; }` is one unit of four bytes |
| StructPlaces.PaddedForNothing | src/type.cpp:1290-1311 | in `struct { int a : 25; int b : 8; }` the second member stands at 5 |
| StructPlaces.UnionElement | src/type.cpp:1182-1204 | a union without bit-fields keeps the first of its largest members, and a struct only when all of the largest are structs |
| StructOffsets.AddMemberGoes | src/type.cpp:939-969 | a member is recorded at its address less that padding, and no older name moves |
| StructOffsets.MergeGoes | src/type.cpp:972-1013 | the names of an anonymous member are as far from their addresses as they were inside of it, and no older name moves |
| StructOffsets.AddBitFieldGoes | src/type.cpp:1021-1134 | a bit-field of a struct or union is recorded at its address, no full unit stays open, and no older name moves |
| StructWidth.WidthExactly | src/type.cpp:939-1156 | the width of a finished struct or union is the end of its last element, aligned, exactly when it does not end in zero-width bit-fields that open or close no unit and raise the alignment to one for which the end is aligned differently |
| StructWidth.UnionWidth | src/type.cpp:964-967 | the width of a union, also of one with bit-fields, is the size of its largest member, aligned |
| StructWidth.WidthIsLeast | src/type.cpp:939-1156 | the width is the least multiple of the alignment that covers every element |
| StructWidth.SizeExactly | src/type.cpp:827-841 | the size of the LLVM type is the width exactly when the end of its elements is aligned for the larger of the two alignments, or less than the smaller one away from that |
| StructWidth.StructSizeRight | src/type.cpp:827-841 | a struct without bit-fields of its own has the size and the alignment that were asked for |
| StructWidth.StructTooSmall | src/type.cpp:827-841 | `struct { int a : 32; char c; }` has size 5 where 8 was asked for |
| StructWidth.UnionTooSmall | src/type.cpp:1182-1204 | `union { char c[5]; int i; }` has size 5 where 8 was asked for |
| StructWidth.UnionOverflow | src/type.cpp:1041-1134 | `union { int a : 20; int b : 20; }` has size 5 without assertions, though its largest member has 4 |
| StructTypes.StructType.AddMember | src/type.cpp:939-969 | the method leaves the state that the theorems are about, with the offset of the new name |
| StructTypes.StructType.MergeAnonymous | src/type.cpp:972-1013 | the same for an anonymous struct or union |
| StructTypes.StructType.LiftNames | src/type.cpp:986-999 | the loop gives every name its new offset and one more step of its path |
| StructTypes.StructType.AddBitField | src/type.cpp:1021-1134 | the same for a bit-field, in all of its cases, in a struct and in a union |
| StructTypes.StructType.UnionAddBitField | src/type.cpp:1261-1274 | a unit of a union replaces its element when it is larger, and raises the width to that of its type |
| StructTypes.StructType.AddBitFieldBeforeMember | src/type.cpp:1206-1248 | the open unit becomes an element, and padding follows it |
| StructTypes.StructType.AddSpaceBetweenBitField | src/type.cpp:1290-1311 | the same when the next field does not fit |
| StructTypes.StructType.BitFieldPacked | src/type.cpp:1276-1288 | the same when the unit is full |
| StructTypes.StructType.AddLLVMType | src/type.cpp:1182-1204 | a struct gets one more element, a union keeps its largest one |
| StructTypes.StructType.Finish | src/type.cpp:1136-1156 | at the end no unit is open, and every name has its element |
| BitLayout.CloseUnit | src/type.cpp:1206-1248 | closing a unit keeps every member housed and separate |
| BitLayout.AddBits | src/type.cpp:1084-1131 | a field behind the used bits of its unit shares no bit with another member |
| BitLayout.AddrKept | src/type.cpp:1182-1184 | elements that are added later move no element |
| BitLayout.AlignedUp | src/type.cpp:1158-1167 | MakeAlign gives the least multiple of the alignment that is not below the offset |
| BitAccess.ReadBack | src/code_gen_expr.cpp:737-764 | what is written to a field is read back, cut to its width and extended, for every position, width and prior contents |
| BitAccess.OthersKeptExactly | src/code_gen_expr.cpp:746-750 | a write leaves the rest of every word alone exactly when the value has no bit above the width |
| BitAccess.MinusOneSpills | src/code_gen_expr.cpp:746-750 | -1, which fits any signed field, changes the bits above a field that is not the topmost |
| BitAccess.UnsignedFits | src/llvm_common.cpp:501-511 | an unsigned number below 2^width is read back unchanged and changes nothing else |
| BitAccess.SignedFits | src/llvm_common.cpp:501-511 | a value is read back from a signed field unchanged exactly when it lies between -2^(width-1) and 2^(width-1) - 1 |
| BitAccess.MembersApart | src/type.cpp:1084-1131 | no bit of the struct in memory belongs to two members |
| BitAccess.FieldsAreIndependent | src/code_gen_expr.cpp:737-764 | after any sequence of such writes every bit-field of int type in any packed struct reads as its last written value, and no bit of any other member has changed |
| JumpLists.AllArrived | test/lua/lcode.c:253-288 | when no list is left, every jump goes to the place it was sent to or, if another jump was put there, to where that one goes |
| JumpLists.ListAcyclic | test/lua/lcode.c:90-96 | a jump list visits no jump twice |
| JumpLists.ListLinked | test/lua/lcode.c:117-128 | linking the last jump of one list to another list represents their concatenation |
| JumpLists.BookCode | test/lua/lcode.c:290-306 | emitting an instruction keeps every promise made for a jump: those that wait for this place get it |
| JumpLists.BookJump | test/lua/lcode.c:136-145 | the same for a jump, with which the jumps that wait for its place then wait |
| JumpLists.BookConcat | test/lua/lcode.c:117-128 | the same for the concatenation of two lists |
| JumpLists.BookHere | test/lua/lcode.c:253-256 | the same for a list that is sent here |
| JumpLists.BookPatch | test/lua/lcode.c:264-271 | the same for a list that is sent to a place already passed |
| JumpLists.FuncState.Concat | test/lua/lcode.c:117-128 | the loop finds the last jump; one field changes; fails exactly when the lists are too far apart |
| JumpLists.FuncState.PatchListAux | test/lua/lcode.c:226-236 | every jump of the list gets its target, the one for value-producing tests or the other, and no other instruction changes but the tests that control them; what those then do is JumpTests.ValueDelivered |
| JumpTests.ValueDelivered | test/lua/lcode.c:195-236 | after a list is patched, a test that produces a value jumps for the same values as before, to the value target, with the tested value in the given register; no register changes when none is given, when it is the tested one, or when the test does not jump |
| JumpTests.TestKept | test/lua/lcode.c:226-236 | a test that produces no value goes to the default target and changes no register |
| JumpTests.PatchedEncodable | test/lua/lcode.c:103-110 | patching keeps every offset within its field exactly when every new target is in reach |
| JumpLists.FuncState.EmitCode | test/lua/lcode.c:290-306 | the pending jumps get the position of the new instruction |
| JumpLists.FuncState.EmitJump | test/lua/lcode.c:136-145 | the pending jumps become the tail of the new jump's list |
| JumpLists.FuncState.PatchToHere | test/lua/lcode.c:253-256 | the list joins the pending jumps |
| JumpLists.FuncState.PatchList | test/lua/lcode.c:264-271 | the list goes to its target, or joins the pending jumps when that is this place |

## Left out

- LLVM, clang and linker calls, preprocessing, optimization, object and debug output, the command line: foreign code and I/O.
- Types and widths of values in code generation, conversions, floating point, addresses, struct values: arithmetic and effects are parameters.
- Local declarations, statement expressions, volatile, void operands of a conditional expression, builtins.
- Functions that return nothing: the slot is then simply not used.
- A goto to a label in another function and a duplicate label: parse errors, excluded by FunctionOK.
- A second default, and break, continue, case and default out of place: FunctionOK assumes them away. The parser accepts them; a break or continue outside of everything is an error of the code generator, a continue in a switch without a loop branches to a null block.
- Division by zero in a constant expression is an error in `src/calc.cpp`; here the arithmetic is total.
- Duplicate cases are not excluded: the model takes the first.
- Case ranges at the end of the 64-bit range, where the loop over the range would not end.
- Access to bit-fields of character type, unnamed bit-fields as duplicate names.
- A bit-field access near the end of a struct touches bytes behind it: the memory of the model has no end.
- Array lengths that are not constants, and other errors inside of an expression, in declarators: one token stands for the length.
- Identifier lists (`int f(a, b) int a, b; {}`) and `[*]`, which the parser does not know; a typedef name in parentheses in a parameter (`int f(int (T))`), which it takes for the parameter's name; declaration specifiers such as `register` on a parameter: a type is one token, an identifier is a name.
- Type checks in the constructors of expression nodes, sizeof, compound literals, generic selection, string literals; a member access does not look the member up.
- Struct and non-constant initializers, string literals as initializers.
- Lua: opcode encodings, expression discharge, FORPREP and FORLOOP jumps, luaK_patchclose; the line table.
- The remaining parser, the scanner, the memory pool, VaArg, the hash map of 8cc: independent of the passes above.
- Source.CalcSound: that LLVM folds a constant operation to what the emitted operation of the same width and signedness computes is assumed, because both are LLVM.
