/** The GCD machine of the simulator's own test: registers a, t and b, the
    ops `=` and `rem`, and the controller

      (bla (test (op =) (reg b) (const 0))
           (branch (label gcd-done))
           (assign t (op rem) (reg a) (reg b))
           (assign a (reg b))
           (assign b (reg t))
           (goto (label bla))
           gcd-done)

    started with a = 21 and b = 343 ends with a = 7. */
module GcdMachine {
  import opened Wrappers
  import opened LispParser
  import opened LispParserFacts
  import opened Instructions
  import opened InstructionFacts
  import opened Assembler
  import opened PythonVm
  import opened MachineAssembly

  function Abs(n: int): nat {
    if n < 0 then -n else n
  }

  /** Euclid's algorithm with Python's `%`, as the controller runs it. */
  function Euclid(a: int, b: int): int
    decreases Abs(b)
  {
    if b == 0 then a else Euclid(b, PyMod(a, b))
  }

  /** Instructions the controller runs from `bla` until it stops. */
  function Cost(a: int, b: int): nat
    decreases Abs(b)
  {
    if b == 0 then 2 else 6 + Cost(b, PyMod(a, b))
  }

  const RegisterNames: seq<string> := ["a", "t", "b"]
  const GcdOps: map<string, OpKind> := map["=" := Equal, "rem" := Remainder]

  /** What the parser produces for the controller text, built from the
      back as the assembler reads it. */
  const Tokens7: seq<InstToken> := [LabelToken("gcd-done")]
  const Tokens6: seq<InstToken> := [GoToLabelToken("bla")] + Tokens7
  const Tokens5: seq<InstToken> := [AssignRegisterToken("b", "t")] + Tokens6
  const Tokens4: seq<InstToken> := [AssignRegisterToken("a", "b")] + Tokens5
  const Tokens3: seq<InstToken> := [AssignOpToken("t", "rem", [Prim("reg", CStr("a")), Prim("reg", CStr("b"))])] + Tokens4
  const Tokens2: seq<InstToken> := [BranchToken("gcd-done")] + Tokens3
  const Tokens1: seq<InstToken> := [TestToken("=", [Prim("reg", CStr("b")), Prim("const", CInt(0))])] + Tokens2
  const GcdTokens: seq<InstToken> := [LabelToken("bla")] + Tokens1

  // ---------------------------------------------------------------------
  // The controller text as the lexer delivers it

  /** The controller text as the rules of the parser's lexer split it:
      keywords first, so "reg" is REGISTER but "rem" an IDENTIFIER, and
      "gcd-done" one IDENTIFIER since "-" may follow its first letter;
      "=", "(" and ")" are tokens of their own kind.  One display per
      instruction. */
  const GcdText: seq<Token> :=
    [Punct("("), Ident("bla")]
    + [Punct("("), Token("TEST", "test"), Punct("("), Token("OP", "op"), Punct("="), Punct(")")]
    + [Punct("("), Token("REGISTER", "reg"), Ident("b"), Punct(")"),
       Punct("("), Token("CONST", "const"), Token("NUMBER", "0"), Punct(")"), Punct(")")]
    + [Punct("("), Token("BRANCH", "branch"), Punct("("), Token("LABEL", "label"), Ident("gcd-done"), Punct(")"), Punct(")")]
    + [Punct("("), Token("ASSIGN", "assign"), Ident("t"), Punct("("), Token("OP", "op"), Ident("rem"), Punct(")")]
    + [Punct("("), Token("REGISTER", "reg"), Ident("a"), Punct(")"),
       Punct("("), Token("REGISTER", "reg"), Ident("b"), Punct(")"), Punct(")")]
    + [Punct("("), Token("ASSIGN", "assign"), Ident("a"), Punct("("), Token("REGISTER", "reg"), Ident("b"), Punct(")"), Punct(")")]
    + [Punct("("), Token("ASSIGN", "assign"), Ident("b"), Punct("("), Token("REGISTER", "reg"), Ident("t"), Punct(")"), Punct(")")]
    + [Punct("("), Token("GOTO", "goto"), Punct("("), Token("LABEL", "label"), Ident("bla"), Punct(")"), Punct(")")]
    + [Ident("gcd-done"), Punct(")")]

  /** The same stream token by token, one predicate per line of the
      controller, so that any stream laid out like it parses like it. */
  predicate TestLine(p: seq<Token>)
    requires |p| == 65
  {
    p[0] == Punct("(") && p[1] == Ident("bla") &&
    p[2] == Punct("(") && p[3] == Token("TEST", "test") && p[4] == Punct("(") &&
    p[5] == Token("OP", "op") && p[6] == Punct("=") && p[7] == Punct(")") &&
    p[8] == Punct("(") && p[9] == Token("REGISTER", "reg") && p[10] == Ident("b") &&
    p[11] == Punct(")") && p[12] == Punct("(") && p[13] == Token("CONST", "const") &&
    p[14] == Token("NUMBER", "0") && p[15] == Punct(")") && p[16] == Punct(")")
  }

  predicate BranchLine(p: seq<Token>)
    requires |p| == 65
  {
    p[17] == Punct("(") && p[18] == Token("BRANCH", "branch") && p[19] == Punct("(") &&
    p[20] == Token("LABEL", "label") && p[21] == Ident("gcd-done") && p[22] == Punct(")") &&
    p[23] == Punct(")")
  }

  predicate RemLine(p: seq<Token>)
    requires |p| == 65
  {
    p[24] == Punct("(") && p[25] == Token("ASSIGN", "assign") && p[26] == Ident("t") &&
    p[27] == Punct("(") && p[28] == Token("OP", "op") && p[29] == Ident("rem") &&
    p[30] == Punct(")") && p[31] == Punct("(") && p[32] == Token("REGISTER", "reg") &&
    p[33] == Ident("a") && p[34] == Punct(")") && p[35] == Punct("(") &&
    p[36] == Token("REGISTER", "reg") && p[37] == Ident("b") && p[38] == Punct(")") &&
    p[39] == Punct(")")
  }

  predicate MoveLines(p: seq<Token>)
    requires |p| == 65
  {
    p[40] == Punct("(") && p[41] == Token("ASSIGN", "assign") && p[42] == Ident("a") &&
    p[43] == Punct("(") && p[44] == Token("REGISTER", "reg") && p[45] == Ident("b") &&
    p[46] == Punct(")") && p[47] == Punct(")") &&
    p[48] == Punct("(") && p[49] == Token("ASSIGN", "assign") && p[50] == Ident("b") &&
    p[51] == Punct("(") && p[52] == Token("REGISTER", "reg") && p[53] == Ident("t") &&
    p[54] == Punct(")") && p[55] == Punct(")")
  }

  predicate LoopLines(p: seq<Token>)
    requires |p| == 65
  {
    p[56] == Punct("(") && p[57] == Token("GOTO", "goto") && p[58] == Punct("(") &&
    p[59] == Token("LABEL", "label") && p[60] == Ident("bla") && p[61] == Punct(")") &&
    p[62] == Punct(")") &&
    p[63] == Ident("gcd-done") && p[64] == Punct(")")
  }

  predicate IsGcdText(p: seq<Token>) {
    |p| == 65 && TestLine(p) && BranchLine(p) && RemLine(p) && MoveLines(p) && LoopLines(p)
  }

  lemma GcdTextLength()
    ensures |GcdText| == 65
  {
  }

  lemma TestLineTokens()
    ensures |GcdText| == 65 && TestLine(GcdText)
  {
    GcdTextLength();
  }

  lemma BranchLineTokens()
    ensures |GcdText| == 65 && BranchLine(GcdText)
  {
    GcdTextLength();
  }

  lemma RemLineTokens()
    ensures |GcdText| == 65 && RemLine(GcdText)
  {
    GcdTextLength();
  }

  lemma MoveLinesTokens()
    ensures |GcdText| == 65 && MoveLines(GcdText)
  {
    GcdTextLength();
  }

  lemma LoopLinesTokens()
    ensures |GcdText| == 65 && LoopLines(GcdText)
  {
    GcdTextLength();
  }

  lemma GcdTextTokens()
    ensures IsGcdText(GcdText)
  {
    TestLineTokens();
    BranchLineTokens();
    RemLineTokens();
    MoveLinesTokens();
    LoopLinesTokens();
  }

  lemma TestBParsed(p: seq<Token>)
    requires |p| == 65 && TestLine(p)
    ensures ParenInstructionAt(p, 2) == Success((GcdTokens[1], 17))
  {
    RegZeroArgsAt(p, 8, "b");
    TestShapeAt(p, 2, Punct("="), [Prim("reg", CStr("b")), Prim("const", CInt(0))], 16);
  }

  lemma RemParsed(p: seq<Token>)
    requires |p| == 65 && RemLine(p)
    ensures ParenInstructionAt(p, 24) == Success((GcdTokens[3], 40))
  {
    RegRegArgsAt(p, 31, "a", "b");
    AssignOpShapeAt(p, 24, "t", "rem", [Prim("reg", CStr("a")), Prim("reg", CStr("b"))], 39);
  }

  /** The body of `bla` from the back: each instruction extends whatever
      block was read before it, and the label `gcd-done` ends it. */
  lemma LoopBlock(p: seq<Token>, insts: seq<InstToken>)
    requires |p| == 65 && LoopLines(p)
    ensures BlockFrom(p, 56, insts) == Success((insts + [GoToLabelToken("bla")], 63))
  {
    GotoLabelShapeAt(p, 56, "bla");
    BlockStepAt(p, 56, insts, GoToLabelToken("bla"), 63, insts + [GoToLabelToken("bla")]);
  }

  lemma MoveBBlock(p: seq<Token>, insts: seq<InstToken>)
    requires |p| == 65 && MoveLines(p) && LoopLines(p)
    ensures BlockFrom(p, 48, insts) == Success((insts + GcdTokens[5..7], 63))
  {
    var next := insts + [GcdTokens[5]];
    AssignRegShapeAt(p, 48, "b", "t");
    BlockStepAt(p, 48, insts, GcdTokens[5], 56, next);
    LoopBlock(p, next);
    assert next + [GcdTokens[6]] == insts + GcdTokens[5..7];
  }

  lemma MoveABlock(p: seq<Token>, insts: seq<InstToken>)
    requires |p| == 65 && MoveLines(p) && LoopLines(p)
    ensures BlockFrom(p, 40, insts) == Success((insts + GcdTokens[4..7], 63))
  {
    var next := insts + [GcdTokens[4]];
    AssignRegShapeAt(p, 40, "a", "b");
    BlockStepAt(p, 40, insts, GcdTokens[4], 48, next);
    MoveBBlock(p, next);
    assert next + GcdTokens[5..7] == insts + GcdTokens[4..7];
  }

  lemma RemBlock(p: seq<Token>, insts: seq<InstToken>)
    requires |p| == 65 && RemLine(p) && MoveLines(p) && LoopLines(p)
    ensures BlockFrom(p, 24, insts) == Success((insts + GcdTokens[3..7], 63))
  {
    var next := insts + [GcdTokens[3]];
    RemParsed(p);
    BlockStepAt(p, 24, insts, GcdTokens[3], 40, next);
    MoveABlock(p, next);
    assert next + GcdTokens[4..7] == insts + GcdTokens[3..7];
  }

  lemma BranchDoneBlock(p: seq<Token>, insts: seq<InstToken>)
    requires IsGcdText(p)
    ensures BlockFrom(p, 17, insts) == Success((insts + GcdTokens[2..7], 63))
  {
    var next := insts + [GcdTokens[2]];
    BranchLabelAt(p, 17, "gcd-done");
    BlockStepAt(p, 17, insts, GcdTokens[2], 24, next);
    RemBlock(p, next);
    assert next + GcdTokens[3..7] == insts + GcdTokens[2..7];
  }

  /** The body of `bla`: six parenthesised instructions, up to the label
      `gcd-done`. */
  lemma GcdBlock(p: seq<Token>)
    requires IsGcdText(p)
    ensures BlockAfterLabelAt(p, 2, [LabelToken("bla")]) == Success((GcdTokens[..7], 63))
  {
    TestBParsed(p);
    BranchDoneBlock(p, GcdTokens[..2]);
    assert [LabelToken("bla")] + [GcdTokens[1]] == GcdTokens[..2];
    assert GcdTokens[..2] + GcdTokens[2..7] == GcdTokens[..7];
  }

  /** `bla` then `gcd-done`: the second controller sits right before the
      closing ")" and so gets an empty block. */
  lemma GcdControllers(p: seq<Token>)
    requires IsGcdText(p)
    ensures ControllerAt(p, PState(1, [], map[])) ==
            Success(PState(63, GcdTokens[..7], map["bla" := LabelPointer(GcdTokens[1..7], 1)]))
    ensures ControllersFrom(p, PState(63, GcdTokens[..7], map["bla" := LabelPointer(GcdTokens[1..7], 1)])) ==
            Success(PState(64, GcdTokens, GcdPointers))
  {
    GcdBlock(p);
    assert [] + [LabelToken("bla")] == [LabelToken("bla")];
    assert GcdTokens[..7] + [LabelToken("gcd-done")] == GcdTokens;
    assert GcdTokens[8..] == [];
  }

  /** What the parser builds for the controller: the token list the
      assembler is given, and both labels' pointers. */
  const GcdPointers: map<string, LabelPointer> :=
    map["bla" := LabelPointer(GcdTokens[1..7], 1), "gcd-done" := LabelPointer([], 8)]

  /** `parse` on the controller text yields GcdTokens. */
  lemma GcdParsed(p: seq<Token>)
    requires IsGcdText(p)
    ensures ParseTokens(p, [], map[]) == Success(PState(65, GcdTokens, GcdPointers))
  {
    GcdControllers(p);
  }

  // register indices once pc and flag are allocated first
  const A: nat := 2
  const T: nat := 3
  const B: nat := 4

  const TestB: Instr := Test(Equal, [RegExp(B), ConstExp(CInt(0))])
  const BranchDone: Instr := Branch([])
  const Rem: Instr := AssignOp(T, Remainder, [RegExp(A), RegExp(B)])
  const MoveA: Instr := AssignRegister(A, B)
  const MoveB: Instr := AssignRegister(B, T)
  const Loop: Instr := GotoLabel("bla")

  /** The instructions after the `bla` marker, in source order. */
  const Body: seq<Instr> := [TestB, BranchDone, Rem, MoveA, MoveB, Loop]
  const GcdLabels: map<string, seq<Instr>> := map["gcd-done" := [], "bla" := Body]

  /** The register names once `pc` and `flag` are allocated first. */
  const MachineNames: seq<string> := ["pc", "flag", "a", "t", "b"]

  const DoneOnly: map<string, seq<Instr>> := map["gcd-done" := []]

  lemma Lookups()
    ensures LookupRegister(MachineNames, "a") == Success(A)
    ensures LookupRegister(MachineNames, "t") == Success(T)
    ensures LookupRegister(MachineNames, "b") == Success(B)
  {
    assert MachineNames[A] == "a" && MachineNames[T] == "t" && MachineNames[B] == "b";
  }

  lemma CompileRegArg(name: string, k: nat)
    requires LookupRegister(MachineNames, name) == Success(k)
    ensures CompilePrim(Prim("reg", CStr(name)), MachineNames) == Success(RegExp(k))
  {
    assert "reg" != "const" && "reg" != "LABEL";
  }

  lemma CompileArgPair(p: Arg, q: Arg, cp: Prim, cq: Prim)
    requires CompilePrim(p, MachineNames) == Success(cp) && CompilePrim(q, MachineNames) == Success(cq)
    ensures CompileArgs([p, q], MachineNames) == Success([cp, cq])
  {
    var args := [p, q];
    assert args[0] == p && args[1..] == [q];
    assert CompileArgs([q], MachineNames) == Success([cq]) by {
      assert [q][0] == q && [q][1..] == [];
      assert [cq] + [] == [cq];
    }
    assert [cp] + [cq] == [cp, cq];
  }

  lemma CompiledArgs()
    ensures CompileArgs([Prim("reg", CStr("a")), Prim("reg", CStr("b"))], MachineNames) == Success([RegExp(A), RegExp(B)])
    ensures CompileArgs([Prim("reg", CStr("b")), Prim("const", CInt(0))], MachineNames) == Success([RegExp(B), ConstExp(CInt(0))])
  {
    Lookups();
    CompileRegArg("a", A);
    CompileRegArg("b", B);
    CompileArgPair(Prim("reg", CStr("a")), Prim("reg", CStr("b")), RegExp(A), RegExp(B));
    CompileArgPair(Prim("reg", CStr("b")), Prim("const", CInt(0)), RegExp(B), ConstExp(CInt(0)));
  }

  /** Each instruction token of the controller compiles to its instruction. */
  lemma CompiledTest(labels: map<string, seq<Instr>>)
    requires WfLabels(labels, 5)
    ensures CompileToken(TestToken("=", [Prim("reg", CStr("b")), Prim("const", CInt(0))]), MachineNames, GcdOps, labels) == Success(TestB)
  {
    CompiledArgs();
  }

  lemma CompiledRem(labels: map<string, seq<Instr>>)
    requires WfLabels(labels, 5)
    ensures CompileToken(AssignOpToken("t", "rem", [Prim("reg", CStr("a")), Prim("reg", CStr("b"))]), MachineNames, GcdOps, labels) == Success(Rem)
  {
    Lookups();
    CompiledArgs();
  }

  lemma CompiledMoveA(labels: map<string, seq<Instr>>)
    requires WfLabels(labels, 5)
    ensures CompileToken(AssignRegisterToken("a", "b"), MachineNames, GcdOps, labels) == Success(MoveA)
  {
    Lookups();
  }

  lemma CompiledMoveB(labels: map<string, seq<Instr>>)
    requires WfLabels(labels, 5)
    ensures CompileToken(AssignRegisterToken("b", "t"), MachineNames, GcdOps, labels) == Success(MoveB)
  {
    Lookups();
  }

  lemma CompiledBranch()
    ensures CompileToken(BranchToken("gcd-done"), MachineNames, GcdOps, DoneOnly) == Success(BranchDone)
  {
    assert "gcd-done" in DoneOnly;
  }

  lemma Assembled6()
    ensures Assemble(Tokens6, MachineNames, GcdOps, map[]) == Assembly(DoneOnly, [Loop], None)
  {
    assert Tokens7 == [LabelToken("gcd-done")] + [];
    assert map[]["gcd-done" := Reverse([])] == DoneOnly;
    AssembleMarker("gcd-done", [], MachineNames, GcdOps, map[], map[], []);
    AssembleCompiled(GoToLabelToken("bla"), Loop, Tokens7, MachineNames, GcdOps, map[], DoneOnly, []);
    assert [] + [Loop] == [Loop];
  }

  lemma Assembled5()
    ensures Assemble(Tokens5, MachineNames, GcdOps, map[]) == Assembly(DoneOnly, [Loop, MoveB], None)
  {
    Assembled6();
    CompiledMoveB(DoneOnly);
    AssembleCompiled(AssignRegisterToken("b", "t"), MoveB, Tokens6, MachineNames, GcdOps, map[], DoneOnly, [Loop]);
    assert [Loop] + [MoveB] == [Loop, MoveB];
  }

  lemma Assembled4()
    ensures Assemble(Tokens4, MachineNames, GcdOps, map[]) == Assembly(DoneOnly, [Loop, MoveB, MoveA], None)
  {
    Assembled5();
    CompiledMoveA(DoneOnly);
    AssembleCompiled(AssignRegisterToken("a", "b"), MoveA, Tokens5, MachineNames, GcdOps, map[], DoneOnly, [Loop, MoveB]);
    assert [Loop, MoveB] + [MoveA] == [Loop, MoveB, MoveA];
  }

  lemma Assembled3()
    ensures Assemble(Tokens3, MachineNames, GcdOps, map[]) == Assembly(DoneOnly, [Loop, MoveB, MoveA, Rem], None)
  {
    Assembled4();
    CompiledRem(DoneOnly);
    AssembleCompiled(Tokens3[0], Rem, Tokens4, MachineNames, GcdOps, map[], DoneOnly, [Loop, MoveB, MoveA]);
    assert [Loop, MoveB, MoveA] + [Rem] == [Loop, MoveB, MoveA, Rem];
  }

  lemma Assembled2()
    ensures Assemble(Tokens2, MachineNames, GcdOps, map[]) == Assembly(DoneOnly, [Loop, MoveB, MoveA, Rem, BranchDone], None)
  {
    Assembled3();
    CompiledBranch();
    AssembleCompiled(BranchToken("gcd-done"), BranchDone, Tokens3, MachineNames, GcdOps, map[], DoneOnly, [Loop, MoveB, MoveA, Rem]);
    assert [Loop, MoveB, MoveA, Rem] + [BranchDone] == [Loop, MoveB, MoveA, Rem, BranchDone];
  }

  lemma Assembled1()
    ensures Assemble(Tokens1, MachineNames, GcdOps, map[]) ==
      Assembly(DoneOnly, [Loop, MoveB, MoveA, Rem, BranchDone, TestB], None)
  {
    Assembled2();
    CompiledTest(DoneOnly);
    AssembleCompiled(Tokens1[0], TestB, Tokens2, MachineNames, GcdOps, map[], DoneOnly, [Loop, MoveB, MoveA, Rem, BranchDone]);
    assert [Loop, MoveB, MoveA, Rem, BranchDone] + [TestB] == [Loop, MoveB, MoveA, Rem, BranchDone, TestB];
  }

  /** Assembling the GCD controller: `bla` points at the whole body, the
      branch at the empty list, and the installed sequence is the body
      backwards. */
  lemma GcdAssembled()
    ensures Assemble(GcdTokens, MachineNames, GcdOps, map[]) ==
      Assembly(GcdLabels, [Loop, MoveB, MoveA, Rem, BranchDone, TestB], None)
  {
    var acc := [Loop, MoveB, MoveA, Rem, BranchDone, TestB];
    Assembled1();
    AssembleMarker("bla", Tokens1, MachineNames, GcdOps, map[], DoneOnly, acc);
    assert Reverse(acc) == Body;
    assert DoneOnly["bla" := Body] == GcdLabels;
  }

  function Regs(pc: seq<Instr>, flag: Value, a: int, t: Value, b: int): seq<Value> {
    [Code(pc), flag, Int(a), t, Int(b)]
  }

  lemma LabelsWf()
    ensures WfLabels(GcdLabels, 5) && WfCode(Body, 5)
  {
    assert WfCode(Body, 5);
  }

  lemma EvalPair(p: Prim, q: Prim, regs: seq<Value>, labels: map<string, seq<Instr>>)
    requires WfPrim(p, |regs|) && WfPrim(q, |regs|)
    requires EvalPrim(p, regs, labels).Success? && EvalPrim(q, regs, labels).Success?
    ensures EvalArgs([p, q], regs, labels) == Success([EvalPrim(p, regs, labels).value, EvalPrim(q, regs, labels).value])
  {
    var args := [p, q];
    var vp := EvalPrim(p, regs, labels).value;
    var vq := EvalPrim(q, regs, labels).value;
    assert args[0] == p && args[1..] == [q];
    assert EvalArgs([q], regs, labels) == Success([vq]) by {
      assert [q][0] == q && [q][1..] == [];
      assert [vq] + [] == [vq];
    }
    assert [vp] + [vq] == [vp, vq];
  }

  lemma RegsWf(pc: seq<Instr>, flag: Value, a: int, t: Value, b: int)
    requires WfCode(pc, 5) && WfValue(flag, 5) && WfValue(t, 5)
    ensures WfRegs(Regs(pc, flag, a, t, b))
  {
  }

  lemma BodySuffixWf(k: nat)
    requires k <= |Body|
    ensures WfCode(Body[k..], 5)
  {
    LabelsWf();
  }

  lemma TestStep(x: int, y: int, flag: Value, t: Value, fuel: nat)
    requires WfValue(flag, 5) && WfValue(t, 5)
    ensures WfRegs(Regs(Body, flag, x, t, y)) && WfLabels(GcdLabels, 5)
    ensures Run(fuel + 1, Regs(Body, flag, x, t, y), GcdLabels) == Run(fuel, Regs(Body[1..], Bool(y == 0), x, t, y), GcdLabels)
  {
    LabelsWf();
    var r0 := Regs(Body, flag, x, t, y);
    RegsWf(Body, flag, x, t, y);
    EvalPair(RegExp(B), ConstExp(CInt(0)), r0, GcdLabels);
    TestEffect(Equal, [RegExp(B), ConstExp(CInt(0))], r0, GcdLabels);
    RunOneStep(fuel, r0, GcdLabels, Regs(Body[1..], Bool(y == 0), x, t, y));
  }

  lemma BranchStep(x: int, y: int, t: Value, fuel: nat)
    requires WfValue(t, 5)
    ensures WfRegs(Regs(Body[1..], Bool(y == 0), x, t, y)) && WfLabels(GcdLabels, 5)
    ensures y == 0 ==> Run(fuel + 1, Regs(Body[1..], Bool(y == 0), x, t, y), GcdLabels) == Run(fuel, Regs([], Bool(true), x, t, y), GcdLabels)
    ensures y != 0 ==> Run(fuel + 1, Regs(Body[1..], Bool(y == 0), x, t, y), GcdLabels) == Run(fuel, Regs(Body[2..], Bool(false), x, t, y), GcdLabels)
  {
    LabelsWf();
    BodySuffixWf(1);
    var r1 := Regs(Body[1..], Bool(y == 0), x, t, y);
    RegsWf(Body[1..], Bool(y == 0), x, t, y);
    BranchEffect([], r1, GcdLabels);
    if y == 0 {
      RunOneStep(fuel, r1, GcdLabels, Regs([], Bool(true), x, t, y));
    } else {
      RunOneStep(fuel, r1, GcdLabels, Regs(Body[2..], Bool(false), x, t, y));
    }
  }

  lemma RemStep(x: int, y: int, t: Value, fuel: nat)
    requires y != 0 && WfValue(t, 5)
    ensures WfRegs(Regs(Body[2..], Bool(false), x, t, y)) && WfLabels(GcdLabels, 5)
    ensures Run(fuel + 1, Regs(Body[2..], Bool(false), x, t, y), GcdLabels) ==
      Run(fuel, Regs(Body[3..], Bool(false), x, Int(PyMod(x, y)), y), GcdLabels)
  {
    LabelsWf();
    BodySuffixWf(2);
    var r2 := Regs(Body[2..], Bool(false), x, t, y);
    RegsWf(Body[2..], Bool(false), x, t, y);
    EvalPair(RegExp(A), RegExp(B), r2, GcdLabels);
    assert EvalOp(Remainder, [RegExp(A), RegExp(B)], r2, GcdLabels) == Success(Int(PyMod(x, y)));
    RunOneStep(fuel, r2, GcdLabels, Regs(Body[3..], Bool(false), x, Int(PyMod(x, y)), y));
  }

  lemma MoveAStep(x: int, y: int, m: int, fuel: nat)
    ensures WfRegs(Regs(Body[3..], Bool(false), x, Int(m), y)) && WfLabels(GcdLabels, 5)
    ensures Run(fuel + 1, Regs(Body[3..], Bool(false), x, Int(m), y), GcdLabels) ==
      Run(fuel, Regs(Body[4..], Bool(false), y, Int(m), y), GcdLabels)
  {
    LabelsWf();
    BodySuffixWf(3);
    var r3 := Regs(Body[3..], Bool(false), x, Int(m), y);
    RegsWf(Body[3..], Bool(false), x, Int(m), y);
    AssignRegisterEffect(A, B, r3, GcdLabels);
    RunOneStep(fuel, r3, GcdLabels, Regs(Body[4..], Bool(false), y, Int(m), y));
  }

  lemma MoveBStep(y: int, m: int, fuel: nat)
    ensures WfRegs(Regs(Body[4..], Bool(false), y, Int(m), y)) && WfLabels(GcdLabels, 5)
    ensures Run(fuel + 1, Regs(Body[4..], Bool(false), y, Int(m), y), GcdLabels) ==
      Run(fuel, Regs(Body[5..], Bool(false), y, Int(m), m), GcdLabels)
  {
    LabelsWf();
    BodySuffixWf(4);
    var r4 := Regs(Body[4..], Bool(false), y, Int(m), y);
    RegsWf(Body[4..], Bool(false), y, Int(m), y);
    AssignRegisterEffect(B, T, r4, GcdLabels);
    RunOneStep(fuel, r4, GcdLabels, Regs(Body[5..], Bool(false), y, Int(m), m));
  }

  lemma LoopStep(y: int, m: int, fuel: nat)
    ensures WfRegs(Regs(Body[5..], Bool(false), y, Int(m), m)) && WfLabels(GcdLabels, 5)
    ensures Run(fuel + 1, Regs(Body[5..], Bool(false), y, Int(m), m), GcdLabels) ==
      Run(fuel, Regs(Body, Bool(false), y, Int(m), m), GcdLabels)
  {
    LabelsWf();
    BodySuffixWf(5);
    var r5 := Regs(Body[5..], Bool(false), y, Int(m), m);
    RegsWf(Body[5..], Bool(false), y, Int(m), m);
    GotoLabelEffect("bla", r5, GcdLabels);
    RunOneStep(fuel, r5, GcdLabels, Regs(Body, Bool(false), y, Int(m), m));
  }

  /** One pass round the loop when b is not zero: t and b get a % b, a gets
      the old b, and `pc` is back at `bla`. */
  lemma Round(x: int, y: int, flag: Value, t: Value, fuel: nat)
    requires y != 0 && WfValue(flag, 5) && WfValue(t, 5)
    ensures WfRegs(Regs(Body, flag, x, t, y)) && WfLabels(GcdLabels, 5)
    ensures Run(fuel + 6, Regs(Body, flag, x, t, y), GcdLabels) ==
      Run(fuel, Regs(Body, Bool(false), y, Int(PyMod(x, y)), PyMod(x, y)), GcdLabels)
  {
    var m := PyMod(x, y);
    TestStep(x, y, flag, t, fuel + 5);
    BranchStep(x, y, t, fuel + 4);
    RemStep(x, y, t, fuel + 3);
    MoveAStep(x, y, m, fuel + 2);
    MoveBStep(y, m, fuel + 1);
    LoopStep(y, m, fuel);
  }

  /** The last pass, when b is zero: the test sets the flag and the branch
      to `gcd-done` empties `pc`. */
  lemma LastRound(x: int, flag: Value, t: Value, fuel: nat)
    requires WfValue(flag, 5) && WfValue(t, 5)
    ensures WfRegs(Regs(Body, flag, x, t, 0)) && WfLabels(GcdLabels, 5)
    ensures Run(fuel + 2, Regs(Body, flag, x, t, 0), GcdLabels) == Halted(Regs([], Bool(true), x, t, 0))
  {
    TestStep(x, 0, flag, t, fuel + 1);
    BranchStep(x, 0, t, fuel);
    RegsWf([], Bool(true), x, t, 0);
  }

  /** From `bla`, with enough fuel, the controller halts with the GCD in a. */
  lemma {:induction false} GcdLoop(x: int, y: int, flag: Value, t: Value, fuel: nat)
    requires WfValue(flag, 5) && WfValue(t, 5) && Cost(x, y) <= fuel
    ensures WfRegs(Regs(Body, flag, x, t, y)) && WfLabels(GcdLabels, 5)
    ensures var o := Run(fuel, Regs(Body, flag, x, t, y), GcdLabels);
      o.Halted? && |o.regs| == 5 && o.regs[A] == Int(Euclid(x, y)) && o.regs[B] == Int(0)
    decreases Abs(y)
  {
    if y == 0 {
      LastRound(x, flag, t, fuel - 2);
    } else {
      Round(x, y, flag, t, fuel - 6);
      GcdLoop(y, PyMod(x, y), Bool(false), Int(PyMod(x, y)), fuel - 6);
    }
  }

  lemma Gcd21And343()
    ensures Euclid(21, 343) == 7 && Cost(21, 343) == 20
  {
    assert PyMod(21, 343) == 21;
    assert PyMod(343, 21) == 7;
    assert PyMod(21, 7) == 0;
  }

  /** Where `start` leaves the registers: `pc` holds the installed
      sequence, which is the body backwards, so the first instruction run is
      the final `goto bla`. */
  const Installed: seq<Instr> := [Loop, MoveB, MoveA, Rem, BranchDone, TestB]

  lemma NamesUnique()
    ensures ["pc", "flag"] + RegisterNames == MachineNames && UniqueNames(MachineNames)
  {
    assert ["pc", "flag"] + RegisterNames == MachineNames;
  }

  lemma NamesIndices()
    ensures IndexOf(MachineNames, "a") == Some(A) && IndexOf(MachineNames, "b") == Some(B)
  {
    Lookups();
  }

  lemma StartRegs(regs: seq<Value>, x: int, y: int)
    requires |regs| == 5 && AllNil(regs)
    ensures regs[A := Int(x)][B := Int(y)][PC := Code(Installed)] == Regs(Installed, Nil, x, Nil, y)
  {
  }

  /** The run `start` makes: one `goto bla`, then the loop of GcdLoop. */
  lemma {:induction false} GcdFromStart(x: int, y: int, fuel: nat)
    requires Cost(x, y) < fuel
    ensures var o := Run(fuel, Regs(Installed, Nil, x, Nil, y), GcdLabels);
      o.Halted? && |o.regs| == 5 && o.regs[A] == Int(Euclid(x, y))
  {
    var start := Regs(Installed, Nil, x, Nil, y);
    LabelsWf();
    assert WfCode(Installed, 5);
    RegsWf(Installed, Nil, x, Nil, y);
    GotoLabelEffect("bla", start, GcdLabels);
    RunOneStep(fuel - 1, start, GcdLabels, Regs(Body, Nil, x, Nil, y));
    GcdLoop(x, y, Nil, Nil, fuel - 1);
  }

  /** `make_machine` with a, t and b and the two ops. */
  method MakeGcdMachine() returns (m: Machine)
    ensures fresh(m) && (forall k | 0 <= k < |m.registers| :: fresh(m.registers[k]))
    ensures m.Valid() && m.Names() == MachineNames && |m.Contents()| == 5 && AllNil(m.Contents())
    ensures m.ops == GcdOps && m.labelPointers == map[]
  {
    NamesUnique();
    var made := MakeMachine(RegisterNames, GcdOps);
    m := made.value;
  }

  /** Then `assemble_machine` on the controller text (or any stream laid
      out like it): it parses to
      GcdTokens, `bla` and `gcd-done` point into the body and the installed
      sequence is the body backwards. */
  method LoadGcd(text: seq<Token>) returns (m: Machine)
    requires IsGcdText(text)
    ensures fresh(m) && (forall k | 0 <= k < |m.registers| :: fresh(m.registers[k]))
    ensures m.Valid() && |m.Contents()| == 5 && AllNil(m.Contents())
    ensures IndexOf(m.Names(), "a") == Some(A) && IndexOf(m.Names(), "b") == Some(B)
    ensures m.labelPointers == GcdLabels && m.instructionSequence == Installed
  {
    m := MakeGcdMachine();
    GcdParsed(text);
    assert ParseTokens(text, [], map[]).value.instructions == GcdTokens;
    GcdAssembled();
    var err := AssembleMachine(m, text);
    assert m.Names() == MachineNames && m.ops == GcdOps;
    assert m.labelPointers == GcdLabels;
    NamesIndices();
  }

  /** Set a and b, start, read a. */
  method RunGcd(m: Machine, x: int, y: int, fuel: nat) returns (o: Outcome, a: Result<Value, VmError>)
    requires m.Valid() && |m.Contents()| == 5 && AllNil(m.Contents())
    requires IndexOf(m.Names(), "a") == Some(A) && IndexOf(m.Names(), "b") == Some(B)
    requires m.labelPointers == GcdLabels && m.instructionSequence == Installed
    requires Cost(x, y) < fuel
    modifies m.registers
    ensures o.Halted? && a == Success(Int(Euclid(x, y)))
  {
    StartRegs(m.Contents(), x, y);
    var e1 := m.SetRegisterValue("a", Int(x));
    var e2 := m.SetRegisterValue("b", Int(y));
    o := m.Start(fuel);
    GcdFromStart(x, y, fuel);
    a := m.GetRegisterValue("a");
  }

  /** The simulator's test, generalised: build the machine, load the GCD
      controller, set a and b, start it with enough fuel; it halts and a
      holds Euclid's result.  The test's own values are those of Gcd21And343. */
  method GcdExample(x: int, y: int, fuel: nat) returns (o: Outcome, a: Result<Value, VmError>)
    requires Cost(x, y) < fuel
    ensures o.Halted? && a == Success(Int(Euclid(x, y)))
  {
    GcdTextTokens();
    var m := LoadGcd(GcdText);
    o, a := RunGcd(m, x, y, fuel);
  }
}
