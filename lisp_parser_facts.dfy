/** What the Lisp parser guarantees about its output: every label pointer
    describes the block of instructions that follows its label marker, the
    program's outer shape, and the scenarios of the parser's unit tests. */
module LispParserFacts {
  import opened Wrappers
  import opened LispParser

  /** `_match(t)` behaves as `_match_from_list([t])`. */
  lemma MatchIsSingletonList(toks: seq<Token>, pos: nat, kind: string)
    requires pos <= |toks|
    ensures MatchAt(toks, pos, kind).Success? == MatchFromListAt(toks, pos, [kind]).Success?
    ensures MatchAt(toks, pos, kind) == MatchFromListAt(toks, pos, [kind])
  {
  }

  /** `_const` yields an int for a NUMBER token, the raw text for an
      IDENTIFIER, and None, consuming nothing, for any other token. */
  lemma ConstKinds(toks: seq<Token>, pos: nat)
    requires pos <= |toks|
    ensures KindAt(toks, pos) == Some("IDENTIFIER") ==> ConstAt(toks, pos) == Success((CStr(toks[pos].val), pos + 1))
    ensures KindAt(toks, pos) == Some("NUMBER") && Numerals.IsDecimal(toks[pos].val) ==>
              ConstAt(toks, pos) == Success((CInt(Numerals.DecimalValue(toks[pos].val)), pos + 1))
    ensures KindAt(toks, pos) != Some("NUMBER") && KindAt(toks, pos) != Some("IDENTIFIER") ==>
              ConstAt(toks, pos) == Success((CNone, pos))
  {
  }

  /** An instruction starts with one of the seven instruction keywords;
      any other token is an unknown instruction. */
  lemma InstructionKeywords(toks: seq<Token>, pos: nat)
    requires pos <= |toks|
    ensures InstructionAt(toks, pos).Success? ==>
              KindAt(toks, pos).Some? &&
              KindAt(toks, pos).value in ["ASSIGN", "TEST", "PERFORM", "BRANCH", "GOTO", "SAVE", "RESTORE"]
    ensures KindAt(toks, pos).Some? &&
            KindAt(toks, pos).value !in ["ASSIGN", "TEST", "PERFORM", "BRANCH", "GOTO", "SAVE", "RESTORE"] ==>
              InstructionAt(toks, pos) == Failure(UnknownToken(KindAt(toks, pos), ValAt(toks, pos)))
  {
  }

  /** An assign whose source is not (reg ...), (const ...), (op ...) or
      (label ...) is rejected. */
  lemma AssignUnknownSource(toks: seq<Token>, pos: nat)
    requires pos + 3 <= |toks|
    requires toks[pos].kind == "ASSIGN" && toks[pos + 1].kind == "IDENTIFIER" && toks[pos + 2].kind == "("
    requires KindAt(toks, pos + 3) !in {Some("REGISTER"), Some("CONST"), Some("OP"), Some("LABEL")}
    ensures AssignAt(toks, pos) == Failure(UnknownToken(KindAt(toks, pos + 3), ValAt(toks, pos + 3)))
  {
  }

  /** No label marker in a run of instructions. */
  predicate NoMarkers(s: seq<InstToken>) {
    forall k | 0 <= k < |s| :: !s[k].LabelToken?
  }

  predicate IsPrefix(a: seq<InstToken>, b: seq<InstToken>) {
    |a| <= |b| && b[..|a|] == a
  }

  lemma PrefixTransitive(a: seq<InstToken>, b: seq<InstToken>, c: seq<InstToken>)
    requires IsPrefix(a, b) && IsPrefix(b, c)
    ensures IsPrefix(a, c)
  {
    assert c[..|a|] == c[..|b|][..|a|];
  }

  lemma PrefixIndex(a: seq<InstToken>, b: seq<InstToken>, i: nat)
    requires IsPrefix(a, b) && i < |a|
    ensures b[i] == a[i]
  {
    assert b[i] == b[..|a|][i];
  }

  lemma ExtendBlock(out: seq<InstToken>, insts: seq<InstToken>, x: InstToken)
    requires |insts| < |out| && out[..|insts| + 1] == insts + [x]
    requires !x.LabelToken? && NoMarkers(out[|insts| + 1..])
    ensures out[..|insts|] == insts && NoMarkers(out[|insts|..])
  {
    assert out[..|insts|] == (insts + [x])[..|insts|];
    assert out[|insts|..] == [x] + out[|insts| + 1..];
  }

  /** The instruction loop of a controller only appends, and never a label marker. */
  lemma {:induction false} BlockFromExtends(toks: seq<Token>, pos: nat, insts: seq<InstToken>)
    requires pos <= |toks|
    requires BlockFrom(toks, pos, insts).Success?
    ensures var out := BlockFrom(toks, pos, insts).value.0;
            out[..|insts|] == insts && NoMarkers(out[|insts|..])
    decreases |toks| - pos
  {
    if KindAt(toks, pos) != Some("IDENTIFIER") && KindAt(toks, pos) != Some(")") {
      var ins := ParenInstructionAt(toks, pos).value;
      assert BlockFrom(toks, pos, insts) == BlockFrom(toks, ins.1, insts + [ins.0]);
      BlockFromExtends(toks, ins.1, insts + [ins.0]);
      ExtendBlock(BlockFrom(toks, pos, insts).value.0, insts, ins.0);
    } else {
      assert BlockFrom(toks, pos, insts).value.0 == insts;
    }
  }

  /** The same for the body of a label that is not last. */
  lemma BlockAfterLabelExtends(toks: seq<Token>, pos: nat, insts: seq<InstToken>)
    requires pos <= |toks|
    requires BlockAfterLabelAt(toks, pos, insts).Success?
    ensures var out := BlockAfterLabelAt(toks, pos, insts).value.0;
            out[..|insts|] == insts && NoMarkers(out[|insts|..])
  {
    var ins := ParenInstructionAt(toks, pos).value;
    assert BlockAfterLabelAt(toks, pos, insts) == BlockFrom(toks, ins.1, insts + [ins.0]);
    BlockFromExtends(toks, ins.1, insts + [ins.0]);
    ExtendBlock(BlockAfterLabelAt(toks, pos, insts).value.0, insts, ins.0);
  }

  /** A label pointer `[slice, l]` for `name`: the marker for `name` sits just
      before index l, the slice is the instructions from l on, none of them a
      marker, and it runs up to the next marker or the end. */
  predicate PointsAtBlock(insts: seq<InstToken>, name: string, p: LabelPointer) {
    && 1 <= p.index && p.index + |p.insts| <= |insts|
    && insts[p.index - 1] == LabelToken(name)
    && insts[p.index .. p.index + |p.insts|] == p.insts
    && NoMarkers(p.insts)
    && (p.index + |p.insts| == |insts| || insts[p.index + |p.insts|].LabelToken?)
  }

  /** Every label in the table points at its block, and every marker in the
      instruction list has an entry in the table. */
  predicate PointersValid(st: PState) {
    && (forall name | name in st.labelPointers :: PointsAtBlock(st.instructions, name, st.labelPointers[name]))
    && (forall k | 0 <= k < |st.instructions| && st.instructions[k].LabelToken? ::
          st.instructions[k].labelName in st.labelPointers)
  }

  /** What one controller does to the parser state: it appends the marker
      for `name` and a block free of markers, and points `name` at that block. */
  predicate AddsController(st: PState, name: string, r: PState) {
    var l := |st.instructions| + 1;
    && l <= |r.instructions|
    && r.instructions[..l] == st.instructions + [LabelToken(name)]
    && NoMarkers(r.instructions[l..])
    && r.labelPointers == st.labelPointers[name := LabelPointer(r.instructions[l..], l)]
  }

  lemma ControllerAdds(toks: seq<Token>, st: PState)
    requires st.pos <= |toks|
    requires ControllerAt(toks, st).Success?
    ensures AddsController(st, toks[st.pos].val, ControllerAt(toks, st).value)
  {
    if KindAt(toks, st.pos + 1) != Some(")") {
      ControllerAddsBlock(toks, st);
    } else {
      ControllerAddsEmpty(toks, st);
    }
  }

  lemma ControllerAddsEmpty(toks: seq<Token>, st: PState)
    requires st.pos <= |toks|
    requires ControllerAt(toks, st).Success?
    requires KindAt(toks, st.pos + 1) == Some(")")
    ensures AddsController(st, toks[st.pos].val, ControllerAt(toks, st).value)
  {
    var insts := st.instructions + [LabelToken(toks[st.pos].val)];
    assert ControllerAt(toks, st).value.instructions == insts;
    assert insts[..|insts|] == insts;
  }

  lemma ControllerAddsBlock(toks: seq<Token>, st: PState)
    requires st.pos <= |toks|
    requires ControllerAt(toks, st).Success?
    requires KindAt(toks, st.pos + 1) != Some(")")
    ensures AddsController(st, toks[st.pos].val, ControllerAt(toks, st).value)
  {
    BlockAfterLabelExtends(toks, st.pos + 1, st.instructions + [LabelToken(toks[st.pos].val)]);
  }

  lemma OldPointerKept(prev: seq<InstToken>, name: string, insts: seq<InstToken>, n: string, q: LabelPointer)
    requires PointsAtBlock(prev, n, q)
    requires |prev| < |insts| && insts[..|prev| + 1] == prev + [LabelToken(name)]
    ensures PointsAtBlock(insts, n, q)
  {
    var l := |prev| + 1;
    var e := q.index + |q.insts|;
    assert insts[q.index .. e] == insts[..l][q.index .. e];
    assert insts[q.index - 1] == insts[..l][q.index - 1];
    assert insts[e] == insts[..l][e];
  }

  lemma AddsControllerPrefix(st: PState, name: string, r: PState)
    requires AddsController(st, name, r)
    ensures IsPrefix(st.instructions, r.instructions) && |st.instructions| < |r.instructions|
    ensures r.instructions[|st.instructions|] == LabelToken(name)
  {
    var l := |st.instructions| + 1;
    assert r.instructions[l - 1] == r.instructions[..l][l - 1];
    assert r.instructions[..l - 1] == r.instructions[..l][..l - 1];
  }

  lemma AddsControllerKeepsPointers(st: PState, name: string, r: PState)
    requires PointersValid(st)
    requires AddsController(st, name, r)
    ensures PointersValid(r)
  {
    var prev := st.instructions;
    var l := |prev| + 1;
    AddsControllerPrefix(st, name, r);
    assert PointsAtBlock(r.instructions, name, r.labelPointers[name]);
    forall n | n in r.labelPointers
      ensures PointsAtBlock(r.instructions, n, r.labelPointers[n])
    {
      if n != name {
        OldPointerKept(prev, name, r.instructions, n, st.labelPointers[n]);
      }
    }
    forall k | 0 <= k < |r.instructions| && r.instructions[k].LabelToken?
      ensures r.instructions[k].labelName in r.labelPointers
    {
      if k < |prev| {
        PrefixIndex(prev, r.instructions, k);
      }
    }
  }

  /** One controller keeps what was parsed before and appends its label's
      marker first. */
  lemma ControllerShape(toks: seq<Token>, st: PState)
    requires st.pos <= |toks|
    requires ControllerAt(toks, st).Success?
    ensures var r := ControllerAt(toks, st).value;
            && IsPrefix(st.instructions, r.instructions)
            && |st.instructions| < |r.instructions|
            && r.instructions[|st.instructions|] == LabelToken(toks[st.pos].val)
  {
    ControllerAdds(toks, st);
    AddsControllerPrefix(st, toks[st.pos].val, ControllerAt(toks, st).value);
  }

  /** One controller keeps the pointer invariant. */
  lemma ControllerKeepsPointers(toks: seq<Token>, st: PState)
    requires st.pos <= |toks|
    requires PointersValid(st)
    requires ControllerAt(toks, st).Success?
    ensures PointersValid(ControllerAt(toks, st).value)
  {
    ControllerAdds(toks, st);
    AddsControllerKeepsPointers(st, toks[st.pos].val, ControllerAt(toks, st).value);
  }

  lemma {:induction false} ControllersKeepPrefix(toks: seq<Token>, st: PState)
    requires st.pos <= |toks|
    requires ControllersFrom(toks, st).Success?
    ensures IsPrefix(st.instructions, ControllersFrom(toks, st).value.instructions)
    decreases |toks| - st.pos
  {
    if KindAt(toks, st.pos) != Some(")") {
      var next := ControllerAt(toks, st).value;
      ControllerShape(toks, st);
      ControllersKeepPrefix(toks, next);
      PrefixTransitive(st.instructions, next.instructions, ControllersFrom(toks, st).value.instructions);
    }
  }

  lemma {:induction false} ControllersKeepPointers(toks: seq<Token>, st: PState)
    requires st.pos <= |toks|
    requires PointersValid(st)
    requires ControllersFrom(toks, st).Success?
    ensures PointersValid(ControllersFrom(toks, st).value)
    decreases |toks| - st.pos
  {
    if KindAt(toks, st.pos) != Some(")") {
      ControllerKeepsPointers(toks, st);
      ControllersKeepPointers(toks, ControllerAt(toks, st).value);
    }
  }

  /** The pieces of a successful top-level parse: "(", a first controller,
      the controllers after it, and ")", which is the last token consumed. */
  lemma TopLevelParts(toks: seq<Token>, st: PState) returns (first: PState, all: PState)
    requires st.pos <= |toks|
    requires TopLevelAt(toks, st).Success?
    ensures st.pos < |toks| && toks[st.pos].kind == "("
    ensures st.pos + 1 <= |toks| && ControllerAt(toks, st.(pos := st.pos + 1)) == Success(first)
    ensures first.pos <= |toks| && ControllersFrom(toks, first) == Success(all)
    ensures all.pos < |toks| && toks[all.pos].kind == ")"
    ensures TopLevelAt(toks, st).Success?
    ensures TopLevelAt(toks, st).value.pos == all.pos + 1
    ensures TopLevelAt(toks, st).value.instructions == all.instructions
    ensures TopLevelAt(toks, st).value.labelPointers == all.labelPointers
  {
    first := ControllerAt(toks, st.(pos := st.pos + 1)).value;
    all := ControllersFrom(toks, first).value;
  }

  /** The whole program keeps the invariant and what was parsed before. */
  lemma TopLevelKeepsPointers(toks: seq<Token>, st: PState)
    requires st.pos <= |toks|
    requires PointersValid(st)
    requires TopLevelAt(toks, st).Success?
    ensures PointersValid(TopLevelAt(toks, st).value)
    ensures IsPrefix(st.instructions, TopLevelAt(toks, st).value.instructions)
  {
    var first, all := TopLevelParts(toks, st);
    ControllerKeepsPointers(toks, st.(pos := st.pos + 1));
    ControllerShape(toks, st.(pos := st.pos + 1));
    ControllersKeepPointers(toks, first);
    ControllersKeepPrefix(toks, first);
    PrefixTransitive(st.instructions, first.instructions, all.instructions);
  }

  /** The first thing a program appends is a label marker: a program is "("
      then at least one controller, and a controller starts with its label. */
  lemma TopLevelShape(toks: seq<Token>, st: PState)
    requires st.pos <= |toks|
    requires TopLevelAt(toks, st).Success?
    ensures var r := TopLevelAt(toks, st).value;
            |st.instructions| < |r.instructions| && r.instructions[|st.instructions|].LabelToken?
  {
    var first, all := TopLevelParts(toks, st);
    ControllerShape(toks, st.(pos := st.pos + 1));
    ControllersKeepPrefix(toks, first);
    PrefixIndex(first.instructions, all.instructions, |st.instructions|);
  }

  /** The parser's central invariant: after a successful parse by a fresh
      parser, each label's pointer `[slice, l]` gives exactly the instructions
      of that label's block, right after its marker, and every marker has an
      entry. */
  lemma ParsedPointersMarkBlocks(toks: seq<Token>)
    requires ParseTokens(toks, [], map[]).Success?
    ensures PointersValid(ParseTokens(toks, [], map[]).value)
    ensures |ParseTokens(toks, [], map[]).value.instructions| > 0
    ensures ParseTokens(toks, [], map[]).value.instructions[0].LabelToken?
  {
    TopLevelKeepsPointers(toks, PState(0, [], map[]));
    TopLevelShape(toks, PState(0, [], map[]));
  }

  // ---------------------------------------------------------------------
  // The scenarios of the parser's unit tests, on the tokens the lexer
  // produces for each text.  Each is proved in two steps: the instruction
  // between the label and the closing parenthesis, then the whole program.

  function Punct(p: string): Token { Token(p, p) }
  function Ident(s: string): Token { Token("IDENTIFIER", s) }

  // ---------------------------------------------------------------------
  // Instruction shapes, wherever they sit in a token stream

  /** "(reg r)" read as one argument of `_assign_op` or `_test`. */
  lemma RegArgAt(toks: seq<Token>, i: nat, r: string, args: seq<Arg>)
    requires i + 4 <= |toks|
    requires toks[i] == Punct("(") && toks[i + 1] == Token("REGISTER", "reg")
    requires toks[i + 2] == Ident(r) && toks[i + 3] == Punct(")")
    ensures ArgsFrom(toks, i, args) == ArgsFrom(toks, i + 4, args + [Prim("reg", CStr(r))])
  {
    assert PrimitiveExpAt(toks, i + 1) == Success((Prim("reg", CStr(r)), i + 4));
  }

  /** "(const 0)" read as one argument: the number text becomes an int. */
  lemma ZeroArgAt(toks: seq<Token>, i: nat, args: seq<Arg>)
    requires i + 4 <= |toks|
    requires toks[i] == Punct("(") && toks[i + 1] == Token("CONST", "const")
    requires toks[i + 2] == Token("NUMBER", "0") && toks[i + 3] == Punct(")")
    ensures ArgsFrom(toks, i, args) == ArgsFrom(toks, i + 4, args + [Prim("const", CInt(0))])
  {
    assert Numerals.IsDecimal("0");
    assert Numerals.DecimalValue("0") == 10 * Numerals.DecimalValue([]) + Numerals.DigitValue('0') == 0;
    assert ConstAt(toks, i + 2) == Success((CInt(0), i + 3));
    assert PrimitiveExpAt(toks, i + 1) == Success((Prim("const", CInt(0)), i + 4));
  }

  /** The argument loop stops at ")". */
  lemma ArgsEndAt(toks: seq<Token>, i: nat, args: seq<Arg>)
    requires i < |toks| && toks[i] == Punct(")")
    ensures ArgsFrom(toks, i, args) == Success((args, i))
  {
  }

  /** "(reg r) (const 0))": the arguments of a test against zero. */
  lemma RegZeroArgsAt(toks: seq<Token>, i: nat, r: string)
    requires i + 9 <= |toks|
    requires toks[i] == Punct("(") && toks[i + 1] == Token("REGISTER", "reg")
    requires toks[i + 2] == Ident(r) && toks[i + 3] == Punct(")")
    requires toks[i + 4] == Punct("(") && toks[i + 5] == Token("CONST", "const")
    requires toks[i + 6] == Token("NUMBER", "0") && toks[i + 7] == Punct(")")
    requires toks[i + 8] == Punct(")")
    ensures ArgsFrom(toks, i, []) == Success(([Prim("reg", CStr(r)), Prim("const", CInt(0))], i + 8))
  {
    RegArgAt(toks, i, r, []);
    assert [] + [Prim("reg", CStr(r))] == [Prim("reg", CStr(r))];
    ZeroArgAt(toks, i + 4, [Prim("reg", CStr(r))]);
    assert [Prim("reg", CStr(r))] + [Prim("const", CInt(0))] == [Prim("reg", CStr(r)), Prim("const", CInt(0))];
    ArgsEndAt(toks, i + 8, [Prim("reg", CStr(r)), Prim("const", CInt(0))]);
  }

  /** "(reg x) (reg y))": two register arguments. */
  lemma RegRegArgsAt(toks: seq<Token>, i: nat, x: string, y: string)
    requires i + 9 <= |toks|
    requires toks[i] == Punct("(") && toks[i + 1] == Token("REGISTER", "reg")
    requires toks[i + 2] == Ident(x) && toks[i + 3] == Punct(")")
    requires toks[i + 4] == Punct("(") && toks[i + 5] == Token("REGISTER", "reg")
    requires toks[i + 6] == Ident(y) && toks[i + 7] == Punct(")")
    requires toks[i + 8] == Punct(")")
    ensures ArgsFrom(toks, i, []) == Success(([Prim("reg", CStr(x)), Prim("reg", CStr(y))], i + 8))
  {
    RegArgAt(toks, i, x, []);
    assert [] + [Prim("reg", CStr(x))] == [Prim("reg", CStr(x))];
    RegArgAt(toks, i + 4, y, [Prim("reg", CStr(x))]);
    assert [Prim("reg", CStr(x))] + [Prim("reg", CStr(y))] == [Prim("reg", CStr(x)), Prim("reg", CStr(y))];
    ArgsEndAt(toks, i + 8, [Prim("reg", CStr(x)), Prim("reg", CStr(y))]);
  }

  /** "(test (op o) args)" with o an identifier or "=", once the argument
      loop has read `args` up to the closing ")" at j. */
  lemma TestShapeAt(toks: seq<Token>, i: nat, op: Token, args: seq<Arg>, j: nat)
    requires i + 6 <= j < |toks|
    requires toks[i] == Punct("(") && toks[i + 1] == Token("TEST", "test")
    requires toks[i + 2] == Punct("(") && toks[i + 3] == Token("OP", "op")
    requires toks[i + 4] == op && (op.kind == "IDENTIFIER" || op.kind == "=") && toks[i + 5] == Punct(")")
    requires ArgsFrom(toks, i + 6, []) == Success((args, j)) && toks[j] == Punct(")")
    ensures ParenInstructionAt(toks, i) == Success((TestToken(op.val, args), j + 1))
  {
    assert MatchAt(toks, i + 3, "OP") == Success(("op", i + 4));
    assert MatchFromListAt(toks, i + 4, ["IDENTIFIER", "="]) == Success((op.val, i + 5));
    assert TestAt(toks, i + 1) == Success((TestToken(op.val, args), j));
  }

  /** "(op o) args" after an assign's target. */
  lemma AssignOpArgsAt(toks: seq<Token>, i: nat, o: string, args: seq<Arg>, j: nat)
    requires i + 3 <= j <= |toks|
    requires toks[i] == Token("OP", "op") && toks[i + 1] == Ident(o) && toks[i + 2] == Punct(")")
    requires ArgsFrom(toks, i + 3, []) == Success((args, j))
    ensures AssignOpAt(toks, i) == Success(((o, args), j))
  {
    assert MatchAt(toks, i + 1, "IDENTIFIER") == Success((o, i + 2));
  }

  /** "(assign t (op o) args)", once the argument loop has read `args`
      up to the closing ")" at j. */
  lemma AssignOpShapeAt(toks: seq<Token>, i: nat, t: string, o: string, args: seq<Arg>, j: nat)
    requires i + 7 <= j < |toks|
    requires toks[i] == Punct("(") && toks[i + 1] == Token("ASSIGN", "assign") && toks[i + 2] == Ident(t)
    requires toks[i + 3] == Punct("(") && toks[i + 4] == Token("OP", "op")
    requires toks[i + 5] == Ident(o) && toks[i + 6] == Punct(")")
    requires ArgsFrom(toks, i + 7, []) == Success((args, j)) && toks[j] == Punct(")")
    ensures ParenInstructionAt(toks, i) == Success((AssignOpToken(t, o, args), j + 1))
  {
    AssignOpArgsAt(toks, i + 4, o, args, j);
    assert MatchAt(toks, i + 2, "IDENTIFIER") == Success((t, i + 3));
    assert AssignAt(toks, i + 1) == Success((AssignOpToken(t, o, args), j));
  }

  /** "(assign t (reg s))" */
  lemma AssignRegShapeAt(toks: seq<Token>, i: nat, t: string, s: string)
    requires i + 8 <= |toks|
    requires toks[i] == Punct("(") && toks[i + 1] == Token("ASSIGN", "assign") && toks[i + 2] == Ident(t)
    requires toks[i + 3] == Punct("(") && toks[i + 4] == Token("REGISTER", "reg")
    requires toks[i + 5] == Ident(s) && toks[i + 6] == Punct(")") && toks[i + 7] == Punct(")")
    ensures ParenInstructionAt(toks, i) == Success((AssignRegisterToken(t, s), i + 8))
  {
    assert AssignRegAt(toks, i + 4) == Success((s, i + 7));
    assert AssignAt(toks, i + 1) == Success((AssignRegisterToken(t, s), i + 7));
  }

  /** "(branch (label l))" */
  lemma BranchLabelAt(toks: seq<Token>, i: nat, l: string)
    requires i + 7 <= |toks|
    requires toks[i] == Punct("(") && toks[i + 1] == Token("BRANCH", "branch")
    requires toks[i + 2] == Punct("(") && toks[i + 3] == Token("LABEL", "label")
    requires toks[i + 4] == Ident(l) && toks[i + 5] == Punct(")") && toks[i + 6] == Punct(")")
    ensures ParenInstructionAt(toks, i) == Success((BranchToken(l), i + 7))
  {
    assert BranchAt(toks, i + 1) == Success((BranchToken(l), i + 6));
  }

  /** "(goto (label l))" */
  lemma GotoLabelShapeAt(toks: seq<Token>, i: nat, l: string)
    requires i + 7 <= |toks|
    requires toks[i] == Punct("(") && toks[i + 1] == Token("GOTO", "goto")
    requires toks[i + 2] == Punct("(") && toks[i + 3] == Token("LABEL", "label")
    requires toks[i + 4] == Ident(l) && toks[i + 5] == Punct(")") && toks[i + 6] == Punct(")")
    ensures ParenInstructionAt(toks, i) == Success((GoToLabelToken(l), i + 7))
  {
    assert GotoLabelAt(toks, i + 3) == Success((l, i + 6));
    assert GotoAt(toks, i + 1) == Success((GoToLabelToken(l), i + 6));
  }

  /** One more instruction of a label's block. */
  lemma BlockStepAt(toks: seq<Token>, i: nat, insts: seq<InstToken>, x: InstToken, j: nat, next: seq<InstToken>)
    requires i < |toks| && toks[i] == Punct("(")
    requires ParenInstructionAt(toks, i) == Success((x, j)) && next == insts + [x]
    ensures BlockFrom(toks, i, insts) == BlockFrom(toks, j, next)
  {
  }

  /** "(bla (assign t (reg a)))" */
  const AssignRegisterText := [Punct("("), Ident("bla"), Punct("("), Token("ASSIGN", "assign"), Ident("t"),
                               Punct("("), Token("REGISTER", "reg"), Ident("a"), Punct(")"), Punct(")"), Punct(")")]

  lemma AssignRegisterInstruction()
    ensures ParenInstructionAt(AssignRegisterText, 2) == Success((AssignRegisterToken("t", "a"), 10))
  {
  }

  lemma AssignRegisterExample()
    ensures var r := ParseTokens(AssignRegisterText, [], map[]);
            r.Success? && r.value.instructions == [LabelToken("bla"), AssignRegisterToken("t", "a")]
  {
    AssignRegisterInstruction();
  }

  /** "(bla (assign t (label ha)))" */
  const AssignLabelText := [Punct("("), Ident("bla"), Punct("("), Token("ASSIGN", "assign"), Ident("t"),
                            Punct("("), Token("LABEL", "label"), Ident("ha"), Punct(")"), Punct(")"), Punct(")")]

  lemma AssignLabelInstruction()
    ensures ParenInstructionAt(AssignLabelText, 2) == Success((AssignLabelToken("t", "ha"), 10))
  {
  }

  lemma AssignLabelExample()
    ensures var r := ParseTokens(AssignLabelText, [], map[]);
            r.Success? && r.value.instructions == [LabelToken("bla"), AssignLabelToken("t", "ha")]
  {
    AssignLabelInstruction();
  }

  /** "(bla (assign t (const ha)))" */
  const AssignConstText := [Punct("("), Ident("bla"), Punct("("), Token("ASSIGN", "assign"), Ident("t"),
                            Punct("("), Token("CONST", "const"), Ident("ha"), Punct(")"), Punct(")"), Punct(")")]

  lemma AssignConstInstruction()
    ensures ParenInstructionAt(AssignConstText, 2) == Success((AssignConstToken("t", CStr("ha")), 10))
  {
  }

  lemma AssignConstExample()
    ensures var r := ParseTokens(AssignConstText, [], map[]);
            r.Success? && r.value.instructions == [LabelToken("bla"), AssignConstToken("t", CStr("ha"))]
  {
    AssignConstInstruction();
  }

  /** "(bla (test (op =) (reg b) (const 0)))", whose operator is the "=" token. */
  const TestText := [Punct("("), Ident("bla"), Punct("("), Token("TEST", "test")]
                     + [Punct("("), Token("OP", "op"), Punct("="), Punct(")")]
                     + [Punct("("), Token("REGISTER", "reg"), Ident("b"), Punct(")")]
                     + [Punct("("), Token("CONST", "const"), Token("NUMBER", "0"), Punct(")")]
                     + [Punct(")"), Punct(")")]

  lemma TestConstant()
    ensures ConstAt(TestText, 14) == Success((CInt(0), 15))
  {
    assert Numerals.IsDecimal("0");
    assert Numerals.DecimalValue("0") == 10 * Numerals.DecimalValue([]) + Numerals.DigitValue('0') == 0;
  }

  /** The argument loop of the test scenario reads both primitive
      expressions, the number as an int, and stops at the ")" that closes
      the instruction. */
  lemma TestArguments()
    ensures ArgsFrom(TestText, 8, []) == Success(([Prim("reg", CStr("b")), Prim("const", CInt(0))], 16))
  {
    var b, zero := Prim("reg", CStr("b")), Prim("const", CInt(0));
    assert PrimitiveExpAt(TestText, 9) == Success((b, 12));
    TestConstant();
    assert PrimitiveExpAt(TestText, 13) == Success((zero, 16));
    assert [] + [b] == [b] && [b] + [zero] == [b, zero];
    assert ArgsFrom(TestText, 16, [b, zero]) == Success(([b, zero], 16));
    assert ArgsFrom(TestText, 12, [b]) == ArgsFrom(TestText, 16, [b, zero]);
  }

  lemma TestInstruction()
    ensures ParenInstructionAt(TestText, 2) ==
            Success((TestToken("=", [Prim("reg", CStr("b")), Prim("const", CInt(0))]), 17))
  {
    TestArguments();
    assert TestText[2] == Punct("(") && TestText[3] == Token("TEST", "test") && TestText[6] == Punct("=");
    TestShapeAt(TestText, 2, Punct("="), [Prim("reg", CStr("b")), Prim("const", CInt(0))], 16);
  }

  /** The test scenario: two instructions, the second a test whose op is
      "=" and whose arguments are (reg b) and (const 0). */
  lemma TestExample()
    ensures var r := ParseTokens(TestText, [], map[]);
            r.Success? && r.value.instructions ==
              [LabelToken("bla"), TestToken("=", [Prim("reg", CStr("b")), Prim("const", CInt(0))])]
  {
    TestInstruction();
  }

  /** "(bla (branch (label haha)))" */
  const BranchText := [Punct("("), Ident("bla"), Punct("("), Token("BRANCH", "branch"),
                       Punct("("), Token("LABEL", "label"), Ident("haha"), Punct(")"), Punct(")"), Punct(")")]

  lemma BranchInstruction()
    ensures ParenInstructionAt(BranchText, 2) == Success((BranchToken("haha"), 9))
  {
  }

  /** The branch scenario; the pointer of "bla" covers the branch. */
  lemma BranchExample()
    ensures var r := ParseTokens(BranchText, [], map[]);
            && r.Success?
            && r.value.instructions == [LabelToken("bla"), BranchToken("haha")]
            && r.value.labelPointers == map["bla" := LabelPointer([BranchToken("haha")], 1)]
  {
    BranchInstruction();
  }

  /** A label directly before the closing ")" gets an empty slice: "(a)". */
  lemma EmptyBlockExample()
    ensures var r := ParseTokens([Punct("("), Ident("a"), Punct(")")], [], map[]);
            && r.Success?
            && r.value.instructions == [LabelToken("a")]
            && r.value.labelPointers == map["a" := LabelPointer([], 1)]
  {
    assert [LabelToken("a")][1..] == [];
  }

  /** Two labels in a row are rejected unless the second is last: after a
      label only ")" or "(" may follow, so "(a b)" fails on "b". */
  lemma ConsecutiveLabelsExample()
    ensures ParseTokens([Punct("("), Ident("a"), Ident("b"), Punct(")")], [], map[])
            == Failure(Unmatched(["("], Some("IDENTIFIER")))
  {
  }

  /** "(l (goto (reg x)))" */
  const GotoRegisterText := [Punct("("), Ident("l"), Punct("("), Token("GOTO", "goto"),
                             Punct("("), Token("REGISTER", "reg"), Ident("x"), Punct(")"), Punct(")"), Punct(")")]

  lemma GotoRegisterInstruction()
    ensures ParenInstructionAt(GotoRegisterText, 2) == Failure(NoSuchMethod("match"))
  {
  }

  /** A goto through a register never parses: `_goto_register` fails after its two matches. */
  lemma GotoRegisterExample()
    ensures ParseTokens(GotoRegisterText, [], map[]) == Failure(NoSuchMethod("match"))
  {
    GotoRegisterInstruction();
  }
}
