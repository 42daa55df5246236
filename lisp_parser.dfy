/** The recursive-descent front end of the register machine: it turns the
    lexer's token stream for text such as
      (bla (test (op =) (reg b) (const 0)) (branch (label done)) done)
    into the instruction-token IR (label markers and instruction tokens) and a
    table of label pointers.

    The parser's state is its cursor into the token stream, the list of
    instruction tokens it appends to, and the label-pointer table.  Each
    method of class Parser is specified by a pure function ("...At", "...From")
    of the tokens and the cursor; the error paths are Failure values where the
    source raises ParseError. */
module LispParser {
  import opened Wrappers
  import opened Numerals

  /** A token as the regex lexer delivers it: the name of the rule that
      matched (ASSIGN, IDENTIFIER, "(", ...) and the matched text.  The
      sentinel the source builds once the lexer runs dry, a token whose type
      and value are both None, is what KindAt and ValAt report past the end. */
  datatype Token = Token(kind: string, val: string)

  /** A constant as `_const` returns it: an int, a raw identifier, or None. */
  datatype Constant = CInt(n: int) | CStr(s: string) | CNone

  /** An instruction argument: a parenthesised primitive expression whose
      type is the text of its keyword token ("reg", "const", "label"), or the
      bare identifier strings that `_perform` collects. */
  datatype Arg = Prim(kind: string, value: Constant) | Bare(name: string)

  /** The instruction-token IR. */
  datatype InstToken =
    | AssignRegisterToken(target: string, source: string)
    | AssignConstToken(target: string, constant: Constant)
    | AssignOpToken(target: string, op: string, args: seq<Arg>)
    | AssignLabelToken(target: string, labelName: string)
    | PerformToken(op: string, args: seq<Arg>)
    | TestToken(op: string, args: seq<Arg>)
    | BranchToken(labelName: string)
    | GoToLabelToken(labelName: string)
    | GoToRegisterToken(register: string)
    | SaveToken(register: string)
    | RestoreToken(register: string)
    | LabelToken(labelName: string)

  /** The parser's `[instructions[l:], l]` pair for one label. */
  datatype LabelPointer = LabelPointer(insts: seq<InstToken>, index: nat)

  datatype ParseError =
    | Unmatched(expected: seq<string>, found: Option<string>)
    | UnknownToken(found: Option<string>, val: Option<string>)
    | BadNumber(text: string)
    | NoSuchMethod(name: string)

  datatype PState = PState(pos: nat, instructions: seq<InstToken>, labelPointers: map<string, LabelPointer>)

  /** A parsed value together with the cursor after it. */
  type Parsed<T> = Result<(T, nat), ParseError>

  // ---------------------------------------------------------------------
  // The current token

  function KindAt(toks: seq<Token>, pos: nat): Option<string> {
    if pos < |toks| then Some(toks[pos].kind) else None
  }

  function ValAt(toks: seq<Token>, pos: nat): Option<string> {
    if pos < |toks| then Some(toks[pos].val) else None
  }

  /** `_get_next_token`: once the lexer is exhausted it keeps yielding the sentinel. */
  function NextPos(toks: seq<Token>, pos: nat): nat {
    if pos < |toks| then pos + 1 else pos
  }

  // ---------------------------------------------------------------------
  // Specification of each parsing routine

  function MatchFromListAt(toks: seq<Token>, pos: nat, kinds: seq<string>): (r: Parsed<string>)
    requires pos <= |toks|
    ensures r.Success? ==> pos < r.value.1 <= |toks|
  {
    if pos < |toks| && toks[pos].kind in kinds then Success((toks[pos].val, NextPos(toks, pos)))
    else Failure(Unmatched(kinds, KindAt(toks, pos)))
  }

  function MatchAt(toks: seq<Token>, pos: nat, kind: string): (r: Parsed<string>)
    requires pos <= |toks|
    ensures r.Success? ==> pos < r.value.1 <= |toks|
  {
    if pos < |toks| && toks[pos].kind == kind then Success((toks[pos].val, NextPos(toks, pos)))
    else Failure(Unmatched([kind], KindAt(toks, pos)))
  }

  function ConstAt(toks: seq<Token>, pos: nat): (r: Parsed<Constant>)
    requires pos <= |toks|
    ensures r.Success? ==> pos <= r.value.1 <= |toks|
  {
    if KindAt(toks, pos) == Some("NUMBER") then
      var v :- MatchAt(toks, pos, "NUMBER");
      if IsDecimal(v.0) then Success((CInt(DecimalValue(v.0)), v.1)) else Failure(BadNumber(v.0))
    else if KindAt(toks, pos) == Some("IDENTIFIER") then
      var v :- MatchAt(toks, pos, "IDENTIFIER");
      Success((CStr(v.0), v.1))
    else
      Success((CNone, pos))
  }

  function PrimitiveExpAt(toks: seq<Token>, pos: nat): (r: Parsed<Arg>)
    requires pos <= |toks|
    ensures r.Success? ==> pos < r.value.1 <= |toks|
  {
    var arg :-
      if KindAt(toks, pos) == Some("CONST") then
        var t :- MatchAt(toks, pos, "CONST");
        var v :- ConstAt(toks, t.1);
        Success((Prim(t.0, v.0), v.1))
      else if KindAt(toks, pos) == Some("REGISTER") then
        var t :- MatchAt(toks, pos, "REGISTER");
        var v :- MatchAt(toks, t.1, "IDENTIFIER");
        Success((Prim(t.0, CStr(v.0)), v.1))
      else if KindAt(toks, pos) == Some("LABEL") then
        var t :- MatchAt(toks, pos, "LABEL");
        var v :- MatchAt(toks, t.1, "IDENTIFIER");
        Success((Prim(t.0, CStr(v.0)), v.1))
      else
        Failure(UnknownToken(KindAt(toks, pos), ValAt(toks, pos)));
    var close :- MatchAt(toks, arg.1, ")");
    Success((arg.0, close.1))
  }

  /** The argument loop of `_assign_op` and `_test`: parenthesised primitive
      expressions until the current token's value is ")". */
  function ArgsFrom(toks: seq<Token>, pos: nat, args: seq<Arg>): (r: Parsed<seq<Arg>>)
    requires pos <= |toks|
    ensures r.Success? ==> pos <= r.value.1 <= |toks|
    decreases |toks| - pos
  {
    if ValAt(toks, pos) == Some(")") then Success((args, pos))
    else
      var open :- MatchAt(toks, pos, "(");
      var arg :- PrimitiveExpAt(toks, open.1);
      ArgsFrom(toks, arg.1, args + [arg.0])
  }

  /** The argument loop of `_perform`: bare identifiers until ")". */
  function IdentifiersFrom(toks: seq<Token>, pos: nat, args: seq<Arg>): (r: Parsed<seq<Arg>>)
    requires pos <= |toks|
    ensures r.Success? ==> pos <= r.value.1 <= |toks|
    decreases |toks| - pos
  {
    if ValAt(toks, pos) == Some(")") then Success((args, pos))
    else
      var id :- MatchAt(toks, pos, "IDENTIFIER");
      IdentifiersFrom(toks, id.1, args + [Bare(id.0)])
  }

  function AssignRegAt(toks: seq<Token>, pos: nat): (r: Parsed<string>)
    requires pos <= |toks|
    ensures r.Success? ==> pos < r.value.1 <= |toks|
  {
    var kw :- MatchAt(toks, pos, "REGISTER");
    var name :- MatchAt(toks, kw.1, "IDENTIFIER");
    var close :- MatchAt(toks, name.1, ")");
    Success((name.0, close.1))
  }

  function AssignConstAt(toks: seq<Token>, pos: nat): (r: Parsed<Constant>)
    requires pos <= |toks|
    ensures r.Success? ==> pos < r.value.1 <= |toks|
  {
    var kw :- MatchAt(toks, pos, "CONST");
    var c :- ConstAt(toks, kw.1);
    var close :- MatchAt(toks, c.1, ")");
    Success((c.0, close.1))
  }

  function AssignOpAt(toks: seq<Token>, pos: nat): (r: Parsed<(string, seq<Arg>)>)
    requires pos <= |toks|
    ensures r.Success? ==> pos < r.value.1 <= |toks|
  {
    var kw :- MatchAt(toks, pos, "OP");
    var op :- MatchAt(toks, kw.1, "IDENTIFIER");
    var close :- MatchAt(toks, op.1, ")");
    var args :- ArgsFrom(toks, close.1, []);
    Success(((op.0, args.0), args.1))
  }

  function AssignLabelAt(toks: seq<Token>, pos: nat): (r: Parsed<string>)
    requires pos <= |toks|
    ensures r.Success? ==> pos < r.value.1 <= |toks|
  {
    var kw :- MatchAt(toks, pos, "LABEL");
    var name :- MatchAt(toks, kw.1, "IDENTIFIER");
    var close :- MatchAt(toks, name.1, ")");
    Success((name.0, close.1))
  }

  function AssignAt(toks: seq<Token>, pos: nat): (r: Parsed<InstToken>)
    requires pos <= |toks|
    ensures r.Success? ==> pos < r.value.1 <= |toks|
  {
    var kw :- MatchAt(toks, pos, "ASSIGN");
    var target :- MatchAt(toks, kw.1, "IDENTIFIER");
    var open :- MatchAt(toks, target.1, "(");
    var p := open.1;
    if KindAt(toks, p) == Some("REGISTER") then
      var s :- AssignRegAt(toks, p);
      Success((AssignRegisterToken(target.0, s.0), s.1))
    else if KindAt(toks, p) == Some("CONST") then
      var c :- AssignConstAt(toks, p);
      Success((AssignConstToken(target.0, c.0), c.1))
    else if KindAt(toks, p) == Some("OP") then
      var o :- AssignOpAt(toks, p);
      Success((AssignOpToken(target.0, o.0.0, o.0.1), o.1))
    else if KindAt(toks, p) == Some("LABEL") then
      var l :- AssignLabelAt(toks, p);
      Success((AssignLabelToken(target.0, l.0), l.1))
    else
      Failure(UnknownToken(KindAt(toks, p), ValAt(toks, p)))
  }

  function PerformAt(toks: seq<Token>, pos: nat): (r: Parsed<InstToken>)
    requires pos <= |toks|
    ensures r.Success? ==> pos < r.value.1 <= |toks|
  {
    var kw :- MatchAt(toks, pos, "PERFORM");
    var open :- MatchAt(toks, kw.1, "(");
    var opKw :- MatchAt(toks, open.1, "OP");
    var op :- MatchAt(toks, opKw.1, "IDENTIFIER");
    var close :- MatchAt(toks, op.1, ")");
    var args :- IdentifiersFrom(toks, close.1, []);
    Success((PerformToken(op.0, args.0), args.1))
  }

  function TestAt(toks: seq<Token>, pos: nat): (r: Parsed<InstToken>)
    requires pos <= |toks|
    ensures r.Success? ==> pos < r.value.1 <= |toks|
  {
    var kw :- MatchAt(toks, pos, "TEST");
    var open :- MatchAt(toks, kw.1, "(");
    var opKw :- MatchAt(toks, open.1, "OP");
    var op :- MatchFromListAt(toks, opKw.1, ["IDENTIFIER", "="]);
    var close :- MatchAt(toks, op.1, ")");
    var args :- ArgsFrom(toks, close.1, []);
    Success((TestToken(op.0, args.0), args.1))
  }

  function BranchAt(toks: seq<Token>, pos: nat): (r: Parsed<InstToken>)
    requires pos <= |toks|
    ensures r.Success? ==> pos < r.value.1 <= |toks|
  {
    var kw :- MatchAt(toks, pos, "BRANCH");
    var open :- MatchAt(toks, kw.1, "(");
    var lkw :- MatchAt(toks, open.1, "LABEL");
    var name :- MatchAt(toks, lkw.1, "IDENTIFIER");
    var close :- MatchAt(toks, name.1, ")");
    Success((BranchToken(name.0), close.1))
  }

  function GotoLabelAt(toks: seq<Token>, pos: nat): (r: Parsed<string>)
    requires pos <= |toks|
    ensures r.Success? ==> pos < r.value.1 <= |toks|
  {
    var kw :- MatchAt(toks, pos, "LABEL");
    var name :- MatchAt(toks, kw.1, "IDENTIFIER");
    var close :- MatchAt(toks, name.1, ")");
    Success((name.0, close.1))
  }

  /** `_goto_register` calls `self.match`, which Parser does not define: once
      its two matches succeed it fails with an AttributeError. */
  function GotoRegisterAt(toks: seq<Token>, pos: nat): (r: Parsed<string>)
    requires pos <= |toks|
    ensures r.Failure?
  {
    var kw :- MatchAt(toks, pos, "REGISTER");
    var reg :- MatchAt(toks, kw.1, "IDENTIFIER");
    Failure(NoSuchMethod("match"))
  }

  function GotoAt(toks: seq<Token>, pos: nat): (r: Parsed<InstToken>)
    requires pos <= |toks|
    ensures r.Success? ==> pos < r.value.1 <= |toks|
  {
    var kw :- MatchAt(toks, pos, "GOTO");
    var open :- MatchAt(toks, kw.1, "(");
    var p := open.1;
    if KindAt(toks, p) == Some("LABEL") then
      var l :- GotoLabelAt(toks, p);
      Success((GoToLabelToken(l.0), l.1))
    else if KindAt(toks, p) == Some("REGISTER") then
      // `_goto_register` never returns normally, so no GoToRegisterToken is built
      Failure(GotoRegisterAt(toks, p).error)
    else
      Failure(UnknownToken(KindAt(toks, p), ValAt(toks, p)))
  }

  function SaveAt(toks: seq<Token>, pos: nat): (r: Parsed<InstToken>)
    requires pos <= |toks|
    ensures r.Success? ==> pos < r.value.1 <= |toks|
  {
    var kw :- MatchAt(toks, pos, "SAVE");
    var reg :- MatchAt(toks, kw.1, "IDENTIFIER");
    Success((SaveToken(reg.0), reg.1))
  }

  function RestoreAt(toks: seq<Token>, pos: nat): (r: Parsed<InstToken>)
    requires pos <= |toks|
    ensures r.Success? ==> pos < r.value.1 <= |toks|
  {
    var kw :- MatchAt(toks, pos, "RESTORE");
    var reg :- MatchAt(toks, kw.1, "IDENTIFIER");
    Success((RestoreToken(reg.0), reg.1))
  }

  function InstructionAt(toks: seq<Token>, pos: nat): (r: Parsed<InstToken>)
    requires pos <= |toks|
    ensures r.Success? ==> pos < r.value.1 <= |toks| && !r.value.0.LabelToken?
  {
    var t := KindAt(toks, pos);
    if t == Some("ASSIGN") then AssignAt(toks, pos)
    else if t == Some("TEST") then TestAt(toks, pos)
    else if t == Some("PERFORM") then PerformAt(toks, pos)
    else if t == Some("BRANCH") then BranchAt(toks, pos)
    else if t == Some("GOTO") then GotoAt(toks, pos)
    else if t == Some("SAVE") then SaveAt(toks, pos)
    else if t == Some("RESTORE") then RestoreAt(toks, pos)
    else Failure(UnknownToken(t, ValAt(toks, pos)))
  }

  /** "(" instruction ")", the step `_controller` repeats. */
  function ParenInstructionAt(toks: seq<Token>, pos: nat): (r: Parsed<InstToken>)
    requires pos <= |toks|
    ensures r.Success? ==> pos < r.value.1 <= |toks| && !r.value.0.LabelToken?
  {
    var open :- MatchAt(toks, pos, "(");
    var ins :- InstructionAt(toks, open.1);
    var close :- MatchAt(toks, ins.1, ")");
    Success((ins.0, close.1))
  }

  /** The loop of `_controller`: parenthesised instructions until the next
      label (an IDENTIFIER) or the closing ")"; the instructions are appended
      to `insts`, never a label marker. */
  function BlockFrom(toks: seq<Token>, pos: nat, insts: seq<InstToken>): (r: Parsed<seq<InstToken>>)
    requires pos <= |toks|
    ensures r.Success? ==> pos <= r.value.1 <= |toks| && |insts| <= |r.value.0|
    decreases |toks| - pos
  {
    if KindAt(toks, pos) != Some("IDENTIFIER") && KindAt(toks, pos) != Some(")") then
      var ins :- ParenInstructionAt(toks, pos);
      BlockFrom(toks, ins.1, insts + [ins.0])
    else
      Success((insts, pos))
  }

  /** The body of a label that is not last: one parenthesised instruction,
      then as many more as `BlockFrom` takes. */
  function BlockAfterLabelAt(toks: seq<Token>, pos: nat, insts: seq<InstToken>): (r: Parsed<seq<InstToken>>)
    requires pos <= |toks|
    ensures r.Success? ==> pos < r.value.1 <= |toks| && |insts| < |r.value.0|
  {
    var ins :- ParenInstructionAt(toks, pos);
    BlockFrom(toks, ins.1, insts + [ins.0])
  }

  function ControllerAt(toks: seq<Token>, st: PState): (r: Result<PState, ParseError>)
    requires st.pos <= |toks|
    ensures r.Success? ==> st.pos < r.value.pos <= |toks|
  {
    var name :- MatchAt(toks, st.pos, "IDENTIFIER");
    var insts := st.instructions + [LabelToken(name.0)];
    if KindAt(toks, name.1) == Some(")") then
      var l := |insts|;
      Success(PState(name.1, insts, st.labelPointers[name.0 := LabelPointer(insts[l..], l)]))
    else
      var l := |insts|;
      var block :- BlockAfterLabelAt(toks, name.1, insts);
      Success(PState(block.1, block.0, st.labelPointers[name.0 := LabelPointer(block.0[l..], l)]))
  }

  /** The loop of `_top_level_controller`: controllers until ")". */
  function ControllersFrom(toks: seq<Token>, st: PState): (r: Result<PState, ParseError>)
    requires st.pos <= |toks|
    ensures r.Success? ==> st.pos <= r.value.pos <= |toks|
    decreases |toks| - st.pos
  {
    if KindAt(toks, st.pos) != Some(")") then
      var next :- ControllerAt(toks, st);
      ControllersFrom(toks, next)
    else
      Success(st)
  }

  function TopLevelAt(toks: seq<Token>, st: PState): (r: Result<PState, ParseError>)
    requires st.pos <= |toks|
    ensures r.Success? ==> st.pos < r.value.pos <= |toks|
  {
    var open :- MatchAt(toks, st.pos, "(");
    var first :- ControllerAt(toks, st.(pos := open.1));
    var all :- ControllersFrom(toks, first);
    var close :- MatchAt(toks, all.pos, ")");
    Success(all.(pos := close.1))
  }

  /** `parse`: the cursor starts on the first token; the instruction list and
      label table are the parser's own, so a second parse appends to them. */
  function ParseTokens(toks: seq<Token>, instructions: seq<InstToken>, labelPointers: map<string, LabelPointer>): Result<PState, ParseError> {
    TopLevelAt(toks, PState(0, instructions, labelPointers))
  }

  /** A method's result and cursor agree with a parsing function's. */
  predicate Agrees<T(==)>(r: Result<T, ParseError>, spec: Parsed<T>, pos: nat) {
    match spec
    case Success((v, p)) => r == Success(v) && pos == p
    case Failure(e) => r == Failure(e)
  }

  // ---------------------------------------------------------------------
  // The parser object

  class Parser {
    var toks: seq<Token>
    var pos: nat
    var instructions: seq<InstToken>
    var labelPointers: map<string, LabelPointer>

    ghost predicate Valid()
      reads this
    {
      pos <= |toks|
    }

    function State(): PState
      reads this
    {
      PState(pos, instructions, labelPointers)
    }

    function CurKind(): Option<string>
      reads this
    {
      KindAt(toks, pos)
    }

    function CurVal(): Option<string>
      reads this
    {
      ValAt(toks, pos)
    }

    constructor ()
      ensures Valid() && toks == [] && State() == PState(0, [], map[])
    {
      toks := [];
      pos := 0;
      instructions := [];
      labelPointers := map[];
    }

    /** `parse`: install the token stream, read its first token, and parse a
        top-level controller. */
    method Parse(tokens: seq<Token>) returns (r: Result<(), ParseError>)
      modifies this
      ensures Valid() && toks == tokens
      ensures r.Success? <==> ParseTokens(tokens, old(instructions), old(labelPointers)).Success?
      ensures r.Success? ==> State() == ParseTokens(tokens, old(instructions), old(labelPointers)).value
      ensures r.Failure? ==> r.error == ParseTokens(tokens, old(instructions), old(labelPointers)).error
    {
      toks := tokens;
      pos := 0;
      r := TopLevelController();
    }

    method GetNextToken()
      requires Valid()
      modifies this`pos
      ensures Valid() && pos == NextPos(toks, old(pos))
    {
      if pos < |toks| {
        pos := pos + 1;
      }
    }

    method MatchFromList(kinds: seq<string>) returns (r: Result<string, ParseError>)
      requires Valid()
      modifies this`pos
      ensures Valid()
      ensures old(CurKind()).Some? && old(CurKind()).value in kinds ==>
                r == Success(toks[old(pos)].val) && pos == old(pos) + 1
      ensures !(old(CurKind()).Some? && old(CurKind()).value in kinds) ==>
                r == Failure(Unmatched(kinds, old(CurKind()))) && pos == old(pos)
      ensures Agrees(r, MatchFromListAt(toks, old(pos), kinds), pos)
    {
      if pos < |toks| && toks[pos].kind in kinds {
        var val := toks[pos].val;
        GetNextToken();
        return Success(val);
      }
      return Failure(Unmatched(kinds, CurKind()));
    }

    method Match(kind: string) returns (r: Result<string, ParseError>)
      requires Valid()
      modifies this`pos
      ensures Valid()
      ensures old(CurKind()) == Some(kind) ==> r == Success(toks[old(pos)].val) && pos == old(pos) + 1
      ensures old(CurKind()) != Some(kind) ==> r == Failure(Unmatched([kind], old(CurKind()))) && pos == old(pos)
      ensures Agrees(r, MatchAt(toks, old(pos), kind), pos)
    {
      if pos < |toks| && toks[pos].kind == kind {
        var val := toks[pos].val;
        GetNextToken();
        return Success(val);
      }
      return Failure(Unmatched([kind], CurKind()));
    }

    method TopLevelController() returns (r: Result<(), ParseError>)
      requires Valid()
      modifies this`pos, this`instructions, this`labelPointers
      ensures Valid()
      ensures r.Success? <==> TopLevelAt(toks, old(State())).Success?
      ensures r.Success? ==> State() == TopLevelAt(toks, old(State())).value
      ensures r.Failure? ==> r.error == TopLevelAt(toks, old(State())).error
    {
      var open :- Match("(");
      var c :- Controller();
      ghost var first := State();
      while CurKind() != Some(")")
        invariant Valid() && first.pos <= pos
        invariant ControllersFrom(toks, State()) == ControllersFrom(toks, first)
        decreases |toks| - pos
      {
        c :- Controller();
      }
      var close := Match(")");
      return Success(());
    }

    method Controller() returns (r: Result<(), ParseError>)
      requires Valid()
      modifies this`pos, this`instructions, this`labelPointers
      ensures Valid()
      ensures r.Success? <==> ControllerAt(toks, old(State())).Success?
      ensures r.Success? ==> State() == ControllerAt(toks, old(State())).value
      ensures r.Failure? ==> r.error == ControllerAt(toks, old(State())).error
    {
      var name :- Match("IDENTIFIER");
      instructions := instructions + [LabelToken(name)];
      if CurKind() == Some(")") {
        var l := |instructions|;
        labelPointers := labelPointers[name := LabelPointer(instructions[l..], l)];
        return Success(());
      }
      var open :- Match("(");
      var l := |instructions|;
      var ins :- Instruction();
      instructions := instructions + [ins];
      var close :- Match(")");
      var block :- Block();
      labelPointers := labelPointers[name := LabelPointer(instructions[l..], l)];
      return Success(());
    }

    /** The instruction loop of `_controller`: it appends parenthesised
        instructions until the next label or the closing ")". */
    method Block() returns (r: Result<(), ParseError>)
      requires Valid()
      modifies this`pos, this`instructions
      ensures Valid()
      ensures r.Success? <==> BlockFrom(toks, old(pos), old(instructions)).Success?
      ensures r.Success? ==> (instructions, pos) == BlockFrom(toks, old(pos), old(instructions)).value
      ensures r.Failure? ==> r.error == BlockFrom(toks, old(pos), old(instructions)).error
    {
      while CurKind() != Some("IDENTIFIER") && CurKind() != Some(")")
        invariant Valid() && old(pos) <= pos
        invariant BlockFrom(toks, pos, instructions) == BlockFrom(toks, old(pos), old(instructions))
        decreases |toks| - pos
      {
        var open :- Match("(");
        var ins :- Instruction();
        instructions := instructions + [ins];
        var close :- Match(")");
      }
      return Success(());
    }

    method Instruction() returns (r: Result<InstToken, ParseError>)
      requires Valid()
      modifies this`pos
      ensures Valid()
      ensures Agrees(r, InstructionAt(toks, old(pos)), pos)
    {
      var t := CurKind();
      if t == Some("ASSIGN") {
        r := Assign();
      } else if t == Some("TEST") {
        r := Test();
      } else if t == Some("PERFORM") {
        r := Perform();
      } else if t == Some("BRANCH") {
        r := Branch();
      } else if t == Some("GOTO") {
        r := Goto();
      } else if t == Some("SAVE") {
        r := Save();
      } else if t == Some("RESTORE") {
        r := Restore();
      } else {
        r := Failure(UnknownToken(t, CurVal()));
      }
    }

    method Assign() returns (r: Result<InstToken, ParseError>)
      requires Valid()
      modifies this`pos
      ensures Valid()
      ensures Agrees(r, AssignAt(toks, old(pos)), pos)
    {
      var kw :- Match("ASSIGN");
      var target :- Match("IDENTIFIER");
      var open :- Match("(");
      if CurKind() == Some("REGISTER") {
        var source :- AssignReg();
        return Success(AssignRegisterToken(target, source));
      } else if CurKind() == Some("CONST") {
        var c :- AssignConst();
        return Success(AssignConstToken(target, c));
      } else if CurKind() == Some("OP") {
        var o :- AssignOp();
        return Success(AssignOpToken(target, o.0, o.1));
      } else if CurKind() == Some("LABEL") {
        var name :- AssignLabel();
        return Success(AssignLabelToken(target, name));
      }
      return Failure(UnknownToken(CurKind(), CurVal()));
    }

    method AssignReg() returns (r: Result<string, ParseError>)
      requires Valid()
      modifies this`pos
      ensures Valid()
      ensures Agrees(r, AssignRegAt(toks, old(pos)), pos)
    {
      var kw :- Match("REGISTER");
      var name :- Match("IDENTIFIER");
      var close :- Match(")");
      return Success(name);
    }

    method AssignConst() returns (r: Result<Constant, ParseError>)
      requires Valid()
      modifies this`pos
      ensures Valid()
      ensures Agrees(r, AssignConstAt(toks, old(pos)), pos)
    {
      var kw :- Match("CONST");
      var c :- Const();
      var close :- Match(")");
      return Success(c);
    }

    method AssignOp() returns (r: Result<(string, seq<Arg>), ParseError>)
      requires Valid()
      modifies this`pos
      ensures Valid()
      ensures Agrees(r, AssignOpAt(toks, old(pos)), pos)
    {
      var kw :- Match("OP");
      var op :- Match("IDENTIFIER");
      var close :- Match(")");
      var args :- Args();
      return Success((op, args));
    }

    /** The argument loop shared, in the source, by `_assign_op` and `_test`. */
    method Args() returns (r: Result<seq<Arg>, ParseError>)
      requires Valid()
      modifies this`pos
      ensures Valid()
      ensures Agrees(r, ArgsFrom(toks, old(pos), []), pos)
    {
      var args: seq<Arg> := [];
      while CurVal() != Some(")")
        invariant Valid() && old(pos) <= pos
        invariant ArgsFrom(toks, pos, args) == ArgsFrom(toks, old(pos), [])
        decreases |toks| - pos
      {
        var open :- Match("(");
        var arg :- PrimitiveExp();
        args := args + [arg];
      }
      return Success(args);
    }

    method AssignLabel() returns (r: Result<string, ParseError>)
      requires Valid()
      modifies this`pos
      ensures Valid()
      ensures Agrees(r, AssignLabelAt(toks, old(pos)), pos)
    {
      var kw :- Match("LABEL");
      var name :- Match("IDENTIFIER");
      var close :- Match(")");
      return Success(name);
    }

    method Perform() returns (r: Result<InstToken, ParseError>)
      requires Valid()
      modifies this`pos
      ensures Valid()
      ensures Agrees(r, PerformAt(toks, old(pos)), pos)
    {
      var kw :- Match("PERFORM");
      var open :- Match("(");
      var opKw :- Match("OP");
      var op :- Match("IDENTIFIER");
      var close :- Match(")");
      ghost var start := pos;
      var args: seq<Arg> := [];
      while CurVal() != Some(")")
        invariant Valid() && start <= pos
        invariant IdentifiersFrom(toks, pos, args) == IdentifiersFrom(toks, start, [])
        decreases |toks| - pos
      {
        var id :- Match("IDENTIFIER");
        args := args + [Bare(id)];
      }
      return Success(PerformToken(op, args));
    }

    method Test() returns (r: Result<InstToken, ParseError>)
      requires Valid()
      modifies this`pos
      ensures Valid()
      ensures Agrees(r, TestAt(toks, old(pos)), pos)
    {
      var kw :- Match("TEST");
      var open :- Match("(");
      var opKw :- Match("OP");
      var op :- MatchFromList(["IDENTIFIER", "="]);
      var close :- Match(")");
      var args :- Args();
      return Success(TestToken(op, args));
    }

    method Branch() returns (r: Result<InstToken, ParseError>)
      requires Valid()
      modifies this`pos
      ensures Valid()
      ensures Agrees(r, BranchAt(toks, old(pos)), pos)
    {
      var kw :- Match("BRANCH");
      var open :- Match("(");
      var lkw :- Match("LABEL");
      var name :- Match("IDENTIFIER");
      var close :- Match(")");
      return Success(BranchToken(name));
    }

    method Goto() returns (r: Result<InstToken, ParseError>)
      requires Valid()
      modifies this`pos
      ensures Valid()
      ensures Agrees(r, GotoAt(toks, old(pos)), pos)
    {
      var kw :- Match("GOTO");
      var open :- Match("(");
      if CurKind() == Some("LABEL") {
        var name :- GotoLabel();
        return Success(GoToLabelToken(name));
      } else if CurKind() == Some("REGISTER") {
        // `_goto_register` never returns normally, so no GoToRegisterToken is built
        var g := GotoRegister();
        return Failure(g.error);
      }
      return Failure(UnknownToken(CurKind(), CurVal()));
    }

    method GotoLabel() returns (r: Result<string, ParseError>)
      requires Valid()
      modifies this`pos
      ensures Valid()
      ensures Agrees(r, GotoLabelAt(toks, old(pos)), pos)
    {
      var kw :- Match("LABEL");
      var name :- Match("IDENTIFIER");
      var close :- Match(")");
      return Success(name);
    }

    method GotoRegister() returns (r: Result<string, ParseError>)
      requires Valid()
      modifies this`pos
      ensures Valid()
      ensures r.Failure?
      ensures Agrees(r, GotoRegisterAt(toks, old(pos)), pos)
    {
      var kw :- Match("REGISTER");
      var reg :- Match("IDENTIFIER");
      return Failure(NoSuchMethod("match"));
    }

    method PrimitiveExp() returns (r: Result<Arg, ParseError>)
      requires Valid()
      modifies this`pos
      ensures Valid()
      ensures Agrees(r, PrimitiveExpAt(toks, old(pos)), pos)
    {
      var arg: Arg;
      if CurKind() == Some("CONST") {
        var t := Match("CONST");
        var v :- Const();
        arg := Prim(t.value, v);
      } else if CurKind() == Some("REGISTER") {
        var t := Match("REGISTER");
        var v :- Match("IDENTIFIER");
        arg := Prim(t.value, CStr(v));
      } else if CurKind() == Some("LABEL") {
        var t := Match("LABEL");
        var v :- Match("IDENTIFIER");
        arg := Prim(t.value, CStr(v));
      } else {
        return Failure(UnknownToken(CurKind(), CurVal()));
      }
      var close :- Match(")");
      return Success(arg);
    }

    method Const() returns (r: Result<Constant, ParseError>)
      requires Valid()
      modifies this`pos
      ensures Valid()
      ensures Agrees(r, ConstAt(toks, old(pos)), pos)
    {
      if CurKind() == Some("NUMBER") {
        var v := Match("NUMBER");
        if !IsDecimal(v.value) {
          return Failure(BadNumber(v.value));
        }
        return Success(CInt(DecimalValue(v.value)));
      } else if CurKind() == Some("IDENTIFIER") {
        var v := Match("IDENTIFIER");
        return Success(CStr(v.value));
      }
      return Success(CNone);
    }

    method Save() returns (r: Result<InstToken, ParseError>)
      requires Valid()
      modifies this`pos
      ensures Valid()
      ensures Agrees(r, SaveAt(toks, old(pos)), pos)
    {
      var kw :- Match("SAVE");
      var reg :- Match("IDENTIFIER");
      return Success(SaveToken(reg));
    }

    method Restore() returns (r: Result<InstToken, ParseError>)
      requires Valid()
      modifies this`pos
      ensures Valid()
      ensures Agrees(r, RestoreAt(toks, old(pos)), pos)
    {
      var kw :- Match("RESTORE");
      var reg :- Match("IDENTIFIER");
      return Success(RestoreToken(reg));
    }
  }
}
