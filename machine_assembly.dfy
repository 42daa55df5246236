/** Loading a program into a machine: `update_instructions` and
    `assemble_machine`. */
module MachineAssembly {
  import opened Wrappers
  import opened LispParser
  import opened Instructions
  import opened Assembler
  import opened PythonVm

  /** `update_instructions`: walk the tokens from the last to the first,
      recording a label pointer at each marker and compiling every other
      token; the machine's label table is written as the loop goes, and the
      accumulated list (last instruction first) is installed only if no
      token raised. */
  method UpdateInstructions(toks: seq<InstToken>, m: Machine) returns (err: Option<VmError>)
    requires m.Valid()
    modifies m`labelPointers, m`instructionSequence
    ensures m.Valid() && m.registers == old(m.registers) && m.Contents() == old(m.Contents())
    ensures var a := Assemble(toks, m.Names(), m.ops, old(m.labelPointers));
      err == a.err && m.labelPointers == a.labels &&
      m.instructionSequence == (if a.err.None? then a.acc else old(m.instructionSequence))
  {
    var instructions: seq<Instr> := [];
    var i := |toks|;
    assert toks[|toks|..] == [];
    while i > 0
      invariant 0 <= i <= |toks| && m.Valid()
      invariant m.instructionSequence == old(m.instructionSequence)
      invariant Assemble(toks[i..], m.Names(), m.ops, old(m.labelPointers)) == Assembly(m.labelPointers, instructions, None)
    {
      i := i - 1;
      assert toks[i..][1..] == toks[i + 1..];
      var token := toks[i];
      if token.LabelToken? {
        m.labelPointers := m.labelPointers[token.labelName := Reverse(instructions)];
      } else {
        var compiled := CompileToken(token, m.Names(), m.ops, m.labelPointers);
        if compiled.Failure? {
          FailureStops(toks, i, m.Names(), m.ops, old(m.labelPointers));
          return Some(compiled.error);
        }
        instructions := instructions + [compiled.value];
      }
    }
    assert toks[0..] == toks;
    m.InstallInstructionSequence(instructions);
    return None;
  }

  /** The error `assemble_machine` raises: the parser's or the assembler's. */
  datatype AssembleError = Parse(parseError: ParseError) | Compile(vmError: VmError)

  /** `assemble_machine`: parse the tokens with a new parser, then load the
      instruction tokens it produced; the parser's own label table is not
      used. */
  method AssembleMachine(m: Machine, tokens: seq<Token>) returns (r: Option<AssembleError>)
    requires m.Valid()
    modifies m`labelPointers, m`instructionSequence
    ensures m.Valid() && m.registers == old(m.registers) && m.Contents() == old(m.Contents())
    ensures ParseTokens(tokens, [], map[]).Failure? ==>
      r == Some(Parse(ParseTokens(tokens, [], map[]).error)) && m.labelPointers == old(m.labelPointers) &&
      m.instructionSequence == old(m.instructionSequence)
    ensures ParseTokens(tokens, [], map[]).Success? ==>
      var a := Assemble(ParseTokens(tokens, [], map[]).value.instructions, m.Names(), m.ops, old(m.labelPointers));
      m.labelPointers == a.labels &&
      (a.err.None? ==> r.None? && m.instructionSequence == a.acc) &&
      (a.err.Some? ==> r == Some(Compile(a.err.value)) && m.instructionSequence == old(m.instructionSequence))
  {
    var p := new Parser();
    var parsed := p.Parse(tokens);
    if parsed.Failure? {
      return Some(Parse(parsed.error));
    }
    var err := UpdateInstructions(p.instructions, m);
    if err.Some? {
      return Some(Compile(err.value));
    }
    return None;
  }
}
