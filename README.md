# Register-machine simulator and list-interpreter lexer, in Dafny

This project models two small language tools.

The first is a simulator for the register machines of *Structure and
Interpretation of Computer Programs*, written in Python.
- A recursive-descent parser (`lisp_parser.py`) turns a controller text into
  an instruction-token list. The list holds a label marker for every label,
  and the parser keeps a table of label pointers.
- An assembler (`update_instructions` in `instructions.py`) walks that list
  from the back. It compiles each instruction token against the machine's
  registers, op table and the labels it has seen so far. It records each
  label's pointer as the instructions that follow the label.
- The runtime (`python_vm.py`) holds registers, a stack and the machine. Its
  `execute` loop calls the head of the `pc` register until `pc` is empty.

The second is the lexer of a Go S-expression interpreter (`lexer.go`). It is
a `Lexer` object whose fields move through the program text one character,
one run or one token at a time.

## How the model is organised

- `Wrappers`: Option and Result.
- `Numerals`: decimal digit strings and their values. The parser's `int(...)`
  and Go's `strconv.Atoi` both use it.
- `LispParser` (`lisp_parser.dfy`): the token and instruction-token
  datatypes and the class `Parser`.
  - Each parsing method is proved equal to a pure function of the token list
    and the cursor (`AssignAt`, `BlockFrom`, `TopLevelAt`, ...).
  - `ParseError` values stand where the source raises.
  - `LispParserFacts` holds the lemmas about those functions. The central one
    is that every label pointer `[instructions[l:], l]` is exactly that
    label's block, right after its marker. It also holds the test cases of
    `test_lisp_parser.py`.
- `Instructions`: the compiled instruction datatype and the compiler.
  - The closures of the source become `Instr` values. A value names its
    registers by their index in the machine's register list, where `pc` is 0
    and `flag` is 1.
  - `CompileToken` models the `make_*` builders. `Step` models the closure
    bodies. `Run` models the `execute` loop, bounded by fuel.
  - Python's `==`, `%` and truthiness are written out, including floor
    modulo for negative divisors.
- `InstructionFacts`: the effect of each instruction on the registers, and
  what a run guarantees when it stops.
- `Assembler`: `Assemble`, the value `update_instructions` computes from a
  token list, and the lemmas about label pointers.
- `PythonVm`: the classes `Register`, `Stack` and `Machine`.
  - Their methods update fields in place.
  - `Machine.Execute` and `Machine.Start` are proved to produce `Run`'s
    result.
- `MachineAssembly`: the imperative `update_instructions` loop over a
  `Machine`, proved to produce `Assemble`'s result, and `assemble_machine`.
- `GcdMachine`: the GCD machine of `test_python_vm.py`.
  - Its controller text, as the token stream the lexer rules give, is proved
    to parse to the instruction-token list, label by label and instruction by
    instruction; `assemble_machine` then loads that list into the machine.
  - It is assembled instruction by instruction.
  - It is proved to halt with `a` holding Euclid's result for every pair of
    start values, given enough fuel.
  - With a = 21 and b = 343 that result is 7.
- `GoLexer`: the Go `Lexer` class.
  - `LexToken`, `lexNumber`, `lexIdentifier` and `Lex` are loops and field
    updates, proved against the pure `ScanToken` and `LexFrom`.
  - `LexStops` and `LexLines` state what those functions guarantee.
  - The test program `(if (= 2 2) 23 42)` of `lexer_test.go` lexes to its
    ten tokens.

Behaviour of the source that looks unintended is modelled as written:
- The assembler installs the instruction list last-instruction-first.
- A taken branch skips its target's first instruction.
- `save` and `restore` always raise.
- The parser's argument type `"label"` never matches the compiler's
  `"LABEL"`.
- `_perform`'s bare identifiers cannot be compiled.
- `_goto_register` always fails, because it calls the missing `self.match`.
- Go's `Lex` appends its EOF token only when lexing stopped on an error.

## Model

| member | source | states |
|---|---|---|
| Numerals.DigitValue | python_vm/lisp_parser.py:425-427 | a decimal digit's value is below ten |
| Numerals.DigitChar | python_vm/lisp_parser.py:425-427 | the digit written for d < 10 reads back as d |
| Numerals.NatToDecimal | python_vm/lisp_parser.py:425-427 | the decimal spelling of a natural is a digit run without a leading zero |
| Numerals.IntToDecimal | python_vm/lisp_parser.py:425-427 | the spelling of any int is non-empty |
| Numerals.DecimalRoundTrip | python_vm/lisp_parser.py:425-427 | reading back the decimal spelling of n gives n (`int(str(n)) == n`) |
| LispParser.MatchFromListAt | python_vm/lisp_parser.py:210-223 | a match consumes exactly one token |
| LispParser.MatchAt | python_vm/lisp_parser.py:226-239 | a match consumes exactly one token |
| LispParser.ConstAt | python_vm/lisp_parser.py:424-430 | `_const` never moves the cursor past the end |
| LispParser.PrimitiveExpAt | python_vm/lisp_parser.py:409-422 | a primitive expression consumes at least one token |
| LispParser.ArgsFrom | python_vm/lisp_parser.py:335-340 | the argument loop stays inside the token list |
| LispParser.IdentifiersFrom | python_vm/lisp_parser.py:356-359 | `_perform`'s argument loop stays inside the token list |
| LispParser.AssignRegAt | python_vm/lisp_parser.py:318-322 | `(reg r)` consumes tokens and stays in bounds |
| LispParser.AssignConstAt | python_vm/lisp_parser.py:325-329 | `(const c)` consumes tokens and stays in bounds |
| LispParser.AssignOpAt | python_vm/lisp_parser.py:331-340 | `(op o) args` consumes tokens and stays in bounds |
| LispParser.AssignLabelAt | python_vm/lisp_parser.py:343-347 | `(label l)` consumes tokens and stays in bounds |
| LispParser.AssignAt | python_vm/lisp_parser.py:298-315 | an assign consumes tokens and stays in bounds |
| LispParser.PerformAt | python_vm/lisp_parser.py:350-360 | a perform consumes tokens and stays in bounds |
| LispParser.TestAt | python_vm/lisp_parser.py:363-374 | a test consumes tokens and stays in bounds |
| LispParser.BranchAt | python_vm/lisp_parser.py:377-383 | a branch consumes tokens and stays in bounds |
| LispParser.GotoLabelAt | python_vm/lisp_parser.py:397-401 | `(label l)` after goto consumes tokens and stays in bounds |
| LispParser.GotoRegisterAt | python_vm/lisp_parser.py:403-407 | `_goto_register` never succeeds, because it calls the missing `self.match` |
| LispParser.GotoAt | python_vm/lisp_parser.py:385-395 | a goto consumes tokens and stays in bounds |
| LispParser.SaveAt | python_vm/lisp_parser.py:433-436 | a save consumes tokens and stays in bounds |
| LispParser.RestoreAt | python_vm/lisp_parser.py:439-442 | a restore consumes tokens and stays in bounds |
| LispParser.InstructionAt | python_vm/lisp_parser.py:279-296 | a parsed instruction is never a label marker |
| LispParser.ParenInstructionAt | python_vm/lisp_parser.py:273-276 | a parenthesised instruction is never a label marker |
| LispParser.BlockFrom | python_vm/lisp_parser.py:272-276 | the block loop only lengthens the instruction list |
| LispParser.BlockAfterLabelAt | python_vm/lisp_parser.py:267-276 | a label that is not last adds at least one instruction |
| LispParser.ControllerAt | python_vm/lisp_parser.py:260-277 | a controller consumes at least its label |
| LispParser.ControllersFrom | python_vm/lisp_parser.py:255-256 | the controller loop stays inside the token list |
| LispParser.TopLevelAt | python_vm/lisp_parser.py:252-257 | a program consumes at least its opening parenthesis |
| LispParser.Parser.constructor | python_vm/lisp_parser.py:160-200 | a new parser has no tokens, an empty instruction list and an empty label table |
| LispParser.Parser.Parse | python_vm/lisp_parser.py:202-205 | `parse` succeeds exactly when `ParseTokens` does, leaves its state and returns its error |
| LispParser.Parser.GetNextToken | python_vm/lisp_parser.py:242-249 | the cursor moves one token on, or stays on the end sentinel |
| LispParser.Parser.MatchFromList | python_vm/lisp_parser.py:210-223 | returns the current value and advances iff the kind is in the list; otherwise fails with the expected kinds and the kind found |
| LispParser.Parser.Match | python_vm/lisp_parser.py:226-239 | the same for a single kind |
| LispParser.Parser.TopLevelController | python_vm/lisp_parser.py:252-257 | agrees with `TopLevelAt`, error included |
| LispParser.Parser.Controller | python_vm/lisp_parser.py:260-277 | agrees with `ControllerAt`, error included |
| LispParser.Parser.Block | python_vm/lisp_parser.py:272-276 | agrees with `BlockFrom`, error included |
| LispParser.Parser.Instruction | python_vm/lisp_parser.py:279-296 | agrees with `InstructionAt` in result and cursor |
| LispParser.Parser.Assign | python_vm/lisp_parser.py:298-315 | agrees with `AssignAt` |
| LispParser.Parser.AssignReg | python_vm/lisp_parser.py:318-322 | agrees with `AssignRegAt` |
| LispParser.Parser.AssignConst | python_vm/lisp_parser.py:325-329 | agrees with `AssignConstAt` |
| LispParser.Parser.AssignOp | python_vm/lisp_parser.py:331-340 | agrees with `AssignOpAt` |
| LispParser.Parser.Args | python_vm/lisp_parser.py:335-340 | agrees with `ArgsFrom` |
| LispParser.Parser.AssignLabel | python_vm/lisp_parser.py:343-347 | agrees with `AssignLabelAt` |
| LispParser.Parser.Perform | python_vm/lisp_parser.py:350-360 | agrees with `PerformAt` |
| LispParser.Parser.Test | python_vm/lisp_parser.py:363-374 | agrees with `TestAt` |
| LispParser.Parser.Branch | python_vm/lisp_parser.py:377-383 | agrees with `BranchAt` |
| LispParser.Parser.Goto | python_vm/lisp_parser.py:385-395 | agrees with `GotoAt` |
| LispParser.Parser.GotoLabel | python_vm/lisp_parser.py:397-401 | agrees with `GotoLabelAt` |
| LispParser.Parser.GotoRegister | python_vm/lisp_parser.py:403-407 | always fails, as `GotoRegisterAt` does |
| LispParser.Parser.PrimitiveExp | python_vm/lisp_parser.py:409-422 | agrees with `PrimitiveExpAt` |
| LispParser.Parser.Const | python_vm/lisp_parser.py:424-430 | agrees with `ConstAt` |
| LispParser.Parser.Save | python_vm/lisp_parser.py:433-436 | agrees with `SaveAt` |
| LispParser.Parser.Restore | python_vm/lisp_parser.py:439-442 | agrees with `RestoreAt` |
| LispParserFacts.MatchIsSingletonList | python_vm/lisp_parser.py:210-239 | `_match(t)` behaves as `_match_from_list([t])` |
| LispParserFacts.ConstKinds | python_vm/lisp_parser.py:424-430 | NUMBER gives its int, IDENTIFIER its text, any other token None without consuming it |
| LispParserFacts.InstructionKeywords | python_vm/lisp_parser.py:279-296 | an instruction parses only from one of the seven keywords; any other token is "unknown token" |
| LispParserFacts.AssignUnknownSource | python_vm/lisp_parser.py:298-315 | an assign source other than reg/const/op/label is rejected with that token |
| LispParserFacts.BlockFromExtends | python_vm/lisp_parser.py:272-276 | the block loop keeps what was there and appends no label marker |
| LispParserFacts.BlockAfterLabelExtends | python_vm/lisp_parser.py:267-276 | the same for a label's whole body |
| LispParserFacts.ControllerAdds | python_vm/lisp_parser.py:260-277 | a controller appends its marker and its block, and records the block's pointer |
| LispParserFacts.ControllerAddsEmpty | python_vm/lisp_parser.py:263-266 | a label before ")" gets an empty slice at the next index |
| LispParserFacts.ControllerAddsBlock | python_vm/lisp_parser.py:267-277 | a label with a body points at the instructions after its marker |
| LispParserFacts.AddsControllerPrefix | python_vm/lisp_parser.py:260-262 | a controller keeps the earlier instructions and puts its marker next |
| LispParserFacts.AddsControllerKeepsPointers | python_vm/lisp_parser.py:260-277 | adding a controller keeps every pointer valid |
| LispParserFacts.ControllerShape | python_vm/lisp_parser.py:260-262 | one controller extends the list, starting with its label's marker |
| LispParserFacts.ControllerKeepsPointers | python_vm/lisp_parser.py:260-277 | one controller keeps the pointer invariant |
| LispParserFacts.ControllersKeepPrefix | python_vm/lisp_parser.py:255-256 | the controller loop only appends |
| LispParserFacts.ControllersKeepPointers | python_vm/lisp_parser.py:255-256 | the controller loop keeps the pointer invariant |
| LispParserFacts.TopLevelParts | python_vm/lisp_parser.py:252-257 | a program is "(", a controller, more controllers and ")", the last token consumed |
| LispParserFacts.TopLevelKeepsPointers | python_vm/lisp_parser.py:252-257 | a whole program keeps the invariant and what was parsed before |
| LispParserFacts.TopLevelShape | python_vm/lisp_parser.py:252-262 | the first thing a program appends is a label marker |
| LispParserFacts.ParsedPointersMarkBlocks | python_vm/lisp_parser.py:260-277 | after a fresh parse each label's `[slice, l]` is exactly its block right after its marker, every marker has an entry, and the list starts with a marker |
| LispParserFacts.AssignRegisterInstruction | python_vm/test_lisp_parser.py:11-18 | `(assign t (reg a))` parses to an assign-register token t ← a |
| LispParserFacts.AssignRegisterExample | python_vm/test_lisp_parser.py:11-18 | the program gives two instructions, the second assigning t from a |
| LispParserFacts.AssignLabelInstruction | python_vm/test_lisp_parser.py:20-27 | `(assign t (label ha))` parses to an assign-label token |
| LispParserFacts.AssignLabelExample | python_vm/test_lisp_parser.py:20-27 | the program gives two instructions, the second assigning label ha to t |
| LispParserFacts.AssignConstInstruction | python_vm/test_lisp_parser.py:29-36 | `(assign t (const ha))` parses to an assign-constant token with the text "ha" |
| LispParserFacts.AssignConstExample | python_vm/test_lisp_parser.py:29-36 | the program gives two instructions, the second assigning the constant "ha" |
| LispParserFacts.TestConstant | python_vm/test_lisp_parser.py:38-49 | `(const 0)` reads the int 0 |
| LispParserFacts.TestArguments | python_vm/test_lisp_parser.py:38-49 | the test's arguments are ("reg", "b") and ("const", 0), in that order |
| LispParserFacts.TestInstruction | python_vm/test_lisp_parser.py:38-49 | `(test (op =) (reg b) (const 0))` parses to a test token whose op is "=" and whose arguments are b and 0 |
| LispParserFacts.TestExample | python_vm/test_lisp_parser.py:38-49 | the whole program parses to the marker bla and that test token |
| LispParserFacts.BranchInstruction | python_vm/test_lisp_parser.py:56-59 | `(branch (label haha))` parses to a branch token |
| LispParserFacts.BranchExample | python_vm/test_lisp_parser.py:56-59 | the instructions are the marker bla and the branch, and bla points at the branch |
| LispParserFacts.EmptyBlockExample | python_vm/lisp_parser.py:263-266 | `(a)` gives the marker a with an empty slice at index 1 |
| LispParserFacts.ConsecutiveLabelsExample | python_vm/lisp_parser.py:263-267 | `(a b)` fails on b: after a label only ")" or "(" may follow |
| LispParserFacts.GotoRegisterInstruction | python_vm/lisp_parser.py:403-407 | a goto through a register fails on the missing `match` method |
| LispParserFacts.GotoRegisterExample | python_vm/lisp_parser.py:403-407 | so does the whole program |
| LispParserFacts.RegArgAt | python_vm/lisp_parser.py:409-422 | wherever `(reg r)` sits, the argument loop reads it as the pair ("reg", r) and goes on four tokens later |
| LispParserFacts.ZeroArgAt | python_vm/lisp_parser.py:409-430 | `(const 0)` is read as the pair ("const", 0) |
| LispParserFacts.ArgsEndAt | python_vm/lisp_parser.py:336 | the argument loop stops at ")" with what it has read |
| LispParserFacts.RegZeroArgsAt | python_vm/lisp_parser.py:370-374 | `(reg r) (const 0))` gives the two arguments in order and stops at the ")" |
| LispParserFacts.RegRegArgsAt | python_vm/lisp_parser.py:336-340 | `(reg x) (reg y))` gives the two register arguments in order |
| LispParserFacts.TestShapeAt | python_vm/lisp_parser.py:363-374 | `(test (op o) args)` with o an identifier or "=" is one test token, ending after its ")" |
| LispParserFacts.AssignOpArgsAt | python_vm/lisp_parser.py:331-341 | `(op o)` and its arguments after a target give the op name and the argument list |
| LispParserFacts.AssignOpShapeAt | python_vm/lisp_parser.py:298-315 | `(assign t (op o) args)` is one assign-op token |
| LispParserFacts.AssignRegShapeAt | python_vm/lisp_parser.py:298-323 | `(assign t (reg s))` is one assign-register token, eight tokens long |
| LispParserFacts.BranchLabelAt | python_vm/lisp_parser.py:377-383 | `(branch (label l))` is one branch token, seven tokens long |
| LispParserFacts.GotoLabelShapeAt | python_vm/lisp_parser.py:385-401 | `(goto (label l))` is one goto-label token, seven tokens long |
| LispParserFacts.BlockStepAt | python_vm/lisp_parser.py:272-276 | a parenthesised instruction inside a block is appended and the loop goes on after it |
| Instructions.IndexOf | python_vm/python_vm.py:59-63 | returns the first position holding the name, and None iff the name is absent |
| Instructions.LookupRegister | python_vm/python_vm.py:59-63 | finds the named register, and fails with "unknown register" iff the name is absent |
| Instructions.CompilePrim | python_vm/instructions.py:155-164 | a compiled primitive only names registers that exist |
| Instructions.CompileArgs | python_vm/instructions.py:144-146 | one compiled primitive per argument, in order |
| Instructions.CompileOperation | python_vm/instructions.py:142-146 | the op is looked up first and an unknown op fails; the arguments compile against the registers |
| Instructions.CompileToken | python_vm/instructions.py:27-51 | a compiled instruction only names existing registers; a label marker is not an instruction type |
| Instructions.PyMod | python_vm/test_python_vm.py:7 | Python's `%`: the remainder lies between 0 and the divisor and has the divisor's sign, and `a == (a // b) * b + r` with `//` rounding toward minus infinity |
| Instructions.PyModSigns | python_vm/test_python_vm.py:7 | on the four sign combinations of 5 and 3 the remainder takes the divisor's sign: 2, -1, 1 and -2 |
| Instructions.PyRem | python_vm/test_python_vm.py:7 | a successful `rem` yields an int |
| Instructions.EvalArgs | python_vm/instructions.py:147-150 | one value per argument |
| Instructions.AdvancePcKeepsWf | python_vm/instructions.py:166-167 | `advance_pc` keeps the register file well formed and its size |
| Instructions.EvalKeepsWf | python_vm/instructions.py:147-151 | an operation's result names no missing register |
| Instructions.StepKeepsWf | python_vm/instructions.py:55-140 | running any instruction keeps the register count and well-formedness |
| InstructionFacts.NonJumpAdvances | python_vm/instructions.py:55-101 | a non-jumping instruction that does not raise drops the head of `pc`; one that raises changes nothing; save and restore always raise |
| InstructionFacts.AssignRegisterEffect | python_vm/instructions.py:55-61 | t gets s's contents, `pc` advances, nothing else changes |
| InstructionFacts.AssignConstantEffect | python_vm/instructions.py:63-69 | t gets the constant's value, `pc` advances |
| InstructionFacts.TestEffect | python_vm/instructions.py:95-101 | `flag` gets the op's result and `pc` advances, or the exception leaves the registers unchanged |
| InstructionFacts.BranchEffect | python_vm/instructions.py:103-113 | a false flag only advances; a true flag sets `pc` to the target without its first instruction |
| InstructionFacts.GotoLabelEffect | python_vm/instructions.py:115-119 | `pc` becomes the label's current pointer; an unknown label raises |
| InstructionFacts.GotoRegisterEffect | python_vm/instructions.py:121-126 | `pc` gets the register's contents |
| InstructionFacts.CompiledPrimMeaning | python_vm/instructions.py:155-164 | a compiled constant yields its value, a register its contents at run time, a label its pointer |
| InstructionFacts.RunOneStep | python_vm/python_vm.py:76-80 | one turn of `execute` hands the rest of the run the registers the instruction produced |
| InstructionFacts.HaltedPcEmpty | python_vm/python_vm.py:76-80 | `execute` returns normally only with an empty `pc` |
| InstructionFacts.MoreFuel | python_vm/python_vm.py:76-80 | more fuel does not change a run that stopped by itself |
| InstructionFacts.RunKeepsWf | python_vm/python_vm.py:76-80 | running keeps the register count and well-formedness |
| Assembler.Reverse | python_vm/instructions.py:16 | `[::-1]`: same length, element k is element n-1-k |
| Assembler.Assemble | python_vm/instructions.py:6-21 | the label table and the instructions name only existing registers |
| Assembler.AssembleMarker | python_vm/instructions.py:15-16 | a marker records the reversed instructions compiled so far and compiles nothing |
| Assembler.AssembleCompiled | python_vm/instructions.py:17-19 | an instruction token appends its compiled instruction |
| Assembler.NonLabelCount | python_vm/instructions.py:13-20 | the count of instruction tokens is at most the token count |
| Assembler.AssembleCount | python_vm/instructions.py:13-20 | each token that is not a marker yields exactly one instruction |
| Assembler.SuffixAssembled | python_vm/instructions.py:13-19 | the instructions of a suffix are the first ones the whole loop produces |
| Assembler.FailureStops | python_vm/instructions.py:18 | once a token raises, the result is that of the suffix that raised |
| Assembler.AssembledInstruction | python_vm/instructions.py:17-19 | each instruction token is compiled against the label table as it stood after the later tokens |
| Assembler.UnmarkedLabelKept | python_vm/instructions.py:15-16 | a label without a marker keeps its old entry |
| Assembler.LabelPointsAfterMarker | python_vm/instructions.py:15-16 | a label's pointer is, in program order, the instructions after its first marker |
| Assembler.LabelIsProgramSuffix | python_vm/instructions.py:13-21 | a label's pointer is a suffix of the program, as long as the instruction count after the marker |
| Assembler.BranchToUnknownLabelFails | python_vm/instructions.py:103-105 | a branch to a label not marked after it, and not known before, makes assembly fail |
| PythonVm.Register.constructor | python_vm/python_vm.py:6-8 | a new register has its name and holds None |
| PythonVm.Register.GetContents | python_vm/python_vm.py:10-11 | returns the contents |
| PythonVm.Register.SetContents | python_vm/python_vm.py:13-14 | replaces the contents |
| PythonVm.Stack.constructor | python_vm/python_vm.py:18-19 | a new stack is empty |
| PythonVm.Stack.Push | python_vm/python_vm.py:21-22 | appends the value on top |
| PythonVm.Stack.Pop | python_vm/python_vm.py:24-27 | an empty stack yields None and stays empty; otherwise returns the top and removes it |
| PythonVm.Stack.Initialise | python_vm/python_vm.py:29-30 | empties the stack |
| PythonVm.PushThenPop | python_vm/python_vm.py:21-27 | push then pop returns the value pushed and restores the stack |
| PythonVm.Machine.constructor | python_vm/python_vm.py:40-47 | registers `pc` and `flag`, both None; empty stack, op table, labels and instruction sequence |
| PythonVm.Machine.InstallInstructionSequence | python_vm/python_vm.py:49-50 | the installed sequence is the one given |
| PythonVm.Machine.AllocateRegister | python_vm/python_vm.py:52-57 | a taken name raises "multiply defined" and changes nothing; a new name appends a fresh register holding None |
| PythonVm.Machine.LookupRegister | python_vm/python_vm.py:59-63 | returns the first register with the name, and raises "unknown register" iff there is none |
| PythonVm.Machine.Write | python_vm/python_vm.py:13-14 | writing one register leaves the others' contents unchanged |
| PythonVm.Machine.SetRegisterValue | python_vm/python_vm.py:65-67 | the named register gets the value; an unknown name raises and changes nothing |
| PythonVm.Machine.GetRegisterValue | python_vm/python_vm.py:69-71 | returns the named register's contents, or the unknown-register error |
| PythonVm.Machine.InstallOperations | python_vm/python_vm.py:73-74 | `dict.update`: new entries win, the others stay |
| PythonVm.Machine.AdvancePcRegister | python_vm/instructions.py:166-167 | the machine's registers become those of `advance_pc` |
| PythonVm.Machine.RunInstruction | python_vm/instructions.py:55-140 | calling a compiled instruction leaves the registers and error that `Step` gives |
| PythonVm.Machine.Execute | python_vm/python_vm.py:76-80 | the loop ends with `Run`'s outcome, and the registers hold its registers |
| PythonVm.Machine.Start | python_vm/python_vm.py:82-84 | `pc` gets the installed sequence, then the outcome is `Run`'s from there |
| PythonVm.AllocateRegisters | python_vm/python_vm.py:95-96 | succeeds iff all names are new and distinct, appending them in order, all None; otherwise raises on a duplicate name |
| PythonVm.MakeMachine | python_vm/python_vm.py:93-98 | a fresh machine with registers pc, flag and the names, all None, and the given ops; a duplicate name raises |
| MachineAssembly.UpdateInstructions | python_vm/instructions.py:6-21 | the machine's labels and instruction sequence become `Assemble`'s; on an error the sequence is not installed; register contents are unchanged |
| MachineAssembly.AssembleMachine | python_vm/python_vm.py:100-104 | a parse error is raised unchanged; otherwise the parsed instruction tokens are assembled into the machine; the registers are not touched |
| GcdMachine.Lookups | python_vm/test_python_vm.py:7 | a, t and b sit at indices 2, 3 and 4 after pc and flag |
| GcdMachine.CompileRegArg | python_vm/instructions.py:161-163 | `(reg r)` compiles to a read of r's index |
| GcdMachine.CompiledArgs | python_vm/test_python_vm.py:8-10 | the arguments of the test and of rem compile in order |
| GcdMachine.CompiledTest | python_vm/test_python_vm.py:8 | `(test (op =) (reg b) (const 0))` compiles to the test of b against 0 |
| GcdMachine.CompiledBranch | python_vm/test_python_vm.py:9 | the branch takes gcd-done's pointer, which is empty |
| GcdMachine.CompiledRem | python_vm/test_python_vm.py:10 | `(assign t (op rem) ...)` compiles to t ← a rem b |
| GcdMachine.CompiledMoveA | python_vm/test_python_vm.py:11 | `(assign a (reg b))` compiles to a ← b |
| GcdMachine.CompiledMoveB | python_vm/test_python_vm.py:12 | `(assign b (reg t))` compiles to b ← t |
| GcdMachine.Assembled6 | python_vm/test_python_vm.py:13-14 | assembling from the goto onward |
| GcdMachine.Assembled5 | python_vm/test_python_vm.py:12-14 | assembling from `assign b` onward |
| GcdMachine.Assembled4 | python_vm/test_python_vm.py:11-14 | assembling from `assign a` onward |
| GcdMachine.Assembled3 | python_vm/test_python_vm.py:10-14 | assembling from `assign t` onward |
| GcdMachine.Assembled2 | python_vm/test_python_vm.py:9-14 | assembling from the branch onward |
| GcdMachine.Assembled1 | python_vm/test_python_vm.py:8-14 | assembling from the test onward |
| GcdMachine.GcdAssembled | python_vm/test_python_vm.py:8-14 | the controller assembles without error: bla points at the six instructions in order, and the installed list is reversed |
| GcdMachine.TestStep | python_vm/test_python_vm.py:8 | the test sets flag to b == 0 |
| GcdMachine.BranchStep | python_vm/test_python_vm.py:9 | with b = 0 the branch empties `pc`; otherwise it moves on |
| GcdMachine.RemStep | python_vm/test_python_vm.py:10 | t gets a mod b in Python's sense |
| GcdMachine.MoveAStep | python_vm/test_python_vm.py:11 | a gets b |
| GcdMachine.MoveBStep | python_vm/test_python_vm.py:12 | b gets t |
| GcdMachine.LoopStep | python_vm/test_python_vm.py:13 | the goto restarts the body at bla |
| GcdMachine.Round | python_vm/test_python_vm.py:8-13 | one pass through the loop with b ≠ 0 replaces (a, b) by (b, a mod b) in six steps |
| GcdMachine.LastRound | python_vm/test_python_vm.py:8-9 | with b = 0 the machine halts after two steps, leaving a as it is |
| GcdMachine.GcdLoop | python_vm/test_python_vm.py:8-14 | from bla, the machine halts with a = Euclid(a, b) and b = 0 for every a and b |
| GcdMachine.Gcd21And343 | python_vm/test_python_vm.py:15-18 | Euclid's algorithm gives 7 for 21 and 343, in 20 steps |
| GcdMachine.NamesUnique | python_vm/test_python_vm.py:7 | the register names with pc and flag are distinct |
| GcdMachine.NamesIndices | python_vm/test_python_vm.py:7 | a and b are found at their indices |
| GcdMachine.GcdTextTokens | python_vm/test_python_vm.py:8-14 | the controller text, split by the lexer rules of python_vm/lisp_parser.py:161-193, is laid out token by token as the five line predicates say |
| GcdMachine.TestBParsed | python_vm/test_python_vm.py:8 | in such a stream `(test (op =) (reg b) (const 0))` parses to the test token of the list |
| GcdMachine.RemParsed | python_vm/test_python_vm.py:10 | `(assign t (op rem) (reg a) (reg b))` parses to the rem token of the list |
| GcdMachine.LoopBlock | python_vm/lisp_parser.py:272-276 | the goto is the last instruction of bla's block, which stops at the label gcd-done |
| GcdMachine.MoveBBlock | python_vm/lisp_parser.py:272-276 | from `assign b` the block reads the last two instructions |
| GcdMachine.MoveABlock | python_vm/lisp_parser.py:272-276 | from `assign a` it reads the last three |
| GcdMachine.RemBlock | python_vm/lisp_parser.py:272-276 | from the rem it reads the last four |
| GcdMachine.BranchDoneBlock | python_vm/lisp_parser.py:272-276 | from the branch it reads the last five |
| GcdMachine.GcdBlock | python_vm/lisp_parser.py:267-276 | bla's body is the six instructions, up to the label gcd-done |
| GcdMachine.GcdControllers | python_vm/lisp_parser.py:255-277 | the first controller is bla with its six instructions; the second is gcd-done, empty, right before the closing ")" |
| GcdMachine.GcdParsed | python_vm/test_python_vm.py:8-14 | `parse` on the controller text succeeds with exactly the instruction-token list the assembler is given, and records both labels |
| GcdMachine.StartRegs | python_vm/test_python_vm.py:15-17 | setting a and b and pointing `pc` at the sequence gives the starting registers |
| GcdMachine.GcdFromStart | python_vm/test_python_vm.py:15-18 | from the installed sequence the machine halts with a = Euclid(a, b) |
| GcdMachine.MakeGcdMachine | python_vm/test_python_vm.py:7 | `make_machine` gives registers pc, flag, a, t, b, all None, and the ops = and rem |
| GcdMachine.LoadGcd | python_vm/test_python_vm.py:7-14 | `assemble_machine` on the controller text parses it, assembles it without error, and leaves the machine holding the labels and the installed sequence, registers untouched |
| GcdMachine.RunGcd | python_vm/test_python_vm.py:15-18 | setting a and b, starting and reading a yields Euclid(a, b) |
| GcdMachine.GcdExample | python_vm/test_python_vm.py:6-18 | the whole test halts with a = Euclid(a, b), which is 7 for 21 and 343 |
| GoLexer.Atoi | go_list_interpreter/lexer.go:162-164 | the value lies in the int64 range |
| GoLexer.AtoiRoundTrip | go_list_interpreter/lexer.go:162-164 | `Atoi` of an int's decimal text is the int, clamped to the int64 range |
| GoLexer.DigitRunEnd | go_list_interpreter/lexer.go:139-141 | the loop stops at the end of the maximal digit run |
| GoLexer.AlphaRunEnd | go_list_interpreter/lexer.go:146-148 | the loop stops at the end of the maximal letter run |
| GoLexer.ScanToken | go_list_interpreter/lexer.go:76-112 | errs iff the current character is not recognised (RuneError at the end) and then changes nothing; otherwise advances; counts a newline; adds at most one token on the current line |
| GoLexer.ScanTokenCases | go_list_interpreter/lexer.go:76-112 | punctuation gives its one-character token; space and newline give none; a digit run gives NUMBER with `Atoi`'s value; a letter run gives its keyword or IDENTIFIER |
| GoLexer.LexFrom | go_list_interpreter/lexer.go:59-69 | the loop ends at the end of the text without error, or with Start = Current on the offending character |
| GoLexer.LexStops | go_list_interpreter/lexer.go:62-69 | lexing errs iff some later character is unrecognised, and then stops at the first one |
| GoLexer.ScanNewlines | go_list_interpreter/lexer.go:101-103 | one step adds the newlines it consumed to the line number |
| GoLexer.LexLines | go_list_interpreter/lexer.go:59-69 | the final line is the start line plus the newlines consumed; token lines are in range and nondecreasing |
| GoLexer.LexFromStep | go_list_interpreter/lexer.go:62-69 | one loop turn: stop on an error, otherwise keep the step's tokens and continue |
| GoLexer.LexFromEmits | go_list_interpreter/lexer.go:62-69 | a step that emits a token puts it in front of the rest |
| GoLexer.LexFromSkips | go_list_interpreter/lexer.go:99-100 | a space adds nothing |
| GoLexer.ScanPunctuation | go_list_interpreter/lexer.go:78-98 | a punctuation character gives its token with its one-character text |
| GoLexer.ScanNumber | go_list_interpreter/lexer.go:104-105 | a maximal digit run gives one NUMBER token with `Atoi`'s value |
| GoLexer.ScanWord | go_list_interpreter/lexer.go:106-107 | a maximal letter run gives its keyword or IDENTIFIER, with its text |
| GoLexer.TestScan0 | go_list_interpreter/lexer_test.go:7 | `(` at 0 |
| GoLexer.TestScan1 | go_list_interpreter/lexer_test.go:7 | the keyword `if` at 1-2 |
| GoLexer.TestScan4 | go_list_interpreter/lexer_test.go:7 | `(` at 4 |
| GoLexer.TestScan5 | go_list_interpreter/lexer_test.go:7 | `=` at 5 |
| GoLexer.TestScan7 | go_list_interpreter/lexer_test.go:7 | the number 2 at 7 |
| GoLexer.TestScan9 | go_list_interpreter/lexer_test.go:7 | the number 2 at 9 |
| GoLexer.TestScan10 | go_list_interpreter/lexer_test.go:7 | `)` at 10 |
| GoLexer.TestScan12 | go_list_interpreter/lexer_test.go:7 | the number 23 at 12-13 |
| GoLexer.TestScan15 | go_list_interpreter/lexer_test.go:7 | the number 42 at 15-16 |
| GoLexer.TestScan17 | go_list_interpreter/lexer_test.go:7 | `)` at 17 |
| GoLexer.TestFrom17 | go_list_interpreter/lexer_test.go:7 | lexing from 17 |
| GoLexer.TestFrom15 | go_list_interpreter/lexer_test.go:7 | lexing from 15 |
| GoLexer.TestFrom12 | go_list_interpreter/lexer_test.go:7 | lexing from 12 |
| GoLexer.TestFrom10 | go_list_interpreter/lexer_test.go:7 | lexing from 10 |
| GoLexer.TestFrom9 | go_list_interpreter/lexer_test.go:7 | lexing from 9 |
| GoLexer.TestFrom7 | go_list_interpreter/lexer_test.go:7 | lexing from 7 |
| GoLexer.TestFrom5 | go_list_interpreter/lexer_test.go:7 | lexing from 5 |
| GoLexer.TestFrom4 | go_list_interpreter/lexer_test.go:7 | lexing from 4 |
| GoLexer.TestFrom1 | go_list_interpreter/lexer_test.go:7 | lexing from 1 |
| GoLexer.TestFrom0 | go_list_interpreter/lexer_test.go:7 | lexing the whole text |
| GoLexer.TestTextShape | go_list_interpreter/lexer_test.go:7 | the test text is `(if (= 2 2) 23 42)` |
| GoLexer.TestProgram | go_list_interpreter/lexer_test.go:6-11 | the text lexes without error to its ten tokens, all on line 0 |
| GoLexer.Lexer.constructor | go_list_interpreter/lexer.go:55-57 | a zero Lexer with the program installed |
| GoLexer.Lexer.Peek | go_list_interpreter/lexer.go:122-125 | the character at Current |
| GoLexer.Lexer.Advance | go_list_interpreter/lexer.go:127-131 | returns the peeked character and moves Current one on, unless at the end |
| GoLexer.Lexer.AddToken | go_list_interpreter/lexer.go:158-167 | appends a token of Program[Start:Current] on the current line; its source is the `Atoi` value for NUMBER |
| GoLexer.Lexer.LexNumber | go_list_interpreter/lexer.go:138-143 | consumes the digit run and adds `ScanToken`'s NUMBER token |
| GoLexer.Lexer.LexIdentifier | go_list_interpreter/lexer.go:145-156 | consumes the letter run and adds `ScanToken`'s keyword or identifier token |
| GoLexer.Lexer.LexToken | go_list_interpreter/lexer.go:76-112 | Current, the tokens, the line and the error become `ScanToken`'s |
| GoLexer.Lexer.Lex | go_list_interpreter/lexer.go:59-74 | the fields become `LexFrom`'s; the error is recorded; EOF is appended iff an error is set |
| GoLexer.LexerTest | go_list_interpreter/lexer_test.go:6-22 | the test program lexes without error to its ten tokens on line 0 |

## Left out

- The Python regex lexer (`lexer.Lexer`) is not part of this model. The parser takes the token list it would deliver: each token's rule name and matched text. A lexer error cannot arise.
- `parser.py` is not part of this model; nothing in the core uses it.
- The `text` field and `__str__`/`__repr__`/`__eq__` of the token classes, and the class `Instruction`, are left out; they are never read by the code modelled.
- Closures are modelled as `Instr` values. Their identity, and the Register objects they capture, are represented by register indices. Registers are never removed, so an index stays valid.
- `Instructions.Step`: `make_test_instruction` evaluates its operation twice. Both ops are pure, so a single evaluation is modelled.
- The op table is fixed to the two lambdas of the GCD test, `x == y` and `x % y`. Other Python callables are left out.
- `Instructions.PyRem`: Python's `str % x` formatting is modelled only as an error.
- Exceptions are error values. This includes `raise "..."` of a string, which Python rejects with a TypeError. The model keeps the intended message kind.
- `Instructions.Run`, `PythonVm.Machine.Execute` and `PythonVm.Machine.Start` take a fuel bound. A program that never empties `pc` ends in `OutOfFuel` instead of looping forever.
- Save and Restore always raise. `stack.Push` does not exist, and `register` is a name string. So the stack is never reached from an instruction.
- `PythonVm.Machine.get_stack` and `get_ops` are plain accessors and are read as fields.
- `GcdMachine.GcdExample`: the controller text is given as the token stream the lexer produces (`GcdText`), because the lexer itself is not part of this model; its parse is proved (`GcdParsed`). The start values are any a and b with enough fuel, rather than only 21 and 343.
- The Go lexer reads one character per byte. UTF-8 decoding of multi-byte runes, and the width of a rune in `advance`, are left out.
- `GoLexer.Atoi` assumes a 64-bit `int`; a value out of range clamps, as `strconv.Atoi` does, and its error is discarded as the source discards it.
- `GoLexer.Lexer.LexToken`, `GoLexer.Lexer.LexNumber` and `GoLexer.Lexer.LexIdentifier` require `Start == Current`. That is how `Lex` calls them; a direct call with other values is not modelled.
- `CreateLexer` and `InstallProgram` are folded into `GoLexer.Lexer.constructor`.
- The `fmt.Printf` echo in `addToken`, the printing in the Go test, and `main` are I/O and are left out.
- The unit-test scaffolding (`unittest`, `testing.T`) is left out. Its checks appear as the scenario lemmas above.
