/** The executable form of a register-machine program and what running it
    does.  The source compiles each instruction token into a closure over the
    machine's Register objects; here an instruction is a datatype value that
    names its registers by their index in the machine's register list, and
    `Step` is the body of the closure.  The program counter register holds
    the remaining instruction list, not an index. */
module Instructions {
  import opened Wrappers
  import opened Numerals
  import opened LispParser

  /** The two operations of the machine's op table, `=` and `rem`: the
      Python lambdas `x == y` and `x % y`. */
  datatype OpKind = Equal | Remainder

  /** A compiled primitive expression: a constant, a register read at
      evaluation time, or a label looked up at evaluation time. */
  datatype Prim = ConstExp(c: Constant) | RegExp(reg: nat) | LabelExp(key: Constant)

  datatype Instr =
    | AssignRegister(target: nat, source: nat)
    | AssignConstant(target: nat, constant: Constant)
    | AssignLabel(target: nat, labelName: string)
    | AssignOp(target: nat, op: OpKind, args: seq<Prim>)
    | Perform(op: OpKind, args: seq<Prim>)
    | Test(op: OpKind, args: seq<Prim>)
    | Branch(dest: seq<Instr>)
    | GotoLabel(labelName: string)
    | GotoRegister(source: nat)
    | Save(register: string)
    | Restore(register: string)

  /** What a register can hold: None, an int, a str, a bool (the result of
      `=`), or an instruction list (the program counter, a label's pointer). */
  datatype Value = Nil | Int(i: int) | Str(s: string) | Bool(b: bool) | Code(insts: seq<Instr>)

  /** The exceptions the compiler and the instruction bodies raise. */
  datatype VmError =
    | UnknownRegister(name: string)
    | DuplicateRegister(name: string)
    | UnknownLabel(name: string)
    | UnknownOp(name: string)
    | UnknownArgType(kind: string)
    | NotAPrimitive(name: string)
    | UnknownInstructionType(kind: string)
    | NotSubscriptable
    | NoLength
    | NotCallable
    | MissingMethod(name: string)
    | ArityMismatch(given: nat)
    | ZeroDivision
    | OperandType
    | StringFormatting

  /** The registers every machine has first: `pc` and `flag`. */
  const PC: nat := 0
  const FLAG: nat := 1

  // ---------------------------------------------------------------------
  // Well-formedness: every register index is below the number of registers

  predicate WfPrim(p: Prim, n: nat) {
    p.RegExp? ==> p.reg < n
  }

  predicate WfArgs(args: seq<Prim>, n: nat) {
    forall k | 0 <= k < |args| :: WfPrim(args[k], n)
  }

  predicate WfInstr(ins: Instr, n: nat)
    decreases ins
  {
    match ins
    case AssignRegister(t, s) => t < n && s < n
    case AssignConstant(t, _) => t < n
    case AssignLabel(t, _) => t < n
    case AssignOp(t, _, args) => t < n && WfArgs(args, n)
    case Perform(_, args) => WfArgs(args, n)
    case Test(_, args) => WfArgs(args, n)
    case Branch(dest) => forall k | 0 <= k < |dest| :: WfInstr(dest[k], n)
    case GotoLabel(_) => true
    case GotoRegister(r) => r < n
    case Save(_) => true
    case Restore(_) => true
  }

  predicate WfCode(s: seq<Instr>, n: nat) {
    forall k | 0 <= k < |s| :: WfInstr(s[k], n)
  }

  predicate WfValue(v: Value, n: nat) {
    v.Code? ==> WfCode(v.insts, n)
  }

  predicate WfLabels(labels: map<string, seq<Instr>>, n: nat) {
    forall l | l in labels :: WfCode(labels[l], n)
  }

  /** The register file of a machine: `pc` and `flag` exist, and every
      instruction list held anywhere only names existing registers. */
  predicate WfRegs(regs: seq<Value>) {
    |regs| >= 2 && forall k | 0 <= k < |regs| :: WfValue(regs[k], |regs|)
  }

  /** Adding registers keeps every index valid. */
  lemma {:induction false} WfInstrGrows(ins: Instr, n: nat, m: nat)
    requires WfInstr(ins, n) && n <= m
    ensures WfInstr(ins, m)
    decreases ins
  {
    match ins
    case Branch(dest) =>
      forall k | 0 <= k < |dest| ensures WfInstr(dest[k], m) {
        WfInstrGrows(dest[k], n, m);
      }
    case _ =>
  }

  lemma WfCodeGrows(s: seq<Instr>, n: nat, m: nat)
    requires WfCode(s, n) && n <= m
    ensures WfCode(s, m)
  {
    forall k | 0 <= k < |s| ensures WfInstr(s[k], m) {
      WfInstrGrows(s[k], n, m);
    }
  }

  // ---------------------------------------------------------------------
  // Compilation: the make_* builders

  /** `lookup_register`: the first register with the given name. */
  function IndexOf(names: seq<string>, name: string): (r: Option<nat>)
    ensures r.Some? ==> r.value < |names| && names[r.value] == name
    ensures r.Some? ==> forall j | 0 <= j < r.value :: names[j] != name
    ensures r.None? <==> name !in names
  {
    if |names| == 0 then None
    else if names[0] == name then Some(0)
    else match IndexOf(names[1..], name)
      case None => None
      case Some(k) => Some(k + 1)
  }

  function LookupRegister(names: seq<string>, name: string): (r: Result<nat, VmError>)
    ensures r.Success? ==> r.value < |names| && names[r.value] == name
    ensures r.Failure? <==> name !in names
    ensures r.Failure? ==> r.error == UnknownRegister(name)
  {
    match IndexOf(names, name)
    case Some(k) => Success(k)
    case None => Failure(UnknownRegister(name))
  }

  /** The text of a constant used as a key. */
  function ConstText(c: Constant): string {
    match c
    case CInt(n) => IntToDecimal(n)
    case CStr(s) => s
    case CNone => "None"
  }

  /** The Python value of a constant. */
  function ConstValue(c: Constant): Value {
    match c
    case CInt(n) => Int(n)
    case CStr(s) => Str(s)
    case CNone => Nil
  }

  /** `make_primitive_exp`: dispatch on the argument's type text.  A bare
      identifier collected by `_perform` has no type at all. */
  function CompilePrim(arg: Arg, names: seq<string>): (r: Result<Prim, VmError>)
    ensures r.Success? ==> WfPrim(r.value, |names|)
  {
    match arg
    case Bare(name) => Failure(NotAPrimitive(name))
    case Prim(kind, value) =>
      if kind == "const" then Success(ConstExp(value))
      else if kind == "LABEL" then Success(LabelExp(value))
      else if kind == "reg" then
        if value.CStr? then
          var k :- LookupRegister(names, value.s);
          Success(RegExp(k))
        else
          // no register name equals a non-string key
          Failure(UnknownRegister(ConstText(value)))
      else Failure(UnknownArgType(kind))
  }

  /** The argument loop of `make_operation_exp`, in order. */
  function CompileArgs(args: seq<Arg>, names: seq<string>): (r: Result<seq<Prim>, VmError>)
    ensures r.Success? ==> |r.value| == |args| && WfArgs(r.value, |names|)
  {
    if |args| == 0 then Success([])
    else
      var first :- CompilePrim(args[0], names);
      var rest :- CompileArgs(args[1..], names);
      Success([first] + rest)
  }

  /** `make_operation_exp`: the op is looked up first, then the arguments. */
  function CompileOperation(op: string, args: seq<Arg>, names: seq<string>, ops: map<string, OpKind>)
    : (r: Result<(OpKind, seq<Prim>), VmError>)
    ensures r.Success? ==> op in ops && r.value.0 == ops[op] && WfArgs(r.value.1, |names|)
    ensures op !in ops ==> r == Failure(UnknownOp(op))
  {
    if op !in ops then Failure(UnknownOp(op))
    else
      var prims :- CompileArgs(args, names);
      Success((ops[op], prims))
  }

  /** `make_execution_procedure` and the make_*_instruction builders.  A
      branch takes its label's pointer now; goto and assign-label keep the
      name and look it up when they run. */
  function CompileToken(tok: InstToken, names: seq<string>, ops: map<string, OpKind>, labels: map<string, seq<Instr>>)
    : (r: Result<Instr, VmError>)
    requires WfLabels(labels, |names|)
    ensures r.Success? ==> WfInstr(r.value, |names|)
    ensures tok.LabelToken? ==> r.Failure?
  {
    match tok
    case AssignRegisterToken(target, source) =>
      var s :- LookupRegister(names, source);
      var t :- LookupRegister(names, target);
      Success(AssignRegister(t, s))
    case AssignConstToken(target, constant) =>
      var t :- LookupRegister(names, target);
      Success(AssignConstant(t, constant))
    case AssignLabelToken(target, name) =>
      var t :- LookupRegister(names, target);
      Success(AssignLabel(t, name))
    case AssignOpToken(target, op, args) =>
      var t :- LookupRegister(names, target);
      var o :- CompileOperation(op, args, names, ops);
      Success(AssignOp(t, o.0, o.1))
    case PerformToken(op, args) =>
      var o :- CompileOperation(op, args, names, ops);
      Success(Perform(o.0, o.1))
    case TestToken(op, args) =>
      var o :- CompileOperation(op, args, names, ops);
      Success(Test(o.0, o.1))
    case BranchToken(name) =>
      if name in labels then Success(Branch(labels[name])) else Failure(UnknownLabel(name))
    case GoToLabelToken(name) => Success(GotoLabel(name))
    case GoToRegisterToken(register) =>
      var k :- LookupRegister(names, register);
      Success(GotoRegister(k))
    case SaveToken(register) => Success(Save(register))
    case RestoreToken(register) => Success(Restore(register))
    case LabelToken(_) => Failure(UnknownInstructionType("LABEL"))
  }

  // ---------------------------------------------------------------------
  // Python's operators on register values

  /** bool is a subclass of int in Python. */
  predicate IsNumeric(v: Value) {
    v.Int? || v.Bool?
  }

  function Numeric(v: Value): int
    requires IsNumeric(v)
  {
    if v.Int? then v.i else if v.b then 1 else 0
  }

  /** Python's `%` on ints: the remainder takes the sign of the divisor. */
  function PyMod(a: int, b: int): (r: int)
    requires b != 0
    ensures b > 0 ==> 0 <= r < b && r == a % b
    ensures b < 0 ==> b < r <= 0
    ensures a == (if b < 0 && a % b != 0 then a / b - 1 else a / b) * b + r
  {
    var e := a % b;
    if b < 0 && e != 0 then e + b else e
  }

  /** The remainder takes the divisor's sign, as in Python: `5 % -3 == -1`. */
  lemma PyModSigns()
    ensures PyMod(5, -3) == -1 && PyMod(-5, 3) == 1 && PyMod(-5, -3) == -2 && PyMod(5, 3) == 2
  {
  }

  /** Python's `==` on register values. */
  predicate PyEq(x: Value, y: Value) {
    if IsNumeric(x) && IsNumeric(y) then Numeric(x) == Numeric(y)
    else match (x, y)
      case (Nil, Nil) => true
      case (Str(a), Str(b)) => a == b
      case (Code(a), Code(b)) => a == b
      case _ => false
  }

  /** Python's `%` on register values. */
  function PyRem(x: Value, y: Value): (r: Result<Value, VmError>)
    ensures r.Success? ==> r.value.Int?
  {
    if IsNumeric(x) && IsNumeric(y) then
      if Numeric(y) == 0 then Failure(ZeroDivision) else Success(Int(PyMod(Numeric(x), Numeric(y))))
    else if x.Str? then Failure(StringFormatting)
    else Failure(OperandType)
  }

  /** Calling a two-argument lambda from the op table. */
  function Apply(op: OpKind, vals: seq<Value>): Result<Value, VmError> {
    if |vals| != 2 then Failure(ArityMismatch(|vals|))
    else match op
      case Equal => Success(Bool(PyEq(vals[0], vals[1])))
      case Remainder => PyRem(vals[0], vals[1])
  }

  /** Python truthiness. */
  predicate Truthy(v: Value) {
    match v
    case Nil => false
    case Int(i) => i != 0
    case Str(s) => s != []
    case Bool(b) => b
    case Code(insts) => insts != []
  }

  // ---------------------------------------------------------------------
  // Running instructions: the closure bodies

  /** The registers after an instruction, and the exception it raised, if
      any; an exception leaves the writes made before it in place. */
  datatype Effect = Effect(regs: seq<Value>, err: Option<VmError>)

  function EvalPrim(p: Prim, regs: seq<Value>, labels: map<string, seq<Instr>>): (r: Result<Value, VmError>)
    requires WfPrim(p, |regs|)
  {
    match p
    case ConstExp(c) => Success(ConstValue(c))
    case RegExp(k) => Success(regs[k])
    case LabelExp(key) =>
      if key.CStr? && key.s in labels then Success(Code(labels[key.s])) else Failure(UnknownLabel(ConstText(key)))
  }

  function EvalArgs(args: seq<Prim>, regs: seq<Value>, labels: map<string, seq<Instr>>): (r: Result<seq<Value>, VmError>)
    requires WfArgs(args, |regs|)
    ensures r.Success? ==> |r.value| == |args|
  {
    if |args| == 0 then Success([])
    else
      var first :- EvalPrim(args[0], regs, labels);
      var rest :- EvalArgs(args[1..], regs, labels);
      Success([first] + rest)
  }

  /** The closure `make_operation_exp` returns: evaluate the arguments in
      order, then call the op. */
  function EvalOp(op: OpKind, args: seq<Prim>, regs: seq<Value>, labels: map<string, seq<Instr>>): Result<Value, VmError>
    requires WfArgs(args, |regs|)
  {
    var vals :- EvalArgs(args, regs, labels);
    Apply(op, vals)
  }

  /** `pc.get_contents()[1:]`: slicing works on lists and strings, and the
      slice of an empty one is empty. */
  function Advance(v: Value): Result<Value, VmError> {
    match v
    case Code(s) => Success(Code(if s == [] then [] else s[1..]))
    case Str(s) => Success(Str(if s == [] then [] else s[1..]))
    case _ => Failure(NotSubscriptable)
  }

  /** `advance_pc`. */
  function AdvancePc(regs: seq<Value>): Effect
    requires |regs| >= 2
  {
    match Advance(regs[PC])
    case Success(v) => Effect(regs[PC := v], None)
    case Failure(e) => Effect(regs, Some(e))
  }

  /** What running one compiled instruction does to the registers. */
  function Step(ins: Instr, regs: seq<Value>, labels: map<string, seq<Instr>>): Effect
    requires |regs| >= 2 && WfInstr(ins, |regs|)
  {
    match ins
    case AssignRegister(t, s) => AdvancePc(regs[t := regs[s]])
    case AssignConstant(t, c) => AdvancePc(regs[t := ConstValue(c)])
    case AssignLabel(t, name) =>
      if name in labels then AdvancePc(regs[t := Code(labels[name])]) else Effect(regs, Some(UnknownLabel(name)))
    case AssignOp(t, op, args) =>
      (match EvalOp(op, args, regs, labels)
       case Success(v) => AdvancePc(regs[t := v])
       case Failure(e) => Effect(regs, Some(e)))
    case Perform(op, args) =>
      (match EvalOp(op, args, regs, labels)
       case Success(_) => AdvancePc(regs)
       case Failure(e) => Effect(regs, Some(e)))
    case Test(op, args) =>
      (match EvalOp(op, args, regs, labels)
       case Success(v) => AdvancePc(regs[FLAG := v])
       case Failure(e) => Effect(regs, Some(e)))
    case Branch(dest) =>
      if Truthy(regs[FLAG]) then AdvancePc(regs[PC := Code(dest)]) else AdvancePc(regs)
    case GotoLabel(name) =>
      if name in labels then Effect(regs[PC := Code(labels[name])], None) else Effect(regs, Some(UnknownLabel(name)))
    case GotoRegister(k) => Effect(regs[PC := regs[k]], None)
    // `stack.Push` does not exist on Stack
    case Save(_) => Effect(regs, Some(MissingMethod("Push")))
    // `register` is the name string, which has no `set_contents`
    case Restore(_) => Effect(regs, Some(MissingMethod("set_contents")))
  }

  /** How `execute` ends: `pc` empty, an exception, or the fuel bound reached. */
  datatype Outcome = Halted(regs: seq<Value>) | Crashed(regs: seq<Value>, error: VmError) | OutOfFuel(regs: seq<Value>)

  /** `execute`, for at most `fuel` instructions: while `len(pc) != 0`, call
      `pc[0]`.  A non-empty string in `pc` has a length but its head cannot
      be called; a value without a length stops the loop at once. */
  function Run(fuel: nat, regs: seq<Value>, labels: map<string, seq<Instr>>): (o: Outcome)
    requires WfRegs(regs) && WfLabels(labels, |regs|)
    decreases fuel
  {
    match regs[PC]
    case Code(s) =>
      if s == [] then Halted(regs)
      else if fuel == 0 then OutOfFuel(regs)
      else
        var eff := Step(s[0], regs, labels);
        if eff.err.Some? then Crashed(eff.regs, eff.err.value)
        else
          StepKeepsWf(s[0], regs, labels);
          Run(fuel - 1, eff.regs, labels)
    case Str(s) => if s == [] then Halted(regs) else Crashed(regs, NotCallable)
    case _ => Crashed(regs, NoLength)
  }

  // ---------------------------------------------------------------------
  // Invariants of Step

  lemma AdvancePcKeepsWf(regs: seq<Value>)
    requires WfRegs(regs)
    ensures WfRegs(AdvancePc(regs).regs) && |AdvancePc(regs).regs| == |regs|
  {
    var v := regs[PC];
    if v.Code? && v.insts != [] {
      assert WfValue(Code(v.insts[1..]), |regs|) by {
        forall k | 0 <= k < |v.insts| - 1 ensures WfInstr(v.insts[1..][k], |regs|) {
          assert v.insts[1..][k] == v.insts[k + 1];
        }
      }
    }
  }

  lemma EvalKeepsWf(op: OpKind, args: seq<Prim>, regs: seq<Value>, labels: map<string, seq<Instr>>)
    requires WfRegs(regs) && WfLabels(labels, |regs|) && WfArgs(args, |regs|)
    requires EvalOp(op, args, regs, labels).Success?
    ensures WfValue(EvalOp(op, args, regs, labels).value, |regs|)
  {
    var vals := EvalArgs(args, regs, labels).value;
    if |vals| == 2 && op.Equal? {
    }
  }

  /** A step never gives a register an instruction list that names a
      register outside the machine, and never changes the number of registers. */
  lemma StepKeepsWf(ins: Instr, regs: seq<Value>, labels: map<string, seq<Instr>>)
    requires WfRegs(regs) && WfLabels(labels, |regs|) && WfInstr(ins, |regs|)
    ensures WfRegs(Step(ins, regs, labels).regs)
    ensures |Step(ins, regs, labels).regs| == |regs|
  {
    match ins
    case AssignRegister(t, s) => AdvancePcKeepsWf(regs[t := regs[s]]);
    case AssignConstant(t, c) => AdvancePcKeepsWf(regs[t := ConstValue(c)]);
    case AssignLabel(t, name) =>
      if name in labels {
        AdvancePcKeepsWf(regs[t := Code(labels[name])]);
      }
    case AssignOp(t, op, args) =>
      if EvalOp(op, args, regs, labels).Success? {
        EvalKeepsWf(op, args, regs, labels);
        AdvancePcKeepsWf(regs[t := EvalOp(op, args, regs, labels).value]);
      }
    case Perform(op, args) => AdvancePcKeepsWf(regs);
    case Test(op, args) =>
      if EvalOp(op, args, regs, labels).Success? {
        EvalKeepsWf(op, args, regs, labels);
        AdvancePcKeepsWf(regs[FLAG := EvalOp(op, args, regs, labels).value]);
      }
    case Branch(dest) =>
      AdvancePcKeepsWf(regs[PC := Code(dest)]);
      AdvancePcKeepsWf(regs);
    case GotoLabel(name) =>
    case GotoRegister(k) =>
    case Save(_) =>
    case Restore(_) =>
  }
}
