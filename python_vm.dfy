/** The machine runtime: Register cells, the list-backed Stack, and the
    Machine that owns the registers, the op table, the label table and the
    installed instruction sequence. */
module PythonVm {
  import opened Wrappers
  import opened Instructions

  class Register {
    const name: string
    var contents: Value

    /** A new register holds None. */
    constructor (name: string)
      ensures this.name == name && contents == Nil
    {
      this.name := name;
      contents := Nil;
    }

    method GetContents() returns (v: Value)
      ensures v == contents
    {
      v := contents;
    }

    method SetContents(v: Value)
      modifies this
      ensures contents == v
    {
      contents := v;
    }
  }

  class Stack {
    var stack: seq<Value>

    constructor ()
      ensures stack == []
    {
      stack := [];
    }

    method Push(v: Value)
      modifies this
      ensures stack == old(stack) + [v]
    {
      stack := stack + [v];
    }

    /** The top of the stack, or None (and no change) when it is empty. */
    method Pop() returns (v: Value)
      modifies this
      ensures old(stack) == [] ==> v == Nil && stack == []
      ensures old(stack) != [] ==> v == old(stack)[|old(stack)| - 1] && stack == old(stack)[..|old(stack)| - 1]
    {
      if |stack| == 0 {
        return Nil;
      }
      v := stack[|stack| - 1];
      stack := stack[..|stack| - 1];
    }

    method Initialise()
      modifies this
      ensures stack == []
    {
      stack := [];
    }
  }

  /** Push then pop gives back the pushed value and the stack as it was. */
  method PushThenPop(s: Stack, v: Value) returns (w: Value)
    modifies s
    ensures w == v && s.stack == old(s.stack)
  {
    s.Push(v);
    w := s.Pop();
    assert old(s.stack) + [v] == s.stack + [v];
  }

  /** No name occurs twice. */
  predicate UniqueNames(names: seq<string>) {
    forall i, j | 0 <= i < j < |names| :: names[i] != names[j]
  }

  function NamesOf(rs: seq<Register>): (r: seq<string>)
    ensures |r| == |rs| && forall k | 0 <= k < |rs| :: r[k] == rs[k].name
  {
    seq(|rs|, k requires 0 <= k < |rs| => rs[k].name)
  }

  function ContentsOf(rs: seq<Register>): (r: seq<Value>)
    reads rs
    ensures |r| == |rs| && forall k | 0 <= k < |rs| :: r[k] == rs[k].contents
  {
    seq(|rs|, k requires 0 <= k < |rs| reads rs => rs[k].contents)
  }

  class Machine {
    const pc: Register
    const flag: Register
    const stack: Stack
    var registers: seq<Register>
    var instructionSequence: seq<Instr>
    var ops: map<string, OpKind>
    var labelPointers: map<string, seq<Instr>>

    /** The names of the registers, in allocation order. */
    function Names(): seq<string>
      reads this`registers
    {
      NamesOf(registers)
    }

    /** What the registers hold, in allocation order. */
    function Contents(): seq<Value>
      reads this`registers, registers
    {
      ContentsOf(registers)
    }

    /** `pc` and `flag` come first, names are unique (so no register object
        appears twice), and every instruction list the machine holds names
        only its own registers. */
    ghost predicate Valid()
      reads this, registers
    {
      |registers| >= 2 && registers[PC] == pc && registers[FLAG] == flag &&
      pc.name == "pc" && flag.name == "flag" &&
      UniqueNames(Names()) &&
      WfRegs(Contents()) && WfLabels(labelPointers, |registers|) && WfCode(instructionSequence, |registers|)
    }

    /** A new machine has the registers `pc` and `flag`, both None, an empty
        stack, no ops, no labels and no instructions. */
    constructor ()
      ensures Valid() && fresh(registers)
      ensures Names() == ["pc", "flag"] && Contents() == [Nil, Nil]
      ensures stack.stack == [] && ops == map[] && labelPointers == map[] && instructionSequence == []
    {
      var p := new Register("pc");
      var f := new Register("flag");
      pc := p;
      flag := f;
      stack := new Stack();
      registers := [p, f];
      instructionSequence := [];
      ops := map[];
      labelPointers := map[];
    }

    method InstallInstructionSequence(s: seq<Instr>)
      requires Valid() && WfCode(s, |registers|)
      modifies this`instructionSequence
      ensures Valid() && instructionSequence == s
    {
      instructionSequence := s;
    }

    /** Appends a register holding None, unless the name is taken. */
    method AllocateRegister(name: string) returns (err: Option<VmError>)
      requires Valid()
      modifies this`registers
      ensures Valid()
      ensures name in old(Names()) <==> err.Some?
      ensures err.Some? ==> err.value == DuplicateRegister(name) && registers == old(registers)
      ensures err.None? ==>
        |registers| == |old(registers)| + 1 && registers[..|old(registers)|] == old(registers) &&
        fresh(registers[|old(registers)|]) &&
        Names() == old(Names()) + [name] && Contents() == old(Contents()) + [Nil]
    {
      var i := 0;
      while i < |registers|
        invariant 0 <= i <= |registers|
        invariant name !in Names()[..i]
      {
        if registers[i].name == name {
          assert Names()[i] == name;
          return Some(DuplicateRegister(name));
        }
        assert Names()[..i + 1] == Names()[..i] + [registers[i].name];
        i := i + 1;
      }
      assert Names()[..i] == Names();
      var r := new Register(name);
      var before := Contents();
      var beforeNames := Names();
      registers := registers + [r];
      assert Contents() == before + [Nil];
      assert Names() == beforeNames + [name];
      forall k | 0 <= k < |registers| ensures WfValue(Contents()[k], |registers|) {
        if k < |before| && Contents()[k].Code? {
          WfCodeGrows(Contents()[k].insts, |before|, |registers|);
        }
      }
      forall l | l in labelPointers ensures WfCode(labelPointers[l], |registers|) {
        WfCodeGrows(labelPointers[l], |before|, |registers|);
      }
      WfCodeGrows(instructionSequence, |before|, |registers|);
      return None;
    }

    /** The first register with the given name. */
    method LookupRegister(name: string) returns (r: Result<Register, VmError>)
      requires Valid()
      ensures r.Success? <==> name in Names()
      ensures r.Success? ==> r.value == registers[IndexOf(Names(), name).value]
      ensures r.Failure? ==> r.error == UnknownRegister(name)
    {
      var i := 0;
      while i < |registers|
        invariant 0 <= i <= |registers|
        invariant forall j | 0 <= j < i :: Names()[j] != name
      {
        if registers[i].name == name {
          return Success(registers[i]);
        }
        i := i + 1;
      }
      return Failure(UnknownRegister(name));
    }

    /** Writes one register; the others keep their contents, because no
        register object is listed twice. */
    method Write(k: nat, v: Value)
      requires Valid() && k < |registers| && WfValue(v, |registers|)
      modifies registers[k]
      ensures Valid() && Contents() == old(Contents())[k := v]
    {
      registers[k].contents := v;
      assert forall j | 0 <= j < |registers| && j != k :: registers[j] != registers[k] by {
        forall j | 0 <= j < |registers| && j != k ensures registers[j] != registers[k] {
          if j < k {
            assert Names()[j] != Names()[k];
          } else {
            assert Names()[k] != Names()[j];
          }
        }
      }
    }

    method SetRegisterValue(name: string, v: Value) returns (err: Option<VmError>)
      requires Valid() && WfValue(v, |registers|)
      modifies registers
      ensures Valid()
      ensures name in Names() ==> err.None? && Contents() == old(Contents())[IndexOf(Names(), name).value := v]
      ensures name !in Names() ==> err == Some(UnknownRegister(name)) && Contents() == old(Contents())
    {
      var r := LookupRegister(name);
      if r.Failure? {
        return Some(r.error);
      }
      Write(IndexOf(Names(), name).value, v);
      return None;
    }

    method GetRegisterValue(name: string) returns (r: Result<Value, VmError>)
      requires Valid()
      ensures name in Names() ==> r == Success(Contents()[IndexOf(Names(), name).value])
      ensures name !in Names() ==> r == Failure(UnknownRegister(name))
    {
      var reg := LookupRegister(name);
      if reg.Failure? {
        return Failure(reg.error);
      }
      r := Success(reg.value.contents);
    }

    /** `dict.update`: new entries win, the others stay. */
    method InstallOperations(newOps: map<string, OpKind>)
      modifies this`ops
      ensures ops == old(ops) + newOps
      ensures forall name | name in newOps :: ops[name] == newOps[name]
      ensures forall name | name in old(ops) && name !in newOps :: ops[name] == old(ops)[name]
    {
      ops := ops + newOps;
    }

    /** `advance_pc` on the machine's own `pc`. */
    method AdvancePcRegister() returns (err: Option<VmError>)
      requires Valid()
      modifies registers
      ensures Valid()
      ensures Contents() == AdvancePc(old(Contents())).regs && err == AdvancePc(old(Contents())).err
    {
      AdvancePcKeepsWf(Contents());
      match Advance(pc.contents)
      case Success(v) =>
        Write(PC, v);
        return None;
      case Failure(e) =>
        return Some(e);
    }

    /** Calling one compiled instruction: it evaluates its expression over the
        registers as they are, writes its target, and advances `pc`. */
    method RunInstruction(ins: Instr) returns (err: Option<VmError>)
      requires Valid() && WfInstr(ins, |registers|)
      modifies registers
      ensures Valid()
      ensures Contents() == Step(ins, old(Contents()), labelPointers).regs
      ensures err == Step(ins, old(Contents()), labelPointers).err
    {
      var regs := Contents();
      match ins
      case AssignRegister(t, s) =>
        Write(t, regs[s]);
        err := AdvancePcRegister();
      case AssignConstant(t, c) =>
        Write(t, ConstValue(c));
        err := AdvancePcRegister();
      case AssignLabel(t, name) =>
        if name !in labelPointers {
          return Some(UnknownLabel(name));
        }
        Write(t, Code(labelPointers[name]));
        err := AdvancePcRegister();
      case AssignOp(t, op, args) =>
        var r := EvalOp(op, args, regs, labelPointers);
        if r.Failure? {
          return Some(r.error);
        }
        EvalKeepsWf(op, args, regs, labelPointers);
        Write(t, r.value);
        err := AdvancePcRegister();
      case Perform(op, args) =>
        var r := EvalOp(op, args, regs, labelPointers);
        if r.Failure? {
          return Some(r.error);
        }
        err := AdvancePcRegister();
      case Test(op, args) =>
        var r := EvalOp(op, args, regs, labelPointers);
        if r.Failure? {
          return Some(r.error);
        }
        EvalKeepsWf(op, args, regs, labelPointers);
        Write(FLAG, r.value);
        err := AdvancePcRegister();
      case Branch(dest) =>
        if Truthy(flag.contents) {
          Write(PC, Code(dest));
        }
        err := AdvancePcRegister();
      case GotoLabel(name) =>
        if name !in labelPointers {
          return Some(UnknownLabel(name));
        }
        Write(PC, Code(labelPointers[name]));
        return None;
      case GotoRegister(k) =>
        Write(PC, regs[k]);
        return None;
      case Save(_) =>
        return Some(MissingMethod("Push"));
      case Restore(_) =>
        return Some(MissingMethod("set_contents"));
    }

    /** `execute`, for at most `fuel` instructions. */
    method Execute(fuel: nat) returns (o: Outcome)
      requires Valid()
      modifies registers
      ensures Valid()
      ensures o == Run(fuel, old(Contents()), labelPointers) && Contents() == o.regs
    {
      var n := fuel;
      while true
        invariant Valid()
        invariant Run(n, Contents(), labelPointers) == Run(fuel, old(Contents()), labelPointers)
        decreases n
      {
        var instructions := pc.contents;
        match instructions
        case Code(s) =>
          if s == [] {
            return Halted(Contents());
          }
          if n == 0 {
            return OutOfFuel(Contents());
          }
          var err := RunInstruction(s[0]);
          if err.Some? {
            return Crashed(Contents(), err.value);
          }
          n := n - 1;
        case Str(s) =>
          if s == [] {
            return Halted(Contents());
          }
          return Crashed(Contents(), NotCallable);
        case _ =>
          return Crashed(Contents(), NoLength);
      }
    }

    /** `start`: point `pc` at the installed sequence and execute. */
    method Start(fuel: nat) returns (o: Outcome)
      requires Valid()
      modifies registers
      ensures Valid()
      ensures o == Run(fuel, old(Contents())[PC := Code(instructionSequence)], labelPointers) && Contents() == o.regs
    {
      Write(PC, Code(instructionSequence));
      o := Execute(fuel);
    }
  }

  predicate AllNil(s: seq<Value>) {
    forall k | 0 <= k < |s| :: s[k] == Nil
  }

  lemma UniqueAppend(s: seq<string>, x: string)
    requires UniqueNames(s) && x !in s
    ensures UniqueNames(s + [x])
  {
  }

  lemma DuplicateFound(pre: seq<string>, names: seq<string>, i: nat)
    requires i < |names| && names[i] in pre + names[..i]
    ensures !UniqueNames(pre + names)
  {
    var all := pre + names;
    var k :| 0 <= k < |pre + names[..i]| && (pre + names[..i])[k] == names[i];
    assert all[k] == names[i] == all[|pre| + i];
  }

  lemma NamesPrefixStep(pre: seq<string>, names: seq<string>, i: nat)
    requires i < |names| && UniqueNames(pre + names[..i]) && names[i] !in pre + names[..i]
    ensures pre + names[..i + 1] == (pre + names[..i]) + [names[i]]
    ensures UniqueNames(pre + names[..i + 1])
  {
    assert names[..i + 1] == names[..i] + [names[i]];
  }

  /** The loop of `make_machine`: allocate each name in turn, stopping at
      the first one already taken. */
  method AllocateRegisters(m: Machine, names: seq<string>) returns (err: Option<VmError>)
    requires m.Valid()
    modifies m`registers
    ensures m.Valid() && |old(m.registers)| <= |m.registers| && m.registers[..|old(m.registers)|] == old(m.registers)
    ensures forall k | |old(m.registers)| <= k < |m.registers| :: fresh(m.registers[k])
    ensures err.None? <==> UniqueNames(old(m.Names()) + names)
    ensures err.Some? ==> err.value.DuplicateRegister? && err.value.name in names
    ensures err.None? ==> m.Names() == old(m.Names()) + names && AllNil(m.Contents()[|old(m.registers)|..])
  {
    ghost var pre := m.Names();
    ghost var n0 := |m.registers|;
    var i := 0;
    while i < |names|
      invariant 0 <= i <= |names| && m.Valid()
      invariant n0 <= |m.registers| && m.registers[..n0] == old(m.registers)
      invariant forall k | n0 <= k < |m.registers| :: fresh(m.registers[k])
      invariant m.Names() == pre + names[..i]
      invariant AllNil(m.Contents()[n0..])
    {
      var e := m.AllocateRegister(names[i]);
      if e.Some? {
        DuplicateFound(pre, names, i);
        return e;
      }
      NamesPrefixStep(pre, names, i);
      i := i + 1;
    }
    assert names[..i] == names;
    return None;
  }

  /** `make_machine`: a new machine, the named registers after `pc` and
      `flag`, then the ops.  A repeated name raises. */
  method MakeMachine(names: seq<string>, ops: map<string, OpKind>) returns (r: Result<Machine, VmError>)
    ensures r.Success? <==> UniqueNames(["pc", "flag"] + names)
    ensures r.Failure? ==> r.error.DuplicateRegister? && r.error.name in names
    ensures r.Success? ==>
      var m := r.value;
      fresh(m) && (forall k | 0 <= k < |m.registers| :: fresh(m.registers[k])) &&
      m.Valid() && m.Names() == ["pc", "flag"] + names &&
      |m.Contents()| == |names| + 2 && AllNil(m.Contents()) &&
      m.ops == ops && m.labelPointers == map[] && m.instructionSequence == [] && m.stack.stack == []
  {
    var m := new Machine();
    var err := AllocateRegisters(m, names);
    if err.Some? {
      return Failure(err.value);
    }
    m.InstallOperations(ops);
    return Success(m);
  }
}
